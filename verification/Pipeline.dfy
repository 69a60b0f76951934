/**
 * The durable hand-off as a step system: a service's store and relay, one
 * subscribed group, and the inbox it fills (relay/relay.go, broker/memory.go,
 * projection/inbox.go). A crash may come between any two effects, publishes may
 * fail after delivering a part, batches may be cut anywhere.
 */
module Pipeline {
  import opened Wrappers
  import opened EventStore
  import opened Messaging
  import opened Broker
  import opened RelayFeed
  import opened Inbox

  /** A batch in the relay's memory: the store up to `end`, and the topics still to publish. */
  datatype Batch = Batch(end: nat, todo: seq<string>)

  /** A service: its store, its relay's durable checkpoint and batch in flight, and the topics it feeds. */
  datatype Node<P, B> = Node(log: Log<P>, cp: nat, batch: Option<Batch>, topics: Topics<B>)

  function NewNode<P, B>(): Node<P, B> { Node([], 0, None, map[]) }

  datatype NodeStep<P> =
    | Append(op: Op<P>)
    | ReadBatch(size: nat)
    | PublishPart(k: nat)
    | PublishGroup
    | Advance
    | Crash

  /** One atomic step; a step that is not enabled does nothing. */
  ghost function NodeNext<P, B>(tr: Translation<P, B>, n: Node<P, B>, step: NodeStep<P>): Node<P, B> {
    match step
    case Append(op) =>
      if '/' in op.stream.category then n
      else n.(log := TryAppend(n.log, op.stream, op.expected, op.events).0)
    case ReadBatch(size) =>
      var end := if n.cp + size < |n.log| then n.cp + size else |n.log|;
      if n.batch.Some? || end <= n.cp || !Translatable(tr, n.log[n.cp..end]) then n
      else n.(batch := Some(Batch(end, Destinations(tr, n.log[n.cp..end]))))
    case PublishPart(k) =>
      if n.batch.None? || n.batch.value.todo == [] || !(n.cp <= n.batch.value.end <= |n.log|) then n
      else
        var group := Feed(tr, n.log[n.cp..n.batch.value.end], n.batch.value.todo[0]);
        Published(n, group[..if k < |group| then k else |group|])
    case PublishGroup =>
      if n.batch.None? || n.batch.value.todo == [] || !(n.cp <= n.batch.value.end <= |n.log|) then n
      else
        var group := Feed(tr, n.log[n.cp..n.batch.value.end], n.batch.value.todo[0]);
        Published(n, group).(batch := Some(n.batch.value.(todo := n.batch.value.todo[1..])))
    case Advance =>
      if n.batch.None? || n.batch.value.todo != [] then n
      else n.(cp := n.batch.value.end, batch := None)
    case Crash => n.(batch := None)
  }

  /** The topic at the head of the batch gains some messages. */
  function Published<P, B>(n: Node<P, B>, msgs: seq<Message<B>>): Node<P, B>
    requires n.batch.Some? && n.batch.value.todo != []
  {
    var t := n.batch.value.todo[0];
    n.(topics := n.topics[t := LogOf(n.topics, t) + msgs])
  }

  ghost predicate NodeInv<P, B>(tr: Translation<P, B>, n: Node<P, B>) {
    && WellFormed(n.log) && PlainCategories(n.log)
    && n.cp <= |n.log|
    && (forall t :: Covers(tr, n.log, t, LogOf(n.topics, t), n.cp))
    && (n.batch.Some? ==> BatchInv(tr, n, n.batch.value))
  }

  /** Topics no longer to publish already cover the batch. */
  ghost predicate BatchInv<P, B>(tr: Translation<P, B>, n: Node<P, B>, b: Batch) {
    && n.cp <= b.end <= |n.log|
    && (forall t :: t !in b.todo ==> Covers(tr, n.log, t, LogOf(n.topics, t), b.end))
  }

  lemma AppendKeeps<P, B>(tr: Translation<P, B>, n: Node<P, B>, op: Op<P>)
    requires NodeInv(tr, n) && '/' !in op.stream.category
    ensures NodeInv(tr, NodeNext(tr, n, Append(op)))
  {
    var after := TryAppend(n.log, op.stream, op.expected, op.events).0;
    TryAppendLaw(n.log, op.stream, op.expected, op.events);
    AppendPlain(n.log, op);
    forall t ensures Covers(tr, after, t, LogOf(n.topics, t), n.cp) {
      CoversGrows(tr, n.log, after, t, LogOf(n.topics, t), n.cp);
    }
    if n.batch.Some? {
      forall t | t !in n.batch.value.todo ensures Covers(tr, after, t, LogOf(n.topics, t), n.batch.value.end) {
        CoversGrows(tr, n.log, after, t, LogOf(n.topics, t), n.batch.value.end);
      }
    }
  }

  /** Before anything is published, every topic the batch is silent on already covers it. */
  lemma FreshBatch<P, B>(tr: Translation<P, B>, n: Node<P, B>, end: nat)
    requires NodeInv(tr, n) && n.cp <= end <= |n.log|
    ensures BatchInv(tr, n, Batch(end, Destinations(tr, n.log[n.cp..end])))
  {
    var recs := n.log[n.cp..end];
    DestinationsLaw(tr, recs);
    forall t | t !in Destinations(tr, recs) ensures Covers(tr, n.log, t, LogOf(n.topics, t), end) {
      assert Covers(tr, n.log, t, LogOf(n.topics, t), n.cp);
      CoversSilent(tr, n.log, t, LogOf(n.topics, t), n.cp, end);
    }
  }

  lemma WithBatch<P, B>(tr: Translation<P, B>, n: Node<P, B>, b: Batch)
    requires NodeInv(tr, n) && BatchInv(tr, n, b)
    ensures NodeInv(tr, n.(batch := Some(b)))
  {
  }

  lemma ReadBatchKeeps<P, B>(tr: Translation<P, B>, n: Node<P, B>, size: nat)
    requires NodeInv(tr, n)
    ensures NodeInv(tr, NodeNext(tr, n, ReadBatch(size)))
  {
    var end := if n.cp + size < |n.log| then n.cp + size else |n.log|;
    var b := Batch(end, Destinations(tr, n.log[n.cp..end]));
    FreshBatch(tr, n, end);
    WithBatch(tr, n, b);
    assert NodeNext(tr, n, ReadBatch(size)) == n || NodeNext(tr, n, ReadBatch(size)) == n.(batch := Some(b));
  }

  /** Publishing part or all of the head group, from any batch, keeps every topic covered. */
  lemma PublishKeeps<P(!new), B>(tr: Translation<P, B>, n: Node<P, B>, sent: nat)
    requires NodeInv(tr, n) && IdentifiedByPosition(tr)
    requires n.batch.Some? && n.batch.value.todo != []
    requires sent <= |Feed(tr, n.log[n.cp..n.batch.value.end], n.batch.value.todo[0])|
    ensures var group := Feed(tr, n.log[n.cp..n.batch.value.end], n.batch.value.todo[0]);
      var n' := Published(n, group[..sent]);
      NodeInv(tr, n') && (sent == |group| ==>
        NodeInv(tr, n'.(batch := Some(n.batch.value.(todo := n.batch.value.todo[1..])))))
  {
    var b := n.batch.value;
    var t0 := b.todo[0];
    var group := Feed(tr, n.log[n.cp..b.end], t0);
    var n' := Published(n, group[..sent]);
    assert Covers(tr, n.log, t0, LogOf(n.topics, t0), n.cp);
    PublishCovers(tr, n.log, t0, LogOf(n.topics, t0), n.cp, b.end, sent);
    forall t ensures Covers(tr, n.log, t, LogOf(n'.topics, t), n.cp) {
      assert Covers(tr, n.log, t, LogOf(n.topics, t), n.cp);
    }
    forall t | t !in b.todo ensures Covers(tr, n.log, t, LogOf(n'.topics, t), b.end) {
      assert t != t0;
      assert Covers(tr, n.log, t, LogOf(n.topics, t), b.end);
    }
    if sent == |group| {
      assert group[..sent] == group;
      forall t | t !in b.todo[1..] ensures Covers(tr, n.log, t, LogOf(n'.topics, t), b.end) {
        assert t == t0 || t !in b.todo;
      }
    }
  }

  lemma NodeNextKeeps<P(!new), B>(tr: Translation<P, B>, n: Node<P, B>, step: NodeStep<P>)
    requires NodeInv(tr, n) && IdentifiedByPosition(tr)
    ensures NodeInv(tr, NodeNext(tr, n, step))
  {
    match step {
      case Append(op) =>
        if '/' !in op.stream.category {
          AppendKeeps(tr, n, op);
        }
      case ReadBatch(size) =>
        ReadBatchKeeps(tr, n, size);
      case PublishPart(k) =>
        if n.batch.Some? && n.batch.value.todo != [] {
          var group := Feed(tr, n.log[n.cp..n.batch.value.end], n.batch.value.todo[0]);
          PublishKeeps(tr, n, if k < |group| then k else |group|);
        }
      case PublishGroup =>
        if n.batch.Some? && n.batch.value.todo != [] {
          var group := Feed(tr, n.log[n.cp..n.batch.value.end], n.batch.value.todo[0]);
          PublishKeeps(tr, n, |group|);
          assert group[..|group|] == group;
        }
      case _ =>
    }
  }

  ghost function NodeRun<P, B>(tr: Translation<P, B>, n: Node<P, B>, steps: seq<NodeStep<P>>): Node<P, B> {
    if steps == [] then n else NodeNext(tr, NodeRun(tr, n, steps[..|steps| - 1]), steps[|steps| - 1])
  }

  lemma {:induction false} NodeRunKeeps<P(!new), B>(tr: Translation<P, B>, n: Node<P, B>, steps: seq<NodeStep<P>>)
    requires IdentifiedByPosition(tr) && NodeInv(tr, n)
    ensures NodeInv(tr, NodeRun(tr, n, steps))
  {
    if steps != [] {
      NodeRunKeeps(tr, n, steps[..|steps| - 1]);
      NodeNextKeeps(tr, NodeRun(tr, n, steps[..|steps| - 1]), steps[|steps| - 1]);
    }
  }

  lemma NewNodeInv<P, B>(tr: Translation<P, B>)
    ensures NodeInv(tr, NewNode<P, B>())
  {
    forall t ensures Covers(tr, [], t, LogOf<B>(map[], t), 0) {
      assert SaysFirst(LogOf<B>(map[], t), Feed(tr, [], t), 0);
    }
  }

  /**
   * Relay topics. After any run, with crashes between the publishes of different
   * topics and batches cut anew after a restart, each topic's log with later
   * duplicates removed is a prefix of what the store says to the topic, without
   * gap or reordering, and everything up to the checkpoint has been published.
   */
  lemma TopicsFaithful<P(!new), B>(tr: Translation<P, B>, steps: seq<NodeStep<P>>)
    requires IdentifiedByPosition(tr)
    ensures var n := NodeRun(tr, NewNode<P, B>(), steps);
      && n.cp <= |n.log|
      && (forall t :: Dedup(LogOf(n.topics, t)) <= Feed(tr, n.log, t))
      && (forall t :: Feed(tr, n.log[..n.cp], t) <= Dedup(LogOf(n.topics, t)))
  {
    NewNodeInv<P, B>(tr);
    NodeRunKeeps(tr, NewNode<P, B>(), steps);
    var n := NodeRun(tr, NewNode<P, B>(), steps);
    forall t
      ensures Dedup(LogOf(n.topics, t)) <= Feed(tr, n.log, t) && Feed(tr, n.log[..n.cp], t) <= Dedup(LogOf(n.topics, t))
    {
      assert Covers(tr, n.log, t, LogOf(n.topics, t), n.cp);
      FeedStretch(tr, n.log, t, n.cp, |n.log|);
    }
  }

  /** Steps only ever add to the store and to the topics. */
  lemma NodeNextGrows<P, B>(tr: Translation<P, B>, n: Node<P, B>, step: NodeStep<P>)
    ensures n.log <= NodeNext(tr, n, step).log
    ensures forall t :: LogOf(n.topics, t) <= LogOf(NodeNext(tr, n, step).topics, t)
    ensures step.Append? || n.log == NodeNext(tr, n, step).log
  {
    if step.Append? {
      TryAppendLaw(n.log, step.op.stream, step.op.expected, step.op.events);
    }
  }

  // ---- The group and its inbox -----------------------------------------

  /** `stored` says that the message at the offset was handled since it was last delivered. */
  datatype Pipe<P, B> = Pipe(node: Node<P, B>, offset: nat, stored: bool, inbox: seq<Message<B>>)

  datatype PipeStep<P, B> =
    | AtNode(step: NodeStep<P>)
    | Deliver
    | Acknowledge
    | Restart
    | FromElsewhere(m: Message<B>)

  /** `mine` recognizes the IDs of this service's messages; other services fill the same inbox. */
  ghost function PipeNext<P, B>(
    tr: Translation<P, B>, topic: string, mine: string -> bool, p: Pipe<P, B>, step: PipeStep<P, B>): Pipe<P, B>
  {
    var log := LogOf(p.node.topics, topic);
    match step
    case AtNode(s) => p.(node := NodeNext(tr, p.node, s))
    case Deliver =>
      if p.offset < |log| then p.(inbox := Received(p.inbox, log[p.offset]), stored := true) else p
    case Acknowledge => if p.stored then p.(offset := p.offset + 1, stored := false) else p
    case Restart => p.(stored := false)
    case FromElsewhere(m) => if mine(m.id) then p else p.(inbox := Received(p.inbox, m))
  }

  ghost function PipeRun<P, B>(
    tr: Translation<P, B>, topic: string, mine: string -> bool, steps: seq<PipeStep<P, B>>): Pipe<P, B>
  {
    if steps == [] then Pipe(NewNode(), 0, false, [])
    else PipeNext(tr, topic, mine, PipeRun(tr, topic, mine, steps[..|steps| - 1]), steps[|steps| - 1])
  }

  /** The inbox restricted to this service's messages. */
  function Own<B>(mine: string -> bool, ms: seq<Message<B>>): seq<Message<B>> {
    if ms == [] then []
    else
      var before := Own(mine, ms[..|ms| - 1]);
      if mine(ms[|ms| - 1].id) then before + [ms[|ms| - 1]] else before
  }

  lemma {:induction false} OwnKnows<B>(mine: string -> bool, ms: seq<Message<B>>, id: string)
    requires mine(id)
    ensures Known(Own(mine, ms), id) <==> Known(ms, id)
  {
    if ms != [] {
      var init, last := ms[..|ms| - 1], ms[|ms| - 1];
      OwnKnows(mine, init, id);
      assert ms == init + [last];
      assert last in ms && last in Own(mine, init) + [last];
      assert forall m :: m in Own(mine, init) ==> m in Own(mine, init) + [last];
    }
  }

  lemma OwnReceived<B>(mine: string -> bool, ms: seq<Message<B>>, m: Message<B>)
    ensures Own(mine, Received(ms, m)) == if mine(m.id) then Received(Own(mine, ms), m) else Own(mine, ms)
  {
    if mine(m.id) {
      OwnKnows(mine, ms, m.id);
    }
    assert (ms + [m])[..|ms|] == ms;
  }

  /** The inbox holds the first h messages of the topic, h being the offset or one past it. */
  ghost predicate Holds<P, B>(topic: string, mine: string -> bool, p: Pipe<P, B>, h: nat) {
    && p.offset <= h <= p.offset + 1
    && h <= |LogOf(p.node.topics, topic)|
    && (p.stored ==> h == p.offset + 1)
    && Own(mine, p.inbox) == Dedup(LogOf(p.node.topics, topic)[..h])
  }

  ghost predicate PipeInv<P, B>(tr: Translation<P, B>, topic: string, mine: string -> bool, p: Pipe<P, B>) {
    NodeInv(tr, p.node) && exists h :: Holds(topic, mine, p, h)
  }

  ghost predicate Recognized<P(!new), B>(tr: Translation<P, B>, mine: string -> bool) {
    forall rec {:trigger tr(rec)} :: tr(rec).Ok? && tr(rec).value.Some? ==> mine(tr(rec).value.value.msg.id)
  }

  lemma TopicIsMine<P(!new), B>(tr: Translation<P, B>, topic: string, mine: string -> bool, n: Node<P, B>)
    requires NodeInv(tr, n) && Recognized(tr, mine)
    ensures forall m :: m in LogOf(n.topics, topic) ==> mine(m.id)
  {
    assert Covers(tr, n.log, topic, LogOf(n.topics, topic), n.cp);
    CoversMembers(tr, n.log, topic, LogOf(n.topics, topic), n.cp);
  }

  lemma DeliverHolds<P(!new), B>(tr: Translation<P, B>, topic: string, mine: string -> bool, p: Pipe<P, B>, h: nat)
    requires NodeInv(tr, p.node) && Recognized(tr, mine) && Holds(topic, mine, p, h)
    requires p.offset < |LogOf(p.node.topics, topic)|
    ensures Holds(topic, mine, PipeNext(tr, topic, mine, p, Deliver), p.offset + 1)
  {
    var log := LogOf(p.node.topics, topic);
    TopicIsMine(tr, topic, mine, p.node);
    OwnReceived(mine, p.inbox, log[p.offset]);
    ReceivedAgain(log, p.offset, h);
  }

  lemma AtNodeHolds<P(!new), B>(
    tr: Translation<P, B>, topic: string, mine: string -> bool, p: Pipe<P, B>, step: NodeStep<P>, h: nat)
    requires Holds(topic, mine, p, h)
    ensures Holds(topic, mine, PipeNext(tr, topic, mine, p, AtNode(step)), h)
  {
    NodeNextGrows(tr, p.node, step);
    var log, log' := LogOf(p.node.topics, topic), LogOf(NodeNext(tr, p.node, step).topics, topic);
    assert log'[..h] == log[..h];
  }

  lemma PipeNextKeeps<P(!new), B>(
    tr: Translation<P, B>, topic: string, mine: string -> bool, p: Pipe<P, B>, step: PipeStep<P, B>)
    requires PipeInv(tr, topic, mine, p) && IdentifiedByPosition(tr) && Recognized(tr, mine)
    ensures PipeInv(tr, topic, mine, PipeNext(tr, topic, mine, p, step))
  {
    var h: nat :| Holds(topic, mine, p, h);
    var p' := PipeNext(tr, topic, mine, p, step);
    match step {
      case AtNode(s) =>
        NodeNextKeeps(tr, p.node, s);
        AtNodeHolds(tr, topic, mine, p, s, h);
      case Deliver =>
        if p.offset < |LogOf(p.node.topics, topic)| {
          DeliverHolds(tr, topic, mine, p, h);
        }
      case FromElsewhere(m) =>
        OwnReceived(mine, p.inbox, m);
        assert Holds(topic, mine, p', h);
      case _ =>
        assert Holds(topic, mine, p', h);
    }
  }

  lemma {:induction false} PipeRunKeeps<P(!new), B>(
    tr: Translation<P, B>, topic: string, mine: string -> bool, steps: seq<PipeStep<P, B>>)
    requires IdentifiedByPosition(tr) && Recognized(tr, mine)
    ensures PipeInv(tr, topic, mine, PipeRun(tr, topic, mine, steps))
  {
    if steps == [] {
      NewNodeInv(tr);
      var p: Pipe<P, B> := Pipe(NewNode(), 0, false, []);
      assert Holds(topic, mine, p, 0);
    } else {
      PipeRunKeeps(tr, topic, mine, steps[..|steps| - 1]);
      PipeNextKeeps(tr, topic, mine, PipeRun(tr, topic, mine, steps[..|steps| - 1]), steps[|steps| - 1]);
    }
  }

  /**
   * The effectively-once pipeline. After any run, with crashes, partial and
   * repeated publishes, redeliveries and other services' messages in between,
   * the inbox restricted to one service's topic is an in-order, duplicate-free
   * prefix of what that service's store says to the topic; and once the relay
   * and the group have caught up it is all of it.
   */
  lemma EffectivelyOnce<P(!new), B>(
    tr: Translation<P, B>, topic: string, mine: string -> bool, steps: seq<PipeStep<P, B>>)
    requires IdentifiedByPosition(tr) && Recognized(tr, mine)
    ensures var p := PipeRun(tr, topic, mine, steps);
      && Own(mine, p.inbox) <= Feed(tr, p.node.log, topic)
      && DistinctIDs(Own(mine, p.inbox))
      && (p.node.cp == |p.node.log| && p.offset == |LogOf(p.node.topics, topic)| ==>
            Own(mine, p.inbox) == Feed(tr, p.node.log, topic))
  {
    PipeRunKeeps(tr, topic, mine, steps);
    var p := PipeRun(tr, topic, mine, steps);
    var log, feed := LogOf(p.node.topics, topic), Feed(tr, p.node.log, topic);
    var h: nat :| Holds(topic, mine, p, h);
    assert Covers(tr, p.node.log, topic, log, p.node.cp);
    var k: nat :| |Feed(tr, p.node.log[..p.node.cp], topic)| <= k && SaysFirst(log, feed, k);
    ReadPrefix(log, feed, k, h);
    if p.node.cp == |p.node.log| {
      assert p.node.log[..p.node.cp] == p.node.log;
    }
  }
  lemma PipeRunSnoc<P, B>(
    tr: Translation<P, B>, topic: string, mine: string -> bool, steps: seq<PipeStep<P, B>>, step: PipeStep<P, B>)
    ensures PipeRun(tr, topic, mine, steps + [step]) == PipeNext(tr, topic, mine, PipeRun(tr, topic, mine, steps), step)
  {
    assert (steps + [step])[..|steps|] == steps;
  }

  /** The group gets on: delivering and acknowledging takes the next message in and moves the offset behind it. */
  lemma DeliveryAdvances<P, B>(
    tr: Translation<P, B>, topic: string, mine: string -> bool, steps: seq<PipeStep<P, B>>)
    ensures var p := PipeRun(tr, topic, mine, steps); var log := LogOf(p.node.topics, topic);
      var p' := PipeRun(tr, topic, mine, steps + [Deliver] + [Acknowledge]);
      p.offset < |log| ==> p'.offset == p.offset + 1 && p'.node == p.node && Known(p'.inbox, log[p.offset].id)
  {
    PipeRunSnoc(tr, topic, mine, steps, Deliver);
    PipeRunSnoc(tr, topic, mine, steps + [Deliver], Acknowledge);
    var p := PipeRun(tr, topic, mine, steps);
    if p.offset < |LogOf(p.node.topics, topic)| {
      ReceivedKnows(p.inbox, LogOf(p.node.topics, topic)[p.offset]);
    }
  }
}
