/**
 * The in-memory broker (broker/memory.go). Every topic is a growing log; a group
 * reads it in order through its own offset, may see a message again, and has
 * one member at work on it at a time.
 */
module Broker {
  import opened Messaging

  datatype GroupKey = GroupKey(topic: string, group: string)

  type Topics<B> = map<string, seq<Message<B>>>

  function LogOf<B>(topics: Topics<B>, topic: string): seq<Message<B>> {
    if topic in topics then topics[topic] else []
  }

  /** One pass of the delivery loop: what others publish first, and whether the handler succeeds. */
  datatype Round<B> = Round(published: seq<(string, seq<Message<B>>)>, handled: bool)

  /** The deliveries that follow from the acknowledgements: the message at the offset, again until acknowledged. */
  function Deliveries<B>(log: seq<Message<B>>, offset: nat, acks: seq<bool>): seq<Message<B>>
    decreases |acks|
  {
    if acks == [] || offset >= |log| then []
    else [log[offset]] + Deliveries(log, if acks[0] then offset + 1 else offset, acks[1..])
  }

  function Acknowledged(acks: seq<bool>): nat {
    if acks == [] then 0 else (if acks[0] then 1 else 0) + Acknowledged(acks[1..])
  }

  /** Those deliveries whose handler succeeded. */
  function Acked<B>(delivered: seq<Message<B>>, acks: seq<bool>): seq<Message<B>>
    requires |delivered| == |acks|
  {
    if acks == [] then []
    else (if acks[0] then [delivered[0]] else []) + Acked(delivered[1..], acks[1..])
  }

  /** No round delivers past the end of the log. */
  predicate InReach(length: nat, offset: nat, acks: seq<bool>)
    decreases |acks|
  {
    acks == [] || (offset < length && InReach(length, if acks[0] then offset + 1 else offset, acks[1..]))
  }

  /** A group acknowledges exactly the stretch of the log its offset moves over: in order, nothing skipped. */
  lemma {:induction false} AckedIsStretch<B>(log: seq<Message<B>>, offset: nat, acks: seq<bool>)
    requires offset <= |log| && InReach(|log|, offset, acks)
    ensures |Deliveries(log, offset, acks)| == |acks|
    ensures offset + Acknowledged(acks) <= |log|
    ensures Acked(Deliveries(log, offset, acks), acks) == log[offset..offset + Acknowledged(acks)]
    decreases |acks|
  {
    if acks != [] {
      var next := if acks[0] then offset + 1 else offset;
      AckedIsStretch(log, next, acks[1..]);
      var rest := Deliveries(log, next, acks[1..]);
      assert Deliveries(log, offset, acks) == [log[offset]] + rest;
      assert Deliveries(log, offset, acks)[1..] == rest;
      var n := Acknowledged(acks[1..]);
      if acks[0] {
        assert log[offset..offset + 1 + n] == [log[offset]] + log[next..next + n];
      }
    }
  }

  /** Every delivery is of the message behind those acknowledged before it, so one that failed comes again. */
  lemma {:induction false} DeliveryAt<B>(log: seq<Message<B>>, offset: nat, acks: seq<bool>, i: nat)
    requires InReach(|log|, offset, acks) && i < |acks|
    ensures i < |Deliveries(log, offset, acks)| && offset + Acknowledged(acks[..i]) < |log|
    ensures Deliveries(log, offset, acks)[i] == log[offset + Acknowledged(acks[..i])]
    decreases i
  {
    if i > 0 {
      assert acks[..i][1..] == acks[1..][..i - 1];
      DeliveryAt(log, if acks[0] then offset + 1 else offset, acks[1..], i - 1);
    }
  }

  lemma {:induction false} DeliveriesSnoc<B>(
    log: seq<Message<B>>, more: seq<Message<B>>, offset: nat, acks: seq<bool>, ack: bool)
    requires offset <= |log| && InReach(|log|, offset, acks)
    requires offset + Acknowledged(acks) < |log + more|
    ensures InReach(|log + more|, offset, acks + [ack])
    ensures Acknowledged(acks + [ack]) == Acknowledged(acks) + (if ack then 1 else 0)
    ensures Deliveries(log + more, offset, acks + [ack]) ==
      Deliveries(log, offset, acks) + [(log + more)[offset + Acknowledged(acks)]]
    decreases |acks|
  {
    if acks == [] {
      assert acks + [ack] == [ack];
    } else {
      var next := if acks[0] then offset + 1 else offset;
      assert (acks + [ack])[1..] == acks[1..] + [ack];
      DeliveriesSnoc(log, more, next, acks[1..], ack);
    }
  }

  lemma {:induction false} DeliveriesGrow<B>(log: seq<Message<B>>, more: seq<Message<B>>, offset: nat, acks: seq<bool>)
    requires InReach(|log|, offset, acks)
    ensures InReach(|log + more|, offset, acks)
    ensures Deliveries(log + more, offset, acks) == Deliveries(log, offset, acks)
    decreases |acks|
  {
    if acks != [] {
      DeliveriesGrow(log, more, if acks[0] then offset + 1 else offset, acks[1..]);
    }
  }

  /** Between two offsets a subscription delivered just what its acknowledgements imply. */
  ghost predicate Progress<B>(log: seq<Message<B>>, start: nat, now: nat, delivered: seq<Message<B>>, acks: seq<bool>) {
    && start <= now <= |log|
    && InReach(|log|, start, acks)
    && delivered == Deliveries(log, start, acks)
    && now == start + Acknowledged(acks)
  }

  lemma ProgressGrows<B>(
    log: seq<Message<B>>, longer: seq<Message<B>>, start: nat, now: nat, delivered: seq<Message<B>>, acks: seq<bool>)
    requires Progress(log, start, now, delivered, acks) && log <= longer
    ensures Progress(longer, start, now, delivered, acks)
  {
    assert longer == log + longer[|log|..];
    DeliveriesGrow(log, longer[|log|..], start, acks);
  }

  lemma ProgressSnoc<B>(
    log: seq<Message<B>>, start: nat, now: nat, delivered: seq<Message<B>>, acks: seq<bool>, ack: bool)
    requires Progress(log, start, now, delivered, acks) && now < |log|
    ensures Progress(log, start, if ack then now + 1 else now, delivered + [log[now]], acks + [ack])
  {
    assert log + [] == log;
    DeliveriesSnoc(log, [], start, acks, ack);
  }

  /** The topics after the first k publishes. */
  function AllPublished<B>(topics: Topics<B>, batches: seq<(string, seq<Message<B>>)>, k: nat): Topics<B>
    requires k <= |batches|
  {
    if k == 0 then topics
    else
      var before := AllPublished(topics, batches, k - 1);
      before[batches[k - 1].0 := LogOf(before, batches[k - 1].0) + batches[k - 1].1]
  }

  /** What those publishes say to one topic. */
  function SaidTo<B>(batches: seq<(string, seq<Message<B>>)>, topic: string, k: nat): seq<Message<B>>
    requires k <= |batches|
  {
    if k == 0 then []
    else SaidTo(batches, topic, k - 1) + (if batches[k - 1].0 == topic then batches[k - 1].1 else [])
  }

  /** Publishing is by topic: each gains its own messages, in order, at its end. */
  lemma {:induction false} PublishedTo<B>(
    topics: Topics<B>, batches: seq<(string, seq<Message<B>>)>, topic: string, k: nat)
    requires k <= |batches|
    ensures LogOf(AllPublished(topics, batches, k), topic) == LogOf(topics, topic) + SaidTo(batches, topic, k)
  {
    if k > 0 {
      PublishedTo(topics, batches, topic, k - 1);
      var (t, msgs) := batches[k - 1];
      assert LogOf(topics, topic) + SaidTo(batches, topic, k - 1) + msgs
        == LogOf(topics, topic) + (SaidTo(batches, topic, k - 1) + msgs);
    }
  }

  /**
   * The rounds of a subscription so far: while there are messages every round
   * delivers one, and the offset moves with every one that is handled.
   */
  ghost predicate Served<B>(script: seq<Round<B>>, k: nat, length: nat, start: nat, now: nat, acks: seq<bool>) {
    && k <= |script|
    && (start + k <= length ==> |acks| == k && forall i :: 0 <= i < k ==> acks[i] == script[i].handled)
    && now <= start + k
    && ((forall i :: 0 <= i < k ==> script[i].handled) ==> now >= start + k || now >= length)
  }

  /** The next round: with a message there it is delivered, and without one nothing happens. */
  lemma ServedNext<B>(
    script: seq<Round<B>>, k: nat, length: nat, now: nat, start: nat, offset: nat, acks: seq<bool>)
    requires Served(script, k, length, start, offset, acks) && k < |script| && length <= now
    ensures offset < now ==>
      Served(script, k + 1, length, start, if script[k].handled then offset + 1 else offset, acks + [script[k].handled])
    ensures offset >= now ==> Served(script, k + 1, length, start, offset, acks)
  {
  }

  class MemoryBroker<B> {
    var topics: Topics<B>
    var offsets: map<GroupKey, nat>
    var active: set<GroupKey>

    function Offset(key: GroupKey): nat
      reads this
    {
      if key in offsets then offsets[key] else 0
    }

    /** No group has acknowledged more than its topic holds. */
    ghost predicate Valid()
      reads this
    {
      forall key :: Offset(key) <= |LogOf(topics, key.topic)|
    }

    constructor ()
      ensures Valid() && topics == map[] && offsets == map[] && active == {}
    {
      topics, offsets, active := map[], map[], {};
    }

    method Publish(topic: string, msgs: seq<Message<B>>)
      requires Valid()
      modifies this`topics
      ensures Valid()
      ensures topics == old(topics)[topic := LogOf(old(topics), topic) + msgs]
    {
      topics := topics[topic := LogOf(topics, topic) + msgs];
    }

    /** Reads the message at the group's offset, hands it over, and advances only if it was handled. */
    method DeliverNext(key: GroupKey, handled: bool) returns (out: seq<Message<B>>)
      requires Valid()
      modifies this`offsets
      ensures Valid()
      ensures var log, o := LogOf(topics, key.topic), old(Offset(key));
        && out == (if o < |log| then [log[o]] else [])
        && offsets == (if o < |log| && handled then old(offsets)[key := o + 1] else old(offsets))
    {
      var offset := Offset(key);
      var log := LogOf(topics, key.topic);
      if offset >= |log| {
        return [];
      }
      out := [log[offset]];
      if handled {
        offsets := offsets[key := offset + 1];
      }
    }

    /**
     * Consumes until the script ends. A group that already has an active member
     * is refused, and then nothing changed. As long as the topic has messages every
     * round delivers one.
     */
    method Subscribe(topic: string, group: string, script: seq<Round<B>>)
      returns (delivered: seq<Message<B>>, acks: seq<bool>, joined: bool)
      requires Valid()
      modifies this
      ensures Valid()
      ensures joined <==> GroupKey(topic, group) !in old(active)
      ensures !joined ==> topics == old(topics) && offsets == old(offsets) && delivered == []
      ensures active == old(active)
      ensures forall t :: LogOf(old(topics), t) <= LogOf(topics, t)
      ensures joined ==>
        var key := GroupKey(topic, group);
        && Progress(LogOf(topics, topic), old(Offset(key)), Offset(key), delivered, acks)
        && Served(script, |script|, |LogOf(old(topics), topic)|, old(Offset(key)), Offset(key), acks)
        && (forall other :: other != key ==> Offset(other) == old(Offset(other)))
    {
      var key := GroupKey(topic, group);
      delivered, acks := [], [];
      if key in active {
        return delivered, acks, false;
      }
      active := active + {key};
      for i := 0 to |script|
        invariant Valid()
        invariant active == old(active) + {key}
        invariant forall t :: LogOf(old(topics), t) <= LogOf(topics, t)
        invariant Progress(LogOf(topics, topic), old(Offset(key)), Offset(key), delivered, acks)
        invariant Served(script, i, |LogOf(old(topics), topic)|, old(Offset(key)), Offset(key), acks)
        invariant forall other :: other != key ==> Offset(other) == old(Offset(other))
      {
        delivered, acks := Serve(key, script, i, old(Offset(key)), |LogOf(old(topics), topic)|, delivered, acks);
      }
      active := active - {key};
      joined := true;
    }

    /** One pass of the delivery loop. */
    method Serve(key: GroupKey, script: seq<Round<B>>, k: nat, ghost start: nat, ghost length: nat,
                 delivered: seq<Message<B>>, acks: seq<bool>)
      returns (delivered': seq<Message<B>>, acks': seq<bool>)
      requires Valid() && k < |script| && length <= |LogOf(topics, key.topic)|
      requires Progress(LogOf(topics, key.topic), start, Offset(key), delivered, acks)
      requires Served(script, k, length, start, Offset(key), acks)
      modifies this`topics, this`offsets
      ensures Valid() && forall t :: LogOf(old(topics), t) <= LogOf(topics, t)
      ensures Progress(LogOf(topics, key.topic), start, Offset(key), delivered', acks')
      ensures Served(script, k + 1, length, start, Offset(key), acks')
      ensures forall other :: other != key ==> Offset(other) == old(Offset(other))
    {
      delivered', acks' := delivered, acks;
      ghost var o := Offset(key);
      PublishEach(script[k].published);
      forall t ensures LogOf(old(topics), t) <= LogOf(topics, t) {
        PublishedTo(old(topics), script[k].published, t, |script[k].published|);
      }
      ghost var log := LogOf(topics, key.topic);
      ProgressGrows(LogOf(old(topics), key.topic), log, start, o, delivered, acks);
      ServedNext(script, k, length, |log|, start, o, acks);
      var out := DeliverNext(key, script[k].handled);
      if |out| > 0 {
        ProgressSnoc(log, start, o, delivered, acks, script[k].handled);
        delivered', acks' := delivered + out, acks + [script[k].handled];
      }
    }

    method PublishEach(batches: seq<(string, seq<Message<B>>)>)
      requires Valid()
      modifies this`topics
      ensures Valid()
      ensures topics == AllPublished(old(topics), batches, |batches|)
    {
      for i := 0 to |batches|
        invariant Valid() && topics == AllPublished(old(topics), batches, i)
      {
        Publish(batches[i].0, batches[i].1);
      }
    }
  }

  // ---- Why a group may have only one active member ----------------------

  /** A member reads the offset, runs the handler unlocked, and writes offset + 1 back. */
  datatype Member = Out | Idle | Handling(offset: nat)

  datatype Group<B> = Group(
    log: seq<Message<B>>, offset: nat, active: bool, members: map<nat, Member>, acked: seq<Message<B>>)

  function MemberOf<B>(g: Group<B>, i: nat): Member {
    if i in g.members then g.members[i] else Out
  }

  datatype GroupStep<B> =
    | Publishing(msgs: seq<Message<B>>)
    | Join(i: nat)
    | Read(i: nat)
    | Fail(i: nat)
    | Ack(i: nat)
    | Leave(i: nat)

  /**
   * One atomic step; `guarded` says whether Subscribe checks for an active
   * member. A step that is not enabled does nothing.
   */
  function GroupNext<B>(guarded: bool, g: Group<B>, step: GroupStep<B>): Group<B> {
    match step
    case Publishing(msgs) => g.(log := g.log + msgs)
    case Join(i) =>
      if MemberOf(g, i) == Out && !(guarded && g.active) then g.(active := true, members := g.members[i := Idle]) else g
    case Read(i) =>
      if MemberOf(g, i) == Idle && g.offset < |g.log| then g.(members := g.members[i := Handling(g.offset)]) else g
    case Fail(i) =>
      if MemberOf(g, i).Handling? then g.(members := g.members[i := Idle]) else g
    case Ack(i) =>
      if MemberOf(g, i).Handling? && MemberOf(g, i).offset < |g.log| then
        var o := MemberOf(g, i).offset;
        g.(offset := o + 1, acked := g.acked + [g.log[o]], members := g.members[i := Idle])
      else g
    case Leave(i) =>
      if MemberOf(g, i) != Out then g.(active := false, members := g.members[i := Out]) else g
  }

  function GroupRun<B>(guarded: bool, g: Group<B>, steps: seq<GroupStep<B>>): Group<B> {
    if steps == [] then g
    else GroupNext(guarded, GroupRun(guarded, g, steps[..|steps| - 1]), steps[|steps| - 1])
  }

  function NewGroup<B>(): Group<B> {
    Group([], 0, false, map[], [])
  }

  ghost predicate InOrder<B>(g: Group<B>) {
    && (forall i, j :: MemberOf(g, i) != Out && MemberOf(g, j) != Out ==> i == j)
    && (forall i :: MemberOf(g, i) != Out ==> g.active)
    && (forall i :: MemberOf(g, i).Handling? ==> MemberOf(g, i).offset == g.offset < |g.log|)
    && g.offset <= |g.log|
    && g.acked == g.log[..g.offset]
  }

  lemma GuardedStepInOrder<B>(g: Group<B>, step: GroupStep<B>)
    requires InOrder(g)
    ensures InOrder(GroupNext(true, g, step))
  {
    var g' := GroupNext(true, g, step);
    if g' != g && !step.Publishing? {
      assert forall j :: j != step.i ==> MemberOf(g', j) == MemberOf(g, j);
    }
    if step.Publishing? {
      assert forall j :: MemberOf(g', j) == MemberOf(g, j);
    }
  }

  /**
   * With the guard, in every interleaving of publishes, joins, reads, failures,
   * acknowledgements and departures, a group has acknowledged exactly the first
   * `offset` messages of its topic, each once and in order.
   */
  lemma {:induction false} GuardedGroupAcksInOrder<B>(steps: seq<GroupStep<B>>)
    ensures var g := GroupRun(true, NewGroup(), steps);
      InOrder(g) && g.acked == g.log[..g.offset]
  {
    if steps != [] {
      GuardedGroupAcksInOrder<B>(steps[..|steps| - 1]);
      GuardedStepInOrder(GroupRun(true, NewGroup(), steps[..|steps| - 1]), steps[|steps| - 1]);
    }
  }

  lemma GroupRunSnoc<B>(guarded: bool, steps: seq<GroupStep<B>>, step: GroupStep<B>)
    ensures GroupRun(guarded, NewGroup(), steps + [step]) ==
      GroupNext(guarded, GroupRun(guarded, NewGroup(), steps), step)
  {
    assert (steps + [step])[..|steps|] == steps;
  }

  /** The guard keeps nobody out for good: once the group has no active member, one that joins gets the next message. */
  lemma MemberServed<B>(steps: seq<GroupStep<B>>, i: nat)
    ensures var g := GroupRun(true, NewGroup(), steps);
      var g' := GroupRun(true, NewGroup(), steps + [Join(i)] + [Read(i)] + [Ack(i)] + [Leave(i)]);
      !g.active && g.offset < |g.log| ==>
        g'.acked == g.acked + [g.log[g.offset]] && g'.offset == g.offset + 1 && !g'.active
  {
    var joined := steps + [Join(i)];
    GuardedGroupAcksInOrder(steps);
    GroupRunSnoc(true, steps, Join(i));
    GroupRunSnoc(true, joined, Read(i));
    GroupRunSnoc(true, joined + [Read(i)], Ack(i));
    GroupRunSnoc(true, joined + [Read(i)] + [Ack(i)], Leave(i));
  }

  /** Without the guard a second member acknowledges a message again and moves the offset back. */
  lemma UnguardedGroupRepeats<B>(a: Message<B>, b: Message<B>)
    ensures exists steps ::
      var g := GroupRun(false, NewGroup(), steps);
      g.log == [a, b] && g.offset == 1 && g.acked == [a, b, a]
  {
    var s: seq<GroupStep<B>> := [];
    GroupRunSnoc(false, s, Publishing([a, b]));
    s := s + [Publishing([a, b])];
    GroupRunSnoc(false, s, Join(0));
    s := s + [Join(0)];
    GroupRunSnoc(false, s, Join(1));
    s := s + [Join(1)];
    GroupRunSnoc(false, s, Read(0));
    s := s + [Read(0)];
    GroupRunSnoc(false, s, Read(1));
    s := s + [Read(1)];
    GroupRunSnoc(false, s, Ack(0));
    s := s + [Ack(0)];
    assert GroupRun(false, NewGroup(), s) == Group([a, b], 1, true, map[0 := Idle, 1 := Handling(0)], [a]);
    GroupRunSnoc(false, s, Read(0));
    s := s + [Read(0)];
    GroupRunSnoc(false, s, Ack(0));
    s := s + [Ack(0)];
    GroupRunSnoc(false, s, Ack(1));
    s := s + [Ack(1)];
    assert GroupRun(false, NewGroup(), s).acked == [a, b, a];
  }
}
