/**
 * Nothing is ever stuck: from every reachable state of the fulfillment system
 * some continuation, without new orders, leads to a quiescent one. The relay of
 * a service that lags can catch up, the message a group is at can be delivered,
 * and both kinds of step bring the end nearer: a delivery plays one of the
 * finitely many beats left or uses up a message.
 */
module FulfillmentSettling {
  import opened Wrappers
  import opened EventStore
  import opened Messaging
  import opened Pipeline
  import opened Contracts
  import opened Topology
  import opened Script
  import opened FulfillmentSystem
  import opened FulfillmentInvariant
  import opened FulfillmentGrowth
  import opened FulfillmentSteps
  import opened FulfillmentWorkers
  import opened Fulfillment
  import opened FulfillmentOutcome
  import Projection

  // ---- Continuing from a state -----------------------------------------

  ghost function RunFrom(s: State, steps: seq<Step>): State {
    if steps == [] then s else Next(RunFrom(s, steps[..|steps| - 1]), steps[|steps| - 1])
  }

  lemma {:induction false} RunFromRun(steps: seq<Step>, more: seq<Step>)
    ensures Run(steps + more) == RunFrom(Run(steps), more)
  {
    if more == [] {
      assert steps + more == steps;
    } else {
      RunFromRun(steps, more[..|more| - 1]);
      assert (steps + more)[..|steps + more| - 1] == steps + more[..|more| - 1];
    }
  }

  lemma {:induction false} RunFromConcat(s: State, a: seq<Step>, b: seq<Step>)
    ensures RunFrom(s, a + b) == RunFrom(RunFrom(s, a), b)
  {
    if b == [] {
      assert a + b == a;
    } else {
      RunFromConcat(s, a, b[..|b| - 1]);
      assert (a + b)[..|a + b| - 1] == a + b[..|b| - 1];
    }
  }

  lemma RunFromSnoc(s: State, a: seq<Step>, step: Step)
    ensures RunFrom(s, a + [step]) == Next(RunFrom(s, a), step)
  {
    assert (a + [step])[..|a|] == a;
  }

  // ---- A relay catches up ----------------------------------------------

  ghost function NodeFrom(svc: Service, n: Node<Event, Contract>, steps: seq<NodeStep<Event>>): Node<Event, Contract> {
    NodeRun(RelayOf(svc), n, steps)
  }

  lemma NodeFromSnoc(svc: Service, n: Node<Event, Contract>, a: seq<NodeStep<Event>>, step: NodeStep<Event>)
    ensures NodeFrom(svc, n, a + [step]) == NodeNext(RelayOf(svc), NodeFrom(svc, n, a), step)
  {
    assert (a + [step])[..|a|] == a;
  }

  ghost predicate NoAppends(steps: seq<NodeStep<Event>>) {
    forall step :: step in steps ==> !step.Append?
  }

  /** Reading everything that is left opens a batch up to the store's end. */
  lemma NodeReads(svc: Service, n: Node<Event, Contract>) returns (steps: seq<NodeStep<Event>>)
    requires n.cp < |n.log|
    ensures NoAppends(steps)
    ensures var n' := NodeFrom(svc, n, steps);
      && n'.log == n.log && n'.cp == n.cp && n'.batch.Some? && n'.batch.value.end == |n.log|
  {
    steps := [NodeStep.Crash];
    NodeFromSnoc(svc, n, [], NodeStep.Crash);
    assert [] + [NodeStep.Crash] == steps;
    NodeFromSnoc(svc, n, steps, ReadBatch(|n.log|));
    steps := steps + [ReadBatch(|n.log|)];
  }

  /** Publishing the groups of a batch one after the other empties it. */
  lemma {:induction false} NodePublishes(svc: Service, n: Node<Event, Contract>, todo: nat)
    returns (steps: seq<NodeStep<Event>>)
    requires n.batch.Some? && n.cp <= n.batch.value.end <= |n.log| && |n.batch.value.todo| == todo
    ensures NoAppends(steps)
    ensures var n' := NodeFrom(svc, n, steps);
      && n'.log == n.log && n'.cp == n.cp && n'.batch.Some? && n'.batch.value.end == n.batch.value.end
      && n'.batch.value.todo == []
    decreases todo
  {
    if todo == 0 {
      steps := [];
    } else {
      var next := NodeNext(RelayOf(svc), n, PublishGroup);
      var rest := NodePublishes(svc, next, todo - 1);
      steps := [PublishGroup] + rest;
      NodeFromCons(svc, n, PublishGroup, rest);
    }
  }

  lemma {:induction false} NodeFromCons(
    svc: Service, n: Node<Event, Contract>, step: NodeStep<Event>, rest: seq<NodeStep<Event>>)
    ensures NodeFrom(svc, n, [step] + rest) == NodeFrom(svc, NodeNext(RelayOf(svc), n, step), rest)
  {
    var steps := [step] + rest;
    if rest == [] {
      NodeFromSnoc(svc, n, [], step);
      assert [] + [step] == steps;
    } else {
      NodeFromCons(svc, n, step, rest[..|rest| - 1]);
      assert steps[..|steps| - 1] == [step] + rest[..|rest| - 1];
    }
  }

  lemma {:induction false} NodeFromConcat(
    svc: Service, n: Node<Event, Contract>, a: seq<NodeStep<Event>>, b: seq<NodeStep<Event>>)
    ensures NodeFrom(svc, n, a + b) == NodeFrom(svc, NodeFrom(svc, n, a), b)
  {
    if b == [] {
      assert a + b == a;
    } else {
      NodeFromConcat(svc, n, a, b[..|b| - 1]);
      assert (a + b)[..|a + b| - 1] == a + b[..|b| - 1];
    }
  }

  lemma NodeCatchesUp(svc: Service, n: Node<Event, Contract>) returns (steps: seq<NodeStep<Event>>)
    requires n.cp < |n.log|
    ensures NoAppends(steps)
    ensures NodeFrom(svc, n, steps).log == n.log && NodeFrom(svc, n, steps).cp == |n.log|
  {
    var reading := NodeReads(svc, n);
    var read := NodeFrom(svc, n, reading);
    var publishing := NodePublishes(svc, read, |read.batch.value.todo|);
    NodeFromConcat(svc, n, reading, publishing);
    NodeFromSnoc(svc, n, reading + publishing, Advance);
    steps := reading + publishing + [Advance];
  }

  function Relayed(svc: Service, steps: seq<NodeStep<Event>>): (rs: seq<Step>)
    ensures |rs| == |steps|
    ensures forall k :: 0 <= k < |rs| ==> rs[k] == Relaying(svc, steps[k])
  {
    seq(|steps|, k requires 0 <= k < |steps| => Relaying(svc, steps[k]))
  }

  /** What is not a node does not change while one relays. */
  ghost predicate OnlyNode(s: State, s': State, svc: Service) {
    && s' == s.(nodes := s'.nodes)
    && (forall t :: t != svc ==> NodeOf(s', t) == NodeOf(s, t))
  }

  lemma {:induction false} RelaySteps(s: State, svc: Service, steps: seq<NodeStep<Event>>)
    requires NoAppends(steps)
    ensures var s' := RunFrom(s, Relayed(svc, steps));
      OnlyNode(s, s', svc) && NodeOf(s', svc) == NodeFrom(svc, NodeOf(s, svc), steps)
  {
    if steps != [] {
      var init, last := steps[..|steps| - 1], steps[|steps| - 1];
      RelaySteps(s, svc, init);
      assert last in steps;
      assert Relayed(svc, steps)[..|steps| - 1] == Relayed(svc, init);
      OneNode(RunFrom(s, Relayed(svc, init)), svc, last);
    }
  }

  /** A lagging relay catches up; stores, groups, inbox and view are as before. */
  lemma RelayCatchesUp(s: State, svc: Service) returns (more: seq<Step>)
    requires NodeOf(s, svc).cp < |StoreOf(s, svc)|
    ensures var s' := RunFrom(s, more);
      && OnlyNode(s, s', svc)
      && (forall t :: StoreOf(s', t) == StoreOf(s, t))
      && NodeOf(s', svc).cp == |StoreOf(s, svc)|
  {
    var steps := NodeCatchesUp(svc, NodeOf(s, svc));
    RelaySteps(s, svc, steps);
    more := Relayed(svc, steps);
  }

  // ---- A message is delivered ------------------------------------------

  ghost predicate SameRelays(s: State, s': State) {
    forall svc :: NodeOf(s', svc).cp == NodeOf(s, svc).cp && NodeOf(s', svc).topics == NodeOf(s, svc).topics
  }

  /** Either no store changed, or exactly one order came one beat further. */
  ghost predicate OneBeatAtMost(s: State, s': State) {
    || (forall svc :: StoreOf(s', svc) == StoreOf(s, svc))
    || (exists id :: BeatOf(s, s', id))
  }

  ghost predicate BeatOf(s: State, s': State, id: string) {
    && IsPlaced(s, id) && Phase(s, id) < 7
    && Phase(s', id) == Phase(s, id) + 1
    && (forall x :: x != id ==> Phase(s', x) == Phase(s, x))
    && (forall x :: OrderHistory(s', x) == OrderHistory(s, x))
  }

  /**
   * A worker's hold on the message its group is at: what it will append, if
   * anything, was decided on the stream as it is.
   */
  ghost predicate Holds(s: State, link: Link, work: Work) {
    && work.link == link && work.at == SubOf(s, link).offset
    && (!work.effected ==>
          && !link.ToInbox? && WorkInv(s, work)
          && |History(s, HomeOf(link), TargetOf(link, work.msg).value)| == work.version)
  }

  lemma HandedHolds(s: State, link: Link, m: Message<Contract>)
    requires var h := Handed(s, link, SubOf(s, link).offset, m); h.Some? && WorkInv(s, h.value) && !link.ToInbox?
    ensures Holds(s, link, Handed(s, link, SubOf(s, link).offset, m).value)
  {
  }

  lemma BeginTakes(s: State, w: nat, link: Link)
    requires Wired(link) && SubOf(s, link).offset < |TopicLog(s, link)|
    requires var at := SubOf(s, link).offset; Handed(s, link, at, TopicLog(s, link)[at]).Some?
    ensures var at := SubOf(s, link).offset; var work := Handed(s, link, at, TopicLog(s, link)[at]).value;
      var s' := Next(s, Begin(w, link, at));
      && s' == s.(work := s.work[w := work], inbox := s'.inbox)
      && (!link.ToInbox? ==> s'.inbox == s.inbox)
  {
  }

  lemma InboxWork(s: State, link: Link, at: nat, m: Message<Contract>)
    requires link.ToInbox?
    ensures Handed(s, link, at, m) == Some(Work(link, at, m, 0, [], true))
  {
  }

  /** A worker takes the message its group is at. */
  lemma Taken(s: State, taken: State, w: nat, link: Link) returns (work: Work)
    requires StoresInv(s) && MarksInv(s) && Wired(link) && SubOf(s, link).offset < |TopicLog(s, link)|
    requires taken == Next(s, Begin(w, link, SubOf(s, link).offset))
    ensures Holds(s, link, work)
    ensures taken == s.(work := s.work[w := work], inbox := taken.inbox) && (!link.ToInbox? ==> taken.inbox == s.inbox)
  {
    var at := SubOf(s, link).offset;
    var m := TopicLog(s, link)[at];
    if link.ToInbox? {
      InboxWork(s, link, at, m);
    } else {
      HandedOver(s, link, at);
      HandedHolds(s, link, m);
    }
    BeginTakes(s, w, link);
    work := Handed(s, link, at, m).value;
  }

  lemma PhaseElsewhere(s: State, s': State, svc: Service, id: string, version: nat, es: seq<Event>, x: string)
    requires AppendedTo(s, s', svc, StreamID(ActorCategory(svc), id), version, es) && x != id
    ensures Phase(s', x) == Phase(s, x)
  {
    forall t ensures ActorHistory(s', t, x) == ActorHistory(s, t, x) {
      OtherOrderRests(s, s', svc, id, version, es, x, t);
    }
    ActorStreams(s, x);
    ActorStreams(s', x);
  }

  /** An append that was decided on the stream as it is plays one beat. */
  lemma AppendPlays(s: State, work: Work) returns (id: string)
    requires StoresInv(s) && WorkInv(s, work) && !work.effected && !work.link.ToInbox?
    requires |History(s, HomeOf(work.link), TargetOf(work.link, work.msg).value)| == work.version
    ensures BeatOf(s, FulfillmentSystem.Appended(s, work), id)
  {
    var stream, home := TargetOf(work.link, work.msg).value, HomeOf(work.link);
    var s' := FulfillmentSystem.Appended(s, work);
    var o, k := NextBeat(s, work);
    CategoriesDiffer();
    AppendEffect(s, home, stream, work.version, work.events);
    assert OnScript(s, o.id);
    Played(s, s', o, k, work.version, work.events);
    forall x ensures OrderHistory(s', x) == OrderHistory(s, x) {
      OrdersRest(s, s', home, o.id, work.version, work.events, x);
    }
    forall x | x != o.id ensures Phase(s', x) == Phase(s, x) {
      PhaseElsewhere(s, s', home, o.id, work.version, work.events, x);
    }
    id := o.id;
  }

  lemma AppendRests(s: State, work: Work)
    requires TargetOf(work.link, work.msg).Some?
    ensures var s' := FulfillmentSystem.Appended(s, work);
      s' == s.(nodes := s'.nodes) && SameRelays(s, s')
  {
    OneNode(s, HomeOf(work.link), Appending(TargetOf(work.link, work.msg).value, work.version, work.events));
  }

  /** Committing the taken message's append, if there is one to make. */
  lemma Settled(s: State, work: Work) returns (mid: State)
    requires StoresInv(s) && 0 in s.work && s.work[0] == work
    requires !work.effected ==>
      && !work.link.ToInbox? && WorkInv(s, work)
      && |History(s, HomeOf(work.link), TargetOf(work.link, work.msg).value)| == work.version
    ensures mid == Next(s, Commit(0)) && mid == s.(nodes := mid.nodes, work := mid.work)
    ensures 0 in mid.work && mid.work[0] == work.(effected := true)
    ensures SameRelays(s, mid) && OneBeatAtMost(s, mid)
  {
    mid := Next(s, Commit(0));
    if !work.effected {
      CommitCases(s, 0);
      AppendRests(s, work);
      var id := AppendPlays(s, work);
      assert BeatOf(s, FulfillmentSystem.Appended(s, work), id);
      assert mid.nodes == FulfillmentSystem.Appended(s, work).nodes;
      SameNodes(FulfillmentSystem.Appended(s, work), mid, s);
    }
  }

  /** Beats and relays are a matter of the nodes alone. */
  lemma SameNodes(a: State, b: State, s: State)
    requires a.nodes == b.nodes
    ensures SameRelays(s, a) ==> SameRelays(s, b)
    ensures OneBeatAtMost(s, a) ==> OneBeatAtMost(s, b)
  {
    assert forall svc :: NodeOf(b, svc) == NodeOf(a, svc);
    if id :| BeatOf(s, a, id) {
      assert forall x :: Phase(b, x) == Phase(a, x) && OrderHistory(b, x) == OrderHistory(a, x);
      assert BeatOf(s, b, id);
    }
  }

  lemma FourSteps(s: State, a: Step, b: Step, c: Step, d: Step)
    ensures RunFrom(s, [a, b, c, d]) == Next(Next(Next(Next(s, a), b), c), d)
  {
    RunFromSnoc(s, [], a);
    assert [] + [a] == [a];
    RunFromSnoc(s, [a], b);
    assert [a] + [b] == [a, b];
    RunFromSnoc(s, [a, b], c);
    assert [a, b] + [c] == [a, b, c];
    RunFromSnoc(s, [a, b, c], d);
    assert [a, b, c] + [d] == [a, b, c, d];
  }

  /** The group's offset moves past a message whose effect has been taken. */
  lemma Passed(s: State, link: Link, work: Work) returns (s': State)
    requires Wired(link) && 0 in s.work && s.work[0] == work && work.effected
    requires work.link == link && work.at == SubOf(s, link).offset
    ensures s' == Next(Next(s, Finish(0)), FulfillmentSystem.Acknowledge(link))
    ensures s'.nodes == s.nodes && s'.inbox == s.inbox && s'.view == s.view
    ensures SubOf(s', link).offset == SubOf(s, link).offset + 1
    ensures forall other :: other != link ==> SubOf(s', other).offset == SubOf(s, other).offset
  {
    s' := Next(Next(s, Finish(0)), FulfillmentSystem.Acknowledge(link));
  }

  /** A worker that holds the message its group is at commits, finishes, and moves the offset on. */
  lemma HeldPasses(s: State, taken: State, link: Link, work: Work) returns (s': State)
    requires StoresInv(taken) && Wired(link) && Holds(s, link, work)
    requires taken == s.(work := s.work[0 := work], inbox := taken.inbox) && (!link.ToInbox? ==> taken.inbox == s.inbox)
    ensures s' == Next(Next(Next(taken, Commit(0)), Finish(0)), FulfillmentSystem.Acknowledge(link))
    ensures SameRelays(s, s') && OneBeatAtMost(s, s')
    ensures SubOf(s', link).offset == SubOf(s, link).offset + 1
    ensures forall other :: other != link ==> SubOf(s', other).offset == SubOf(s, other).offset
  {
    if !work.effected {
      TakenWork(s, taken, work);
    }
    var settled := Settled(taken, work);
    s' := Passed(settled, link, work.(effected := true));
    SameNodes(settled, s', taken);
    FromTaken(s, taken, s');
  }

  /** Delivering the message a group is at moves its offset on and plays at most one beat. */
  lemma Delivers(s: State, link: Link) returns (more: seq<Step>)
    requires Inv(s) && Wired(link) && SubOf(s, link).offset < |TopicLog(s, link)|
    ensures var s' := RunFrom(s, more);
      && SameRelays(s, s') && OneBeatAtMost(s, s')
      && SubOf(s', link).offset == SubOf(s, link).offset + 1
      && (forall other :: other != link ==> SubOf(s', other).offset == SubOf(s, other).offset)
  {
    var at := SubOf(s, link).offset;
    var taken := Next(s, Begin(0, link, at));
    NextKeeps(s, Begin(0, link, at));
    var work := Taken(s, taken, 0, link);
    var s' := HeldPasses(s, taken, link, work);
    more := [Begin(0, link, at), Commit(0), Finish(0), FulfillmentSystem.Acknowledge(link)];
    FourSteps(s, more[0], more[1], more[2], more[3]);
  }

  lemma TakenWork(s: State, taken: State, work: Work)
    requires taken == s.(work := taken.work, inbox := taken.inbox) && s.inbox <= taken.inbox
    requires WorkInv(s, work)
    ensures WorkInv(taken, work)
  {
    WorkGrows(s, taken, work);
  }

  lemma FromTaken(s: State, taken: State, s': State)
    requires taken.nodes == s.nodes && SameRelays(taken, s') && OneBeatAtMost(taken, s')
    ensures SameRelays(s, s') && OneBeatAtMost(s, s')
  {
    assert forall svc :: NodeOf(taken, svc) == NodeOf(s, svc);
    if id :| BeatOf(taken, s', id) {
      assert forall x :: Phase(taken, x) == Phase(s, x) && OrderHistory(taken, x) == OrderHistory(s, x);
      assert BeatOf(s, s', id);
    }
  }

  // ---- The runners catch up --------------------------------------------

  function RunnerFrom(length: nat, r: Projection.Runner, steps: seq<Projection.RunnerStep>): Projection.Runner {
    if steps == [] then r
    else Projection.RunnerNext(length, RunnerFrom(length, r, steps[..|steps| - 1]), steps[|steps| - 1])
  }

  lemma RunnerFromSnoc(length: nat, r: Projection.Runner, a: seq<Projection.RunnerStep>, step: Projection.RunnerStep)
    ensures RunnerFrom(length, r, a + [step]) == Projection.RunnerNext(length, RunnerFrom(length, r, a), step)
  {
    assert (a + [step])[..|a|] == a;
  }

  /** Handling k items of a batch after some steps. */
  lemma {:induction false} RunnerHandles(length: nat, r: Projection.Runner, before: seq<Projection.RunnerStep>, k: nat)
    returns (steps: seq<Projection.RunnerStep>)
    requires RunnerFrom(length, r, before).pos + k <= RunnerFrom(length, r, before).end
    ensures var b := RunnerFrom(length, r, before); RunnerFrom(length, r, steps) == b.(pos := b.pos + k)
  {
    if k == 0 {
      steps := before;
    } else {
      steps := RunnerHandles(length, r, before, k - 1);
      RunnerFromSnoc(length, r, steps, Projection.ApplyNext);
      steps := steps + [Projection.ApplyNext];
    }
  }

  /** Restarting at the checkpoint and reading everything that is left. */
  lemma RunnerReads(length: nat, r: Projection.Runner) returns (steps: seq<Projection.RunnerStep>)
    requires r.cp < length
    ensures RunnerFrom(length, r, steps) == Projection.Runner(r.cp, r.cp, r.cp, length)
  {
    steps := [Projection.Crash];
    RunnerFromSnoc(length, r, [], Projection.Crash);
    assert [] + [Projection.Crash] == steps;
    RunnerFromSnoc(length, r, steps, Projection.ReadBatch(length));
    steps := steps + [Projection.ReadBatch(length)];
  }

  lemma RunnerCatchesUp(length: nat, r: Projection.Runner) returns (steps: seq<Projection.RunnerStep>)
    requires r.cp <= length
    ensures RunnerFrom(length, r, steps).cp == length
  {
    if r.cp == length {
      steps := [];
    } else {
      var reading := RunnerReads(length, r);
      var handling := RunnerHandles(length, r, reading, length - r.cp);
      RunnerFromSnoc(length, r, handling, Projection.SetCheckpoint);
      steps := handling + [Projection.SetCheckpoint];
    }
  }

  function OnStores(steps: seq<Projection.RunnerStep>): (ps: seq<Step>)
    ensures |ps| == |steps| && forall k :: 0 <= k < |ps| ==> ps[k] == Project(Projection.OnStore(steps[k]))
  {
    seq(|steps|, k requires 0 <= k < |steps| => Project(Projection.OnStore(steps[k])))
  }

  function OnInboxes(steps: seq<Projection.RunnerStep>): (ps: seq<Step>)
    ensures |ps| == |steps| && forall k :: 0 <= k < |ps| ==> ps[k] == Project(Projection.OnInbox(steps[k]))
  {
    seq(|steps|, k requires 0 <= k < |steps| => Project(Projection.OnInbox(steps[k])))
  }

  lemma {:induction false} StoreRunnerSteps(s: State, steps: seq<Projection.RunnerStep>)
    ensures var s' := RunFrom(s, OnStores(steps));
      && s' == s.(view := s'.view) && s'.view.foreign == s.view.foreign
      && s'.view.own == RunnerFrom(|StoreOf(s, OrderService)|, s.view.own, steps)
  {
    if steps != [] {
      StoreRunnerSteps(s, steps[..|steps| - 1]);
      assert OnStores(steps)[..|steps| - 1] == OnStores(steps[..|steps| - 1]);
    }
  }

  lemma {:induction false} InboxRunnerSteps(s: State, steps: seq<Projection.RunnerStep>)
    ensures var s' := RunFrom(s, OnInboxes(steps));
      && s' == s.(view := s'.view) && s'.view.own == s.view.own
      && s'.view.foreign == RunnerFrom(|s.inbox|, s.view.foreign, steps)
  {
    if steps != [] {
      InboxRunnerSteps(s, steps[..|steps| - 1]);
      assert OnInboxes(steps)[..|steps| - 1] == OnInboxes(steps[..|steps| - 1]);
    }
  }

  /** Both runners catch up; nothing else changes. */
  lemma ViewCatchesUp(s: State) returns (more: seq<Step>)
    requires s.view.own.cp <= |StoreOf(s, OrderService)| && s.view.foreign.cp <= |s.inbox|
    ensures var s' := RunFrom(s, more);
      s' == s.(view := s'.view) && s'.view.own.cp == |StoreOf(s, OrderService)| && s'.view.foreign.cp == |s.inbox|
  {
    var own := RunnerCatchesUp(|StoreOf(s, OrderService)|, s.view.own);
    var foreign := RunnerCatchesUp(|s.inbox|, s.view.foreign);
    StoreRunnerSteps(s, own);
    InboxRunnerSteps(RunFrom(s, OnStores(own)), foreign);
    RunFromConcat(s, OnStores(own), OnInboxes(foreign));
    more := OnStores(own) + OnInboxes(foreign);
  }

  // ---- What is left to do ----------------------------------------------

  function Gap(a: nat, b: nat): nat { if a < b then b - a else 0 }

  /** The beats that these orders have not played. */
  ghost function Remaining(s: State, ids: set<string>): set<(string, nat)> {
    set id, j: nat | id in ids && j < 7 && Phase(s, id) <= j :: (id, j)
  }

  function LagOf(s: State, svc: Service): nat { Gap(NodeOf(s, svc).cp, |StoreOf(s, svc)|) }

  function Sum<X>(f: X -> nat, xs: seq<X>): nat {
    if xs == [] then 0 else Sum(f, xs[..|xs| - 1]) + f(xs[|xs| - 1])
  }

  lemma {:induction false} SumLess<X>(f: X -> nat, g: X -> nat, xs: seq<X>, x: X)
    requires (forall y :: y in xs ==> f(y) <= g(y)) && f(x) < g(x)
    ensures Sum(f, xs) <= Sum(g, xs)
    ensures x in xs ==> Sum(f, xs) < Sum(g, xs)
  {
    if xs != [] {
      assert xs == xs[..|xs| - 1] + [xs[|xs| - 1]];
      SumLess(f, g, xs[..|xs| - 1], x);
    }
  }

  lemma {:induction false} SumSame<X>(f: X -> nat, g: X -> nat, xs: seq<X>)
    requires forall y :: y in xs ==> f(y) == g(y)
    ensures Sum(f, xs) == Sum(g, xs)
  {
    if xs != [] {
      assert xs == xs[..|xs| - 1] + [xs[|xs| - 1]];
      SumSame(f, g, xs[..|xs| - 1]);
    }
  }

  const SERVICES := [OrderService, PaymentService, StockService, ShippingService]

  lemma AllServices(svc: Service)
    ensures svc in SERVICES
  {
    assert SERVICES[Ordinal(svc)] == svc;
  }

  /** The records the relays have not passed. */
  function Lag(s: State): nat { Sum((svc: Service) => LagOf(s, svc), SERVICES) }

  function Behind(s: State, link: Link): nat { Gap(SubOf(s, link).offset, |TopicLog(s, link)|) }

  const LINKS: seq<Link> := [
    ToSaga(OrderService), ToSaga(PaymentService), ToSaga(StockService), ToSaga(ShippingService),
    ToService(PaymentService), ToService(StockService), ToService(ShippingService),
    ToInbox(PaymentService), ToInbox(StockService), ToInbox(ShippingService)]

  function Ordinal(svc: Service): nat {
    match svc
    case OrderService => 0
    case PaymentService => 1
    case StockService => 2
    case ShippingService => 3
  }

  /** The group's place among the ten. */
  function PlaceOf(link: Link): nat {
    match link
    case ToSaga(svc) => Ordinal(svc)
    case ToService(svc) => 3 + Ordinal(svc)
    case ToInbox(svc) => 6 + Ordinal(svc)
  }

  lemma AllWired(link: Link)
    requires Wired(link)
    ensures link in LINKS && PlaceOf(link) < |LINKS| && LINKS[PlaceOf(link)] == link
  {
    assert LINKS[PlaceOf(link)] == link;
  }

  /** The messages the groups have not passed. */
  function Undelivered(s: State): nat { Sum((link: Link) => Behind(s, link), LINKS) }

  /** A relay or a group has something in front of it. */
  ghost predicate SomethingWaits(s: State) {
    (exists svc :: RelayWaits(s, svc)) || (exists link :: GroupWaits(s, link))
  }

  ghost predicate RelayWaits(s: State, svc: Service) { NodeOf(s, svc).cp < |StoreOf(s, svc)| }

  ghost predicate GroupWaits(s: State, link: Link) {
    Wired(link) && SubOf(s, link).offset < |TopicLog(s, link)|
  }

  /** All placed orders are among these. */
  ghost predicate PlacedAmong(s: State, ids: set<string>) {
    forall id :: IsPlaced(s, id) ==> id in ids
  }

  lemma SamePhases(s: State, s': State, ids: set<string>)
    requires forall svc :: StoreOf(s', svc) == StoreOf(s, svc)
    ensures Remaining(s', ids) == Remaining(s, ids)
    ensures forall id :: OrderHistory(s', id) == OrderHistory(s, id)
  {
    assert forall id :: Phase(s', id) == Phase(s, id);
  }

  lemma {:induction false} FewerThan<X>(a: set<X>, b: set<X>)
    requires a < b
    ensures |a| < |b|
  {
    var x :| x in b && x !in a;
    if a == {} {
      assert |b| > 0;
    } else {
      var y :| y in a;
      assert x in b - {y} && x !in a - {y};
      FewerThan(a - {y}, b - {y});
    }
  }

  lemma BeatLeavesLess(s: State, s': State, ids: set<string>, id: string)
    requires BeatOf(s, s', id) && id in ids
    ensures |Remaining(s', ids)| < |Remaining(s, ids)|
  {
    var beat := (id, Phase(s, id));
    assert beat in Remaining(s, ids) && beat !in Remaining(s', ids);
    forall x | x in Remaining(s', ids) ensures x in Remaining(s, ids) {
      assert Phase(s, x.0) <= Phase(s', x.0);
    }
    FewerThan(Remaining(s', ids), Remaining(s, ids));
  }

  lemma RelayLeavesLess(s: State, s': State, svc: Service)
    requires OnlyNode(s, s', svc) && (forall t :: StoreOf(s', t) == StoreOf(s, t))
    requires NodeOf(s, svc).cp < |StoreOf(s, svc)| && NodeOf(s', svc).cp == |StoreOf(s, svc)|
    ensures Lag(s') < Lag(s)
  {
    assert LagOf(s', svc) == 0 < LagOf(s, svc);
    assert forall t :: t != svc ==> LagOf(s', t) == LagOf(s, t);
    AllServices(svc);
    SumLess((t: Service) => LagOf(s', t), (t: Service) => LagOf(s, t), SERVICES, svc);
  }

  lemma DeliveryLeavesLess(s: State, s': State, link: Link)
    requires GroupWaits(s, link) && SameRelays(s, s')
    requires SubOf(s', link).offset == SubOf(s, link).offset + 1
    requires forall other :: other != link ==> SubOf(s', other).offset == SubOf(s, other).offset
    ensures Undelivered(s') < Undelivered(s)
  {
    forall other ensures TopicLog(s', other) == TopicLog(s, other) {
      assert NodeOf(s', SenderOf(other)).topics == NodeOf(s, SenderOf(other)).topics;
    }
    AllWired(link);
    SumLess((other: Link) => Behind(s', other), (other: Link) => Behind(s, other), LINKS, link);
  }

  lemma SameLag(s: State, s': State)
    requires SameRelays(s, s') && forall svc :: StoreOf(s', svc) == StoreOf(s, svc)
    ensures Lag(s') == Lag(s)
  {
    assert forall svc :: LagOf(s', svc) == LagOf(s, svc);
    SumSame((svc: Service) => LagOf(s', svc), (svc: Service) => LagOf(s, svc), SERVICES);
  }

  // ---- The end is always within reach ----------------------------------

  /** Orders are as they were; nobody was placed or notified on the way. */
  ghost predicate SameOrders(s: State, s': State) {
    forall id :: OrderHistory(s', id) == OrderHistory(s, id)
  }

  lemma StillPlaced(s: State, s': State, ids: set<string>)
    requires SameOrders(s, s') && PlacedAmong(s, ids)
    ensures PlacedAmong(s', ids)
  {
    assert forall id :: IsPlaced(s', id) ==> IsPlaced(s, id);
  }

  ghost predicate Bounded(s: State) {
    && (forall svc :: NodeOf(s, svc).cp <= |StoreOf(s, svc)|)
    && (forall link :: Wired(link) ==> SubOf(s, link).offset <= |TopicLog(s, link)|)
    && s.view.own.cp <= |StoreOf(s, OrderService)| && s.view.foreign.cp <= |s.inbox|
  }

  lemma CaughtUpBounds(s: State)
    requires Inv(s)
    ensures Bounded(s)
  {
    forall svc ensures NodeOf(s, svc).cp <= |StoreOf(s, svc)| {
      assert NodeInv(RelayOf(svc), NodeOf(s, svc));
    }
    forall link | Wired(link) ensures SubOf(s, link).offset <= |TopicLog(s, link)| {
      assert SubInv(s, link);
    }
  }

  /** Less is left to do: fewer beats, or as many with less to relay, or that much too with less to deliver. */
  ghost predicate Less(s': State, s: State, ids: set<string>) {
    || |Remaining(s', ids)| < |Remaining(s, ids)|
    || (|Remaining(s', ids)| == |Remaining(s, ids)| && Lag(s') < Lag(s))
    || (|Remaining(s', ids)| == |Remaining(s, ids)| && Lag(s') == Lag(s)
       && Undelivered(s') < Undelivered(s))
  }

  lemma RelayNearer(s: State, ids: set<string>, svc: Service) returns (first: seq<Step>)
    requires RelayWaits(s, svc)
    ensures Less(RunFrom(s, first), s, ids) && SameOrders(s, RunFrom(s, first))
  {
    first := RelayCatchesUp(s, svc);
    SamePhases(s, RunFrom(s, first), ids);
    RelayLeavesLess(s, RunFrom(s, first), svc);
  }

  lemma DeliveryNearer(s: State, ids: set<string>, link: Link) returns (first: seq<Step>)
    requires Inv(s) && PlacedAmong(s, ids) && GroupWaits(s, link)
    ensures Less(RunFrom(s, first), s, ids) && SameOrders(s, RunFrom(s, first))
  {
    first := Delivers(s, link);
    DeliveredLess(s, RunFrom(s, first), ids, link);
  }

  lemma DeliveredLess(s: State, s': State, ids: set<string>, link: Link)
    requires PlacedAmong(s, ids) && GroupWaits(s, link)
    requires SameRelays(s, s') && OneBeatAtMost(s, s')
    requires SubOf(s', link).offset == SubOf(s, link).offset + 1
    requires forall other :: other != link ==> SubOf(s', other).offset == SubOf(s, other).offset
    ensures Less(s', s, ids) && SameOrders(s, s')
  {
    if forall svc :: StoreOf(s', svc) == StoreOf(s, svc) {
      SamePhases(s, s', ids);
      SameLag(s, s');
      DeliveryLeavesLess(s, s', link);
    } else {
      var id :| BeatOf(s, s', id);
      BeatLeavesLess(s, s', ids, id);
    }
  }

  /** Everything is quiet, and orders are as they were. */
  ghost predicate SettledFrom(s: State, s': State) { Quiescent(s') && SameOrders(s, s') }

  ghost predicate Settling(s: State) { exists more :: SettledFrom(s, RunFrom(s, more)) }

  lemma Composed(s: State, first: seq<Step>, s': State)
    requires s' == RunFrom(s, first) && SameOrders(s, s') && Settling(s')
    ensures Settling(s)
  {
    var rest :| SettledFrom(s', RunFrom(s', rest));
    RunFromConcat(s, first, rest);
    assert SettledFrom(s, RunFrom(s, first + rest));
  }

  ghost predicate Reachable(s: State) { exists steps :: s == Run(steps) }

  lemma ReachableKeeps(s: State, first: seq<Step>)
    requires Reachable(s)
    ensures Inv(s) && Reachable(RunFrom(s, first))
  {
    var steps :| s == Run(steps);
    RunKeeps(steps);
    RunFromRun(steps, first);
  }

  lemma {:induction false} Settles(s: State, ids: set<string>, beats: nat, lag: nat, undelivered: nat)
    requires Reachable(s) && PlacedAmong(s, ids)
    requires beats == |Remaining(s, ids)| && lag == Lag(s) && undelivered == Undelivered(s)
    ensures Settling(s)
    decreases beats, lag, undelivered
  {
    if SomethingWaits(s) {
      var first, s' := Nearer(s, ids);
      Settles(s', ids, |Remaining(s', ids)|, Lag(s'), Undelivered(s'));
      Composed(s, first, s');
    } else {
      Rests(s);
    }
  }

  /** One step of that: something that waits is seen to. */
  lemma Nearer(s: State, ids: set<string>) returns (first: seq<Step>, s': State)
    requires Reachable(s) && PlacedAmong(s, ids) && SomethingWaits(s)
    ensures s' == RunFrom(s, first) && Less(s', s, ids) && SameOrders(s, s')
    ensures Reachable(s') && PlacedAmong(s', ids)
  {
    if svc :| RelayWaits(s, svc) {
      first := RelayNearer(s, ids, svc);
    } else {
      var link :| GroupWaits(s, link);
      ReachableKeeps(s, []);
      first := DeliveryNearer(s, ids, link);
    }
    s' := RunFrom(s, first);
    ReachableKeeps(s, first);
    StillPlaced(s, s', ids);
  }

  /** Once nothing waits, only the projection is left to catch up. */
  lemma Rests(s: State)
    requires Reachable(s) && !SomethingWaits(s)
    ensures Settling(s)
  {
    ReachableKeeps(s, []);
    CaughtUpBounds(s);
    var more := ViewCatchesUp(s);
    NothingWaits(s, RunFrom(s, more));
  }

  lemma NothingWaits(s: State, s': State)
    requires !SomethingWaits(s) && Bounded(s) && s' == s.(view := s'.view)
    requires s'.view.own.cp == |StoreOf(s, OrderService)| && s'.view.foreign.cp == |s.inbox|
    ensures SettledFrom(s, s')
  {
    forall svc ensures NodeOf(s', svc).cp == |StoreOf(s', svc)| {
      assert !RelayWaits(s, svc);
    }
    forall link | Wired(link) ensures SubOf(s', link).offset == |TopicLog(s', link)| {
      assert !GroupWaits(s, link);
    }
  }

  lemma PlacedIDs(s: State) returns (ids: set<string>)
    ensures PlacedAmong(s, ids)
  {
    ids := set r | r in StoreOf(s, OrderService) :: r.stream.id;
    forall id | IsPlaced(s, id) ensures id in ids {
      var r := PlacementStored(s, id);
      assert r in StoreOf(s, OrderService) && r.stream.id == id;
    }
  }

  /** From every reachable state some continuation, without new orders, leads to a quiescent one. */
  lemma CanSettle(steps: seq<Step>)
    ensures exists more :: SettledFrom(Run(steps), Run(steps + more))
  {
    var s := Run(steps);
    var ids := PlacedIDs(s);
    Settles(s, ids, |Remaining(s, ids)|, Lag(s), Undelivered(s));
    var more :| SettledFrom(s, RunFrom(s, more));
    RunFromRun(steps, more);
    assert SettledFrom(Run(steps), Run(steps + more));
  }

  /** Hence every order that can be placed does meet its fate in some run: all three outcomes are reached. */
  lemma FateReached(o: Order)
    requires Placeable(o)
    ensures exists steps :: FateMet(Run(steps), o)
  {
    PlacedFirst(o);
    assert OrderIn([PlacedBy(o)]) == o;
    FateAfter([Place(o)], o.id);
  }

  lemma FateAfter(placed: seq<Step>, id: string)
    requires IsPlaced(Run(placed), id)
    ensures exists steps :: FateMet(Run(steps), OrderOf(Run(placed), id))
  {
    CanSettle(placed);
    var more :| SettledFrom(Run(placed), Run(placed + more));
    RunKeeps(placed + more);
    FateKept(Run(placed), Run(placed + more), id);
  }

  /** Nothing is left to do, the order has played its whole script, and its row says so. */
  ghost predicate FateMet(s: State, o: Order) {
    && Quiescent(s) && IsPlaced(s, o.id) && OrderOf(s, o.id) == o && At(s, o.id, o, Length(o))
    && o.id in s.view.table.rows && s.view.table.rows[o.id].status == FinalStatus(o)
  }

  lemma FateOfPlaced(s: State, o: Order)
    requires Inv(s) && Quiescent(s) && IsPlaced(s, o.id) && o == OrderOf(s, o.id)
    ensures FateMet(s, o)
  {
    ScriptComplete(s, o.id);
    FinalRow(s, o);
  }

  lemma FateKept(s: State, s': State, id: string)
    requires IsPlaced(s, id) && SameOrders(s, s') && Inv(s') && Quiescent(s')
    ensures FateMet(s', OrderOf(s, id))
  {
    assert OrderHistory(s', id) == OrderHistory(s, id);
    assert OrderOf(s, id).id == id && OrderOf(s', id) == OrderOf(s, id);
    FateOfPlaced(s', OrderOf(s, id));
  }

  lemma PlacedFirst(o: Order)
    requires Placeable(o)
    ensures OrderHistory(Run([Place(o)]), o.id) == [PlacedBy(o)]
  {
    assert [Place(o)][..0] == [];
    StartStores();
    CategoriesDiffer();
    var stream := StreamID(ORDER_CATEGORY, o.id);
    AppendEffect(START, OrderService, stream, 0, [PlacedBy(o)]);
    assert History(START, OrderService, stream) == [];
  }
}
