/**
 * The system gets there by itself. In an infinite run in which, from some point
 * on, nobody places orders or notifies and nothing fails, and in which no chore
 * that stays due is put off for ever, a quiescent state is reached.
 */
module FulfillmentFairness {
  import opened Wrappers
  import opened EventStore
  import opened Pipeline
  import opened Contracts
  import opened Topology
  import opened Script
  import opened FulfillmentSystem
  import opened FulfillmentInvariant
  import opened FulfillmentGrowth
  import opened FulfillmentWorkers
  import opened Fulfillment
  import opened FulfillmentSettling
  import Projection

  // ---- Infinite runs ---------------------------------------------------

  /** An infinite run: the states it goes through, and the step it makes in each. */
  type States = nat -> State
  type Steps = nat -> Step

  ghost predicate IsRun(states: States, steps: Steps) {
    states(0) == START && forall n: nat {:trigger StepAt(states, steps, n)} :: StepAt(states, steps, n)
  }

  ghost predicate StepAt(states: States, steps: Steps, n: nat) { states(n + 1) == Next(states(n), steps(n)) }

  /** The member of a group that is at work; each group has its own. */
  function WorkerOf(link: Link): nat { PlaceOf(link) }

  /** The runner has applied and checked off all it read. */
  predicate Idle(r: Projection.Runner) { r.pos == r.end == r.cursor }

  /**
   * A step that is neither a new order or notification nor a failure. A group's
   * member takes the message its group is at, when it is done with the last one.
   */
  predicate Calm(s: State, step: Step) {
    match step
    case Relaying(_, ns) => ns.ReadBatch? || ns.PublishGroup? || ns.Advance?
    case Begin(w, link, at) =>
      Wired(link) && w == WorkerOf(link) && w !in s.work && at == SubOf(s, link).offset && !SubOf(s, link).done
    case Commit(_) => true
    case Finish(_) => true
    case Acknowledge(_) => true
    case Project(OnStore(rs)) => rs.ReadBatch? || rs.ApplyNext? || rs.SetCheckpoint?
    case Project(OnInbox(rs)) => rs.ReadBatch? || rs.ApplyNext? || rs.SetCheckpoint?
    case _ => false
  }

  // ---- Chores ----------------------------------------------------------

  datatype Chore =
    | Reading(svc: Service)
    | Publishing(svc: Service)
    | Advancing(svc: Service)
    | Taking(link: Link)
    | Committing(link: Link)
    | Finishing(link: Link)
    | Acknowledging(link: Link)
    | Viewing(inbox: bool, rs: Projection.RunnerStep)

  /** The step does the chore. */
  predicate Does(s: State, step: Step, chore: Chore) {
    match chore
    case Reading(svc) => step.Relaying? && step.svc == svc && step.nodeStep.ReadBatch? && step.nodeStep.size > 0
    case Publishing(svc) => step == Relaying(svc, PublishGroup)
    case Advancing(svc) => step == Relaying(svc, Advance)
    case Taking(link) => step == Begin(WorkerOf(link), link, SubOf(s, link).offset)
    case Committing(link) => step == FulfillmentSystem.Commit(WorkerOf(link))
    case Finishing(link) => step == FulfillmentSystem.Finish(WorkerOf(link))
    case Acknowledging(link) => step == FulfillmentSystem.Acknowledge(link)
    case Viewing(inbox, rs) =>
      step.Project? && RunnerStepOf(step.viewStep, inbox).Some? && Alike(RunnerStepOf(step.viewStep, inbox).value, rs)
  }

  function RunnerStepOf(vs: Projection.ViewStep, inbox: bool): Option<Projection.RunnerStep> {
    match vs
    case OnStore(rs) => if inbox then None else Some(rs)
    case OnInbox(rs) => if inbox then Some(rs) else None
    case Rebuild => None
  }

  /** Reading a batch of any positive size is the same chore. */
  predicate Alike(rs: Projection.RunnerStep, other: Projection.RunnerStep) {
    if other.ReadBatch? then rs.ReadBatch? && rs.size > 0 else rs == other
  }

  /** There is something for the chore to do. */
  predicate Due(s: State, chore: Chore) {
    match chore
    case Reading(svc) => NodeOf(s, svc).batch.None? && NodeOf(s, svc).cp < |StoreOf(s, svc)|
    case Publishing(svc) => NodeOf(s, svc).batch.Some? && NodeOf(s, svc).batch.value.todo != []
    case Advancing(svc) => NodeOf(s, svc).batch.Some? && NodeOf(s, svc).batch.value.todo == []
    case Taking(link) =>
      && Wired(link) && !SubOf(s, link).done && WorkerOf(link) !in s.work
      && SubOf(s, link).offset < |TopicLog(s, link)|
    case Committing(link) =>
      Wired(link) && !SubOf(s, link).done && WorkerOf(link) in s.work && !s.work[WorkerOf(link)].effected
    case Finishing(link) =>
      Wired(link) && !SubOf(s, link).done && WorkerOf(link) in s.work && s.work[WorkerOf(link)].effected
    case Acknowledging(link) => Wired(link) && SubOf(s, link).done
    case Viewing(inbox, rs) =>
      if inbox then RunnerDue(s.view.foreign, |s.inbox|, rs)
      else RunnerDue(s.view.own, |StoreOf(s, OrderService)|, rs)
  }

  predicate RunnerDue(r: Projection.Runner, length: nat, rs: Projection.RunnerStep) {
    match rs
    case ReadBatch(_) => Idle(r) && r.cursor < length
    case ApplyNext => r.pos < r.end
    case SetCheckpoint => r.pos == r.end > r.cursor
    case _ => false
  }

  // ---- What is left to do, step by step ----------------------------------

  /** Whether what a worker decided is still up to date. */
  predicate Current(s: State, work: Work) {
    && !work.effected && TargetOf(work.link, work.msg).Some?
    && |History(s, HomeOf(work.link), TargetOf(work.link, work.msg).value)| == work.version
  }

  /** How far the group's member is from being done with the message its group is at. */
  function Stage(s: State, link: Link): nat {
    if SubOf(s, link).done then 0
    else if WorkerOf(link) !in s.work then 3
    else
      var work := s.work[WorkerOf(link)];
      if work.link == link && work.at == SubOf(s, link).offset && work.effected then 1
      else if work.link == link && work.at == SubOf(s, link).offset && Current(s, work) then 2
      else 4
  }

  function Resting(s: State, svc: Service): nat { if NodeOf(s, svc).batch.None? then 1 else 0 }

  function ToPublish(s: State, svc: Service): nat {
    if NodeOf(s, svc).batch.None? then 0 else |NodeOf(s, svc).batch.value.todo|
  }

  function IdleCount(r: Projection.Runner): nat { if Idle(r) then 1 else 0 }

  datatype Measure = Measure(
    beats: nat, lag: nat, resting: nat, toPublish: nat, undelivered: nat,
    stages: nat, behind: nat, idle: nat, unhandled: nat)

  function AllResting(s: State): nat { Sum((svc: Service) => Resting(s, svc), SERVICES) }

  function AllToPublish(s: State): nat { Sum((svc: Service) => ToPublish(s, svc), SERVICES) }

  function AllStages(s: State): nat { Sum((link: Link) => Stage(s, link), LINKS) }

  function ViewBehind(s: State): nat {
    Gap(s.view.own.cp, |StoreOf(s, OrderService)|) + Gap(s.view.foreign.cp, |s.inbox|)
  }

  function ViewIdle(s: State): nat { IdleCount(s.view.own) + IdleCount(s.view.foreign) }

  function Unhandled(s: State): nat {
    Gap(s.view.own.pos, s.view.own.end) + Gap(s.view.foreign.pos, s.view.foreign.end)
  }

  ghost function Left(s: State, ids: set<string>): Measure {
    Measure(|Remaining(s, ids)|, Lag(s), AllResting(s), AllToPublish(s), Undelivered(s), AllStages(s),
            ViewBehind(s), ViewIdle(s), Unhandled(s))
  }

  /** Lexicographically smaller. */
  predicate Lower(a: Measure, b: Measure) {
    || a.beats < b.beats
    || (a.beats == b.beats &&
        (|| a.lag < b.lag
         || (a.lag == b.lag &&
             (|| a.resting < b.resting
              || (a.resting == b.resting &&
                  (|| a.toPublish < b.toPublish
                   || (a.toPublish == b.toPublish && LowerThere(a, b))))))))
  }

  predicate LowerThere(a: Measure, b: Measure) {
    || a.undelivered < b.undelivered
    || (a.undelivered == b.undelivered &&
        (|| a.stages < b.stages
         || (a.stages == b.stages &&
             (|| a.behind < b.behind
              || (a.behind == b.behind && (a.idle < b.idle || (a.idle == b.idle && a.unhandled < b.unhandled)))))))
  }

  // ---- A batch is never empty --------------------------------------------

  /** What a relay has read lies ahead of its checkpoint. */
  ghost predicate Ahead(s: State) {
    forall svc :: NodeOf(s, svc).batch.Some? ==> NodeOf(s, svc).cp < NodeOf(s, svc).batch.value.end
  }

  lemma NodeAhead(svc: Service, n: Node<Event, Contract>, step: NodeStep<Event>)
    requires n.batch.Some? ==> n.cp < n.batch.value.end
    ensures var n' := NodeNext(RelayOf(svc), n, step); n'.batch.Some? ==> n'.cp < n'.batch.value.end
  {
  }

  lemma WithNodeAhead(s: State, svc: Service, step: NodeStep<Event>)
    requires Ahead(s)
    ensures Ahead(WithNode(s, svc, step))
  {
    OneNode(s, svc, step);
    NodeAhead(svc, NodeOf(s, svc), step);
  }

  lemma SameNodesAhead(s: State, a: State, s': State)
    requires Ahead(s) && Ahead(a) && (s'.nodes == s.nodes || s'.nodes == a.nodes)
    ensures Ahead(s')
  {
    assert forall svc :: NodeOf(s', svc) == NodeOf(s, svc) || NodeOf(s', svc) == NodeOf(a, svc);
  }

  lemma CommitAhead(s: State, s': State, w: nat)
    requires Ahead(s) && s' == CommitNext(s, w)
    ensures Ahead(s')
  {
    if w in s.work && !s.work[w].effected && TargetOf(s.work[w].link, s.work[w].msg).Some? {
      var work := s.work[w];
      WithNodeAhead(s, HomeOf(work.link), Appending(TargetOf(work.link, work.msg).value, work.version, work.events));
      CommitCases(s, w);
      SameNodesAhead(s, FulfillmentSystem.Appended(s, work), s');
    }
  }

  lemma NextAhead(s: State, s': State, step: Step)
    requires Ahead(s) && s' == Next(s, step)
    ensures Ahead(s')
  {
    match step {
      case Place(o) => WithNodeAhead(s, OrderService, Appending(StreamID(ORDER_CATEGORY, o.id), 0, [PlacedBy(o)]));
      case Notify(id, reason, version) =>
        var told := [CustomerNotified(id, reason)];
        WithNodeAhead(s, OrderService, Appending(StreamID(ORDER_CATEGORY, id), version, told));
      case Relaying(svc, ns) => WithNodeAhead(s, svc, ns);
      case Commit(w) => CommitAhead(s, s', w);
      case _ =>
        NodesRest(s, s', step);
        SameNodesAhead(s, s, s');
    }
  }

  lemma NodesRest(s: State, s': State, step: Step)
    requires s' == Next(s, step) && !step.Place? && !step.Notify? && !step.Relaying? && !step.Commit?
    ensures s'.nodes == s.nodes
  {
  }

  ghost predicate Sound(s: State) { Inv(s) && Ahead(s) }

  lemma StepSound(s: State, s': State, step: Step)
    requires Sound(s) && s' == Next(s, step)
    ensures Sound(s')
  {
    NextKeeps(s, step);
    NextAhead(s, s', step);
  }

  lemma StartSound()
    ensures Sound(START)
  {
    StartInv();
  }

  lemma {:induction false} Always(p: nat -> bool, n: nat)
    requires p(0) && forall m: nat {:trigger p(m)} :: p(m) ==> p(m + 1)
    ensures p(n)
  {
    if n > 0 {
      Always(p, n - 1);
    }
  }

  lemma NextSound(states: States, steps: Steps, n: nat)
    requires IsRun(states, steps) && Sound(states(n))
    ensures Sound(states(n + 1))
  {
    assert StepAt(states, steps, n);
    StepSound(states(n), states(n + 1), steps(n));
  }

  lemma RunSound(states: States, steps: Steps, n: nat)
    requires IsRun(states, steps)
    ensures Sound(states(n))
  {
    var sound := (m: nat) => Sound(states(m));
    StartSound();
    forall m: nat | sound(m) ensures sound(m + 1) {
      NextSound(states, steps, m);
    }
    Always(sound, n);
  }

  // ---- Steps that bring the end nearer, and steps that do not --------------

  ghost predicate NodesSame(s: State, s': State) { forall svc :: NodeOf(s', svc) == NodeOf(s, svc) }

  /** Nothing that matters to any chore has changed. */
  ghost predicate Quiet(s: State, s': State) {
    && NodesSame(s, s') && s'.view == s.view && s'.inbox == s.inbox
    && (forall link :: Wired(link) ==> SubOf(s', link) == SubOf(s, link))
    && (forall link :: Wired(link) && !SubOf(s, link).done ==> SameJob(s, s', WorkerOf(link)))
  }

  predicate SameJob(s: State, s': State, w: nat) {
    if w in s.work then w in s'.work && s'.work[w] == s.work[w] else w !in s'.work
  }

  /** Less is left, or as much, and then whatever was due still is. */
  ghost predicate Progress(s: State, s': State, ids: set<string>) {
    && SameOrders(s, s')
    && (Lower(Left(s', ids), Left(s, ids)) || (Left(s', ids) == Left(s, ids) && DueStays(s, s')))
  }

  ghost predicate DueStays(s: State, s': State) {
    forall chore :: Due(s, chore) ==> Due(s', chore)
  }

  /** Doing a chore that is due leaves less. */
  ghost predicate Pays(s: State, s': State, ids: set<string>, step: Step) {
    forall chore :: Due(s, chore) && Does(s, step, chore) ==> Lower(Left(s', ids), Left(s, ids))
  }

  /** The stores and relays as they were. */
  ghost predicate UpperSame(a: Measure, b: Measure) {
    a.beats == b.beats && a.lag == b.lag && a.resting == b.resting && a.toPublish == b.toPublish
  }

  lemma SameNodesSame(s: State, s': State, ids: set<string>)
    requires NodesSame(s, s')
    ensures SameOrders(s, s') && UpperSame(Left(s', ids), Left(s, ids))
  {
    SamePhases(s, s', ids);
    SameLag(s, s');
    SumSame((svc: Service) => Resting(s', svc), (svc: Service) => Resting(s, svc), SERVICES);
    SumSame((svc: Service) => ToPublish(s', svc), (svc: Service) => ToPublish(s, svc), SERVICES);
  }

  lemma LinksWired()
    ensures forall link :: link in LINKS ==> Wired(link)
  {
    forall k | 0 <= k < |LINKS| ensures Wired(LINKS[k]) {
    }
  }

  lemma SameUndelivered(s: State, s': State)
    requires NodesSame(s, s') && forall link :: Wired(link) ==> SubOf(s', link).offset == SubOf(s, link).offset
    ensures Undelivered(s') == Undelivered(s)
  {
    LinksWired();
    SumSame((link: Link) => Behind(s', link), (link: Link) => Behind(s, link), LINKS);
  }

  lemma SameCurrent(s: State, s': State)
    requires NodesSame(s, s')
    ensures forall work :: Current(s', work) == Current(s, work)
  {
  }

  lemma SameStages(s: State, s': State)
    requires NodesSame(s, s') && forall link :: Wired(link) ==> SubOf(s', link) == SubOf(s, link)
    requires forall link :: Wired(link) && !SubOf(s, link).done ==> SameJob(s, s', WorkerOf(link))
    ensures AllStages(s') == AllStages(s)
  {
    LinksWired();
    SameCurrent(s, s');
    forall link | link in LINKS ensures Stage(s', link) == Stage(s, link) {
      assert Wired(link);
    }
    SumSame((link: Link) => Stage(s', link), (link: Link) => Stage(s, link), LINKS);
  }

  lemma QuietProgress(s: State, s': State, ids: set<string>)
    requires Quiet(s, s')
    ensures Progress(s, s', ids)
  {
    SameNodesSame(s, s', ids);
    SameUndelivered(s, s');
    SameStages(s, s');
    QuietDue(s, s');
  }

  lemma LowerPays(s: State, s': State, ids: set<string>, step: Step)
    requires SameOrders(s, s') && Lower(Left(s', ids), Left(s, ids))
    ensures Progress(s, s', ids) && Pays(s, s', ids, step)
  {
  }

  lemma NothingPays(s: State, s': State, ids: set<string>, step: Step)
    requires Quiet(s, s') && forall chore :: Does(s, step, chore) ==> !Due(s, chore)
    ensures Progress(s, s', ids) && Pays(s, s', ids, step)
  {
    QuietProgress(s, s', ids);
  }

  lemma QuietDue(s: State, s': State)
    requires Quiet(s, s')
    ensures DueStays(s, s')
  {
  }

  // ---- Relays ----------------------------------------------------------

  lemma RelayProgress(s: State, s': State, ids: set<string>, svc: Service, step: NodeStep<Event>)
    requires StoresInv(s) && Ahead(s) && s' == Next(s, Relaying(svc, step)) && Calm(s, Relaying(svc, step))
    ensures Progress(s, s', ids) && Pays(s, s', ids, Relaying(svc, step))
  {
    assert NodeInv(RelayOf(svc), NodeOf(s, svc));
    OneNode(s, svc, step);
    RelayMoves(s, s', ids, svc, step);
  }

  lemma RelayMoves(s: State, s': State, ids: set<string>, svc: Service, step: NodeStep<Event>)
    requires NodeInv(RelayOf(svc), NodeOf(s, svc)) && Ahead(s) && Calm(s, Relaying(svc, step))
    requires OnlyNode(s, s', svc) && NodeOf(s', svc) == NodeNext(RelayOf(svc), NodeOf(s, svc), step)
    ensures Progress(s, s', ids) && Pays(s, s', ids, Relaying(svc, step))
  {
    if NodeDue(NodeOf(s, svc), step) {
      RelayLowers(s, s', ids, svc, step);
      LowerPays(s, s', ids, Relaying(svc, step));
    } else {
      NodeRests(svc, NodeOf(s, svc), step);
      RelayRests(s, svc, step);
      NothingPays(s, s', ids, Relaying(svc, step));
    }
  }

  /** The relay's step is one that it can make. */
  predicate NodeDue(n: Node<Event, Contract>, step: NodeStep<Event>) {
    match step
    case ReadBatch(size) => n.batch.None? && n.cp < |n.log| && size > 0
    case PublishGroup => n.batch.Some? && n.batch.value.todo != []
    case Advance => n.batch.Some? && n.batch.value.todo == []
    case _ => false
  }

  lemma RelayRests(s: State, svc: Service, step: NodeStep<Event>)
    requires !NodeDue(NodeOf(s, svc), step)
    ensures forall chore :: Does(s, Relaying(svc, step), chore) ==> !Due(s, chore)
  {
  }

  lemma NodeRests(svc: Service, n: Node<Event, Contract>, step: NodeStep<Event>)
    requires !NodeDue(n, step) && (step.ReadBatch? || step.PublishGroup? || step.Advance?)
    requires n.cp <= |n.log|
    ensures NodeNext(RelayOf(svc), n, step) == n
  {
  }

  lemma RelayLowers(s: State, s': State, ids: set<string>, svc: Service, step: NodeStep<Event>)
    requires NodeInv(RelayOf(svc), NodeOf(s, svc)) && Ahead(s) && NodeDue(NodeOf(s, svc), step)
    requires OnlyNode(s, s', svc) && NodeOf(s', svc) == NodeNext(RelayOf(svc), NodeOf(s, svc), step)
    ensures SameOrders(s, s') && Lower(Left(s', ids), Left(s, ids))
  {
    NodeNextGrows(RelayOf(svc), NodeOf(s, svc), step);
    NodeMoves(svc, NodeOf(s, svc), step);
    assert forall t :: StoreOf(s', t) == StoreOf(s, t);
    SamePhases(s, s', ids);
    if step.Advance? {
      LagFalls(s, s', svc);
    } else if step.ReadBatch? {
      RestingFalls(s, s', svc);
    } else {
      ToPublishFalls(s, s', svc);
    }
  }

  /** What a relay's step does to it. */
  lemma NodeMoves(svc: Service, n: Node<Event, Contract>, step: NodeStep<Event>)
    requires NodeInv(RelayOf(svc), n) && NodeDue(n, step) && (n.batch.Some? ==> n.cp < n.batch.value.end)
    ensures var n' := NodeNext(RelayOf(svc), n, step);
      match step
      case ReadBatch(_) => n'.cp == n.cp && n'.batch.Some?
      case PublishGroup => n'.cp == n.cp && n'.batch.Some? && |n'.batch.value.todo| < |n.batch.value.todo|
      case Advance => n.cp < n'.cp <= |n.log|
      case _ => false
  {
  }

  lemma LagFalls(s: State, s': State, svc: Service)
    requires OnlyNode(s, s', svc) && (forall t :: StoreOf(s', t) == StoreOf(s, t))
    requires NodeOf(s, svc).cp < NodeOf(s', svc).cp <= |StoreOf(s, svc)|
    ensures Lag(s') < Lag(s)
  {
    AllServices(svc);
    SumLess((t: Service) => LagOf(s', t), (t: Service) => LagOf(s, t), SERVICES, svc);
  }

  lemma LagRests(s: State, s': State, svc: Service)
    requires OnlyNode(s, s', svc) && (forall t :: StoreOf(s', t) == StoreOf(s, t))
    requires NodeOf(s', svc).cp == NodeOf(s, svc).cp
    ensures Lag(s') == Lag(s)
  {
    forall t ensures LagOf(s', t) == LagOf(s, t) {
      assert t == svc || NodeOf(s', t) == NodeOf(s, t);
    }
    SumSame((t: Service) => LagOf(s', t), (t: Service) => LagOf(s, t), SERVICES);
  }

  lemma RestingFalls(s: State, s': State, svc: Service)
    requires OnlyNode(s, s', svc) && (forall t :: StoreOf(s', t) == StoreOf(s, t))
    requires NodeOf(s', svc).cp == NodeOf(s, svc).cp
    requires NodeOf(s, svc).batch.None? && NodeOf(s', svc).batch.Some?
    ensures Lag(s') == Lag(s) && AllResting(s') < AllResting(s)
  {
    LagRests(s, s', svc);
    AllServices(svc);
    SumLess((t: Service) => Resting(s', t), (t: Service) => Resting(s, t), SERVICES, svc);
  }

  lemma ToPublishFalls(s: State, s': State, svc: Service)
    requires OnlyNode(s, s', svc) && (forall t :: StoreOf(s', t) == StoreOf(s, t))
    requires NodeOf(s', svc).cp == NodeOf(s, svc).cp
    requires NodeOf(s, svc).batch.Some? && NodeOf(s', svc).batch.Some?
    requires |NodeOf(s', svc).batch.value.todo| < |NodeOf(s, svc).batch.value.todo|
    ensures Lag(s') == Lag(s) && AllResting(s') == AllResting(s) && AllToPublish(s') < AllToPublish(s)
  {
    LagRests(s, s', svc);
    AllServices(svc);
    SumSame((t: Service) => Resting(s', t), (t: Service) => Resting(s, t), SERVICES);
    SumLess((t: Service) => ToPublish(s', t), (t: Service) => ToPublish(s, t), SERVICES, svc);
  }

  // ---- Groups ----------------------------------------------------------

  lemma BeginProgress(s: State, s': State, ids: set<string>, link: Link)
    requires StoresInv(s) && MarksInv(s) && Calm(s, Begin(WorkerOf(link), link, SubOf(s, link).offset))
    requires s' == Next(s, Begin(WorkerOf(link), link, SubOf(s, link).offset))
    ensures Progress(s, s', ids) && Pays(s, s', ids, Begin(WorkerOf(link), link, SubOf(s, link).offset))
  {
    var step := Begin(WorkerOf(link), link, SubOf(s, link).offset);
    if SubOf(s, link).offset < |TopicLog(s, link)| {
      var work := Taken(s, s', WorkerOf(link), link);
      TakenProgress(s, s', ids, link, work);
      LowerPays(s, s', ids, step);
    } else {
      BeginRests(s, s', link, step);
      NothingPays(s, s', ids, step);
    }
  }

  lemma TakenProgress(s: State, s': State, ids: set<string>, link: Link, work: Work)
    requires Wired(link) && !SubOf(s, link).done && WorkerOf(link) !in s.work
    requires FulfillmentSettling.Holds(s, link, work)
    requires s' == s.(work := s.work[WorkerOf(link) := work], inbox := s'.inbox)
    ensures SameOrders(s, s') && Lower(Left(s', ids), Left(s, ids))
  {
    TakenStage(s, s', link, work);
    StagesLower(s, s', ids, link);
  }

  lemma BeginRests(s: State, s': State, link: Link, step: Step)
    requires SubOf(s, link).offset >= |TopicLog(s, link)|
    requires step == Begin(WorkerOf(link), link, SubOf(s, link).offset) && s' == Next(s, step)
    ensures s' == s && forall chore :: Does(s, step, chore) ==> !Due(s, chore)
  {
  }

  /** The ten members are ten workers. */
  lemma WorkersDiffer(link: Link, other: Link)
    requires Wired(link) && Wired(other) && WorkerOf(link) == WorkerOf(other)
    ensures link == other
  {
    AllWired(link);
    AllWired(other);
  }

  lemma TakenStage(s: State, s': State, link: Link, work: Work)
    requires Wired(link) && !SubOf(s, link).done && WorkerOf(link) !in s.work
      && FulfillmentSettling.Holds(s, link, work)
    requires s' == s.(work := s.work[WorkerOf(link) := work], inbox := s'.inbox)
    ensures Stage(s', link) < Stage(s, link)
    ensures forall other :: Wired(other) && other != link ==> Stage(s', other) == Stage(s, other)
  {
    SameCurrent(s, s');
    if !work.effected {
      assert Current(s, work);
    }
    forall other | Wired(other) && other != link ensures Stage(s', other) == Stage(s, other) {
      if WorkerOf(other) == WorkerOf(link) {
        WorkersDiffer(link, other);
      }
    }
  }

  /** Stages fall while stores, relays and offsets stay. */
  lemma StagesLower(s: State, s': State, ids: set<string>, link: Link)
    requires NodesSame(s, s') && Wired(link) && Stage(s', link) < Stage(s, link)
    requires forall other :: Wired(other) ==> Stage(s', other) <= Stage(s, other)
    requires forall other :: Wired(other) ==> SubOf(s', other).offset == SubOf(s, other).offset
    ensures SameOrders(s, s') && Lower(Left(s', ids), Left(s, ids))
  {
    SameNodesSame(s, s', ids);
    SameUndelivered(s, s');
    AllWired(link);
    LinksWired();
    SumLess((other: Link) => Stage(s', other), (other: Link) => Stage(s, other), LINKS, link);
  }

  lemma CommitProgress(s: State, s': State, ids: set<string>, w: nat)
    requires StoresInv(s) && WorksInv(s) && PlacedAmong(s, ids) && s' == CommitNext(s, w)
    ensures Progress(s, s', ids) && Pays(s, s', ids, FulfillmentSystem.Commit(w))
  {
    if w in s.work && !s.work[w].effected {
      var work := s.work[w];
      assert WorkInv(s, work);
      CommitCases(s, w);
      if Current(s, work) {
        CommitPlays(s, s', ids, work);
        LowerPays(s, s', ids, FulfillmentSystem.Commit(w));
      } else {
        DropProgress(s, s', ids, w);
      }
    } else {
      assert s' == s;
      NothingPays(s, s', ids, FulfillmentSystem.Commit(w));
    }
  }

  lemma CommitPlays(s: State, s': State, ids: set<string>, work: Work)
    requires StoresInv(s) && PlacedAmong(s, ids) && WorkInv(s, work) && Current(s, work)
    requires s'.nodes == FulfillmentSystem.Appended(s, work).nodes
    ensures SameOrders(s, s') && Lower(Left(s', ids), Left(s, ids))
  {
    var id := AppendPlays(s, work);
    BeatSeen(s, FulfillmentSystem.Appended(s, work), s', id);
    BeatLeavesLess(s, s', ids, id);
  }

  lemma BeatSeen(s: State, a: State, s': State, id: string)
    requires BeatOf(s, a, id) && s'.nodes == a.nodes
    ensures BeatOf(s, s', id)
  {
    assert forall svc :: NodeOf(s', svc) == NodeOf(a, svc);
    assert forall x :: Phase(s', x) == Phase(a, x) && OrderHistory(s', x) == OrderHistory(a, x);
  }

  /** A worker whose decision is out of date starts over. */
  lemma DropProgress(s: State, s': State, ids: set<string>, w: nat)
    requires w in s.work && !s.work[w].effected && !Current(s, s.work[w]) && s' == s.(work := s.work - {w})
    ensures Progress(s, s', ids) && Pays(s, s', ids, FulfillmentSystem.Commit(w))
  {
    if link :| Wired(link) && !SubOf(s, link).done && WorkerOf(link) == w {
      DropStage(s, s', link, w);
      StagesLower(s, s', ids, link);
      LowerPays(s, s', ids, FulfillmentSystem.Commit(w));
    } else {
      NothingPays(s, s', ids, FulfillmentSystem.Commit(w));
    }
  }

  lemma DropStage(s: State, s': State, link: Link, w: nat)
    requires Wired(link) && !SubOf(s, link).done && WorkerOf(link) == w && w in s.work
    requires !s.work[w].effected && !Current(s, s.work[w]) && s' == s.(work := s.work - {w})
    ensures Stage(s', link) < Stage(s, link)
    ensures forall other :: Wired(other) ==> Stage(s', other) <= Stage(s, other)
  {
    SameCurrent(s, s');
    forall other | Wired(other) && other != link ensures Stage(s', other) == Stage(s, other) {
      if WorkerOf(other) == w {
        WorkersDiffer(link, other);
      }
    }
  }

  lemma FinishProgress(s: State, s': State, ids: set<string>, w: nat)
    requires WorksInv(s) && s' == FinishNext(s, w)
    ensures Progress(s, s', ids) && Pays(s, s', ids, FulfillmentSystem.Finish(w))
  {
    if w in s.work && s.work[w].effected {
      assert WorkInv(s, s.work[w]);
      FinishMoves(s, s', ids, w);
    } else {
      assert s' == s;
      NothingPays(s, s', ids, FulfillmentSystem.Finish(w));
    }
  }

  lemma FinishMoves(s: State, s': State, ids: set<string>, w: nat)
    requires w in s.work && s.work[w].effected && Wired(s.work[w].link) && s' == FinishNext(s, w)
    ensures Progress(s, s', ids) && Pays(s, s', ids, FulfillmentSystem.Finish(w))
  {
    FinishEffect(s, s', w);
    if link :| Wired(link) && Stage(s', link) < Stage(s, link) {
      StagesLower(s, s', ids, link);
      LowerPays(s, s', ids, FulfillmentSystem.Finish(w));
    } else {
      FinishQuiet(s, s', w);
      NothingPays(s, s', ids, FulfillmentSystem.Finish(w));
    }
  }

  /** A group's offset is marked done by a worker that is done with the message there. */
  function SubAfter(s: State, work: Work, link: Link): Sub {
    if link == work.link && work.at == SubOf(s, link).offset then Sub(SubOf(s, link).offset, true) else SubOf(s, link)
  }

  lemma FinishEffect(s: State, s': State, w: nat)
    requires w in s.work && s.work[w].effected && Wired(s.work[w].link) && s' == FinishNext(s, w)
    ensures s'.nodes == s.nodes && s'.view == s.view && s'.inbox == s.inbox && s'.work == s.work - {w}
    ensures forall link :: SubOf(s', link).offset == SubOf(s, link).offset
    ensures forall link :: SubOf(s', link) == SubAfter(s, s.work[w], link)
    ensures forall link :: Wired(link) ==> Stage(s', link) <= Stage(s, link)
    ensures forall link ::
      Wired(link) && !SubOf(s, link).done && w == WorkerOf(link) ==> Stage(s', link) < Stage(s, link)
  {
    FinishSubs(s, s', w);
    forall link | Wired(link)
      ensures Stage(s', link) <= Stage(s, link)
      ensures !SubOf(s, link).done && w == WorkerOf(link) ==> Stage(s', link) < Stage(s, link)
    {
      SameCurrent(s, s');
    }
  }

  lemma FinishSubs(s: State, s': State, w: nat)
    requires w in s.work && s.work[w].effected && s' == FinishNext(s, w)
    ensures s'.nodes == s.nodes && s'.view == s.view && s'.inbox == s.inbox && s'.work == s.work - {w}
    ensures forall link :: SubOf(s', link) == SubAfter(s, s.work[w], link)
  {
  }

  lemma FinishMarks(s: State, s': State, w: nat)
    requires w in s.work && s.work[w].effected && s' == FinishNext(s, w)
    ensures var link := s.work[w].link;
      s.work[w].at == SubOf(s, link).offset && !SubOf(s, link).done ==> Stage(s', link) < Stage(s, link)
  {
    FinishSubs(s, s', w);
  }

  lemma FinishQuiet(s: State, s': State, w: nat)
    requires w in s.work && s.work[w].effected && Wired(s.work[w].link) && s' == FinishNext(s, w)
    requires forall link :: Wired(link) ==> Stage(s', link) >= Stage(s, link)
    ensures Quiet(s, s') && forall chore :: Does(s, FulfillmentSystem.Finish(w), chore) ==> !Due(s, chore)
  {
    FinishSubs(s, s', w);
    FinishMarks(s, s', w);
    FinishEffect(s, s', w);
    assert NodesSame(s, s');
    forall other | Wired(other) && !SubOf(s, other).done ensures SameJob(s, s', WorkerOf(other)) {
      assert WorkerOf(other) != w;
    }
  }

  lemma AcknowledgeProgress(s: State, s': State, ids: set<string>, link: Link)
    requires SubsInv(s) && s' == Next(s, FulfillmentSystem.Acknowledge(link))
    ensures Progress(s, s', ids) && Pays(s, s', ids, FulfillmentSystem.Acknowledge(link))
  {
    if Wired(link) && SubOf(s, link).done {
      assert SubInv(s, link);
      AcknowledgeEffect(s, s', link);
      SameNodesSame(s, s', ids);
      UndeliveredFalls(s, s', link);
      LowerPays(s, s', ids, FulfillmentSystem.Acknowledge(link));
    } else {
      assert s' == s;
      NothingPays(s, s', ids, FulfillmentSystem.Acknowledge(link));
    }
  }

  lemma UndeliveredFalls(s: State, s': State, link: Link)
    requires NodesSame(s, s') && GroupWaits(s, link) && SubOf(s', link).offset == SubOf(s, link).offset + 1
    requires forall other :: other != link ==> SubOf(s', other) == SubOf(s, other)
    ensures Undelivered(s') < Undelivered(s)
  {
    AllWired(link);
    SumLess((other: Link) => Behind(s', other), (other: Link) => Behind(s, other), LINKS, link);
  }

  lemma AcknowledgeEffect(s: State, s': State, link: Link)
    requires Wired(link) && SubOf(s, link).done && s' == Next(s, FulfillmentSystem.Acknowledge(link))
    ensures s' == s.(subs := s'.subs)
    ensures SubOf(s', link).offset == SubOf(s, link).offset + 1
    ensures forall other :: other != link ==> SubOf(s', other) == SubOf(s, other)
  {
  }

  // ---- The projection --------------------------------------------------

  lemma RunnerLowers(r: Projection.Runner, r': Projection.Runner, length: nat, rs: Projection.RunnerStep)
    requires r.cp == r.cursor <= r.pos <= r.end <= length && r' == Projection.RunnerNext(length, r, rs)
    requires rs.ReadBatch? || rs.ApplyNext? || rs.SetCheckpoint?
    ensures r' == r
      || Gap(r'.cp, length) < Gap(r.cp, length)
      || (r'.cp == r.cp && IdleCount(r') < IdleCount(r))
      || (r'.cp == r.cp && IdleCount(r') == IdleCount(r) && Gap(r'.pos, r'.end) < Gap(r.pos, r.end))
    ensures RunnerDue(r, length, rs) && (rs.ReadBatch? ==> rs.size > 0) ==> r' != r
  {
  }

  lemma ViewProgress(s: State, s': State, ids: set<string>, vs: Projection.ViewStep)
    requires FulfillmentInvariant.ViewInv(s) && Calm(s, Project(vs)) && s' == Next(s, Project(vs))
    ensures Progress(s, s', ids) && Pays(s, s', ids, Project(vs))
  {
    ViewMoves(s, s', vs);
    if s' == s {
      NothingPays(s, s', ids, Project(vs));
    } else {
      ViewLowers(s, s', ids);
      LowerPays(s, s', ids, Project(vs));
    }
  }

  lemma ViewLowers(s: State, s': State, ids: set<string>)
    requires s' == s.(view := s'.view) && ViewLower(s, s')
    ensures SameOrders(s, s') && Lower(Left(s', ids), Left(s, ids))
  {
    SameNodesSame(s, s', ids);
    SameUndelivered(s, s');
    SameStages(s, s');
  }

  /** A step of the store runner; the other stays where it is. */
  lemma StoreMoves(s: State, s': State, rs: Projection.RunnerStep)
    requires FulfillmentInvariant.ViewInv(s) && Calm(s, Project(Projection.OnStore(rs)))
    requires s' == Next(s, Project(Projection.OnStore(rs)))
    ensures s' == s.(view := s'.view) && s'.view.foreign == s.view.foreign
    ensures s' == s || ViewLower(s, s')
    ensures s' == s ==> !RunnerDue(s.view.own, |StoreOf(s, OrderService)|, rs) || (rs.ReadBatch? && rs.size == 0)
  {
    RunnerLowers(s.view.own, s'.view.own, |StoreOf(s, OrderService)|, rs);
  }

  lemma InboxMoves(s: State, s': State, rs: Projection.RunnerStep)
    requires FulfillmentInvariant.ViewInv(s) && Calm(s, Project(Projection.OnInbox(rs)))
    requires s' == Next(s, Project(Projection.OnInbox(rs)))
    ensures s' == s.(view := s'.view) && s'.view.own == s.view.own
    ensures s' == s || ViewLower(s, s')
    ensures s' == s ==> !RunnerDue(s.view.foreign, |s.inbox|, rs) || (rs.ReadBatch? && rs.size == 0)
  {
    RunnerLowers(s.view.foreign, s'.view.foreign, |s.inbox|, rs);
  }

  lemma ViewMoves(s: State, s': State, vs: Projection.ViewStep)
    requires FulfillmentInvariant.ViewInv(s) && Calm(s, Project(vs)) && s' == Next(s, Project(vs))
    ensures s' == s.(view := s'.view) && (s' == s || ViewLower(s, s'))
    ensures s' == s ==> forall chore :: Does(s, Project(vs), chore) ==> !Due(s, chore)
  {
    match vs {
      case OnStore(rs) => StoreMoves(s, s', rs);
      case OnInbox(rs) => InboxMoves(s, s', rs);
    }
  }

  predicate ViewLower(s: State, s': State) {
    || ViewBehind(s') < ViewBehind(s)
    || (ViewBehind(s') == ViewBehind(s) &&
        (ViewIdle(s') < ViewIdle(s) || (ViewIdle(s') == ViewIdle(s) && Unhandled(s') < Unhandled(s))))
  }

  // ---- Every calm step -------------------------------------------------

  lemma CalmProgress(s: State, s': State, ids: set<string>, step: Step)
    requires Inv(s) && Ahead(s) && PlacedAmong(s, ids) && Calm(s, step) && s' == Next(s, step)
    ensures Progress(s, s', ids) && Pays(s, s', ids, step)
  {
    match step {
      case Relaying(svc, ns) => RelayProgress(s, s', ids, svc, ns);
      case Begin(w, link, at) => BeginProgress(s, s', ids, link);
      case Commit(w) => CommitProgress(s, s', ids, w);
      case Finish(w) => FinishProgress(s, s', ids, w);
      case Acknowledge(link) => AcknowledgeProgress(s, s', ids, link);
      case Project(vs) => ViewProgress(s, s', ids, vs);
    }
  }

  /** Until everything is quiet, some chore is due. */
  lemma SomethingDue(s: State) returns (chore: Chore)
    requires Inv(s) && !Quiescent(s)
    ensures Due(s, chore)
  {
    CaughtUpBounds(s);
    if svc :| NodeOf(s, svc).cp < |StoreOf(s, svc)| {
      chore := if NodeOf(s, svc).batch.None? then Reading(svc)
        else if NodeOf(s, svc).batch.value.todo != [] then Chore.Publishing(svc) else Advancing(svc);
    } else if link :| GroupWaits(s, link) {
      chore := if SubOf(s, link).done then Acknowledging(link)
        else if WorkerOf(link) !in s.work then Taking(link)
        else if s.work[WorkerOf(link)].effected then Finishing(link) else Committing(link);
    } else if s.view.own.cp < |StoreOf(s, OrderService)| {
      chore := Viewing(false, RunnerChore(s.view.own, |StoreOf(s, OrderService)|));
    } else {
      QuietButInbox(s);
      chore := Viewing(true, RunnerChore(s.view.foreign, |s.inbox|));
    }
  }

  lemma QuietButInbox(s: State)
    requires Bounded(s) && !Quiescent(s) && s.view.own.cp >= |StoreOf(s, OrderService)|
    requires forall svc :: NodeOf(s, svc).cp >= |StoreOf(s, svc)|
    requires forall link :: !GroupWaits(s, link)
    ensures s.view.foreign.cp < |s.inbox|
  {
    forall link | Wired(link) ensures SubOf(s, link).offset == |TopicLog(s, link)| {
      assert !GroupWaits(s, link);
    }
  }

  function RunnerChore(r: Projection.Runner, length: nat): (rs: Projection.RunnerStep)
    ensures r.cp == r.cursor <= r.pos <= r.end && r.cp < length ==> RunnerDue(r, length, rs)
  {
    if r.pos < r.end then Projection.ApplyNext
    else if r.end > r.cursor then Projection.SetCheckpoint
    else Projection.ReadBatch(1)
  }

  // ---- The theorem -----------------------------------------------------

  ghost predicate CalmFrom(states: States, steps: Steps, n: nat) {
    forall m: nat {:trigger CalmAt(states, steps, m)} :: m >= n ==> CalmAt(states, steps, m)
  }

  ghost predicate CalmAt(states: States, steps: Steps, m: nat) { Calm(states(m), steps(m)) }

  // A run as far as the argument needs it: how much is left at each moment, which
  // chores are due, and which are done.

  type Amount = nat -> Measure
  type Chores = (nat, Chore) -> bool

  /** Each step leaves less, or as much and then whatever was due still is. */
  ghost predicate Descends(left: Amount, due: Chores, n: nat) {
    forall d: nat :: d >= n ==> DescendsAt(left, due, d)
  }

  ghost predicate DescendsAt(left: Amount, due: Chores, d: nat) {
    Lower(left(d + 1), left(d)) || (left(d + 1) == left(d) && forall chore :: due(d, chore) ==> due(d + 1, chore))
  }

  /** Doing a chore that is due leaves less. */
  ghost predicate Rewards(left: Amount, due: Chores, does: Chores, n: nat) {
    forall d: nat, chore :: d >= n && due(d, chore) && does(d, chore) ==> Lower(left(d + 1), left(d))
  }

  /** No chore stays due for ever without being done. */
  ghost predicate WeaklyFair(due: Chores, does: Chores) {
    forall n: nat, chore {:trigger Attended(due, does, n, chore)} :: Attended(due, does, n, chore)
  }

  /** At some later moment the chore is done, or it is not due. */
  ghost predicate Attended(due: Chores, does: Chores, n: nat, chore: Chore) {
    exists m: nat :: m >= n && (due(m, chore) ==> does(m, chore))
  }

  /** While nothing gets less, what was due stays due. */
  lemma {:induction false} Waits(left: Amount, due: Chores, n: nat, k: nat, chore: Chore) returns (d: nat)
    requires Descends(left, due, n) && n <= k && due(n, chore)
    ensures n <= d <= k
    ensures Lower(left(d), left(n)) || (d == k && left(d) == left(n) && due(d, chore))
    decreases k - n
  {
    if k == n {
      d := n;
    } else {
      d := Waits(left, due, n, k - 1, chore);
      if !Lower(left(d), left(n)) {
        assert DescendsAt(left, due, d);
        d := k;
      }
    }
  }

  /** As long as something is due, less will be left some time later. */
  lemma GetsLess(left: Amount, due: Chores, does: Chores, n: nat, chore: Chore) returns (d: nat)
    requires Descends(left, due, n) && Rewards(left, due, does, n) && WeaklyFair(due, does) && due(n, chore)
    ensures d > n && Lower(left(d), left(n))
  {
    assert Attended(due, does, n, chore);
    var k: nat :| k >= n && (due(k, chore) ==> does(k, chore));
    d := Waits(left, due, n, k, chore);
    if !Lower(left(d), left(n)) {
      d := k + 1;
    }
  }

  /** So a time comes when nothing is due. */
  lemma {:induction false} RunsDry(left: Amount, due: Chores, does: Chores, n: nat, now: Measure) returns (k: nat)
    requires Descends(left, due, n) && Rewards(left, due, does, n) && WeaklyFair(due, does) && now == left(n)
    ensures k >= n && forall chore :: !due(k, chore)
    decreases now.beats, now.lag, now.resting, now.toPublish, now.undelivered, now.stages, now.behind, now.idle,
      now.unhandled
  {
    if chore :| due(n, chore) {
      var d := GetsLess(left, due, does, n, chore);
      k := RunsDry(left, due, does, d, left(d));
    } else {
      k := n;
    }
  }

  // ---- The system's runs -----------------------------------------------

  lemma {:induction false} StaysPlaced(states: States, steps: Steps, ids: set<string>, n: nat, d: nat)
    requires IsRun(states, steps) && CalmFrom(states, steps, n) && PlacedAmong(states(n), ids) && n <= d
    ensures PlacedAmong(states(d), ids)
    decreases d - n
  {
    if d > n {
      StaysPlaced(states, steps, ids, n, d - 1);
      assert CalmAt(states, steps, d - 1);
      NextPlaced(states, steps, ids, d - 1);
    }
  }

  lemma NextPlaced(states: States, steps: Steps, ids: set<string>, d: nat)
    requires IsRun(states, steps) && CalmAt(states, steps, d) && PlacedAmong(states(d), ids)
    ensures PlacedAmong(states(d + 1), ids)
  {
    OneMore(states, steps, ids, d);
    StillPlaced(states(d), states(d + 1), ids);
  }

  lemma OneMore(states: States, steps: Steps, ids: set<string>, d: nat)
    requires IsRun(states, steps) && CalmAt(states, steps, d) && PlacedAmong(states(d), ids)
    ensures Progress(states(d), states(d + 1), ids) && Pays(states(d), states(d + 1), ids, steps(d))
  {
    RunSound(states, steps, d);
    assert StepAt(states, steps, d);
    CalmProgress(states(d), states(d + 1), ids, steps(d));
  }

  ghost function LeftAt(states: States, ids: set<string>): Amount {
    (d: nat) => Left(states(d), ids)
  }

  ghost function DueAt(states: States): Chores { (d: nat, chore: Chore) => Due(states(d), chore) }

  ghost function DoneAt(states: States, steps: Steps): Chores {
    (d: nat, chore: Chore) => Does(states(d), steps(d), chore)
  }

  lemma RunDescends(states: States, steps: Steps, ids: set<string>, n: nat)
    requires IsRun(states, steps) && CalmFrom(states, steps, n) && PlacedAmong(states(n), ids)
    ensures Descends(LeftAt(states, ids), DueAt(states), n)
    ensures Rewards(LeftAt(states, ids), DueAt(states), DoneAt(states, steps), n)
  {
    forall d: nat | d >= n
      ensures DescendsAt(LeftAt(states, ids), DueAt(states), d)
      ensures Pays(states(d), states(d + 1), ids, steps(d))
    {
      NextDescends(states, steps, ids, n, d);
    }
  }

  lemma NextDescends(states: States, steps: Steps, ids: set<string>, n: nat, d: nat)
    requires IsRun(states, steps) && CalmFrom(states, steps, n) && PlacedAmong(states(n), ids) && d >= n
    ensures DescendsAt(LeftAt(states, ids), DueAt(states), d)
    ensures Pays(states(d), states(d + 1), ids, steps(d))
  {
    StaysPlaced(states, steps, ids, n, d);
    assert CalmAt(states, steps, d);
    OneMore(states, steps, ids, d);
  }

  lemma DueOrQuiet(states: States, steps: Steps, n: nat)
    requires IsRun(states, steps)
    ensures Quiescent(states(n)) || exists chore :: DueAt(states)(n, chore)
  {
    if !Quiescent(states(n)) {
      RunSound(states, steps, n);
      var chore := SomethingDue(states(n));
      assert DueAt(states)(n, chore);
    }
  }

  // ---- Quiet for good --------------------------------------------------

  /** Stores, relays, inbox, offsets and runners as they were. */
  ghost predicate Unmoved(s: State, s': State) {
    && NodesSame(s, s') && s'.inbox == s.inbox
    && (forall link :: Wired(link) ==> SubOf(s', link).offset == SubOf(s, link).offset)
    && s'.view.own == s.view.own && s'.view.foreign == s.view.foreign
  }

  lemma UnmovedQuiet(s: State, s': State)
    requires Quiescent(s) && Unmoved(s, s')
    ensures Quiescent(s')
  {
  }

  lemma QuietRelay(s: State, s': State, svc: Service, step: NodeStep<Event>)
    requires StoresInv(s) && Ahead(s) && Quiescent(s) && Calm(s, Relaying(svc, step))
    requires s' == Next(s, Relaying(svc, step))
    ensures Unmoved(s, s')
  {
    assert NodeInv(RelayOf(svc), NodeOf(s, svc));
    OneNode(s, svc, step);
    RelayDone(svc, NodeOf(s, svc), step);
  }

  lemma RelayDone(svc: Service, n: Node<Event, Contract>, step: NodeStep<Event>)
    requires NodeInv(RelayOf(svc), n) && (n.batch.Some? ==> n.cp < n.batch.value.end) && n.cp == |n.log|
    requires step.ReadBatch? || step.PublishGroup? || step.Advance?
    ensures NodeNext(RelayOf(svc), n, step) == n
  {
  }

  /** With nothing left to do, what workers still hold was decided before others did it. */
  lemma QuietWorkers(s: State, work: Work)
    requires Inv(s) && Quiescent(s) && WorkInv(s, work) && !work.effected && !work.link.ToInbox?
    ensures !Current(s, work)
  {
    if Current(s, work) {
      var o, k := NextBeat(s, work);
      PhaseComplete(s, o);
      assert false;
    }
  }

  lemma QuietCommit(s: State, s': State, w: nat)
    requires Inv(s) && Quiescent(s) && s' == CommitNext(s, w)
    ensures s' == s.(work := s'.work)
  {
    if w in s.work && !s.work[w].effected {
      assert WorkInv(s, s.work[w]);
      QuietWorkers(s, s.work[w]);
      CommitCases(s, w);
    }
  }

  lemma WorkOnly(s: State, s': State)
    requires s' == s.(work := s'.work)
    ensures Unmoved(s, s')
  {
  }

  lemma QuietFinish(s: State, s': State, w: nat)
    requires s' == FinishNext(s, w)
    ensures Unmoved(s, s')
  {
    if w in s.work && s.work[w].effected {
      FinishSubs(s, s', w);
    }
  }

  lemma QuietAcknowledge(s: State, link: Link)
    requires SubsInv(s) && Quiescent(s)
    ensures Next(s, FulfillmentSystem.Acknowledge(link)) == s
  {
    if Wired(link) {
      assert SubInv(s, link);
    }
  }

  lemma QuietView(s: State, s': State, vs: Projection.ViewStep)
    requires FulfillmentInvariant.ViewInv(s) && Quiescent(s) && Calm(s, Project(vs)) && s' == Next(s, Project(vs))
    ensures Unmoved(s, s')
  {
    assert s' == s.(view := s'.view);
  }

  lemma CalmUnmoved(s: State, s': State, step: Step)
    requires Sound(s) && Quiescent(s) && Calm(s, step) && s' == Next(s, step)
    ensures Unmoved(s, s')
  {
    match step {
      case Relaying(svc, ns) => QuietRelay(s, s', svc, ns);
      case Begin(w, link, at) => BeginRests(s, s', link, step);
      case Commit(w) =>
        QuietCommit(s, s', w);
        WorkOnly(s, s');
      case Finish(w) => QuietFinish(s, s', w);
      case Acknowledge(link) => QuietAcknowledge(s, link);
      case Project(vs) => QuietView(s, s', vs);
    }
  }

  lemma NextQuiet(states: States, steps: Steps, k: nat)
    requires IsRun(states, steps) && CalmAt(states, steps, k) && Quiescent(states(k))
    ensures Quiescent(states(k + 1))
  {
    RunSound(states, steps, k);
    assert StepAt(states, steps, k);
    CalmUnmoved(states(k), states(k + 1), steps(k));
    UnmovedQuiet(states(k), states(k + 1));
  }

  /** From a quiescent moment on, a calm run stays quiescent. */
  lemma {:induction false} StaysQuiet(states: States, steps: Steps, k: nat, m: nat)
    requires IsRun(states, steps) && CalmFrom(states, steps, k) && Quiescent(states(k)) && k <= m
    ensures Quiescent(states(m))
    decreases m - k
  {
    if k < m {
      StaysQuiet(states, steps, k, m - 1);
      assert CalmAt(states, steps, m - 1);
      NextQuiet(states, steps, m - 1);
    }
  }

  // ---- The theorems ----------------------------------------------------

  /** Nothing is left to relay, deliver or project, at this moment or any later one. */
  ghost predicate QuietFrom(states: States, k: nat) {
    forall m: nat {:trigger states(m)} :: m >= k ==> Quiescent(states(m))
  }

  /**
   * The system settles. Any infinite run that is calm from some point on and
   * fair comes to a moment from which on nothing is left to relay, deliver or
   * project.
   */
  lemma FairRunsSettle(states: States, steps: Steps, calm: nat)
    requires IsRun(states, steps) && CalmFrom(states, steps, calm)
    requires WeaklyFair(DueAt(states), DoneAt(states, steps))
    ensures exists k: nat :: k >= calm && QuietFrom(states, k)
  {
    var k := SettlesInTime(states, steps, calm);
    forall m: nat | m >= k ensures Quiescent(states(m)) {
      CalmLater(states, steps, calm, k);
      StaysQuiet(states, steps, k, m);
    }
    assert QuietFrom(states, k);
  }

  lemma CalmLater(states: States, steps: Steps, n: nat, k: nat)
    requires CalmFrom(states, steps, n) && n <= k
    ensures CalmFrom(states, steps, k)
  {
  }

  lemma SettlesInTime(states: States, steps: Steps, n: nat) returns (k: nat)
    requires IsRun(states, steps) && CalmFrom(states, steps, n)
    requires WeaklyFair(DueAt(states), DoneAt(states, steps))
    ensures k >= n && Quiescent(states(k))
  {
    var ids := PlacedIDs(states(n));
    RunDescends(states, steps, ids, n);
    k := RunsDry(LeftAt(states, ids), DueAt(states), DoneAt(states, steps), n, LeftAt(states, ids)(n));
    DueOrQuiet(states, steps, k);
  }

  /**
   * So in such a run every order that was placed meets its fate: from some moment
   * on its script is played to the end, and its row says so.
   */
  lemma EveryOrderServed(states: States, steps: Steps, calm: nat, id: string)
    requires IsRun(states, steps) && CalmFrom(states, steps, calm) && IsPlaced(states(calm), id)
    requires WeaklyFair(DueAt(states), DoneAt(states, steps))
    ensures exists k: nat :: k >= calm && FateFrom(states, k, OrderOf(states(calm), id))
  {
    FairRunsSettle(states, steps, calm);
    var k: nat :| k >= calm && QuietFrom(states, k);
    var o := OrderOf(states(calm), id);
    forall m: nat | m >= k ensures FateMet(states(m), o) {
      OrdersStay(states, steps, calm, m);
      RunSound(states, steps, m);
      FateKept(states(calm), states(m), id);
    }
    assert FateFrom(states, k, o);
  }

  ghost predicate FateFrom(states: States, k: nat, o: Order) {
    forall m: nat {:trigger states(m)} :: m >= k ==> FateMet(states(m), o)
  }

  /** A calm run leaves the orders' own streams alone. */
  lemma {:induction false} OrdersStay(states: States, steps: Steps, n: nat, m: nat)
    requires IsRun(states, steps) && CalmFrom(states, steps, n) && n <= m
    ensures SameOrders(states(n), states(m))
    decreases m - n
  {
    if n < m {
      OrdersStay(states, steps, n, m - 1);
      assert CalmAt(states, steps, m - 1);
      OrdersRest(states, steps, m - 1);
    }
  }

  lemma OrdersRest(states: States, steps: Steps, d: nat)
    requires IsRun(states, steps) && CalmAt(states, steps, d)
    ensures SameOrders(states(d), states(d + 1))
  {
    var ids := PlacedIDs(states(d));
    OneMore(states, steps, ids, d);
  }
}
