/**
 * The notifier at work in the fulfillment system: the projection's fact handlers
 * fill the worklist, any number of workers drain it into the order streams the
 * saga and the projection live beside. What a customer is told is then true, and
 * once everything is drained it is all there is to tell.
 */
module FulfillmentNotices {
  import opened Wrappers
  import opened EventStore
  import opened Messaging
  import opened CommandHandling
  import opened Contracts
  import opened Pipeline
  import opened Topology
  import opened Script
  import opened OrderSummary
  import opened FulfillmentSystem
  import opened FulfillmentInvariant
  import opened FulfillmentGrowth
  import opened FulfillmentSteps
  import opened FulfillmentWorkers
  import opened Fulfillment
  import opened FulfillmentOutcome
  import opened Worklist
  import Billing
  import FulfillmentSaga
  import Notifier = NotifierWorkers
  import Ordering
  import Projection

  // ---- The two together ------------------------------------------------

  /** The system and the notifier's desk, which works on ordering's store. */
  datatype Office = Office(sys: State, desk: Notifier.Desk)

  datatype Act = System(sys: FulfillmentSystem.Step) | Working(work: Notifier.Step)

  const OPEN := Office(START, Notifier.Desk([], [], 1, map[], map[]))

  /** What handling the next fact puts on the worklist. */
  function Queues(s: State, step: FulfillmentSystem.Step): Option<(string, string)> {
    if step == Project(Projection.OnInbox(Projection.ApplyNext)) && s.view.foreign.pos < s.view.foreign.end
      && s.view.foreign.pos < |s.inbox|
    then QueuedBy(s.inbox[s.view.foreign.pos]) else None
  }

  function QueuedBy(m: Message<Contract>): Option<(string, string)> {
    if FulfillmentSaga.Fact(m) && StatusOf(m.body).Some? && Milestone(m.body).Some?
    then Some((m.body.orderId, Milestone(m.body).value)) else None
  }

  /** The order of an ID can be placed and told: an identifier is the canonical text it parses to. */
  predicate Canonical(id: string) { Ordering.ParseOrderID(id) == Some(id) }

  /** A step of the system alone; only workers notify, and orders have parsed identifiers. */
  predicate Permitted(step: FulfillmentSystem.Step) {
    !step.Notify? && (step.Place? ==> Canonical(step.order.id))
  }

  function Enqueuing(desk: Notifier.Desk, pair: Option<(string, string)>): Notifier.Desk {
    if pair.None? then desk else Notifier.Next(desk, Notifier.Enqueue(pair.value.0, pair.value.1))
  }

  /** What a worker that is about to save does to the system. */
  ghost function Saving(s: State, desk: Notifier.Desk, w: nat): State {
    if w !in desk.jobs || desk.jobs[w].done then s
    else FulfillmentSystem.Next(s, Notify(desk.jobs[w].id, desk.jobs[w].row.reason, desk.jobs[w].version))
  }

  /** One atomic step; a step that is not permitted does nothing. */
  ghost function Next(s: Office, act: Act): Office {
    match act
    case System(step) =>
      if !Permitted(step) then s
      else
        var sys := FulfillmentSystem.Next(s.sys, step);
        Office(sys, Enqueuing(s.desk.(log := StoreOf(sys, OrderService)), Queues(s.sys, step)))
    case Working(step) =>
      if step.Commit? then Office(Saving(s.sys, s.desk, step.worker), Notifier.Next(s.desk, step))
      else if step.Claim? || step.Load? || step.Mark? || step.Crash? then s.(desk := Notifier.Next(s.desk, step))
      else s
  }

  ghost function Run(acts: seq<Act>): Office {
    if acts == [] then OPEN else Next(Run(acts[..|acts| - 1]), acts[|acts| - 1])
  }

  // ---- The invariant ---------------------------------------------------

  /** A fact in the inbox calls for this notification. */
  ghost predicate Backed(s: State, id: string, reason: string) {
    exists m :: m in s.inbox && m.body.orderId == id && Milestone(m.body) == Some(reason)
  }

  ghost predicate RowBacked(s: State, row: Worklist.Row) { Backed(s, row.orderId, row.reason) }

  /** Rows, and those that workers hold or work on, come from facts. */
  ghost predicate DeskBacked(s: State, desk: Notifier.Desk) {
    && (forall r :: r in desk.rows ==> RowBacked(s, r))
    && (forall w :: w in desk.held ==> RowBacked(s, desk.held[w]))
    && (forall w :: w in desk.jobs ==> RowBacked(s, desk.jobs[w].row))
  }

  ghost predicate ToldBacked(s: State) {
    forall id, reason :: Ordering.Tells(OrderHistory(s, id), reason) ==> Backed(s, id, reason)
  }

  ghost predicate Shaped(s: State) {
    && (forall id :: Ordering.OrderShape(id, OrderHistory(s, id)))
    && (forall id :: OrderHistory(s, id) != [] ==> Canonical(id))
  }

  /** What the projection has queued is on the worklist. */
  ghost predicate Listed(s: Office) {
    forall id, reason :: (id, reason) in s.sys.view.table.queued ==> Queued(s.desk.rows, id, reason)
  }

  ghost predicate Inv(s: Office) {
    && FulfillmentInvariant.Inv(s.sys) && Notifier.Inv(s.desk)
    && s.desk.log == StoreOf(s.sys, OrderService)
    && Shaped(s.sys) && DeskBacked(s.sys, s.desk) && ToldBacked(s.sys) && Listed(s)
  }

  // ---- What stays backed -----------------------------------------------

  lemma BackedStays(s: State, s': State, id: string, reason: string)
    requires s.inbox <= s'.inbox && Backed(s, id, reason)
    ensures Backed(s', id, reason)
  {
    var m :| m in s.inbox && m.body.orderId == id && Milestone(m.body) == Some(reason);
    assert m in s'.inbox;
  }

  lemma DeskStaysBacked(s: State, s': State, desk: Notifier.Desk)
    requires s.inbox <= s'.inbox && DeskBacked(s, desk)
    ensures DeskBacked(s', desk)
  {
    forall row | RowBacked(s, row) ensures RowBacked(s', row) {
      BackedStays(s, s', row.orderId, row.reason);
    }
  }

  /** No order is told anything new. */
  lemma ToldStaysBacked(s: State, s': State)
    requires s.inbox <= s'.inbox && ToldBacked(s)
    requires forall id, reason ::
      Ordering.Tells(OrderHistory(s', id), reason) ==> Ordering.Tells(OrderHistory(s, id), reason)
    ensures ToldBacked(s')
  {
    forall id, reason | Ordering.Tells(OrderHistory(s', id), reason) ensures Backed(s', id, reason) {
      BackedStays(s, s', id, reason);
    }
  }

  /** A fact that calls for a notification is about a placed order. */
  lemma BackedPlaced(s: State, id: string, reason: string)
    requires StoresInv(s) && InboxInv(s) && Backed(s, id, reason)
    ensures IsPlaced(s, id) && FinalNotice(OrderOf(s, id)) == Some(reason)
  {
    var m :| m in s.inbox && m.body.orderId == id && Milestone(m.body) == Some(reason);
    var svc :| svc != OrderService && m in TopicLog(s, ToInbox(svc));
    var o, j := FactSaid(s, ToInbox(svc), m);
    FactAbout(o, j);
    NoticeSaid(s, o, m);
  }

  // ---- Steps of the system ---------------------------------------------

  /** The inbox only grows. */
  lemma InboxOnlyGains(s: State, step: FulfillmentSystem.Step)
    ensures s.inbox <= FulfillmentSystem.Next(s, step).inbox
  {
  }

  /** What a permitted step of the system does to ordering's store, seen from the desk. */
  function AtDesk(s: State, step: FulfillmentSystem.Step): Option<Notifier.Step> {
    match step
    case Place(o) =>
      if !Placeable(o) then None
      else Some(Notifier.Placing(Ordering.PlaceOrder(o.id, o.customer, Ordering.Money(o.cents, o.currency), o.qty)))
    case Commit(w) =>
      if w in s.work && SagaAppends(s, s.work[w]) then Some(Notifier.Elsewhere(SagaOp(s.work[w]))) else None
    case _ => None
  }

  /** A worker of the saga is about to append, and nobody came before it. */
  predicate SagaAppends(s: State, work: Work) {
    && !work.effected && work.link.ToSaga? && TargetOf(work.link, work.msg).Some?
    && |History(s, OrderService, TargetOf(work.link, work.msg).value)| == work.version
  }

  function SagaOp(work: Work): Op<Event>
    requires TargetOf(work.link, work.msg).Some?
  {
    Op(TargetOf(work.link, work.msg).value, work.version, Stored(work.events))
  }

  function Seen(desk: Notifier.Desk, step: Option<Notifier.Step>): Notifier.Desk {
    if step.None? then desk else Notifier.Next(desk, step.value)
  }

  lemma PlaceSeen(s: State, desk: Notifier.Desk, o: Order)
    requires desk.log == StoreOf(s, OrderService)
    ensures desk.(log := StoreOf(FulfillmentSystem.Next(s, Place(o)), OrderService)) == Seen(desk, AtDesk(s, Place(o)))
  {
    if Placeable(o) {
      assert Ordering.Place(o.id, o.customer, Ordering.Money(o.cents, o.currency), o.qty) == Ok(PlacedBy(o));
      OneNode(s, OrderService, Appending(StreamID(ORDER_CATEGORY, o.id), 0, [PlacedBy(o)]));
    }
  }

  lemma CommitSeen(s: State, desk: Notifier.Desk, w: nat)
    requires WorksInv(s) && desk.log == StoreOf(s, OrderService)
    ensures desk.(log := StoreOf(CommitNext(s, w), OrderService)) == Seen(desk, AtDesk(s, FulfillmentSystem.Commit(w)))
  {
    if w in s.work && !s.work[w].effected && TargetOf(s.work[w].link, s.work[w].msg).Some? {
      var work := s.work[w];
      assert WorkInv(s, work);
      CommitStores(s, CommitNext(s, w), work, w);
      if SagaAppends(s, work) {
        ElsewhereSeen(desk, SagaOp(work));
      }
    }
  }

  lemma ElsewhereSeen(desk: Notifier.Desk, op: Op<Event>)
    requires op.stream.category == SAGA_CATEGORY
    ensures Notifier.Next(desk, Notifier.Elsewhere(op)) ==
      desk.(log := TryAppend(desk.log, op.stream, op.expected, op.events).0)
  {
    SagaCategoryPlain();
  }

  /** Committing appends to ordering's store for the saga alone. */
  lemma CommitStores(s: State, s': State, work: Work, w: nat)
    requires w in s.work && work == s.work[w] && !work.effected && TargetOf(work.link, work.msg).Some?
    requires Wired(work.link) && s' == CommitNext(s, w)
    ensures SagaAppends(s, work) ==>
      && SagaOp(work).stream.category == SAGA_CATEGORY
      && StoreOf(s', OrderService) ==
           TryAppend(StoreOf(s, OrderService), SagaOp(work).stream, work.version, SagaOp(work).events).0
    ensures !SagaAppends(s, work) ==> StoreOf(s', OrderService) == StoreOf(s, OrderService)
  {
    AppendSeen(s, work);
    CommitCases(s, w);
  }

  lemma AppendSeen(s: State, work: Work)
    requires Wired(work.link) && TargetOf(work.link, work.msg).Some?
    ensures var stream := TargetOf(work.link, work.msg).value; var log := StoreOf(s, OrderService);
      StoreOf(FulfillmentSystem.Appended(s, work), OrderService) ==
        if work.link.ToSaga? then TryAppend(log, stream, work.version, Stored(work.events)).0 else log
    ensures work.link.ToSaga? ==> TargetOf(work.link, work.msg).value.category == SAGA_CATEGORY
  {
    SagaCategoryPlain();
    OneNode(s, HomeOf(work.link), Appending(TargetOf(work.link, work.msg).value, work.version, work.events));
  }

  lemma SagaCategoryPlain()
    ensures '/' !in SAGA_CATEGORY && SAGA_CATEGORY != ORDER_CATEGORY
  {
  }

  lemma SystemSeen(s: State, desk: Notifier.Desk, step: FulfillmentSystem.Step)
    requires WorksInv(s) && desk.log == StoreOf(s, OrderService) && Permitted(step)
    ensures desk.(log := StoreOf(FulfillmentSystem.Next(s, step), OrderService)) == Seen(desk, AtDesk(s, step))
  {
    match step {
      case Place(o) => PlaceSeen(s, desk, o);
      case Commit(w) => CommitSeen(s, desk, w);
      case Relaying(svc, ns) => RelayingSeen(s, svc, ns);
      case _ =>
    }
  }

  lemma RelayingSeen(s: State, svc: Service, step: NodeStep<Event>)
    ensures StoreOf(FulfillmentSystem.Next(s, Relaying(svc, step)), OrderService) == StoreOf(s, OrderService)
  {
    if !step.Append? {
      OneNode(s, svc, step);
      NodeNextGrows(RelayOf(svc), NodeOf(s, svc), step);
    }
  }

  // ---- Order streams under the system's steps ---------------------------

  /** A step of the system places an order that had no history, or leaves the orders' own streams alone. */
  ghost predicate OrdersAfter(s: State, s': State, step: FulfillmentSystem.Step) {
    forall id :: OrderHistory(s', id) == OrderHistory(s, id)
      || (step.Place? && step.order.id == id && OrderHistory(s, id) == []
          && OrderHistory(s', id) == [PlacedBy(step.order)])
  }

  lemma PlaceOrders(s: State, o: Order)
    requires StoresInv(s) && Placeable(o)
    ensures OrdersAfter(s, FulfillmentSystem.Next(s, Place(o)), Place(o))
  {
    CategoriesDiffer();
    AppendEffect(s, OrderService, StreamID(ORDER_CATEGORY, o.id), 0, [PlacedBy(o)]);
  }

  lemma CommitOrders(s: State, s': State, w: nat)
    requires StoresInv(s) && WorksInv(s) && s' == CommitNext(s, w)
    ensures OrdersAfter(s, s', FulfillmentSystem.Commit(w))
  {
    if w in s.work && !s.work[w].effected && TargetOf(s.work[w].link, s.work[w].msg).Some? {
      var work := s.work[w];
      assert WorkInv(s, work);
      CommitLeavesOrders(s, work);
      CommitCases(s, w);
      SameOrders(s, FulfillmentSystem.Appended(s, work), s');
    } else {
      assert s' == s;
    }
  }

  /** The orders' streams are a matter of the stores alone. */
  lemma SameOrders(s: State, a: State, s': State)
    requires forall id :: OrderHistory(a, id) == OrderHistory(s, id)
    requires s'.nodes == s.nodes || s'.nodes == a.nodes
    ensures forall id :: OrderHistory(s', id) == OrderHistory(s, id)
  {
    assert s'.nodes == s.nodes ==> StoreOf(s', OrderService) == StoreOf(s, OrderService);
    assert s'.nodes == a.nodes ==> StoreOf(s', OrderService) == StoreOf(a, OrderService);
  }

  lemma CommitLeavesOrders(s: State, work: Work)
    requires StoresInv(s) && Wired(work.link) && TargetOf(work.link, work.msg).Some?
    ensures forall id :: OrderHistory(FulfillmentSystem.Appended(s, work), id) == OrderHistory(s, id)
  {
    var stream, home := TargetOf(work.link, work.msg).value, HomeOf(work.link);
    CategoriesDiffer();
    AppendEffect(s, home, stream, work.version, work.events);
    forall id ensures OrderHistory(FulfillmentSystem.Appended(s, work), id) == OrderHistory(s, id) {
      assert home == OrderService ==> stream != StreamID(ORDER_CATEGORY, id);
    }
  }

  lemma SystemOrders(s: State, s': State, step: FulfillmentSystem.Step)
    requires StoresInv(s) && WorksInv(s) && Permitted(step) && s' == FulfillmentSystem.Next(s, step)
    ensures OrdersAfter(s, s', step)
  {
    match step {
      case Place(o) =>
        if Placeable(o) {
          PlaceOrders(s, o);
        }
      case Commit(w) => CommitOrders(s, s', w);
      case Relaying(svc, ns) =>
        RelayingSeen(s, svc, ns);
        SameStoreOrders(s, s');
      case _ =>
        OtherStores(s, s', step);
        SameStoreOrders(s, s');
    }
  }

  lemma SameStoreOrders(s: State, s': State)
    requires StoreOf(s', OrderService) == StoreOf(s, OrderService)
    ensures forall id :: OrderHistory(s', id) == OrderHistory(s, id)
  {
  }

  lemma OtherStores(s: State, s': State, step: FulfillmentSystem.Step)
    requires s' == FulfillmentSystem.Next(s, step)
    requires !step.Place? && !step.Notify? && !step.Relaying? && !step.Commit?
    ensures StoreOf(s', OrderService) == StoreOf(s, OrderService)
  {
  }

  lemma ShapedStays(s: State, s': State, step: FulfillmentSystem.Step)
    requires Shaped(s) && OrdersAfter(s, s', step) && Permitted(step)
    ensures Shaped(s')
    ensures forall id, reason ::
      Ordering.Tells(OrderHistory(s', id), reason) ==> Ordering.Tells(OrderHistory(s, id), reason)
  {
  }

  // ---- The worklist under the system's steps -----------------------------

  lemma FoundOnList(rows: seq<Worklist.Row>, nextId: nat, orderId: string, reason: string, id: string, r: string)
    requires Queued(rows, id, r)
    ensures Queued(Enqueued(rows, nextId, orderId, reason), id, r)
  {
  }

  lemma EnqueuedFound(rows: seq<Worklist.Row>, nextId: nat, orderId: string, reason: string)
    ensures Queued(Enqueued(rows, nextId, orderId, reason), orderId, reason)
  {
    if !Queued(rows, orderId, reason) {
      var row := Worklist.Row(nextId, orderId, reason, false);
      assert row in Enqueued(rows, nextId, orderId, reason);
    }
  }

  /** The queued pairs of the table after a step: those before, and the one this step queues. */
  lemma QueuedAfter(s: State, step: FulfillmentSystem.Step, id: string, reason: string)
    requires (id, reason) in FulfillmentSystem.Next(s, step).view.table.queued
    requires FulfillmentInvariant.ViewInv(s)
    ensures (id, reason) in s.view.table.queued || Queues(s, step) == Some((id, reason))
  {
    if step.Project? {
      ViewQueues(s, step.viewStep, id, reason);
    }
  }

  lemma ViewQueues(s: State, step: Projection.ViewStep, id: string, reason: string)
    requires FulfillmentInvariant.ViewInv(s)
    requires (id, reason) in FulfillmentSystem.Next(s, Project(step)).view.table.queued
    ensures (id, reason) in s.view.table.queued || Queues(s, Project(step)) == Some((id, reason))
  {
    var own, foreign := OwnItems(StoreOf(s, OrderService)), ForeignItems(s.inbox);
    match step {
      case OnStore(rs) =>
        var item := Projection.Handles(FirstWrite, own, s.view.own, rs);
        assert item.Some? ==> item.value.Own?;
      case OnInbox(rs) =>
        var item := Projection.Handles(FirstWrite, foreign, s.view.foreign, rs);
        if item.Some? && rs.ApplyNext? {
          assert item.value == Item.Foreign(s.inbox[s.view.foreign.pos]);
        } else if item.Some? {
          assert item.value == Raising(s.inbox[s.view.foreign.pos]);
        }
      case Rebuild =>
    }
  }

  lemma ListedStays(s: Office, step: FulfillmentSystem.Step)
    requires Inv(s) && Permitted(step)
    ensures Listed(Next(s, System(step)))
  {
    var s' := Next(s, System(step));
    forall id, reason | (id, reason) in s'.sys.view.table.queued ensures Queued(s'.desk.rows, id, reason) {
      QueuedAfter(s.sys, step, id, reason);
      OnTheList(s.desk.(log := s'.desk.log), Queues(s.sys, step), id, reason);
    }
  }

  lemma OnTheList(desk: Notifier.Desk, pair: Option<(string, string)>, id: string, reason: string)
    requires Queued(desk.rows, id, reason) || pair == Some((id, reason))
    ensures Queued(Enqueuing(desk, pair).rows, id, reason)
  {
    if pair.Some? {
      if Queued(desk.rows, id, reason) {
        FoundOnList(desk.rows, desk.nextId, pair.value.0, pair.value.1, id, reason);
      } else {
        EnqueuedFound(desk.rows, desk.nextId, id, reason);
      }
    }
  }

  lemma EnqueuingBacked(s: State, desk: Notifier.Desk, pair: Option<(string, string)>)
    requires DeskBacked(s, desk) && (pair.Some? ==> Backed(s, pair.value.0, pair.value.1))
    ensures DeskBacked(s, Enqueuing(desk, pair))
  {
    if pair.Some? {
      forall r | r in Enqueuing(desk, pair).rows ensures RowBacked(s, r) {
        assert r in desk.rows || r == Worklist.Row(desk.nextId, pair.value.0, pair.value.1, false);
      }
    }
  }

  lemma QueuesBacked(s: State, step: FulfillmentSystem.Step)
    requires Queues(s, step).Some?
    ensures Backed(s, Queues(s, step).value.0, Queues(s, step).value.1)
  {
    assert s.inbox[s.view.foreign.pos] in s.inbox;
  }

  // ---- Every step keeps the invariant ------------------------------------

  lemma DeskKeeps(desk: Notifier.Desk, step: Option<Notifier.Step>, pair: Option<(string, string)>)
    requires Notifier.Inv(desk)
    ensures Notifier.Inv(Enqueuing(Seen(desk, step), pair))
  {
    if step.Some? {
      Notifier.NextKeeps(desk, step.value);
    }
    if pair.Some? {
      Notifier.NextKeeps(Seen(desk, step), Notifier.Enqueue(pair.value.0, pair.value.1));
    }
  }

  lemma SystemKeeps(s: Office, s': Office, step: FulfillmentSystem.Step)
    requires Inv(s) && Permitted(step) && s' == Next(s, System(step))
    ensures Inv(s')
  {
    NextKeeps(s.sys, step);
    SystemDesk(s, s', step);
    SystemTold(s.sys, s'.sys, step);
    SystemBacked(s, s', step);
    ListedStays(s, step);
  }

  lemma SystemDesk(s: Office, s': Office, step: FulfillmentSystem.Step)
    requires WorksInv(s.sys) && Notifier.Inv(s.desk) && s.desk.log == StoreOf(s.sys, OrderService)
    requires Permitted(step) && s' == Next(s, System(step))
    ensures Notifier.Inv(s'.desk) && s'.desk.log == StoreOf(s'.sys, OrderService)
  {
    SystemSeen(s.sys, s.desk, step);
    DeskKeeps(s.desk, AtDesk(s.sys, step), Queues(s.sys, step));
  }

  lemma SystemTold(s: State, s': State, step: FulfillmentSystem.Step)
    requires StoresInv(s) && WorksInv(s) && Shaped(s) && ToldBacked(s)
    requires Permitted(step) && s' == FulfillmentSystem.Next(s, step)
    ensures Shaped(s') && ToldBacked(s')
  {
    SystemOrders(s, s', step);
    ShapedStays(s, s', step);
    InboxOnlyGains(s, step);
    ToldStaysBacked(s, s');
  }

  lemma SystemBacked(s: Office, s': Office, step: FulfillmentSystem.Step)
    requires DeskBacked(s.sys, s.desk) && Permitted(step) && s' == Next(s, System(step))
    ensures DeskBacked(s'.sys, s'.desk)
  {
    InboxOnlyGains(s.sys, step);
    DeskStaysBacked(s.sys, s'.sys, s.desk);
    if Queues(s.sys, step).Some? {
      QueuesBacked(s.sys, step);
      BackedStays(s.sys, s'.sys, Queues(s.sys, step).value.0, Queues(s.sys, step).value.1);
    }
    EnqueuingBacked(s'.sys, s.desk.(log := StoreOf(s'.sys, OrderService)), Queues(s.sys, step));
  }

  /** Claiming, loading, marking and crashing touch the desk alone. */
  lemma DeskWorkBacked(s: State, desk: Notifier.Desk, step: Notifier.Step)
    requires DeskBacked(s, desk) && (step.Claim? || step.Load? || step.Mark? || step.Crash? || step.Commit?)
    ensures DeskBacked(s, Notifier.Next(desk, step))
  {
    match step {
      case Mark(w) =>
        if w in desk.jobs && desk.jobs[w].done {
          MarkedBacked(s, desk.rows, desk.jobs[w].row.id);
        }
      case Claim(w, k) =>
        if k < |desk.rows| {
          assert desk.rows[k] in desk.rows;
        }
      case _ =>
    }
  }

  lemma MarkedBacked(s: State, rows: seq<Worklist.Row>, id: nat)
    requires forall r :: r in rows ==> RowBacked(s, r)
    ensures forall r :: r in Marked(rows, id) ==> RowBacked(s, r)
  {
    forall r | r in Marked(rows, id) ensures RowBacked(s, r) {
      var k :| 0 <= k < |rows| && Marked(rows, id)[k] == r;
      assert rows[k] in rows;
    }
  }

  /** No row ever leaves the worklist. */
  lemma RowsStayListed(desk: Notifier.Desk, step: Notifier.Step, id: string, reason: string)
    requires Queued(desk.rows, id, reason)
    requires step.Claim? || step.Load? || step.Mark? || step.Crash? || step.Commit?
    ensures Queued(Notifier.Next(desk, step).rows, id, reason)
  {
    if step.Mark? && step.worker in desk.jobs {
      var r :| r in desk.rows && r.orderId == id && r.reason == reason;
      var k :| 0 <= k < |desk.rows| && desk.rows[k] == r;
      assert Marked(desk.rows, desk.jobs[step.worker].row.id)[k] in Marked(desk.rows, desk.jobs[step.worker].row.id);
    }
  }

  lemma ListKept(s: Office, s': Office, step: Notifier.Step)
    requires Listed(s) && s'.desk == Notifier.Next(s.desk, step) && s'.sys.view == s.sys.view
    requires step.Claim? || step.Load? || step.Mark? || step.Crash? || step.Commit?
    ensures Listed(s')
  {
    forall id, reason | (id, reason) in s'.sys.view.table.queued ensures Queued(s'.desk.rows, id, reason) {
      RowsStayListed(s.desk, step, id, reason);
    }
  }

  lemma DeskWorkKeeps(s: Office, step: Notifier.Step)
    requires Inv(s) && (step.Claim? || step.Load? || step.Mark? || step.Crash?)
    ensures Inv(Next(s, Working(step)))
  {
    Notifier.NextKeeps(s.desk, step);
    DeskWorkBacked(s.sys, s.desk, step);
    ListKept(s, Next(s, Working(step)), step);
  }

  // ---- A worker saves ----------------------------------------------------

  /** What a worker that decided on a prefix of the order's stream is about to append. */
  lemma JobNotifies(id: string, es: seq<Event>, orderId: string, reason: string)
    requires Ordering.OrderShape(id, es)
    requires Ordering.React(es, Ordering.NotifyCustomer(orderId, reason)).Emit?
    ensures es != [] && reason != "" && !Ordering.Tells(es, reason)
    ensures Ordering.React(es, Ordering.NotifyCustomer(orderId, reason)).events == [CustomerNotified(id, reason)]
  {
    Ordering.ShapeReplays(id, es);
    Ordering.NotifiedInHistory(es, reason);
  }

  /** The worker's save is the system's notification: both append the same event, or neither does. */
  ghost predicate Saves(s: Office, job: Notifier.Job) {
    && job.id == job.row.orderId && Backed(s.sys, job.id, job.row.reason) && job.version > 0
    && (|OrderHistory(s.sys, job.id)| == job.version ==>
          && job.events == [CustomerNotified(job.id, job.row.reason)]
          && Ordering.OrderShape(job.id, OrderHistory(s.sys, job.id) + job.events))
  }

  lemma JobSaves(s: Office, w: nat)
    requires Inv(s) && w in s.desk.jobs && !s.desk.jobs[w].done
    ensures Saves(s, s.desk.jobs[w])
  {
    var job := s.desk.jobs[w];
    assert Notifier.JobInv(s.desk.log, job) && RowBacked(s.sys, job.row);
    BackedPlaced(s.sys, job.row.orderId, job.row.reason);
    assert Canonical(job.row.orderId);
    JobDecided(s.sys, s.desk.log, job);
  }

  lemma JobDecided(s: State, log: Log<Event>, job: Notifier.Job)
    requires log == StoreOf(s, OrderService) && Notifier.JobInv(log, job) && !job.done && job.id == job.row.orderId
    requires Ordering.OrderShape(job.id, OrderHistory(s, job.id))
    ensures job.version > 0
    ensures |OrderHistory(s, job.id)| == job.version ==>
      && job.events == [CustomerNotified(job.id, job.row.reason)]
      && Ordering.OrderShape(job.id, OrderHistory(s, job.id) + job.events)
  {
    var history := OrderHistory(s, job.id);
    var cmd := Ordering.NotifyCustomer(job.row.orderId, job.row.reason);
    assert history == Notifier.OrderEvents(log, job.id);
    assert Ordering.React([], cmd).Fault?;
    assert history[..0] == [];
    if |history| == job.version {
      assert history[..job.version] == history;
      JobNotifies(job.id, history, job.row.orderId, job.row.reason);
      Ordering.ReactKeepsShape(history, cmd);
    }
  }

  /** The orders' streams after a worker's save. */
  ghost predicate OneSaved(s: State, s': State, job: Notifier.Job) {
    forall id ::
      OrderHistory(s', id) ==
        OrderHistory(s, id) + (if id == job.id && |OrderHistory(s, id)| == job.version then job.events else [])
  }

  lemma SavingOrders(s: Office, s': State, job: Notifier.Job)
    requires StoresInv(s.sys) && Saves(s, job)
    requires s' == FulfillmentSystem.Next(s.sys, Notify(job.id, job.row.reason, job.version))
    ensures OneSaved(s.sys, s', job)
  {
    CategoriesDiffer();
    AppendEffect(s.sys, OrderService, StreamID(ORDER_CATEGORY, job.id), job.version,
                 [CustomerNotified(job.id, job.row.reason)]);
  }

  lemma SavingSeen(s: Office, w: nat)
    requires s.desk.log == StoreOf(s.sys, OrderService)
    requires w in s.desk.jobs && !s.desk.jobs[w].done && Saves(s, s.desk.jobs[w])
    ensures Notifier.Next(s.desk, Notifier.Commit(w)).log == StoreOf(Saving(s.sys, s.desk, w), OrderService)
  {
    var job := s.desk.jobs[w];
    OneNode(s.sys, OrderService, Appending(StreamID(ORDER_CATEGORY, job.id), job.version,
                                           [CustomerNotified(job.id, job.row.reason)]));
    TryAppendLaw(s.desk.log, StreamID(ORDER_CATEGORY, job.id), job.version,
                 Stored([CustomerNotified(job.id, job.row.reason)]));
    assert |Notifier.OrderEvents(s.desk.log, job.id)| == |StreamOf(s.desk.log, StreamID(ORDER_CATEGORY, job.id))|;
  }

  lemma SavingShaped(s: Office, s': State, job: Notifier.Job)
    requires Shaped(s.sys) && ToldBacked(s.sys) && Saves(s, job) && s'.inbox == s.sys.inbox
    requires OneSaved(s.sys, s', job)
    ensures Shaped(s') && ToldBacked(s')
  {
    forall id ensures Ordering.OrderShape(id, OrderHistory(s', id)) && (OrderHistory(s', id) != [] ==> Canonical(id)) {
      assert OrderHistory(s.sys, id) + [] == OrderHistory(s.sys, id);
    }
    forall id, reason | Ordering.Tells(OrderHistory(s', id), reason) ensures Backed(s', id, reason) {
      assert OrderHistory(s.sys, id) + [] == OrderHistory(s.sys, id);
      if Ordering.Tells(OrderHistory(s.sys, id), reason) {
        BackedStays(s.sys, s', id, reason);
      } else {
        var e :| e in OrderHistory(s', id) && e.CustomerNotified? && e.reason == reason;
        assert e in job.events;
        BackedStays(s.sys, s', job.id, job.row.reason);
      }
    }
  }

  /** The system's side of a worker's save. */
  lemma SavingSystem(s: Office, s': State, w: nat)
    requires Inv(s) && s' == Saving(s.sys, s.desk, w)
    ensures FulfillmentInvariant.Inv(s') && Shaped(s') && ToldBacked(s')
    ensures s' == s.sys.(nodes := s'.nodes)
    ensures Notifier.Next(s.desk, Notifier.Commit(w)).log == StoreOf(s', OrderService)
  {
    if w in s.desk.jobs && !s.desk.jobs[w].done {
      var job := s.desk.jobs[w];
      JobSaves(s, w);
      NextKeeps(s.sys, Notify(job.id, job.row.reason, job.version));
      NotifyNodes(s.sys, s', job.id, job.row.reason, job.version);
      SavingSeen(s, w);
      SavingOrders(s, s', job);
      SavingShaped(s, s', job);
    }
  }

  lemma NotifyNodes(s: State, s': State, id: string, reason: string, version: nat)
    requires s' == FulfillmentSystem.Next(s, Notify(id, reason, version))
    ensures s' == s.(nodes := s'.nodes)
  {
  }

  lemma SaveKeeps(s: Office, s': Office, w: nat)
    requires Inv(s) && s' == Next(s, Working(Notifier.Commit(w)))
    ensures Inv(s')
  {
    Notifier.NextKeeps(s.desk, Notifier.Commit(w));
    SavingSystem(s, s'.sys, w);
    DeskWorkBacked(s.sys, s.desk, Notifier.Commit(w));
    DeskStaysBacked(s.sys, s'.sys, s'.desk);
    ListKept(s, s', Notifier.Commit(w));
  }

  lemma OfficeKeeps(s: Office, act: Act)
    requires Inv(s)
    ensures Inv(Next(s, act))
  {
    match act {
      case System(step) =>
        if Permitted(step) {
          SystemKeeps(s, Next(s, act), step);
        }
      case Working(step) =>
        if step.Commit? {
          SaveKeeps(s, Next(s, act), step.worker);
        } else if step.Claim? || step.Load? || step.Mark? || step.Crash? {
          DeskWorkKeeps(s, step);
        }
    }
  }

  lemma {:induction false} OfficeRunKeeps(acts: seq<Act>)
    ensures Inv(Run(acts))
  {
    if acts == [] {
      StartInv();
      Notifier.RunKeeps([]);
      assert forall id :: OrderHistory(START, id) == [];
    } else {
      OfficeRunKeeps(acts[..|acts| - 1]);
      OfficeKeeps(Run(acts[..|acts| - 1]), acts[|acts| - 1]);
    }
  }

  // ---- The theorems ----------------------------------------------------

  lemma WhyTold(s: State, id: string, reason: string)
    requires StoresInv(s) && InboxInv(s) && Backed(s, id, reason)
    ensures IsPlaced(s, id)
    ensures var o := OrderOf(s, id);
      || (reason == "shipped" && ShipmentHistory(s, id) == [ShipmentDispatched(id)])
      || (reason == "payment_failed" && PaymentHistory(s, id) == [PaymentFailed(id, Billing.LIMIT_REASON)])
  {
    BackedPlaced(s, id, reason);
    var m :| m in s.inbox && m.body.orderId == id && Milestone(m.body) == Some(reason);
    var o := OrderOf(s, id);
    var j := InboxSaid(s, o, m);
    PlacedAt(s, id);
    TellingBeat(o, Phase(s, id), j);
  }

  /** A beat that calls for a notification has been played in the stream it is about. */
  lemma TellingBeat(o: Order, k: nat, j: nat)
    requires Spoken(o, k, j) && Numbered(j) && j % 2 == 0 && j > 0 && Milestone(Says(o, j)).Some?
    ensures
      || (Milestone(Says(o, j)) == Some("shipped") && ShipmentAt(o, k) == [ShipmentDispatched(o.id)])
      || (Milestone(Says(o, j)) == Some("payment_failed")
          && PaymentAt(o, k) == [PaymentFailed(o.id, Billing.LIMIT_REASON)])
  {
  }

  /**
   * Customers are told the truth. In every run, whatever crashes and is handled
   * again: an order's stream says that it was shipped only if its shipment was
   * dispatched, and that its payment failed only if the payment was declined;
   * it says nothing else, and nothing twice.
   */
  lemma NoticesTrue(acts: seq<Act>, id: string, reason: string)
    requires Ordering.Tells(OrderHistory(Run(acts).sys, id), reason)
    ensures var s := Run(acts).sys;
      && IsPlaced(s, id) && FinalNotice(OrderOf(s, id)) == Some(reason)
      && (reason == "shipped" ==> ShipmentHistory(s, id) == [ShipmentDispatched(id)])
      && (reason == "payment_failed" ==> PaymentHistory(s, id) == [PaymentFailed(id, Billing.LIMIT_REASON)])
      && reason in {"shipped", "payment_failed"} && Ordering.ReasonsDistinct(OrderHistory(s, id))
  {
    OfficeRunKeeps(acts);
    var s := Run(acts).sys;
    assert Ordering.OrderShape(id, OrderHistory(s, id));
    BackedPlaced(s, id, reason);
    WhyTold(s, id, reason);
  }

  /** Nothing is left to do for the workers either. */
  ghost predicate Drained(s: Office) {
    Quiescent(s.sys) && forall r :: r in s.desk.rows ==> r.sent
  }

  lemma DrainedTold(s: Office, id: string, reason: string)
    requires Inv(s) && Drained(s) && IsPlaced(s.sys, id) && FinalNotice(OrderOf(s.sys, id)) == Some(reason)
    ensures Ordering.Tells(OrderHistory(s.sys, id), reason)
  {
    FinalQueue(s.sys, OrderOf(s.sys, id), reason);
    var r :| r in s.desk.rows && r.orderId == id && r.reason == reason;
    assert Notifier.Heard(s.desk.log, r) && Canonical(id);
  }

  lemma ReasonsApart(id: string, es: seq<Event>, i: nat, j: nat)
    requires Ordering.OrderShape(id, es) && 1 <= i < j < |es|
    ensures es[i].CustomerNotified? && es[j].CustomerNotified? && es[i].reason != es[j].reason
  {
  }

  /** A stream of this shape that tells one reason, or none, is this one. */
  lemma OneNotice(id: string, es: seq<Event>, notice: Option<string>)
    requires Ordering.OrderShape(id, es) && es != []
    requires forall reason :: Ordering.Tells(es, reason) <==> notice == Some(reason)
    ensures es == [es[0]] + (if notice.Some? then [CustomerNotified(id, notice.value)] else [])
  {
    AtMostOneNotice(id, es, notice);
    assert notice.Some? ==> Ordering.Tells(es, notice.value);
    if |es| == 2 {
      assert es[1] in es && Ordering.Tells(es, es[1].reason);
      assert es == [es[0], CustomerNotified(id, es[1].reason)];
    }
  }

  lemma AtMostOneNotice(id: string, es: seq<Event>, notice: Option<string>)
    requires Ordering.OrderShape(id, es)
    requires forall reason :: Ordering.Tells(es, reason) ==> notice == Some(reason)
    ensures |es| <= 2
  {
    if |es| > 2 {
      ReasonsApart(id, es, 1, 2);
      ReasonGiven(es, 1, notice);
      ReasonGiven(es, 2, notice);
    }
  }

  lemma ReasonGiven(es: seq<Event>, k: nat, notice: Option<string>)
    requires k < |es| && es[k].CustomerNotified?
    requires forall reason :: Ordering.Tells(es, reason) ==> notice == Some(reason)
    ensures notice == Some(es[k].reason)
  {
    assert es[k] in es && Ordering.Tells(es, es[k].reason);
  }

  /**
   * Customers are told everything. Once nothing is left to relay, deliver or
   * project and every row of the worklist is sent, each order's stream is its
   * placement and the one notification its fate calls for, if it calls for one.
   */
  lemma NoticesComplete(acts: seq<Act>, id: string)
    requires Drained(Run(acts)) && IsPlaced(Run(acts).sys, id)
    ensures var s := Run(acts).sys; var o := OrderOf(s, id);
      OrderHistory(s, id) == [PlacedBy(o)] +
        (if o.cents > 99_999 then [CustomerNotified(id, "payment_failed")]
         else if o.qty > 10 then [] else [CustomerNotified(id, "shipped")])
  {
    OfficeRunKeeps(acts);
    var s := Run(acts);
    var o := OrderOf(s.sys, id);
    forall reason ensures Ordering.Tells(OrderHistory(s.sys, id), reason) <==> FinalNotice(o) == Some(reason) {
      if FinalNotice(o) == Some(reason) {
        DrainedTold(s, id, reason);
      } else if Ordering.Tells(OrderHistory(s.sys, id), reason) {
        BackedPlaced(s.sys, id, reason);
      }
    }
    OneNotice(id, OrderHistory(s.sys, id), FinalNotice(o));
  }
}
