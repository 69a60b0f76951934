/**
 * Read-your-writes end to end (eventstore/position.go, projection/wait.go):
 * place an order, wait for the position it was stored at, and its row is in the
 * order_summary view, whatever else the system did meanwhile.
 */
module ReadYourWrites {
  import opened Wrappers
  import opened EventStore
  import opened Registry
  import opened Contracts
  import opened CommandHandling
  import opened Pipeline
  import opened Script
  import opened Topology
  import opened OrderSummary
  import opened FulfillmentSystem
  import opened FulfillmentInvariant
  import opened Fulfillment
  import opened FulfillmentOutcome
  import Ordering
  import Projection
  import ProjectionRunner
  import Repository

  // ---- Stores never shrink ---------------------------------------------

  lemma NodeStepGrows(s: State, svc: Service, step: NodeStep<Event>, t: Service)
    ensures StoreOf(s, t) <= StoreOf(WithNode(s, svc, step), t)
  {
    NodeNextGrows(RelayOf(svc), NodeOf(s, svc), step);
  }

  lemma StoreGrows(s: State, step: Step, t: Service)
    ensures StoreOf(s, t) <= StoreOf(Next(s, step), t)
  {
    match step {
      case Place(o) =>
        NodeStepGrows(s, OrderService, Appending(StreamID(ORDER_CATEGORY, o.id), 0, [PlacedBy(o)]), t);
      case Notify(id, reason, version) =>
        var told := [CustomerNotified(id, reason)];
        NodeStepGrows(s, OrderService, Appending(StreamID(ORDER_CATEGORY, id), version, told), t);
      case Relaying(svc, ns) => NodeStepGrows(s, svc, ns, t);
      case Commit(w) => CommitGrows(s, w, t);
      case _ => SameNodesElse(s, step);
    }
  }

  lemma SameNodesElse(s: State, step: Step)
    requires !step.Place? && !step.Notify? && !step.Relaying? && !step.Commit?
    ensures Next(s, step).nodes == s.nodes
  {
  }

  lemma CommitGrows(s: State, w: nat, t: Service)
    ensures StoreOf(s, t) <= StoreOf(Next(s, Commit(w)), t)
  {
    if w in s.work && TargetOf(s.work[w].link, s.work[w].msg).Some? {
      CommittedGrows(s, s.work[w], t);
      CommitStores(s, CommitNext(s, w), w);
    }
  }

  lemma CommitStores(s: State, s': State, w: nat)
    requires w in s.work && TargetOf(s.work[w].link, s.work[w].msg).Some? && s' == CommitNext(s, w)
    ensures s'.nodes == s.nodes || s'.nodes == FulfillmentSystem.Appended(s, s.work[w]).nodes
  {
  }

  lemma CommittedGrows(s: State, work: Work, t: Service)
    requires TargetOf(work.link, work.msg).Some?
    ensures StoreOf(s, t) <= StoreOf(FulfillmentSystem.Appended(s, work), t)
  {
    NodeStepGrows(s, HomeOf(work.link), Appending(TargetOf(work.link, work.msg).value, work.version, work.events), t);
  }

  lemma {:induction false} RunStoreGrows(steps: seq<Step>, more: seq<Step>, t: Service)
    ensures StoreOf(Run(steps), t) <= StoreOf(Run(steps + more), t)
  {
    if more == [] {
      assert steps + more == steps;
    } else {
      var init := more[..|more| - 1];
      assert (steps + more)[..|steps + more| - 1] == steps + init;
      RunStoreGrows(steps, init, t);
      StoreGrows(Run(steps + init), more[|more| - 1], t);
    }
  }

  // ---- What a checkpoint means for a placed order ------------------------

  /** The order's row is in the view, with the columns that were ordered. */
  ghost predicate Shown(s: State, o: Order) {
    var rows := s.view.table.rows;
    o.id in rows && rows[o.id].base == Base(o.customer, o.cents, o.currency, o.qty)
  }

  /** A placement at or below the store checkpoint is in the view. */
  lemma PlacementShows(s: State, k: nat, o: Order)
    requires Inv(s) && k < s.view.own.cp && k < |StoreOf(s, OrderService)|
    requires StoreOf(s, OrderService)[k].data.payload == PlacedBy(o)
    ensures Shown(s, o)
  {
    var own, foreign := OwnItems(StoreOf(s, OrderService)), ForeignItems(s.inbox);
    PlacementsUnique(s);
    SummaryRepairable(Items(s));
    Projection.CheckpointReflected(Summarize, FirstWrite, EMPTY, own, foreign, s.view, s.view.own.cp);
    assert Summarize(s.view.table, own[k]) == s.view.table;
  }

  lemma PlacementShown(steps: seq<Step>, k: nat, o: Order)
    requires k < Run(steps).view.own.cp && k < |StoreOf(Run(steps), OrderService)|
    requires StoreOf(Run(steps), OrderService)[k].data.payload == PlacedBy(o)
    ensures Shown(Run(steps), o)
  {
    RunKeeps(steps);
    PlacementShows(Run(steps), k, o);
  }

  /** What saving a new order's placement does to ordering's store. */
  function Saved(s: State, o: Order): (Log<Event>, Result<int>) {
    TryAppend(StoreOf(s, OrderService), StreamID(ORDER_CATEGORY, o.id), 0, Stored([PlacedBy(o)]))
  }

  lemma PlacingStores(s: State, o: Order)
    requires Placeable(o) && Saved(s, o).1.Ok?
    ensures var log := StoreOf(Next(s, Place(o)), OrderService);
      log == Saved(s, o).0 && Saved(s, o).1.value == |log| > 0 && log[|log| - 1].data.payload == PlacedBy(o)
  {
    var stream := StreamID(ORDER_CATEGORY, o.id);
    TryAppendLaw(StoreOf(s, OrderService), stream, 0, Stored([PlacedBy(o)]));
    AppendAllLaw(StoreOf(s, OrderService), stream, Stored([PlacedBy(o)]));
    assert StoreOf(Next(s, Place(o)), OrderService) == Saved(s, o).0;
  }

  /**
   * Read-your-writes for a placed order. Place it at any point of any run, and
   * let the run go on in any way, with crashes and rebuilds. Whenever the store
   * checkpoint has reached a position no lower than the one the save reported,
   * the order's row is in the view with the columns that were ordered.
   */
  lemma PlacedShows(steps: seq<Step>, o: Order, more: seq<Step>, seqNo: int)
    requires Placeable(o) && Saved(Run(steps), o).1.Ok?
    requires Saved(Run(steps), o).1.value <= seqNo <= Run(steps + [Place(o)] + more).view.own.cp
    ensures Shown(Run(steps + [Place(o)] + more), o)
  {
    PlacementStays(steps, o, more);
    PlacementShown(steps + [Place(o)] + more, Saved(Run(steps), o).1.value - 1, o);
  }

  /** The placement stays where it was stored. */
  lemma PlacementStays(steps: seq<Step>, o: Order, more: seq<Step>)
    requires Placeable(o) && Saved(Run(steps), o).1.Ok?
    ensures var log := StoreOf(Run(steps + [Place(o)] + more), OrderService); var k := Saved(Run(steps), o).1.value;
      0 < k <= |log| && log[k - 1].data.payload == PlacedBy(o)
  {
    PlacingSaved(steps, o, Saved(Run(steps), o).0);
    PlacingStores(Run(steps), o);
    RunStoreGrows(steps + [Place(o)], more, OrderService);
  }

  // ---- The operations in sequence --------------------------------------

  /** The registry serializes a placement as ordering's store keeps it in the system model. */
  ghost predicate StoresPlainly(registry: EventRegistry<Event, Event>, e: Event)
    reads registry
  {
    EncodeAll(registry.entries, registry.codec, [e]) == Ok(Stored([e]))
  }

  lemma PlacingSaved(steps: seq<Step>, o: Order, log: Log<Event>)
    requires Placeable(o) && Saved(Run(steps), o).1.Ok? && log == Saved(Run(steps), o).0
    ensures log == StoreOf(Run(steps + [Place(o)]), OrderService) && Saved(Run(steps), o).1.value == |log|
  {
    PlacingStores(Run(steps), o);
    assert (steps + [Place(o)])[..|steps|] == steps;
  }

  lemma PlaceAccepts(o: Order, total: Ordering.Money)
    requires Placeable(o) && total == Ordering.Money(o.cents, o.currency)
    ensures Ordering.Place(o.id, o.customer, total, o.qty) == Ok(PlacedBy(o))
  {
  }

  /** A placement is saved exactly if its stream is empty. */
  lemma SavedFresh(s: State, o: Order)
    ensures Saved(s, o).1.Ok? <==> Events(StoreOf(s, OrderService), StreamID(ORDER_CATEGORY, o.id)) == []
  {
    TryAppendLaw(StoreOf(s, OrderService), StreamID(ORDER_CATEGORY, o.id), 0, Stored([PlacedBy(o)]));
  }

  /** The handler does to ordering's store what placing does in the system model, and the position covers it. */
  method PlaceCapturing(
    handlers: Ordering.Handlers<Event>, pos: Repository.Position, o: Order, total: Ordering.Money,
    ghost steps: seq<Step>)
    returns (err: Option<Error>)
    requires handlers.Ready() && handlers.orders.store.all == StoreOf(Run(steps), OrderService)
    requires Placeable(o) && total == Ordering.Money(o.cents, o.currency)
    requires StoresPlainly(handlers.orders.registry, PlacedBy(o))
    modifies handlers.orders.store, pos
    ensures err.None? <==> Events(old(handlers.orders.store.all), StreamID(ORDER_CATEGORY, o.id)) == []
    ensures err.Some? ==> handlers.orders.store.all == old(handlers.orders.store.all)
    ensures err.None? && old(pos.seqNo) == 0 ==> pos.seqNo == |handlers.orders.store.all|
    ensures err.None? ==>
      && handlers.orders.store.all == StoreOf(Run(steps + [Place(o)]), OrderService)
      && Saved(Run(steps), o).1.Ok? && Saved(Run(steps), o).1.value <= pos.seqNo
  {
    PlaceAccepts(o, total);
    SavedFresh(Run(steps), o);
    err := handlers.PlaceOrder(Ordering.PlaceOrder(o.id, o.customer, total, o.qty), pos);
    assert err == Repository.ErrorOf(Saved(Run(steps), o).1) && handlers.orders.store.all == Saved(Run(steps), o).0;
    if err.None? {
      PlacingSaved(steps, o, handlers.orders.store.all);
    }
  }

  /**
   * Capture the position, place the order, wait for the position. Let the
   * handler work on ordering's store after `steps`, and let the checkpoint that
   * ended the wait be the view's after `more`: if both calls succeeded, the
   * order's row is there. Placing succeeds exactly for an ID nobody used, and the
   * wait fails only if no poll saw the checkpoint at the end of the store.
   */
  method PlaceAndWait(
    handlers: Ordering.Handlers<Event>, checkpoints: MemoryCheckpointStore, name: string,
    o: Order, total: Ordering.Money, progress: seq<int>, ghost steps: seq<Step>, ghost more: seq<Step>)
    returns (err: Option<Error>, reached: bool)
    requires handlers.Ready() && handlers.orders.store.all == StoreOf(Run(steps), OrderService)
    requires Placeable(o) && total == Ordering.Money(o.cents, o.currency)
    requires StoresPlainly(handlers.orders.registry, PlacedBy(o))
    modifies handlers.orders.store, checkpoints
    ensures err.None? <==> Events(old(handlers.orders.store.all), StreamID(ORDER_CATEGORY, o.id)) == []
    ensures err.None? && !reached ==> forall v :: v in progress ==> v < |handlers.orders.store.all|
    ensures err.Some? ==> !reached && handlers.orders.store.all == old(handlers.orders.store.all)
    ensures err.None? ==> handlers.orders.store.all == StoreOf(Run(steps + [Place(o)]), OrderService)
    ensures err.None? && reached && checkpoints.At(name) == Run(steps + [Place(o)] + more).view.own.cp ==>
      Shown(Run(steps + [Place(o)] + more), o)
  {
    var pos := new Repository.Position();
    err := PlaceCapturing(handlers, pos, o, total, steps);
    reached := false;
    if err.Some? {
      return;
    }
    var polls;
    reached, polls := ProjectionRunner.WaitForCheckpoint(checkpoints, name, pos.seqNo, progress);
    if reached && checkpoints.At(name) == Run(steps + [Place(o)] + more).view.own.cp {
      PlacedShows(steps, o, more, pos.seqNo);
    }
  }
}
