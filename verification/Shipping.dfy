/**
 * Shipping: the Shipment aggregate (shipping/internal/domain/shipment.go) and
 * its command handler (shipping/internal/app/app.go).
 */
module Shipping {
  import opened Wrappers
  import opened EventStore
  import opened Registry
  import opened Kernel
  import opened Repository
  import opened Contracts
  import opened CommandHandling
  import OCC = OptimisticConcurrency

  const CATEGORY := "shipment"

  datatype Shipment = Shipment(order: string, dispatched: bool)

  const NEW_SHIPMENT := Shipment("", false)

  function Apply(s: Shipment, e: Event): Applied<Shipment> {
    match e
    case ShipmentDispatched(o) => Applied(Shipment(o, true), None)
    case _ => Applied(s, Some(UNKNOWN_EVENT))
  }

  /** The handler as a function of the shipment's history. */
  function React(history: seq<Event>, cmd: Contract): Reaction {
    match cmd
    case CreateShipment(o) =>
      var a := Replay(Apply, NEW_SHIPMENT, history);
      if history != [] then (if a.err.Some? then Fault(a.err.value) else NoChange)
      else Emit([ShipmentDispatched(o)])
    case _ => Fault(Failure("no handler for command"))
  }

  /** Creating a shipment dispatches it; one that is dispatched already needs nothing. */
  lemma CreateLaw(history: seq<Event>, o: string)
    ensures React(history, CreateShipment(o)) ==
      if history == [] then Emit([ShipmentDispatched(o)])
      else if AllKnown((e: Event) => e.ShipmentDispatched?, history) then NoChange
      else Fault(UNKNOWN_EVENT)
  {
    KnownReplays(Apply, (e: Event) => e.ShipmentDispatched?, NEW_SHIPMENT, history);
  }

  predicate ShipmentShape(id: string, es: seq<Event>) {
    es == [] || es == [ShipmentDispatched(id)]
  }

  lemma ReplayOfShape(id: string, es: seq<Event>)
    requires ShipmentShape(id, es)
    ensures Replay(Apply, NEW_SHIPMENT, es) == Applied(if es == [] then NEW_SHIPMENT else Shipment(id, true), None)
  {
    if es != [] {
      ReplaySnoc(Apply, NEW_SHIPMENT, [], es[0]);
      assert [] + [es[0]] == es;
    }
  }

  /** With concurrent consumers, redeliveries and crashes, an order is dispatched at most once. */
  lemma ShipmentStreams(steps: seq<OCC.Step<Contract, Event>>, id: string)
    ensures var log := OCC.Run(CATEGORY, Decider(React, (c: Contract) => c.orderId), steps).log;
      ShipmentShape(id, Payloads(Events(log, StreamID(CATEGORY, id))))
  {
    StreamsKept(CATEGORY, React, (c: Contract) => c.orderId, ShipmentShape, steps, id);
  }

  /** Creating the shipment again changes nothing and succeeds. */
  lemma ReplaySafe(id: string, es: seq<Event>, cmd: Contract)
    requires ShipmentShape(id, es) && es != [] && cmd.CreateShipment?
    ensures React(es, cmd) == NoChange
  {
    ReplayOfShape(id, es);
  }

  class Handlers<!P> {
    const shipments: Repository<Shipment, Event, P>

    ghost predicate Ready()
      reads this, shipments, shipments.store
    {
      shipments.store.Valid() && shipments.category == CATEGORY && shipments.zero == NEW_SHIPMENT
        && shipments.apply == Apply
    }

    constructor (store: MemoryStore<P>, registry: EventRegistry<Event, P>)
      requires store.Valid()
      ensures Ready() && shipments.store == store && shipments.registry == registry
    {
      shipments := new Repository(store, registry, CATEGORY, NEW_SHIPMENT, Apply);
    }

    method CreateShipment(cmd: Contract) returns (err: Option<Error>)
      requires Ready() && cmd.CreateShipment?
      modifies shipments.store
      ensures Ready()
      ensures Follows(shipments.registry.entries, shipments.registry.codec, React, StreamID(CATEGORY, cmd.orderId),
                      old(shipments.store.all), cmd, shipments.store.all, err)
    {
      var loaded := shipments.Load(cmd.orderId);
      NotFoundIsEmpty(shipments.registry.entries, Apply, NEW_SHIPMENT,
                      Events(shipments.store.all, StreamID(CATEGORY, cmd.orderId)));
      if loaded.Ok? {
        return None;
      }
      if loaded.error != ErrNotFound {
        return Some(loaded.error);
      }
      var s := Create(cmd.orderId);
      err := shipments.Save(cmd.orderId, s, null);
    }

    method Create(order: string) returns (s: Root<Shipment, Event>)
      ensures fresh(s) && s.version == 0 && s.pending == [ShipmentDispatched(order)]
    {
      s := new Root<Shipment, Event>(NEW_SHIPMENT, Apply);
      var _ := s.Raise(ShipmentDispatched(order));
    }
  }
}
