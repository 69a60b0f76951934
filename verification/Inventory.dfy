/**
 * Inventory: the Reservation aggregate (inventory/internal/domain/reservation.go)
 * and its command handler (inventory/internal/app/app.go).
 */
module Inventory {
  import opened Wrappers
  import opened EventStore
  import opened Registry
  import opened Kernel
  import opened Repository
  import opened Contracts
  import opened CommandHandling
  import OCC = OptimisticConcurrency

  const CATEGORY := "reservation"
  const AVAILABLE_STOCK := 10
  const STOCK_REASON := "insufficient stock"

  const INVALID_QUANTITY := DomainError("invalid_quantity")

  datatype Reservation = Reservation(order: string, decided: bool)

  const NEW_RESERVATION := Reservation("", false)

  function Apply(r: Reservation, e: Event): Applied<Reservation> {
    match e
    case StockReserved(o, _) => Applied(Reservation(o, true), None)
    case StockRejected(o, _) => Applied(Reservation(o, true), None)
    case _ => Applied(r, Some(UNKNOWN_EVENT))
  }

  /** The handler as a function of the reservation's history. */
  function React(history: seq<Event>, cmd: Contract): Reaction {
    match cmd
    case ReserveStock(o, qty) =>
      var a := Replay(Apply, NEW_RESERVATION, history);
      if history != [] then (if a.err.Some? then Fault(a.err.value) else NoChange)
      else if qty <= 0 then Fault(INVALID_QUANTITY)
      else if qty > AVAILABLE_STOCK then Emit([StockRejected(o, STOCK_REASON)])
      else Emit([StockReserved(o, qty)])
    case _ => Fault(Failure("no handler for command"))
  }

  predicate ReservationEvent(e: Event) { e.StockReserved? || e.StockRejected? }

  /**
   * Reserving: a quantity that is not positive is rejected as a command, one over
   * the stock is recorded as a rejection, any other is reserved; a reservation that
   * has been decided already needs nothing.
   */
  lemma ReserveLaw(history: seq<Event>, o: string, qty: int)
    ensures React(history, ReserveStock(o, qty)) ==
      if history != [] then (if AllKnown(ReservationEvent, history) then NoChange else Fault(UNKNOWN_EVENT))
      else if qty <= 0 then Fault(DomainError("invalid_quantity"))
      else if qty > 10 then Emit([StockRejected(o, "insufficient stock")])
      else Emit([StockReserved(o, qty)])
  {
    KnownReplays(Apply, ReservationEvent, NEW_RESERVATION, history);
  }

  /** The only streams a reservation can have: none, reserved within stock, or rejected. */
  predicate ReservationShape(id: string, es: seq<Event>) {
    es == [] ||
    (|es| == 1 &&
     ((es[0].StockReserved? && es[0].orderId == id && 0 < es[0].qty <= AVAILABLE_STOCK)
       || es[0] == StockRejected(id, STOCK_REASON)))
  }

  lemma ReplayOfShape(id: string, es: seq<Event>)
    requires ReservationShape(id, es)
    ensures Replay(Apply, NEW_RESERVATION, es) ==
      Applied(if es == [] then NEW_RESERVATION else Reservation(id, true), None)
  {
    if es != [] {
      ReplaySnoc(Apply, NEW_RESERVATION, [], es[0]);
      assert [] + [es[0]] == es;
    }
  }

  /** With concurrent consumers, redeliveries and crashes, a reservation is decided at most once. */
  lemma ReservationStreams(steps: seq<OCC.Step<Contract, Event>>, id: string)
    ensures var log := OCC.Run(CATEGORY, Decider(React, (c: Contract) => c.orderId), steps).log;
      ReservationShape(id, Payloads(Events(log, StreamID(CATEGORY, id))))
  {
    StreamsKept(CATEGORY, React, (c: Contract) => c.orderId, ReservationShape, steps, id);
  }

  /** Reserving again once decided changes nothing and succeeds. */
  lemma ReplaySafe(id: string, es: seq<Event>, cmd: Contract)
    requires ReservationShape(id, es) && es != [] && cmd.ReserveStock?
    ensures React(es, cmd) == NoChange
  {
    ReplayOfShape(id, es);
  }

  class Handlers<!P> {
    const reservations: Repository<Reservation, Event, P>

    ghost predicate Ready()
      reads this, reservations, reservations.store
    {
      && reservations.store.Valid() && reservations.category == CATEGORY
      && reservations.zero == NEW_RESERVATION && reservations.apply == Apply
    }

    constructor (store: MemoryStore<P>, registry: EventRegistry<Event, P>)
      requires store.Valid()
      ensures Ready() && reservations.store == store && reservations.registry == registry
    {
      reservations := new Repository(store, registry, CATEGORY, NEW_RESERVATION, Apply);
    }

    method ReserveStock(cmd: Contract) returns (err: Option<Error>)
      requires Ready() && cmd.ReserveStock?
      modifies reservations.store
      ensures Ready()
      ensures Follows(reservations.registry.entries, reservations.registry.codec, React,
                      StreamID(CATEGORY, cmd.orderId),
                      old(reservations.store.all), cmd, reservations.store.all, err)
      ensures cmd.qty <= 0 && Events(old(reservations.store.all), StreamID(CATEGORY, cmd.orderId)) == [] ==>
        err == Some(DomainError("invalid_quantity")) && reservations.store.all == old(reservations.store.all)
    {
      var loaded := reservations.Load(cmd.orderId);
      NotFoundIsEmpty(reservations.registry.entries, Apply, NEW_RESERVATION,
                      Events(reservations.store.all, StreamID(CATEGORY, cmd.orderId)));
      if loaded.Ok? {
        return None;
      }
      if loaded.error != ErrNotFound {
        return Some(loaded.error);
      }
      if cmd.qty <= 0 {
        return Some(INVALID_QUANTITY);
      }
      var r := Reserve(cmd.orderId, cmd.qty);
      err := reservations.Save(cmd.orderId, r, null);
    }

    /** Both outcomes are facts: more than the stock on hand is recorded as a rejection. */
    method Reserve(order: string, qty: int) returns (r: Root<Reservation, Event>)
      ensures fresh(r) && r.version == 0
      ensures r.pending ==
        [if qty > AVAILABLE_STOCK then StockRejected(order, STOCK_REASON) else StockReserved(order, qty)]
    {
      r := new Root<Reservation, Event>(NEW_RESERVATION, Apply);
      if qty > AVAILABLE_STOCK {
        var _ := r.Raise(StockRejected(order, STOCK_REASON));
      } else {
        var _ := r.Raise(StockReserved(order, qty));
      }
    }
  }
}
