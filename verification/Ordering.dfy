/**
 * Ordering: the Order aggregate with its value objects
 * (ordering/internal/domain/order.go) and its local commands
 * (ordering/internal/app/app.go).
 */
module Ordering {
  import opened Wrappers
  import opened EventStore
  import opened Registry
  import opened Kernel
  import opened Repository
  import opened Contracts
  import opened CommandHandling
  import Identifier
  import OCC = OptimisticConcurrency

  const CATEGORY := "order"

  const EMPTY_ORDER := DomainError("empty_order")
  const INVALID_AMOUNT := DomainError("invalid_amount")
  const INVALID_CURRENCY := DomainError("invalid_currency")
  const INVALID_QUANTITY := DomainError("invalid_quantity")
  const EMPTY_REASON := DomainError("empty_reason")
  const INVALID_ID := DomainError("invalid_id")

  // ---- Value objects ---------------------------------------------------

  /** A total that was never parsed is ZERO_MONEY, which no order accepts. */
  datatype Money = Money(cents: int, currency: string)

  const ZERO_MONEY := Money(0, "")

  function NewMoney(cents: int, currency: string): Result<Money> {
    if cents <= 0 then Err(INVALID_AMOUNT)
    else if |currency| != 3 then Err(INVALID_CURRENCY)
    else Ok(Money(cents, currency))
  }

  function NewQuantity(n: int): Result<int> {
    if n <= 0 then Err(INVALID_QUANTITY) else Ok(n)
  }

  /** An identifier's canonical text; characters stand for bytes, and only ASCII ones are ever accepted. */
  function ParseOrderID(s: string): Option<string> {
    if exists c :: c in s && c as int > 127 then None
    else
      match Identifier.Parsed(seq(|s|, i requires 0 <= i < |s| => assert s[i] in s; s[i] as int as Identifier.byte))
      case None => None
      case Some(t) => Some(seq(|t|, i requires 0 <= i < |t| => t[i] as int as char))
  }

  // ---- The aggregate ---------------------------------------------------

  datatype Order = Order(id: string, customer: string, total: Money, qty: int, notified: set<string>)

  const NEW_ORDER := Order("", "", ZERO_MONEY, 0, {})

  function Apply(o: Order, e: Event): Applied<Order> {
    match e
    case OrderPlaced(id, customer, cents, currency, qty) =>
      Applied(o.(id := id, customer := customer, total := Money(cents, currency), qty := qty), None)
    case CustomerNotified(_, reason) => Applied(o.(notified := o.notified + {reason}), None)
    case _ => Applied(o, Some(UNKNOWN_EVENT))
  }

  function Place(id: string, customer: string, total: Money, qty: int): Result<Event> {
    if total == ZERO_MONEY then Err(EMPTY_ORDER) else Ok(OrderPlaced(id, customer, total.cents, total.currency, qty))
  }

  datatype Command =
    | PlaceOrder(id: string, customer: string, total: Money, qty: int)
    | NotifyCustomer(orderId: string, reason: string)

  /** What notifying does, given the order's history: a reason already recorded needs nothing. */
  function React(history: seq<Event>, cmd: Command): Reaction
  {
    match cmd
    case PlaceOrder(id, customer, total, qty) =>
      (match Place(id, customer, total, qty)
       case Err(x) => Fault(x)
       case Ok(e) => if history != [] then Fault(VersionConflict) else Emit([e]))
    case NotifyCustomer(_, reason) =>
      var a := Replay(Apply, NEW_ORDER, history);
      if history == [] then Fault(ErrNotFound)
      else if a.err.Some? then Fault(a.err.value)
      else if reason == "" then Fault(EMPTY_REASON)
      else if reason in a.state.notified then NoChange
      else Emit([CustomerNotified(a.state.id, reason)])
  }

  // ---- No reason twice -------------------------------------------------

  /** No two notifications of a history give the same reason. */
  ghost predicate ReasonsDistinct(es: seq<Event>) {
    forall i, j :: 0 <= i < j < |es| && es[i].CustomerNotified? && es[j].CustomerNotified? ==>
      es[i].reason != es[j].reason
  }

  ghost predicate Tells(es: seq<Event>, reason: string) {
    exists e :: e in es && e.CustomerNotified? && e.reason == reason
  }

  /** The replayed order has notified exactly the reasons in its history. */
  lemma {:induction false} NotifiedInHistory(es: seq<Event>, reason: string)
    requires Replay(Apply, NEW_ORDER, es).err.None?
    ensures reason in Replay(Apply, NEW_ORDER, es).state.notified <==> Tells(es, reason)
  {
    if es != [] {
      var init, last := es[..|es| - 1], es[|es| - 1];
      assert es == init + [last];
      ReplaySnoc(Apply, NEW_ORDER, init, last);
      NotifiedInHistory(init, reason);
      if Tells(es, reason) {
        var e :| e in es && e.CustomerNotified? && e.reason == reason;
        assert e in init || e == last;
      }
    }
  }

  lemma ReactKeepsDistinct(es: seq<Event>, cmd: Command)
    requires ReasonsDistinct(es) && React(es, cmd).Emit?
    ensures ReasonsDistinct(es + React(es, cmd).events)
  {
    if cmd.NotifyCustomer? {
      NotifiedInHistory(es, cmd.reason);
      assert forall i :: 0 <= i < |es| ==> es[i] in es;
    }
  }

  /** A notification that succeeds, anew or because it was made before, is in the history afterwards. */
  lemma NotifySucceeds(es: seq<Event>, cmd: Command)
    requires cmd.NotifyCustomer? && !React(es, cmd).Fault?
    ensures var after := es + (if React(es, cmd).Emit? then React(es, cmd).events else []);
      Tells(after, cmd.reason) && React(after, cmd) == NoChange
  {
    NotifiedInHistory(es, cmd.reason);
    if React(es, cmd).Emit? {
      var e := React(es, cmd).events[0];
      ReplaySnoc(Apply, NEW_ORDER, es, e);
      assert e in es + [e];
    } else {
      assert es + [] == es;
    }
  }

  /** Only positive amounts in a three-letter currency are money, and only positive numbers are quantities. */
  lemma ValueObjects(cents: int, currency: string, n: int)
    ensures NewMoney(cents, currency) ==
      if cents <= 0 then Err(DomainError("invalid_amount"))
      else if |currency| != 3 then Err(DomainError("invalid_currency"))
      else Ok(Money(cents, currency))
    ensures NewQuantity(n) == if n <= 0 then Err(DomainError("invalid_quantity")) else Ok(n)
  {
  }

  /** Placing: a total that was never parsed is rejected, and an order is placed only once. */
  lemma PlaceLaw(history: seq<Event>, id: string, customer: string, total: Money, qty: int)
    ensures React(history, PlaceOrder(id, customer, total, qty)) ==
      if total == Money(0, "") then Fault(DomainError("empty_order"))
      else if history != [] then Fault(VersionConflict)
      else Emit([OrderPlaced(id, customer, total.cents, total.currency, qty)])
  {
  }

  /**
   * Notifying: there must be an order and a reason; a reason the order's history
   * tells already needs nothing, and a new one is recorded for that order.
   */
  lemma NotifyLaw(id: string, history: seq<Event>, cmd: Command)
    requires cmd.NotifyCustomer? && OrderShape(id, history)
    ensures React(history, cmd) ==
      if history == [] then Fault(DomainError("not_found"))
      else if cmd.reason == "" then Fault(DomainError("empty_reason"))
      else if Tells(history, cmd.reason) then NoChange
      else Emit([CustomerNotified(id, cmd.reason)])
  {
    ShapeReplays(id, history);
    NotifiedInHistory(history, cmd.reason);
  }

  // ---- Order streams under concurrency ---------------------------------

  /** The stream a command is addressed to; a malformed ID addresses none. */
  function Target(cmd: Command): string {
    match cmd
    case PlaceOrder(id, _, _, _) => id
    case NotifyCustomer(orderId, _) => if ParseOrderID(orderId).Some? then ParseOrderID(orderId).value else ""
  }

  /** The only streams an order can have: its placement, then notifications of it, each for its own reason. */
  ghost predicate OrderShape(id: string, es: seq<Event>) {
    && (es != [] ==> es[0].OrderPlaced? && es[0].id == id)
    && (forall k :: 1 <= k < |es| ==> es[k].CustomerNotified? && es[k].id == id && es[k].reason != "")
    && ReasonsDistinct(es)
  }

  lemma {:induction false} ShapeReplays(id: string, es: seq<Event>)
    requires OrderShape(id, es)
    ensures Replay(Apply, NEW_ORDER, es).err.None?
    ensures es != [] ==> Replay(Apply, NEW_ORDER, es).state.id == id
  {
    if es != [] {
      var init, last := es[..|es| - 1], es[|es| - 1];
      assert es == init + [last];
      ShapeReplays(id, init);
      ReplaySnoc(Apply, NEW_ORDER, init, last);
    }
  }

  lemma ReactKeepsShape(es: seq<Event>, cmd: Command)
    requires OrderShape(Target(cmd), es) && React(es, cmd).Emit?
    ensures OrderShape(Target(cmd), es + React(es, cmd).events)
  {
    ShapeReplays(Target(cmd), es);
    ReactKeepsDistinct(es, cmd);
  }

  /**
   * With any number of concurrent requests and workers and with crashes, every
   * order stream is its own placement followed by notifications of that order,
   * none for an empty reason and no two for the same one.
   */
  lemma OrderStreams(steps: seq<OCC.Step<Command, Event>>, id: string)
    ensures var log := OCC.Run(CATEGORY, Decider(React, Target), steps).log;
      OrderShape(id, Payloads(Events(log, StreamID(CATEGORY, id))))
  {
    var good := (id: string, es: seq<Event>) => OrderShape(id, es);
    forall es, cmd: Command {:trigger React(es, cmd)} | good(Target(cmd), es) && React(es, cmd).Emit?
      ensures good(Target(cmd), es + React(es, cmd).events)
    {
      ReactKeepsShape(es, cmd);
    }
    StreamsKept(CATEGORY, React, Target, good, steps, id);
  }

  // ---- The handlers ----------------------------------------------------

  class Handlers<!P> {
    const orders: Repository<Order, Event, P>

    ghost predicate Ready()
      reads this, orders, orders.store
    {
      orders.store.Valid() && orders.category == CATEGORY && orders.zero == NEW_ORDER && orders.apply == Apply
    }

    constructor (store: MemoryStore<P>, registry: EventRegistry<Event, P>)
      requires store.Valid()
      ensures Ready() && orders.store == store && orders.registry == registry
    {
      orders := new Repository(store, registry, CATEGORY, NEW_ORDER, Apply);
    }

    /**
     * A new order is saved as version 1 of a stream that must not exist; its
     * position is recorded for read-your-writes.
     */
    method PlaceOrder(cmd: Command, pos: Position?) returns (err: Option<Error>)
      requires Ready() && cmd.PlaceOrder?
      modifies orders.store, if pos == null then {} else {pos}
      ensures Ready()
      ensures match Place(cmd.id, cmd.customer, cmd.total, cmd.qty)
        case Err(x) => err == Some(x) && orders.store.all == old(orders.store.all)
        case Ok(e) =>
          match EncodeAll(orders.registry.entries, orders.registry.codec, [e])
          case Err(x) => err == Some(x) && orders.store.all == old(orders.store.all)
          case Ok(data) =>
            var (after, r) := TryAppend(old(orders.store.all), StreamID(CATEGORY, cmd.id), 0, data);
            orders.store.all == after && err == ErrorOf(r)
      ensures pos != null && err.None? ==>
        pos.seqNo == if |orders.store.all| > old(pos.seqNo) then |orders.store.all| else old(pos.seqNo)
    {
      var placed := Place(cmd.id, cmd.customer, cmd.total, cmd.qty);
      if placed.Err? {
        return Some(placed.error);
      }
      var o := new Root<Order, Event>(NEW_ORDER, Apply);
      var _ := o.Raise(placed.value);
      err := orders.Save(cmd.id, o, pos);
    }

    method NotifyCustomer(cmd: Command) returns (err: Option<Error>)
      requires Ready() && cmd.NotifyCustomer?
      modifies orders.store
      ensures Ready()
      ensures match ParseOrderID(cmd.orderId)
        case None => err == Some(DomainError("invalid_id")) && orders.store.all == old(orders.store.all)
        case Some(id) =>
          Follows(orders.registry.entries, orders.registry.codec, React, StreamID(CATEGORY, id),
                  old(orders.store.all), cmd, orders.store.all, err)
    {
      var id := ParseOrderID(cmd.orderId);
      if id.None? {
        return Some(INVALID_ID);
      }
      var loaded := orders.Load(id.value);
      if loaded.Err? {
        return Some(loaded.error);
      }
      var o := loaded.value;
      err := Notify(o, cmd.reason);
      if err.Some? {
        return;
      }
      err := orders.Save(id.value, o, null);
    }

    method Notify(o: Root<Order, Event>, reason: string) returns (err: Option<Error>)
      requires o.apply == Apply && o.pending == []
      modifies o`state, o`pending
      ensures err == if reason == "" then Some(EMPTY_REASON) else None
      ensures o.pending ==
        if reason == "" || reason in old(o.state).notified then [] else [CustomerNotified(old(o.state).id, reason)]
    {
      if reason == "" {
        return Some(EMPTY_REASON);
      }
      if reason in o.state.notified {
        return None;
      }
      err := o.Raise(CustomerNotified(o.state.id, reason));
    }
  }
}
