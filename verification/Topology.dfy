/**
 * Who says what to whom: the services, their topics, and what each service's
 * relay is wired to publish (the RegisterTranslators functions of the four
 * services, saga/saga.go, and the topics in contracts/contracts.go).
 */
module Topology {
  import opened Wrappers
  import opened EventStore
  import opened Registry
  import opened Messaging
  import opened Keys
  import opened RelayFeed
  import opened Relay
  import opened Contracts
  import opened Kernel
  import Billing
  import Inventory
  import Ordering
  import Shipping

  datatype Service = OrderService | PaymentService | StockService | ShippingService

  function EventsTopic(s: Service): string {
    match s
    case OrderService => ORDERING_EVENTS
    case PaymentService => BILLING_EVENTS
    case StockService => INVENTORY_EVENTS
    case ShippingService => SHIPPING_EVENTS
  }

  /** The published form of each service's facts; None for events that stay private. */
  function Public(s: Service, e: Event): Option<Contract> {
    match (s, e)
    case (OrderService, OrderPlaced(id, customer, cents, currency, qty)) =>
      Some(OrderPlacedV1(id, customer, cents, currency, qty))
    case (PaymentService, PaymentCaptured(o, cents)) => Some(PaymentCapturedV1(o, cents))
    case (PaymentService, PaymentFailed(o, reason)) => Some(PaymentFailedV1(o, reason))
    case (PaymentService, PaymentRefunded(o)) => Some(PaymentRefundedV1(o))
    case (StockService, StockReserved(o, qty)) => Some(StockReservedV1(o, qty))
    case (StockService, StockRejected(o, reason)) => Some(StockRejectedV1(o, reason))
    case (ShippingService, ShipmentDispatched(o)) => Some(ShipmentDispatchedV1(o))
    case _ => None
  }

  /** What a record says: facts go to the service's topic, the saga's commands to the topic they name. */
  function Speaks(s: Service, rec: RecordedEvent<Event>): Option<Routed<Contract>> {
    var e := rec.data.payload;
    if s == OrderService && e.SagaStep? && e.step.CommandRequested? then
      Some(Routed(e.step.topic, Message(MessageID(rec), e.step.key, e.step.command, e.step.version, e.step.body)))
    else
      match Public(s, e)
      case None => None
      case Some(c) => Some(Routed(EventsTopic(s), Message(MessageID(rec), rec.stream.id, NameOf(c), 1, c)))
  }

  function RelayOf(s: Service): RelayFeed.Translation<Event, Contract> {
    (rec: RecordedEvent<Event>) => Ok(Speaks(s, rec))
  }

  lemma ByPosition(s: Service)
    ensures IdentifiedByPosition(RelayOf(s))
  {
  }

  // ---- The wiring it comes from ----------------------------------------

  const PUBLISHED := [
    "ordering.order_placed",
    "billing.payment_captured", "billing.payment_failed", "billing.payment_refunded",
    "inventory.stock_reserved", "inventory.stock_rejected", "shipping.shipment_dispatched"]

  /** The events a service registers a translator for. */
  function Translated(s: Service): set<string> {
    match s
    case OrderService => {PUBLISHED[0]}
    case PaymentService => {PUBLISHED[1], PUBLISHED[2], PUBLISHED[3]}
    case StockService => {PUBLISHED[4], PUBLISHED[5]}
    case ShippingService => {PUBLISHED[6]}
  }

  const COMMAND_REQUESTED := "saga.command_requested"

  function RouteCommand<P>(rec: RecordedEvent<P>, e: Event): Result<Option<Routed<Contract>>> {
    if !(e.SagaStep? && e.step.CommandRequested?) then Err(Failure("not a command request"))
    else
      Ok(Some(Routed(e.step.topic,
                     Message(MessageID(rec), e.step.key, e.step.command, e.step.version, e.step.body))))
  }

  function TranslatorOf(s: Service): Translator<Event, Contract> {
    (e: Event) => Public(s, e)
  }

  function Translators(s: Service): map<string, Translator<Event, Contract>> {
    map name | name in Translated(s) :: TranslatorOf(s)
  }

  function Router<P>(): Route<Event, P, Contract> {
    (rec: RecordedEvent<P>, e: Event) => RouteCommand(rec, e)
  }

  /** Only ordering hosts a saga. */
  function Routes<P>(s: Service): map<string, Route<Event, P, Contract>> {
    if s == OrderService then map[COMMAND_REQUESTED := Router()] else map[]
  }

  /** A service's relay over any event registry. */
  function WiringOver<P>(s: Service, entries: Entries<Event, P>): Wiring<Event, P, Contract> {
    Wiring(entries, Routes(s), Translators(s), EventsTopic(s), Describe)
  }

  /** Payloads stand for themselves here: the codec is the identity, no upcasters yet. */
  function WiringOf(s: Service): Wiring<Event, Event, Contract> {
    WiringOver(s, map name | name in Translated(s) + {COMMAND_REQUESTED} :: Entry((p: Event) => Some(p), []))
  }

  /** Whatever the payloads and the registry, every message a service's relay publishes carries its record's ID. */
  lemma WiringByPosition<P(!new)>(s: Service, entries: Entries<Event, P>)
    ensures IdentifiedByPosition(TranslationOf(WiringOver(s, entries)))
  {
    TranslatedByPosition(WiringOver(s, entries));
  }

  /** The registrations of a service make its relay the one above, so its runs keep their promise. */
  method RegisterTranslators<P(!new)>(r: Relay<Event, P, Contract>, s: Service)
    requires r.translators == map[] && r.routes == map[] && r.topic == EventsTopic(s) && r.describe == Describe
    modifies r
    ensures r.Wired() == WiringOver(s, r.registry.entries)
    ensures IdentifiedByPosition(TranslationOf(r.Wired()))
  {
    var ok;
    match s {
      case OrderService =>
        ok := r.AddTranslator(PUBLISHED[0], TranslatorOf(s));
        assert COMMAND_REQUESTED[1] != PUBLISHED[0][1];
        ok := r.AddRoute(COMMAND_REQUESTED, Router());
      case PaymentService =>
        assert PUBLISHED[1][16] != PUBLISHED[3][16];
        ok := r.AddTranslator(PUBLISHED[1], TranslatorOf(s));
        ok := r.AddTranslator(PUBLISHED[2], TranslatorOf(s));
        ok := r.AddTranslator(PUBLISHED[3], TranslatorOf(s));
      case StockService =>
        assert PUBLISHED[4][18] != PUBLISHED[5][18];
        ok := r.AddTranslator(PUBLISHED[4], TranslatorOf(s));
        ok := r.AddTranslator(PUBLISHED[5], TranslatorOf(s));
      case ShippingService =>
        ok := r.AddTranslator(PUBLISHED[6], TranslatorOf(s));
    }
    assert r.translators == Translators(s);
    WiringByPosition(s, r.registry.entries);
  }

  /** The events a service translates are told apart by name from all others. */
  lemma TranslatedNames(s: Service, e: Event)
    ensures EventNameOf(e) in Translated(s) <==> Public(s, e).Some?
    ensures EventNameOf(e) == COMMAND_REQUESTED <==> e.SagaStep? && e.step.CommandRequested?
  {
    assert PUBLISHED[1][0] == 'b' && PUBLISHED[2][0] == 'b' && PUBLISHED[3][0] == 'b' && PUBLISHED[4][0] == 'i'
      && PUBLISHED[5][0] == 'i';
    assert PUBLISHED[1][16] != PUBLISHED[3][16] && PUBLISHED[4][18] != PUBLISHED[5][18];
    assert COMMAND_REQUESTED[0] == 's';
  }

  /** For every record as the service stores it, the relay's wiring says exactly the above. */
  lemma WiredAs(s: Service, rec: RecordedEvent<Event>)
    requires rec.data.eventName == EventNameOf(rec.data.payload) && rec.data.schemaVersion == 1
    ensures Translate(WiringOf(s), rec) == RelayOf(s)(rec)
  {
    TranslatedNames(s, rec.data.payload);
    TranslatedNames(OrderService, rec.data.payload);
  }

  // ---- The services' aggregates ----------------------------------------

  /**
   * The services' aggregates refuse events cleanly: by the kernel's law, raising
   * on them never separates an aggregate from the replay of its events.
   */
  lemma ServicesRefuseCleanly()
    ensures RefusesCleanly(Billing.Apply) && RefusesCleanly(Inventory.Apply)
    ensures RefusesCleanly(Shipping.Apply) && RefusesCleanly(Ordering.Apply)
  {
  }
}
