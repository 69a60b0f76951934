/**
 * What ordering does with an order (ordering/internal/app/saga.go): it is
 * charged, then its units are set aside, then it leaves the warehouse. A
 * declined charge closes the workflow; when the units cannot be had, the money
 * goes back first.
 */
module FulfillmentSaga {
  import opened Wrappers
  import opened Messaging
  import opened Keys
  import opened Kernel
  import opened Contracts
  import opened Saga
  import opened SagaRunner

  datatype Fulfillment = Fulfillment(cents: int, qty: int)

  const NAME := "order_fulfillment"

  const ORDER_PLACED := "ordering.order_placed"
  const PAYMENT_CAPTURED := "billing.payment_captured"
  const PAYMENT_FAILED := "billing.payment_failed"
  const STOCK_RESERVED := "inventory.stock_reserved"
  const STOCK_REJECTED := "inventory.stock_rejected"
  const SHIPMENT_DISPATCHED := "shipping.shipment_dispatched"

  const EVENTS := [ORDER_PLACED, PAYMENT_CAPTURED, PAYMENT_FAILED, STOCK_RESERVED, STOCK_REJECTED, SHIPMENT_DISPATCHED]

  /** The decision functions; None for contracts the saga does not listen to. */
  function Workflow(s: Fulfillment, e: Contract): Option<(Fulfillment, Decisions<Contract>)> {
    match e
    case OrderPlacedV1(o, _, cents, _, qty) =>
      Some((Fulfillment(cents, qty), Send([OutCommand(BILLING_COMMANDS, "", CapturePayment(o, cents))])))
    case PaymentCapturedV1(o, _) =>
      Some((s, Send([OutCommand(INVENTORY_COMMANDS, "", ReserveStock(o, s.qty))])))
    case PaymentFailedV1(_, _) => Some((s, End()))
    case StockReservedV1(o, _) =>
      Some((s, Send([OutCommand(SHIPPING_COMMANDS, "", CreateShipment(o))])))
    case StockRejectedV1(o, _) =>
      Some((s, Decisions([OutCommand(BILLING_COMMANDS, "", RefundPayment(o))], true)))
    case ShipmentDispatchedV1(_) => Some((s, End()))
    case _ => None
  }

  /** The handler registered for a contract name: a payload of another contract does not decode. */
  function HandlerFor(name: string): Handler<Fulfillment, Contract> {
    Handler(
      (m: Message<Contract>) => if NameOf(m.body) == name then Some(m.body.orderId) else None,
      (s: Fulfillment, m: Message<Contract>) =>
        if NameOf(m.body) != name || Workflow(s, m.body).None? then Handled(s, Err(Failure("decoding")))
        else var (s', d) := Workflow(s, m.body).value; Handled(s', Ok(d)))
  }

  type HandlerTable = map<string, Handler<Fulfillment, Contract>>

  function With(table: HandlerTable, name: string): HandlerTable {
    table[EventKey(name, 1) := HandlerFor(name)]
  }

  function Handlers(): HandlerTable {
    var payment := With(With(With(map[], ORDER_PLACED), PAYMENT_CAPTURED), PAYMENT_FAILED);
    With(With(With(payment, STOCK_RESERVED), STOCK_REJECTED), SHIPMENT_DISPATCHED)
  }

  const ZERO := Fulfillment(0, 0)

  function Def(): Definition<Fulfillment, Contract> {
    Definition(NAME, Handlers(), ZERO, Describe)
  }

  lemma NamesDistinct()
    ensures forall i, j :: 0 <= i < j < |EVENTS| ==> EVENTS[i] != EVENTS[j]
    ensures ORDER_PLACED !in {PAYMENT_CAPTURED, PAYMENT_FAILED, STOCK_RESERVED, STOCK_REJECTED, SHIPMENT_DISPATCHED}
    ensures PAYMENT_CAPTURED !in {PAYMENT_FAILED, STOCK_RESERVED, STOCK_REJECTED, SHIPMENT_DISPATCHED}
    ensures PAYMENT_FAILED !in {STOCK_RESERVED, STOCK_REJECTED, SHIPMENT_DISPATCHED}
    ensures STOCK_RESERVED !in {STOCK_REJECTED, SHIPMENT_DISPATCHED} && STOCK_REJECTED != SHIPMENT_DISPATCHED
  {
    assert PAYMENT_CAPTURED[0] != STOCK_RESERVED[0] && PAYMENT_CAPTURED[0] != STOCK_REJECTED[0];
    assert STOCK_RESERVED[18] != STOCK_REJECTED[18];
  }

  /** No other contract goes by the name of one the saga listens to. */
  lemma NamesApart(c: Contract)
    ensures NameOf(c) in EVENTS <==> Workflow(ZERO, c).Some?
  {
    assert "billing.payment_refunded"[16] != PAYMENT_CAPTURED[16];
    assert "billing.payment_refunded"[0] != STOCK_RESERVED[0];
    assert "inventory.reserve_stock"[10] != STOCK_RESERVED[10];
    if NameOf(c) in EVENTS {
      var i :| 0 <= i < |EVENTS| && EVENTS[i] == NameOf(c);
    }
    if Workflow(ZERO, c).Some? {
      assert NameOf(c) == EVENTS[0] || NameOf(c) == EVENTS[1] || NameOf(c) == EVENTS[2]
             || NameOf(c) == EVENTS[3] || NameOf(c) == EVENTS[4] || NameOf(c) == EVENTS[5];
    }
  }

  /** A table answers for these names at version 1, each with its own handler, and for nothing else. */
  ghost predicate Answers(table: HandlerTable, names: seq<string>) {
    forall name, version {:trigger EventKey(name, version)} ::
      && (EventKey(name, version) in table <==> name in names && version == 1)
      && (name in names && version == 1 ==> table[EventKey(name, version)] == HandlerFor(name))
  }

  lemma WithAnswers(table: HandlerTable, names: seq<string>, name: string)
    requires Answers(table, names)
    ensures Answers(With(table, name), names + [name])
  {
    forall other, version ensures EventKey(other, version) == EventKey(name, 1) <==> other == name && version == 1 {
      EventKeyInjective(other, version, name, 1);
    }
  }

  /** Exactly the six contracts at version 1 have a handler. */
  lemma Registered()
    ensures Answers(Handlers(), EVENTS)
  {
    var t := With(map[], ORDER_PLACED);
    WithAnswers(map[], [], ORDER_PLACED);
    WithAnswers(t, [ORDER_PLACED], PAYMENT_CAPTURED);
    t := With(t, PAYMENT_CAPTURED);
    WithAnswers(t, [ORDER_PLACED, PAYMENT_CAPTURED], PAYMENT_FAILED);
    t := With(t, PAYMENT_FAILED);
    WithAnswers(t, [ORDER_PLACED, PAYMENT_CAPTURED, PAYMENT_FAILED], STOCK_RESERVED);
    t := With(t, STOCK_RESERVED);
    WithAnswers(t, [ORDER_PLACED, PAYMENT_CAPTURED, PAYMENT_FAILED, STOCK_RESERVED], STOCK_REJECTED);
    t := With(t, STOCK_REJECTED);
    WithAnswers(t, [ORDER_PLACED, PAYMENT_CAPTURED, PAYMENT_FAILED, STOCK_RESERVED, STOCK_REJECTED],
      SHIPMENT_DISPATCHED);
  }

  /** A published fact: a contract under its own name and version. */
  predicate Fact(m: Message<Contract>) {
    m.name == NameOf(m.body) && m.version == 1
  }

  /** How the saga treats a published fact: by the workflow's decision, if there is one. */
  lemma FactHandled(i: Instance<Fulfillment, Contract>, m: Message<Contract>)
    requires Fact(m)
    ensures Correlated(Def(), m) ==
      if Workflow(i.state, m.body).Some? && m.body.orderId != "" then Some(m.body.orderId) else None
    ensures Workflow(i.state, m.body).Some? ==>
      Apply(Def(), i, EventReceived(m)) ==
      var (state, decisions) := Workflow(i.state, m.body).value;
      Applied(Instance(state, i.ended, i.seen + {m.id}, decisions), None)
  {
    NamesApart(m.body);
    Registered();
    assert EventKey(m.name, m.version) in Handlers() <==> m.name in EVENTS;
    assert Workflow(i.state, m.body).Some? <==> Workflow(ZERO, m.body).Some?;
  }

  /** Registers one reaction; the definition answers for one more contract. */
  method Listen(d: SagaDefinition<Fulfillment, Contract>, name: string, ghost before: seq<string>)
    requires Answers(d.handlers, before) && name !in before
    modifies d
    ensures Answers(d.handlers, before + [name])
  {
    ghost var table := d.handlers;
    assert EventKey(name, 1) !in table;
    var _ := d.OnEvent(name, 1, HandlerFor(name));
    forall other, version {:trigger EventKey(other, version)}
      ensures EventKey(other, version) in d.handlers <==> d.Lookup(other, version).Some?
      ensures other != name || version != 1 ==>
        (EventKey(other, version) in d.handlers <==> EventKey(other, version) in table)
    {
    }
  }

  /** Six registrations, none of them a duplicate, build a definition that answers like the table above. */
  method NewFulfillmentSaga() returns (d: SagaDefinition<Fulfillment, Contract>)
    ensures fresh(d) && d.name == NAME && d.zero == ZERO
    ensures Answers(d.handlers, EVENTS)
  {
    d := new SagaDefinition(NAME, ZERO, Describe);
    NamesDistinct();
    Listen(d, ORDER_PLACED, []);
    Listen(d, PAYMENT_CAPTURED, [ORDER_PLACED]);
    Listen(d, PAYMENT_FAILED, [ORDER_PLACED, PAYMENT_CAPTURED]);
    Listen(d, STOCK_RESERVED, [ORDER_PLACED, PAYMENT_CAPTURED, PAYMENT_FAILED]);
    Listen(d, STOCK_REJECTED, [ORDER_PLACED, PAYMENT_CAPTURED, PAYMENT_FAILED, STOCK_RESERVED]);
    Listen(d, SHIPMENT_DISPATCHED, [ORDER_PLACED, PAYMENT_CAPTURED, PAYMENT_FAILED, STOCK_RESERVED, STOCK_REJECTED]);
  }
}
