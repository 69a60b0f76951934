/**
 * Building the order_summary projection (ordering/internal/app/projection.go):
 * one store handler and six fact handlers. Running them is what the read model's
 * specification says.
 */
module SummaryProjection {
  import opened Wrappers
  import opened EventStore
  import opened Registry
  import opened Kernel
  import opened Messaging
  import opened Keys
  import opened Contracts
  import opened ProjectionRunner
  import opened OrderSummary
  import opened FulfillmentSaga

  const PAYMENT_REFUNDED := "billing.payment_refunded"

  const FACTS := [PAYMENT_CAPTURED, PAYMENT_FAILED, STOCK_RESERVED, STOCK_REJECTED, PAYMENT_REFUNDED,
    SHIPMENT_DISPATCHED]

  /** Writes the base columns of a placed order. */
  function OnPlaced(t: Summary, e: Event): Applied<Summary> {
    match Placed(e)
    case None => Applied(t, None)
    case Some((id, base)) => Applied(t.(rows := Upserted(t.rows, id, base)), None)
  }

  /** The handler of one contract: raises the status, then queues the milestone if it is one. */
  function OnFact(name: string): FactHandler<Summary, Contract> {
    (t: Summary, m: Message<Contract>) =>
      if NameOf(m.body) != name || StatusOf(m.body).None? then Applied(t, Some(Failure("decoding")))
      else
        var raised := StatusRaised(t, m.body);
        Applied(if Milestone(m.body).None? then raised
                else raised.(queued := raised.queued + {(m.body.orderId, Milestone(m.body).value)}), None)
  }

  /** A table of fact handlers answers for these names at version 1, and for nothing else. */
  ghost predicate Serves(handlers: map<string, FactHandler<Summary, Contract>>, names: seq<string>) {
    forall name, version {:trigger EventKey(name, version)} ::
      && (EventKey(name, version) in handlers <==> name in names && version == 1)
      && (name in names && version == 1 ==> handlers[EventKey(name, version)] == OnFact(name))
  }

  lemma FactNames()
    ensures forall i, j :: 0 <= i < j < |FACTS| ==> FACTS[i] != FACTS[j]
  {
    assert PAYMENT_CAPTURED[0] == 'b' && PAYMENT_REFUNDED[0] == 'b' && STOCK_RESERVED[0] == 'i'
      && STOCK_REJECTED[0] == 'i';
    assert PAYMENT_CAPTURED[16] != PAYMENT_REFUNDED[16];
    assert STOCK_RESERVED[18] != STOCK_REJECTED[18];
  }

  /** The contracts with a status are exactly those that have a handler under their name. */
  lemma FactsHaveStatus(c: Contract)
    ensures NameOf(c) in FACTS <==> StatusOf(c).Some?
  {
    assert PAYMENT_CAPTURED[0] == 'b' && STOCK_RESERVED[0] == 'i' && STOCK_REJECTED[0] == 'i';
    assert "inventory.reserve_stock"[10] != STOCK_RESERVED[10];
    if NameOf(c) in FACTS {
      var i :| 0 <= i < |FACTS| && FACTS[i] == NameOf(c);
    }
    if StatusOf(c).Some? {
      assert NameOf(c) == FACTS[0] || NameOf(c) == FACTS[1] || NameOf(c) == FACTS[2]
             || NameOf(c) == FACTS[3] || NameOf(c) == FACTS[4] || NameOf(c) == FACTS[5];
    }
  }

  method Serve(p: ProjectionRunner.Projection<Summary, Event, Contract>, name: string, ghost before: seq<string>)
    requires Serves(p.foreignHandlers, before) && name !in before
    modifies p`foreignHandlers
    ensures Serves(p.foreignHandlers, before + [name])
  {
    ghost var table := p.foreignHandlers;
    assert EventKey(name, 1) !in table;
    var _ := p.OnIntegration(name, 1, OnFact(name));
    forall other, version {:trigger EventKey(other, version)}
      ensures EventKey(other, version) in p.foreignHandlers <==> p.Foreign(other, version).Some?
      ensures other != name || version != 1 ==>
        (EventKey(other, version) in p.foreignHandlers <==> EventKey(other, version) in table)
    {
    }
  }

  method NewOrderSummaryProjection() returns (p: ProjectionRunner.Projection<Summary, Event, Contract>)
    ensures fresh(p) && p.name == "order_summary"
    ensures p.domainHandlers == map[ORDER_PLACED := OnPlaced] && Serves(p.foreignHandlers, FACTS)
  {
    p := new ProjectionRunner.Projection("order_summary");
    FactNames();
    assert forall i, j :: 0 <= i < j < 6 ==> FACTS[i] != FACTS[j];
    var _ := p.On(ORDER_PLACED, OnPlaced);
    Serve(p, PAYMENT_CAPTURED, []);
    Serve(p, PAYMENT_FAILED, [PAYMENT_CAPTURED]);
    Serve(p, STOCK_RESERVED, [PAYMENT_CAPTURED, PAYMENT_FAILED]);
    Serve(p, STOCK_REJECTED, [PAYMENT_CAPTURED, PAYMENT_FAILED, STOCK_RESERVED]);
    Serve(p, PAYMENT_REFUNDED, [PAYMENT_CAPTURED, PAYMENT_FAILED, STOCK_RESERVED, STOCK_REJECTED]);
    Serve(p, SHIPMENT_DISPATCHED, [PAYMENT_CAPTURED, PAYMENT_FAILED, STOCK_RESERVED, STOCK_REJECTED, PAYMENT_REFUNDED]);
  }

  /** Handling a published fact is what the specification says, and never fails. */
  lemma FactsSummarized(handlers: map<string, FactHandler<Summary, Contract>>, t: Summary, m: Message<Contract>)
    requires Serves(handlers, FACTS) && Fact(m)
    ensures HandleFact(handlers, t, m) == Applied(Summarize(t, Item.Foreign(m)), None)
  {
    FactsHaveStatus(m.body);
    assert t.queued + {} == t.queued;
    assert EventKey(m.name, m.version) in handlers <==> m.name in FACTS;
  }

  /**
   * The six facts and the statuses they raise a row to. A row that is missing is
   * created with the column defaults, one of that rank or a higher one stays as it
   * is, and no other row changes; a failed payment and a shipment are queued for
   * the customer.
   */
  lemma FactRaises(
    handlers: map<string, FactHandler<Summary, Contract>>, t: Summary, m: Message<Contract>, status: string, rank: int)
    requires Serves(handlers, FACTS) && Fact(m) && IsStatus(m.body, status, rank)
    ensures var a := HandleFact(handlers, t, m); var id := m.body.orderId;
      && a.err == None
      && a.state.rows.Keys == t.rows.Keys + {id}
      && (forall other :: other in t.rows && other != id ==> a.state.rows[other] == t.rows[other])
      && (id in t.rows && t.rows[id].rank >= rank ==> a.state.rows[id] == t.rows[id])
      && (id in t.rows && t.rows[id].rank < rank ==> a.state.rows[id] == Row(t.rows[id].base, status, rank))
      && (id !in t.rows ==> a.state.rows[id] == Row(Base("", 0, "", 0), status, rank))
      && a.state.queued ==
           t.queued + (if m.body.PaymentFailedV1? then {(id, "payment_failed")}
                       else if m.body.ShipmentDispatchedV1? then {(id, "shipped")} else {})
  {
    FactsSummarized(handlers, t, m);
  }

  /** Every other contract is skipped. */
  lemma OthersSkipped(handlers: map<string, FactHandler<Summary, Contract>>, t: Summary, m: Message<Contract>)
    requires Serves(handlers, FACTS) && Fact(m) && forall status, rank :: !IsStatus(m.body, status, rank)
    ensures HandleFact(handlers, t, m) == Applied(t, None)
  {
    FactsSummarized(handlers, t, m);
    assert !IsStatus(m.body, "paid", 2) && !IsStatus(m.body, "reserved", 3) && !IsStatus(m.body, "shipped", 4);
    assert !IsStatus(m.body, "payment_failed", 10) && !IsStatus(m.body, "rejected", 11);
    assert !IsStatus(m.body, "refunded", 12);
  }

  /** A placement writes the ordered columns, and the status only of a row that has none yet. */
  lemma PlacementWritten(entries: Entries<Event, Event>, t: Summary, rec: RecordedEvent<Event>)
    requires rec.data.eventName == EventNameOf(rec.data.payload) && rec.data.payload.OrderPlaced?
    requires DecodeData(entries, rec.data) == Ok(rec.data.payload)
    ensures var a := HandleRecord(map[ORDER_PLACED := OnPlaced], entries, t, rec); var e := rec.data.payload;
      && a.err == None && a.state.queued == t.queued
      && a.state.rows.Keys == t.rows.Keys + {e.id}
      && (forall other :: other in t.rows && other != e.id ==> a.state.rows[other] == t.rows[other])
      && a.state.rows[e.id].base == Base(e.customer, e.cents, e.currency, e.qty)
      && (if e.id in t.rows && t.rows[e.id].rank >= 1
          then a.state.rows[e.id].status == t.rows[e.id].status && a.state.rows[e.id].rank == t.rows[e.id].rank
          else a.state.rows[e.id].status == "placed" && a.state.rows[e.id].rank == 1)
  {
    RecordsSummarized(entries, t, rec);
  }

  /** So is handling a stored record, as long as what is registered reads back what was stored. */
  lemma RecordsSummarized(entries: Entries<Event, Event>, t: Summary, rec: RecordedEvent<Event>)
    requires rec.data.eventName == EventNameOf(rec.data.payload)
    requires rec.data.payload.OrderPlaced? ==> DecodeData(entries, rec.data) == Ok(rec.data.payload)
    ensures HandleRecord(map[ORDER_PLACED := OnPlaced], entries, t, rec) == Applied(Summarize(t, Own(rec)), None)
  {
  }
}
