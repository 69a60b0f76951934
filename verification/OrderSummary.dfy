/**
 * The order_summary read model: the rank-guarded upserts of
 * ordering/internal/adapters/postgres/summary.go and the handlers of
 * ordering/internal/app/projection.go. They meet the projection contract
 * exactly when no order is placed twice with different content, and a row's
 * status is the highest-ranked one among the facts applied.
 */
module OrderSummary {
  import opened Wrappers
  import opened EventStore
  import opened Messaging
  import opened Contracts
  import opened Projection
  import opened FulfillmentSaga

  const RANK_PLACED := 1
  const RANK_PAID := 2
  const RANK_RESERVED := 3
  const RANK_SHIPPED := 4
  const RANK_PAYMENT_FAILED := 10
  const RANK_REJECTED := 11
  const RANK_REFUNDED := 12

  datatype Base = Base(customer: string, cents: int, currency: string, qty: int)

  /** The column defaults of a row that a foreign fact created first. */
  const NO_BASE := Base("", 0, "", 0)

  datatype Row = Row(base: Base, status: string, rank: int)

  type Rows = map<string, Row>

  /** A higher or equal rank that is already there stays. */
  function Raised(row: Row, status: string, rank: int): Row {
    if row.rank >= rank then row else row.(status := status, rank := rank)
  }

  function Upserted(rows: Rows, id: string, base: Base): Rows {
    if id in rows then rows[id := Raised(rows[id], "placed", RANK_PLACED).(base := base)]
    else rows[id := Row(base, "placed", RANK_PLACED)]
  }

  function WithStatus(rows: Rows, id: string, status: string, rank: int): Rows {
    if id in rows then rows[id := Raised(rows[id], status, rank)]
    else rows[id := Row(NO_BASE, status, rank)]
  }

  // ---- The projection --------------------------------------------------

  /** The read side: the rows, and which (order, reason) pairs were put on the worklist. */
  datatype Summary = Summary(rows: Rows, queued: set<(string, string)>)

  const EMPTY := Summary(map[], {})

  /** Raising: what is left of a foreign fact whose handler stopped before it queued anything. */
  datatype Item = Own(rec: RecordedEvent<Event>) | Foreign(msg: Message<Contract>) | Raising(msg: Message<Contract>)

  /** The first of an item's writes; placements make one. */
  function FirstWrite(i: Item): Item {
    if i.Foreign? then Raising(i.msg) else i
  }

  /** The status a foreign fact stands for. */
  function StatusOf(c: Contract): Option<(string, int)> {
    match c
    case PaymentCapturedV1(_, _) => Some(("paid", RANK_PAID))
    case PaymentFailedV1(_, _) => Some(("payment_failed", RANK_PAYMENT_FAILED))
    case StockReservedV1(_, _) => Some(("reserved", RANK_RESERVED))
    case StockRejectedV1(_, _) => Some(("rejected", RANK_REJECTED))
    case PaymentRefundedV1(_) => Some(("refunded", RANK_REFUNDED))
    case ShipmentDispatchedV1(_) => Some(("shipped", RANK_SHIPPED))
    case _ => None
  }

  /** Which facts lead to a notification, and for what reason. */
  function Milestone(c: Contract): Option<string> {
    match c
    case PaymentFailedV1(_, _) => Some("payment_failed")
    case ShipmentDispatchedV1(_) => Some("shipped")
    case _ => None
  }

  function Placed(e: Event): Option<(string, Base)> {
    if e.OrderPlaced? then Some((e.id, Base(e.customer, e.cents, e.currency, e.qty))) else None
  }

  /** What the handlers do with an item; all others are skipped. */
  function Summarize(t: Summary, item: Item): Summary {
    match item
    case Own(rec) =>
      (match Placed(rec.data.payload)
       case None => t
       case Some((id, base)) => t.(rows := Upserted(t.rows, id, base)))
    case Foreign(m) =>
      if !Fact(m) || StatusOf(m.body).None? then t
      else
        StatusRaised(t, m.body).(queued :=
          t.queued + (if Milestone(m.body).Some? then {(m.body.orderId, Milestone(m.body).value)} else {}))
    case Raising(m) => if !Fact(m) || StatusOf(m.body).None? then t else StatusRaised(t, m.body)
  }

  function StatusRaised(t: Summary, c: Contract): Summary
    requires StatusOf(c).Some?
  {
    var (status, rank) := StatusOf(c).value;
    t.(rows := WithStatus(t.rows, c.orderId, status, rank))
  }

  // ---- The handlers meet the projection contract ------------------------

  /** No order is placed twice with different content. */
  ghost predicate OnePlacement(items: seq<Item>) {
    forall i, j :: i in items && j in items && i.Own? && j.Own? && SameOrder(i, j) ==>
      Placed(i.rec.data.payload) == Placed(j.rec.data.payload)
  }

  ghost predicate SameOrder(i: Item, j: Item)
    requires i.Own? && j.Own?
  {
    var a, b := Placed(i.rec.data.payload), Placed(j.rec.data.payload);
    a.Some? && b.Some? && a.value.0 == b.value.0
  }

  lemma UpsertsCommute(rows: Rows, id: string, base: Base, id': string, base': Base)
    requires id == id' ==> base == base'
    ensures Upserted(Upserted(rows, id, base), id', base') == Upserted(Upserted(rows, id', base'), id, base)
  {
  }

  lemma UpsertAndSetCommute(rows: Rows, id: string, base: Base, id': string, status: string, rank: int)
    requires rank > RANK_PLACED
    ensures WithStatus(Upserted(rows, id, base), id', status, rank) ==
      Upserted(WithStatus(rows, id', status, rank), id, base)
  {
  }

  lemma SetsCommute(rows: Rows, id: string, status: string, rank: int, id': string, status': string, rank': int)
    requires rank == rank' ==> status == status'
    ensures WithStatus(WithStatus(rows, id, status, rank), id', status', rank')
         == WithStatus(WithStatus(rows, id', status', rank'), id, status, rank)
  {
  }

  lemma ItemsCommute(i: Item, j: Item)
    requires i.Own? && j.Own? && SameOrder(i, j) ==> Placed(i.rec.data.payload) == Placed(j.rec.data.payload)
    ensures Commute(Summarize, i, j)
  {
    forall t ensures Summarize(Summarize(t, i), j) == Summarize(Summarize(t, j), i) {
      match (i, j) {
        case (Own(a), Own(b)) =>
          if Placed(a.data.payload).Some? && Placed(b.data.payload).Some? {
            var (x, y) := (Placed(a.data.payload).value, Placed(b.data.payload).value);
            UpsertsCommute(t.rows, x.0, x.1, y.0, y.1);
          }
        case (Own(a), _) => OwnForeignCommute(t, a, j);
        case (_, Own(a)) => OwnForeignCommute(t, a, i);
        case (_, _) => ForeignCommute(t, i, j);
      }
    }
  }

  lemma ForeignCommute(t: Summary, i: Item, j: Item)
    requires !i.Own? && !j.Own?
    ensures Summarize(Summarize(t, i), j) == Summarize(Summarize(t, j), i)
  {
    var m, n := i.msg, j.msg;
    if StatusOf(m.body).Some? && StatusOf(n.body).Some? {
      var (x, y) := (StatusOf(m.body).value, StatusOf(n.body).value);
      SetsCommute(t.rows, m.body.orderId, x.0, x.1, n.body.orderId, y.0, y.1);
    }
  }

  lemma OwnForeignCommute(t: Summary, a: RecordedEvent<Event>, j: Item)
    requires !j.Own?
    ensures Summarize(Summarize(t, Own(a)), j) == Summarize(Summarize(t, j), Own(a))
  {
    if Placed(a.data.payload).Some? && StatusOf(j.msg.body).Some? {
      var (x, y) := (Placed(a.data.payload).value, StatusOf(j.msg.body).value);
      UpsertAndSetCommute(t.rows, x.0, x.1, j.msg.body.orderId, y.0, y.1);
    }
  }

  /** Two placements of one order with different content do not commute: the later one wins. */
  lemma PlacementsClash(i: Item, j: Item)
    requires i.Own? && j.Own? && SameOrder(i, j) && Placed(i.rec.data.payload) != Placed(j.rec.data.payload)
    ensures !Commute(Summarize, i, j)
  {
    var id := Placed(i.rec.data.payload).value.0;
    assert Summarize(Summarize(EMPTY, i), j).rows[id].base == Placed(j.rec.data.payload).value.1;
    assert Summarize(Summarize(EMPTY, j), i).rows[id].base == Placed(i.rec.data.payload).value.1;
  }

  lemma ItemIdempotent(i: Item)
    ensures Idempotent(Summarize, i)
  {
  }

  /** The summary handlers may be repeated and reordered exactly under this condition. */
  lemma SummarizeTame(items: seq<Item>)
    ensures Tame(Summarize, items) <==> OnePlacement(items)
  {
    if OnePlacement(items) {
      forall i, j | i in items && j in items ensures Commute(Summarize, i, j) {
        ItemsCommute(i, j);
      }
      forall i | i in items ensures Idempotent(Summarize, i) {
        ItemIdempotent(i);
      }
    } else {
      var i, j :| i in items && j in items && i.Own? && j.Own? && SameOrder(i, j)
        && Placed(i.rec.data.payload) != Placed(j.rec.data.payload);
      PlacementsClash(i, j);
    }
  }

  lemma FirstWriteContained(i: Item)
    ensures Contains(Summarize, i, FirstWrite(i))
  {
    ItemIdempotent(i);
    if i.Foreign? {
      forall t ensures Summarize(Summarize(t, i), FirstWrite(i)) == Summarize(t, i) {
        RaisedBefore(t, i.msg);
      }
    }
  }

  lemma RaisedBefore(t: Summary, m: Message<Contract>)
    ensures Summarize(Summarize(t, Item.Foreign(m)), Raising(m)) == Summarize(t, Item.Foreign(m))
  {
  }

  /** A crash between raising the status and queueing the notification needs no condition of its own. */
  lemma SummaryRepairable(items: seq<Item>)
    ensures Repairable(Summarize, FirstWrite, items) <==> OnePlacement(items)
  {
    var all := items + AllBegun(FirstWrite, items);
    SummarizeTame(all);
    forall i | i in items ensures Contains(Summarize, i, FirstWrite(i)) {
      FirstWriteContained(i);
    }
    assert forall k :: 0 <= k < |items| && FirstWrite(items[k]).Own? ==> AllBegun(FirstWrite, items)[k] == items[k];
    assert forall i :: i in all && i.Own? ==> i in items;
    assert OnePlacement(items) <==> OnePlacement(all);
  }

  // ---- What a row says -------------------------------------------------

  /** The order an item is about, with the status it stands for. */
  function About(i: Item): Option<(string, string, int)> {
    match i
    case Own(rec) =>
      (match Placed(rec.data.payload) case None => None case Some((id, _)) => Some((id, "placed", RANK_PLACED)))
    case _ =>
      var m := i.msg;
      if !Fact(m) then None
      else match StatusOf(m.body) case None => None case Some((status, rank)) => Some((m.body.orderId, status, rank))
  }

  ghost predicate Mentions(i: Item, id: string) {
    About(i).Some? && About(i).value.0 == id
  }

  /** A row exists exactly for the orders mentioned, with the highest-ranked status mentioned and the placed columns. */
  ghost predicate RowFits(items: seq<Item>, id: string, rows: Rows) {
    && (id in rows <==> exists i :: i in items && Mentions(i, id))
    && (id in rows ==>
          && (exists i :: i in items && About(i) == Some((id, rows[id].status, rows[id].rank)))
          && (forall i :: i in items && Mentions(i, id) ==> About(i).value.2 <= rows[id].rank)
          && (forall i :: i in items && i.Own? && Mentions(i, id) ==>
                rows[id].base == Placed(i.rec.data.payload).value.1))
  }

  lemma RowFitsSnoc(items: seq<Item>, i: Item, id: string, t: Summary)
    requires RowFits(items, id, t.rows) && OnePlacement(items + [i])
    ensures RowFits(items + [i], id, Summarize(t, i).rows)
  {
    var after := items + [i];
    var rows, rows' := t.rows, Summarize(t, i).rows;
    assert i in after && forall j :: j in after <==> j in items || j == i;
    if Mentions(i, id) {
      if id in rows && rows[id].rank >= About(i).value.2 {
        var j :| j in items && About(j) == Some((id, rows[id].status, rows[id].rank));
        assert j in after;
      } else {
        assert About(i) == Some((id, rows'[id].status, rows'[id].rank));
      }
      if i.Own? {
        forall j | j in items && j.Own? && Mentions(j, id)
          ensures Placed(j.rec.data.payload) == Placed(i.rec.data.payload)
        {
          assert j in after && SameOrder(j, i);
        }
      }
    } else {
      assert id in rows <==> id in rows';
      if id in rows {
        var j :| j in items && About(j) == Some((id, rows[id].status, rows[id].rank));
        assert j in after;
      }
    }
  }

  /** Every row of the fold says the highest-ranked fact about its order. */
  lemma {:induction false} FoldRow(items: seq<Item>, id: string)
    requires OnePlacement(items)
    ensures RowFits(items, id, Fold(Summarize, EMPTY, items).rows)
  {
    if items != [] {
      var init, last := items[..|items| - 1], items[|items| - 1];
      assert items == init + [last];
      assert forall i :: i in init ==> i in items;
      FoldRow(init, id);
      RowFitsSnoc(init, last, id, Fold(Summarize, EMPTY, init));
    }
  }

  // ---- What a row says, fact by fact -----------------------------------

  /** A published fact about an order, handled as a whole or in part. */
  predicate Tells(i: Item, id: string) {
    !i.Own? && Fact(i.msg) && i.msg.body.orderId == id
  }

  ghost predicate PlacementSeen(items: seq<Item>, id: string) {
    exists i :: i in items && i.Own? && i.rec.data.payload.OrderPlaced? && i.rec.data.payload.id == id
  }

  ghost predicate CaptureSeen(items: seq<Item>, id: string) {
    exists i :: i in items && Tells(i, id) && i.msg.body.PaymentCapturedV1?
  }

  ghost predicate FailureSeen(items: seq<Item>, id: string) {
    exists i :: i in items && Tells(i, id) && i.msg.body.PaymentFailedV1?
  }

  ghost predicate ReservationSeen(items: seq<Item>, id: string) {
    exists i :: i in items && Tells(i, id) && i.msg.body.StockReservedV1?
  }

  ghost predicate RejectionSeen(items: seq<Item>, id: string) {
    exists i :: i in items && Tells(i, id) && i.msg.body.StockRejectedV1?
  }

  ghost predicate RefundSeen(items: seq<Item>, id: string) {
    exists i :: i in items && Tells(i, id) && i.msg.body.PaymentRefundedV1?
  }

  ghost predicate ShipmentSeen(items: seq<Item>, id: string) {
    exists i :: i in items && Tells(i, id) && i.msg.body.ShipmentDispatchedV1?
  }

  /** What each kind of item says about its order. */
  predicate SaysOf(i: Item, id: string, status: string, rank: int) {
    || (i.Own? && i.rec.data.payload.OrderPlaced? && i.rec.data.payload.id == id && status == "placed" && rank == 1)
    || (Tells(i, id) && IsStatus(i.msg.body, status, rank))
  }

  predicate IsStatus(c: Contract, status: string, rank: int) {
    || (c.PaymentCapturedV1? && status == "paid" && rank == 2)
    || (c.StockReservedV1? && status == "reserved" && rank == 3)
    || (c.ShipmentDispatchedV1? && status == "shipped" && rank == 4)
    || (c.PaymentFailedV1? && status == "payment_failed" && rank == 10)
    || (c.StockRejectedV1? && status == "rejected" && rank == 11)
    || (c.PaymentRefundedV1? && status == "refunded" && rank == 12)
  }

  lemma AboutLaw(i: Item, id: string, status: string, rank: int)
    ensures About(i) == Some((id, status, rank)) <==> SaysOf(i, id, status, rank)
  {
  }

  /** The first of these that has happened gives the status and its rank. */
  function StatusFor(
    refunded: bool, rejected: bool, failed: bool, shipped: bool, reserved: bool, captured: bool): (string, int)
  {
    if refunded then ("refunded", 12)
    else if rejected then ("rejected", 11)
    else if failed then ("payment_failed", 10)
    else if shipped then ("shipped", 4)
    else if reserved then ("reserved", 3)
    else if captured then ("paid", 2)
    else ("placed", 1)
  }

  /** An item of a kind bounds the row's rank from below. */
  lemma RankAtLeast(items: seq<Item>, id: string, rows: Rows, i: Item, status: string, rank: int)
    requires RowFits(items, id, rows) && i in items && About(i) == Some((id, status, rank))
    ensures id in rows && rank <= rows[id].rank
  {
    assert Mentions(i, id);
  }

  lemma SeenRanks(items: seq<Item>, id: string, rows: Rows)
    requires RowFits(items, id, rows)
    ensures PlacementSeen(items, id) ==> id in rows
    ensures CaptureSeen(items, id) ==> id in rows && rows[id].rank >= 2
    ensures ReservationSeen(items, id) ==> id in rows && rows[id].rank >= 3
    ensures ShipmentSeen(items, id) ==> id in rows && rows[id].rank >= 4
    ensures FailureSeen(items, id) ==> id in rows && rows[id].rank >= 10
    ensures RejectionSeen(items, id) ==> id in rows && rows[id].rank >= 11
    ensures RefundSeen(items, id) ==> id in rows && rows[id].rank >= 12
  {
    forall i, status, rank | i in items && About(i) == Some((id, status, rank))
      ensures id in rows && rank <= rows[id].rank
    {
      RankAtLeast(items, id, rows, i, status, rank);
    }
    forall i, status, rank ensures About(i) == Some((id, status, rank)) <==> SaysOf(i, id, status, rank) {
      AboutLaw(i, id, status, rank);
    }
  }

  /**
   * The row of an order, literally: it exists exactly if a placement of the order
   * or a fact about it was seen, and its status is "refunded" if a refund was, else
   * "rejected" if a rejection was, and so on down to "placed".
   */
  lemma FoldStatus(items: seq<Item>, id: string)
    requires OnePlacement(items)
    ensures var rows := Fold(Summarize, EMPTY, items).rows;
      && (id in rows <==>
            || PlacementSeen(items, id) || CaptureSeen(items, id) || FailureSeen(items, id)
            || ReservationSeen(items, id) || RejectionSeen(items, id) || RefundSeen(items, id)
            || ShipmentSeen(items, id))
      && (id in rows ==>
            (rows[id].status, rows[id].rank) == StatusFor(
              RefundSeen(items, id), RejectionSeen(items, id), FailureSeen(items, id), ShipmentSeen(items, id),
              ReservationSeen(items, id), CaptureSeen(items, id)))
  {
    FoldRow(items, id);
    var rows := Fold(Summarize, EMPTY, items).rows;
    SeenRanks(items, id, rows);
    if id in rows {
      var i :| i in items && About(i) == Some((id, rows[id].status, rows[id].rank));
      AboutLaw(i, id, rows[id].status, rows[id].rank);
    }
  }

  /** The names of the seven ranks. */
  function StatusName(rank: int): Option<string> {
    match rank
    case 1 => Some("placed")
    case 2 => Some("paid")
    case 3 => Some("reserved")
    case 4 => Some("shipped")
    case 10 => Some("payment_failed")
    case 11 => Some("rejected")
    case 12 => Some("refunded")
    case _ => None
  }

  /** A row's status is always the name of its rank, so a raised rank never keeps an old name. */
  lemma StatusNamesRank(items: seq<Item>, id: string)
    requires OnePlacement(items)
    ensures var rows := Fold(Summarize, EMPTY, items).rows;
      id in rows ==> StatusName(rows[id].rank) == Some(rows[id].status)
  {
    FoldStatus(items, id);
  }

  /** An order is on the worklist for exactly the milestones seen. */
  lemma {:induction false} FoldQueue(items: seq<Item>, id: string, reason: string)
    ensures (id, reason) in Fold(Summarize, EMPTY, items).queued <==>
      exists i :: i in items && i.Foreign? && Fact(i.msg) && i.msg.body.orderId == id
        && Milestone(i.msg.body) == Some(reason)
  {
    if items != [] {
      var init, last := items[..|items| - 1], items[|items| - 1];
      assert items == init + [last];
      FoldQueue(init, id, reason);
    }
  }

  // ---- The store adapter -----------------------------------------------

  class SummaryStore {
    var rows: Rows

    constructor ()
      ensures rows == map[]
    {
      rows := map[];
    }

    method UpsertPlaced(id: string, base: Base)
      modifies this
      ensures rows == Upserted(old(rows), id, base)
      ensures rows.Keys == old(rows).Keys + {id} && rows[id].base == base
    {
      if id in rows {
        var row := rows[id].(base := base);
        rows := rows[id := if row.rank >= RANK_PLACED then row else row.(status := "placed", rank := RANK_PLACED)];
      } else {
        rows := rows[id := Row(base, "placed", RANK_PLACED)];
      }
    }

    method SetStatus(id: string, status: string, rank: int)
      modifies this
      ensures rows == WithStatus(old(rows), id, status, rank)
      ensures id in rows && rows[id].rank ==
        (if id in old(rows) && old(rows)[id].rank >= rank then old(rows)[id].rank else rank)
      ensures id in old(rows) ==> rows[id].base == old(rows)[id].base
    {
      if id in rows {
        if rows[id].rank < rank {
          rows := rows[id := rows[id].(status := status, rank := rank)];
        }
      } else {
        rows := rows[id := Row(NO_BASE, status, rank)];
      }
    }
  }
}
