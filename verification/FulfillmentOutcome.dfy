/**
 * The outcome of every order, and of its row in the order_summary read model,
 * once nothing is left to relay, deliver or project.
 */
module FulfillmentOutcome {
  import opened Wrappers
  import opened EventStore
  import opened Messaging
  import opened Pipeline
  import opened Contracts
  import opened Topology
  import opened Script
  import opened OrderSummary
  import opened FulfillmentSystem
  import opened FulfillmentInvariant
  import opened Fulfillment
  import Projection
  import Saga

  // ---- What the two logs hold ------------------------------------------

  function Items(s: State): seq<Item> {
    OwnItems(StoreOf(s, OrderService)) + ForeignItems(s.inbox)
  }

  lemma ItemOf(s: State, i: Item)
    ensures i in Items(s) <==> (i.Own? && i.rec in StoreOf(s, OrderService)) || (i.Foreign? && i.msg in s.inbox)
  {
    var own, foreign := OwnItems(StoreOf(s, OrderService)), ForeignItems(s.inbox);
    if i in own {
      var k :| 0 <= k < |own| && own[k] == i;
    }
    if i in foreign {
      var k :| 0 <= k < |foreign| && foreign[k] == i;
    }
    if i.Own? && i.rec in StoreOf(s, OrderService) {
      var k :| 0 <= k < |own| && StoreOf(s, OrderService)[k] == i.rec;
      assert own[k] == i;
    }
    if i.Foreign? && i.msg in s.inbox {
      var k :| 0 <= k < |foreign| && s.inbox[k] == i.msg;
      assert foreign[k] == i;
    }
  }

  /** An order is placed once, in its own stream. */
  lemma PlacedOnce(s: State, r: RecordedEvent<Event>)
    requires StoresInv(s) && r in StoreOf(s, OrderService) && r.data.payload.OrderPlaced?
    ensures var id := r.data.payload.id; IsPlaced(s, id) && r.data.payload == PlacedBy(OrderOf(s, id))
  {
    assert NodeInv(RelayOf(OrderService), NodeOf(s, OrderService))
      && RecordsInv(OrderService, StoreOf(s, OrderService));
    RecordInHistory(StoreOf(s, OrderService), r);
    assert OnScript(s, r.stream.id);
  }

  lemma PlacementsUnique(s: State)
    requires StoresInv(s)
    ensures OnePlacement(Items(s))
  {
    forall i, j | i in Items(s) && j in Items(s) && i.Own? && j.Own? && SameOrder(i, j)
      ensures Placed(i.rec.data.payload) == Placed(j.rec.data.payload)
    {
      ItemOf(s, i);
      ItemOf(s, j);
      PlacedOnce(s, i.rec);
      PlacedOnce(s, j.rec);
    }
  }

  /** Every fact in the inbox about an order is one its script has spoken. */
  lemma InboxSaid(s: State, o: Order, m: Message<Contract>) returns (j: nat)
    requires StoresInv(s) && InboxInv(s) && IsPlaced(s, o.id) && o == OrderOf(s, o.id)
    requires m in s.inbox && m.body.orderId == o.id
    ensures Spoken(o, Phase(s, o.id), j) && Numbered(j) && j % 2 == 0 && j > 0 && m == Trigger(o, j)
  {
    var svc :| svc != OrderService && m in TopicLog(s, ToInbox(svc));
    var o';
    o', j := FactSaid(s, ToInbox(svc), m);
    FactAbout(o', j);
  }

  lemma FactAbout(o: Order, j: nat)
    ensures Says(o, j).orderId == o.id
  {
  }

  // ---- The last word on an order ---------------------------------------

  /** The fact that decides an order's final status. */
  function LastWord(o: Order): nat {
    match FateOf(o) case Declined => 2 case Rejected => EPILOGUE case Delivered => 6
  }

  function FinalStatus(o: Order): string {
    match FateOf(o) case Declined => "payment_failed" case Rejected => "refunded" case Delivered => "shipped"
  }

  /** The reason of the one notification an order calls for, if any. */
  function FinalNotice(o: Order): Option<string> {
    match FateOf(o) case Declined => Some("payment_failed") case Rejected => None case Delivered => Some("shipped")
  }

  /** No fact about an order outranks the last word. */
  lemma LastWordRanks(o: Order, k: nat, j: nat)
    requires Spoken(o, k, j) && Numbered(j) && j % 2 == 0 && j > 0 && k <= Length(o)
    ensures StatusOf(Says(o, j)).Some? && StatusOf(Says(o, LastWord(o))).Some?
    ensures StatusOf(Says(o, LastWord(o))).value.0 == FinalStatus(o)
    ensures var rank := StatusOf(Says(o, j)).value.1; var last := StatusOf(Says(o, LastWord(o))).value.1;
      RANK_PLACED < last && rank <= last && (rank == last <==> j == LastWord(o))
    ensures Milestone(Says(o, j)) == if j == LastWord(o) then FinalNotice(o) else None
  {
  }

  lemma LastWordSpoken(o: Order, k: nat)
    requires Length(o) <= k
    ensures Spoken(o, k, LastWord(o)) && Teller(LastWord(o)) != OrderService
    ensures Numbered(LastWord(o)) && LastWord(o) % 2 == 0 && LastWord(o) > 0
  {
  }

  /** An item says no more about the order than its last word does. */
  ghost predicate NoMore(o: Order, i: Item) {
    && About(i).Some? && StatusOf(Says(o, LastWord(o))).Some?
    && About(i).value.2 <= StatusOf(Says(o, LastWord(o))).value.1
    && (About(i).value.2 == StatusOf(Says(o, LastWord(o))).value.1 ==> About(i).value.1 == FinalStatus(o))
  }

  lemma FactSaysNoMore(o: Order, k: nat, j: nat)
    requires Spoken(o, k, j) && Numbered(j) && j % 2 == 0 && j > 0 && k <= Length(o)
    ensures NoMore(o, Item.Foreign(Trigger(o, j)))
  {
    LastWordRanks(o, k, j);
  }

  lemma PlacementSaysNoMore(o: Order, rec: RecordedEvent<Event>)
    requires rec.data.payload.OrderPlaced?
    ensures NoMore(o, Own(rec))
  {
    LastWordSpoken(o, Length(o));
    LastWordRanks(o, Length(o), LastWord(o));
  }

  lemma InboxSaysNoMore(s: State, o: Order, m: Message<Contract>)
    requires StoresInv(s) && InboxInv(s) && IsPlaced(s, o.id) && o == OrderOf(s, o.id)
    requires m in s.inbox && m.body.orderId == o.id
    ensures NoMore(o, Item.Foreign(m))
  {
    assert OnScript(s, o.id);
    var j := InboxSaid(s, o, m);
    FactSaysNoMore(o, Phase(s, o.id), j);
  }

  lemma ItemRank(s: State, o: Order, i: Item)
    requires StoresInv(s) && InboxInv(s) && IsPlaced(s, o.id) && o == OrderOf(s, o.id)
    requires i in Items(s) && Mentions(i, o.id)
    ensures NoMore(o, i)
  {
    ItemOf(s, i);
    if i.Foreign? {
      MentionsOrder(i, o.id);
      InboxSaysNoMore(s, o, i.msg);
    } else {
      MentionsPlacement(i, o.id);
      PlacementSaysNoMore(o, i.rec);
    }
  }

  lemma MentionsOrder(i: Item, id: string)
    requires i.Foreign? && Mentions(i, id)
    ensures i == Item.Foreign(i.msg) && i.msg.body.orderId == id
  {
  }

  lemma MentionsPlacement(i: Item, id: string)
    requires i.Own? && Mentions(i, id)
    ensures i == Own(i.rec) && i.rec.data.payload.OrderPlaced?
  {
  }

  /** The placement is in the store. */
  lemma PlacementStored(s: State, id: string) returns (r: RecordedEvent<Event>)
    requires IsPlaced(s, id)
    ensures r in StoreOf(s, OrderService) && r.stream == StreamID(ORDER_CATEGORY, id)
    ensures r.data.payload == PlacedBy(OrderOf(s, id))
  {
    var stream := StreamID(ORDER_CATEGORY, id);
    StreamMembers(StoreOf(s, OrderService), stream);
    r := StreamOf(StoreOf(s, OrderService), stream)[0];
    assert r in StreamOf(StoreOf(s, OrderService), stream);
    assert OrderHistory(s, id)[0] == r.data.payload;
  }

  /** The last word has reached the inbox. */
  lemma LastWordStored(s: State, o: Order)
    requires StoresInv(s) && SubsInv(s) && Quiescent(s) && IsPlaced(s, o.id) && o == OrderOf(s, o.id)
    ensures Trigger(o, LastWord(o)) in s.inbox
  {
    PhaseComplete(s, o);
    LastWordSpoken(o, Phase(s, o.id));
    FactPublished(s, o, LastWord(o));
    DoneWith(s, ToInbox(Teller(LastWord(o))), Trigger(o, LastWord(o)));
  }

  // ---- The theorems ----------------------------------------------------

  /** Both of the read model's runners are at the end of their logs. */
  ghost predicate ViewCaughtUp(s: State) {
    s.view.own.cp == |StoreOf(s, OrderService)| && s.view.foreign.cp == |s.inbox|
  }

  /** The read model is then the fold of what the two logs hold. */
  lemma ViewSettled(s: State)
    requires Inv(s) && ViewCaughtUp(s)
    ensures s.view.table == Projection.Fold(Summarize, EMPTY, Items(s)) && OnePlacement(Items(s))
  {
    PlacementsUnique(s);
    SummaryRepairable(Items(s));
    var own, foreign := OwnItems(StoreOf(s, OrderService)), ForeignItems(s.inbox);
    Projection.CaughtUp(Summarize, FirstWrite, EMPTY, own, foreign, s.view);
  }

  /** What the last word says about an order's row. */
  lemma LastWordAbout(o: Order)
    ensures About(Item.Foreign(Trigger(o, LastWord(o)))) ==
      Some((o.id, FinalStatus(o), StatusOf(Says(o, LastWord(o))).value.1))
    ensures StatusOf(Says(o, LastWord(o))).value.0 == FinalStatus(o)
  {
    LastWordSpoken(o, Length(o));
    LastWordRanks(o, Length(o), LastWord(o));
    FactAbout(o, LastWord(o));
  }

  /** A row that fits the settled logs has the final status. */
  lemma SettledStatus(s: State, o: Order, rows: Rows)
    requires StoresInv(s) && InboxInv(s) && IsPlaced(s, o.id) && o == OrderOf(s, o.id)
    requires RowFits(Items(s), o.id, rows) && Trigger(o, LastWord(o)) in s.inbox
    ensures o.id in rows && rows[o.id].status == FinalStatus(o)
  {
    var last := Item.Foreign(Trigger(o, LastWord(o)));
    ItemOf(s, last);
    LastWordAbout(o);
    assert Mentions(last, o.id);
    var i :| i in Items(s) && About(i) == Some((o.id, rows[o.id].status, rows[o.id].rank));
    ItemRank(s, o, i);
  }

  lemma SettledBase(s: State, o: Order, rows: Rows)
    requires IsPlaced(s, o.id) && o == OrderOf(s, o.id) && RowFits(Items(s), o.id, rows)
    ensures o.id in rows && rows[o.id].base == Base(o.customer, o.cents, o.currency, o.qty)
  {
    var r := PlacementStored(s, o.id);
    ItemOf(s, Own(r));
    assert Mentions(Own(r), o.id);
  }

  lemma FinalRow(s: State, o: Order)
    requires Inv(s) && Quiescent(s) && IsPlaced(s, o.id) && o == OrderOf(s, o.id)
    ensures var rows := s.view.table.rows;
      o.id in rows && rows[o.id].status == FinalStatus(o)
        && rows[o.id].base == Base(o.customer, o.cents, o.currency, o.qty)
  {
    ViewSettled(s);
    FoldRow(Items(s), o.id);
    LastWordStored(s, o);
    SettledStatus(s, o, s.view.table.rows);
    SettledBase(s, o, s.view.table.rows);
  }

  /** The milestones among the facts about an order. */
  lemma NoticeSaid(s: State, o: Order, m: Message<Contract>)
    requires StoresInv(s) && InboxInv(s) && IsPlaced(s, o.id) && o == OrderOf(s, o.id)
    requires m in s.inbox && m.body.orderId == o.id && Milestone(m.body).Some?
    ensures Milestone(m.body) == FinalNotice(o)
  {
    assert OnScript(s, o.id);
    var j := InboxSaid(s, o, m);
    LastWordRanks(o, Phase(s, o.id), j);
  }

  lemma FinalQueue(s: State, o: Order, reason: string)
    requires Inv(s) && Quiescent(s) && IsPlaced(s, o.id) && o == OrderOf(s, o.id)
    ensures (o.id, reason) in s.view.table.queued <==> FinalNotice(o) == Some(reason)
  {
    ViewSettled(s);
    FoldQueue(Items(s), o.id, reason);
    if FinalNotice(o) == Some(reason) {
      LastWordStored(s, o);
      LastWordSpoken(o, Length(o));
      LastWordRanks(o, Length(o), LastWord(o));
      FactAbout(o, LastWord(o));
      ItemOf(s, Item.Foreign(Trigger(o, LastWord(o))));
    } else if i :| i in Items(s) && i.Foreign? && i.msg.body.orderId == o.id && Milestone(i.msg.body) == Some(reason) {
      ItemOf(s, i);
      NoticeSaid(s, o, i.msg);
    }
  }

  lemma SagaClosed(o: Order)
    ensures Saga.Closed(SagaAt(o, Length(o)))
  {
    BlocksInPlace(o, (Length(o) + 1) / 2);
  }

  /** The fates in the terms of the order. */
  lemma FateNames(o: Order)
    ensures FinalStatus(o) ==
      (if o.cents > 99_999 then "payment_failed" else if o.qty > 10 then "refunded" else "shipped")
    ensures FinalNotice(o) ==
      (if o.cents > 99_999 then Some("payment_failed") else if o.qty > 10 then None else Some("shipped"))
  {
  }

  /**
   * The quiescent outcome. In every run, once nothing is left to relay, deliver
   * or project: every placed order has played its whole script, its saga has
   * ended, its order_summary row shows what was ordered with the status its
   * total and quantity determine, and the customer's notification is queued
   * exactly when there is one.
   */
  lemma Outcome(steps: seq<Step>, id: string)
    requires Quiescent(Run(steps)) && IsPlaced(Run(steps), id)
    ensures var s := Run(steps); var o := OrderOf(s, id); var rows := s.view.table.rows;
      && At(s, id, o, Length(o))
      && SagaHistory(s, id) != [] && SagaHistory(s, id)[|SagaHistory(s, id)| - 1] == SagaStep(Saga.Ended)
      && id in rows
      && rows[id].base == Base(o.customer, o.cents, o.currency, o.qty)
      && rows[id].status ==
           (if o.cents > 99_999 then "payment_failed" else if o.qty > 10 then "refunded" else "shipped")
      && (forall reason :: (id, reason) in s.view.table.queued <==>
            (o.cents > 99_999 && reason == "payment_failed")
            || (o.cents <= 99_999 && o.qty <= 10 && reason == "shipped"))
  {
    RunKeeps(steps);
    var s := Run(steps);
    var o := OrderOf(s, id);
    ScriptComplete(s, id);
    SagaClosed(o);
    FinalRow(s, o);
    FateNames(o);
    forall reason ensures (id, reason) in s.view.table.queued <==> FinalNotice(o) == Some(reason) {
      FinalQueue(s, o, reason);
    }
  }
}
