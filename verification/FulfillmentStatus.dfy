/**
 * What an order's row in the read model says while the order is under way: never
 * anything that has not happened, and all that has happened once the facts have
 * arrived and both runners have caught up.
 */
module FulfillmentStatus {
  import opened Messaging
  import opened Contracts
  import opened Topology
  import opened Script
  import opened OrderSummary
  import opened FulfillmentSystem
  import opened FulfillmentInvariant
  import opened Fulfillment
  import opened FulfillmentOutcome
  import Projection

  // ---- What has happened to an order -----------------------------------

  ghost predicate Captured(s: State, id: string) { exists e :: e in PaymentHistory(s, id) && e.PaymentCaptured? }

  ghost predicate Failed(s: State, id: string) { exists e :: e in PaymentHistory(s, id) && e.PaymentFailed? }

  ghost predicate Refunded(s: State, id: string) { exists e :: e in PaymentHistory(s, id) && e.PaymentRefunded? }

  ghost predicate Reserved(s: State, id: string) { exists e :: e in ReservationHistory(s, id) && e.StockReserved? }

  ghost predicate Rejected(s: State, id: string) { exists e :: e in ReservationHistory(s, id) && e.StockRejected? }

  ghost predicate Shipped(s: State, id: string) { exists e :: e in ShipmentHistory(s, id) && e.ShipmentDispatched? }

  /** What a fact says has happened. */
  ghost predicate Happened(s: State, id: string, c: Contract) {
    && (c.PaymentCapturedV1? ==> Captured(s, id)) && (c.PaymentFailedV1? ==> Failed(s, id))
    && (c.StockReservedV1? ==> Reserved(s, id)) && (c.StockRejectedV1? ==> Rejected(s, id))
    && (c.ShipmentDispatchedV1? ==> Shipped(s, id)) && (c.PaymentRefundedV1? ==> Refunded(s, id))
  }

  /** Which facts the script has spoken after k beats. */
  lemma PaymentBy(s: State, id: string, o: Order, k: nat)
    requires At(s, id, o, k)
    ensures Captured(s, id) <==> Spoken(o, k, 2) && Says(o, 2).PaymentCapturedV1?
    ensures Failed(s, id) <==> Spoken(o, k, 2) && Says(o, 2).PaymentFailedV1?
    ensures Refunded(s, id) <==> Spoken(o, k, EPILOGUE)
  {
    if k >= 2 {
      assert PaymentHistory(s, id)[0] in PaymentHistory(s, id);
      if |PaymentAt(o, k)| == 2 {
        assert PaymentHistory(s, id)[1] in PaymentHistory(s, id);
      }
    }
  }

  lemma ReservationBy(s: State, id: string, o: Order, k: nat)
    requires At(s, id, o, k)
    ensures Reserved(s, id) <==> Spoken(o, k, 4) && Says(o, 4).StockReservedV1?
    ensures Rejected(s, id) <==> Spoken(o, k, 4) && Says(o, 4).StockRejectedV1?
  {
    if k >= 4 {
      assert ReservationHistory(s, id)[0] in ReservationHistory(s, id);
    }
  }

  lemma ShipmentBy(s: State, id: string, o: Order, k: nat)
    requires At(s, id, o, k)
    ensures Shipped(s, id) <==> Spoken(o, k, 6)
  {
    if ShipmentAt(o, k) != [] {
      assert ShipmentHistory(s, id)[0] in ShipmentHistory(s, id);
    }
  }

  /** One thing happens after another. */
  lemma HappenedInTurn(s: State, id: string)
    requires OnScript(s, id) && IsPlaced(s, id)
    ensures Reserved(s, id) || Rejected(s, id) ==> Captured(s, id)
    ensures Shipped(s, id) ==> Reserved(s, id)
    ensures Refunded(s, id) ==> Rejected(s, id)
  {
    PaymentBy(s, id, OrderOf(s, id), Phase(s, id));
    ReservationBy(s, id, OrderOf(s, id), Phase(s, id));
    ShipmentBy(s, id, OrderOf(s, id), Phase(s, id));
  }

  // ---- What the items say has happened ---------------------------------

  /** What a spoken fact says is in the histories. */
  lemma SpokenHappened(s: State, o: Order, j: nat)
    requires At(s, o.id, o, Phase(s, o.id)) && Spoken(o, Phase(s, o.id), j) && Numbered(j) && j % 2 == 0
    ensures Happened(s, o.id, Says(o, j))
  {
    PaymentBy(s, o.id, o, Phase(s, o.id));
    ReservationBy(s, o.id, o, Phase(s, o.id));
    ShipmentBy(s, o.id, o, Phase(s, o.id));
  }

  lemma FactHappened(s: State, m: Message<Contract>)
    requires StoresInv(s) && InboxInv(s) && m in s.inbox
    ensures IsPlaced(s, m.body.orderId) && Happened(s, m.body.orderId, m.body)
  {
    var svc :| svc != OrderService && m in TopicLog(s, ToInbox(svc));
    var o, j := FactSaid(s, ToInbox(svc), m);
    FactAbout(o, j);
    assert OnScript(s, o.id);
    SpokenHappened(s, o, j);
  }

  /** The items come from the two logs. */
  ghost predicate FromLogs(s: State, items: seq<Item>) {
    forall i :: i in items ==> if i.Own? then i.rec in StoreOf(s, OrderService) else i.msg in s.inbox
  }

  /** Whatever the items tell about an order has happened to it. */
  lemma SeenHappened(s: State, items: seq<Item>, id: string)
    requires StoresInv(s) && InboxInv(s) && FromLogs(s, items)
    ensures PlacementSeen(items, id) ==> IsPlaced(s, id)
    ensures CaptureSeen(items, id) ==> IsPlaced(s, id) && Captured(s, id)
    ensures FailureSeen(items, id) ==> IsPlaced(s, id) && Failed(s, id)
    ensures ReservationSeen(items, id) ==> IsPlaced(s, id) && Reserved(s, id)
    ensures RejectionSeen(items, id) ==> IsPlaced(s, id) && Rejected(s, id)
    ensures RefundSeen(items, id) ==> IsPlaced(s, id) && Refunded(s, id)
    ensures ShipmentSeen(items, id) ==> IsPlaced(s, id) && Shipped(s, id)
  {
    forall m | m in s.inbox ensures IsPlaced(s, m.body.orderId) && Happened(s, m.body.orderId, m.body) {
      FactHappened(s, m);
    }
    forall i | i in items && i.Own? && i.rec.data.payload.OrderPlaced? ensures IsPlaced(s, i.rec.data.payload.id) {
      PlacedOnce(s, i.rec);
    }
  }

  lemma FromLogsPlaceOnce(s: State, items: seq<Item>)
    requires StoresInv(s) && FromLogs(s, items)
    ensures OnePlacement(items)
  {
    forall i, j | i in items && j in items && i.Own? && j.Own? && SameOrder(i, j)
      ensures Placed(i.rec.data.payload) == Placed(j.rec.data.payload)
    {
      PlacedOnce(s, i.rec);
      PlacedOnce(s, j.rec);
    }
  }

  lemma AppliedFromLogs(s: State)
    requires ViewInv(s)
    ensures FromLogs(s, s.view.applied)
  {
    var own, foreign := OwnItems(StoreOf(s, OrderService)), ForeignItems(s.inbox);
    forall i | i in s.view.applied ensures if i.Own? then i.rec in StoreOf(s, OrderService) else i.msg in s.inbox {
      assert Projection.Known(FirstWrite, own, foreign, i);
      if i !in own && i !in foreign {
        var j :| (j in own || j in foreign) && i == FirstWrite(j);
        ItemOf(s, j);
      } else {
        ItemOf(s, i);
      }
    }
  }

  lemma ItemsFromLogs(s: State)
    ensures FromLogs(s, Items(s))
  {
    forall i | i in Items(s) ensures if i.Own? then i.rec in StoreOf(s, OrderService) else i.msg in s.inbox {
      ItemOf(s, i);
    }
  }

  // ---- Never more than has happened ------------------------------------

  /**
   * In every reachable state, with runners behind, cut short or rebuilding: an
   * order with a row was placed, and what the row's status says has happened to it.
   */
  lemma StatusTrue(steps: seq<Step>, id: string)
    requires id in Run(steps).view.table.rows
    ensures var s := Run(steps); var status := s.view.table.rows[id].status;
      && IsPlaced(s, id)
      && status in {"placed", "paid", "reserved", "shipped", "payment_failed", "rejected", "refunded"}
      && (status == "paid" ==> Captured(s, id))
      && (status == "reserved" ==> Captured(s, id) && Reserved(s, id))
      && (status == "shipped" ==> Captured(s, id) && Reserved(s, id) && Shipped(s, id))
      && (status == "payment_failed" ==> Failed(s, id))
      && (status == "rejected" ==> Captured(s, id) && Rejected(s, id))
      && (status == "refunded" ==> Captured(s, id) && Rejected(s, id) && Refunded(s, id))
  {
    RunKeeps(steps);
    var s := Run(steps);
    AppliedFromLogs(s);
    FromLogsPlaceOnce(s, s.view.applied);
    FoldStatus(s.view.applied, id);
    SeenHappened(s, s.view.applied, id);
    assert OnScript(s, id);
    HappenedInTurn(s, id);
  }

  // ---- All that has happened, once it has arrived ----------------------

  /** The three services' facts are published and in the inbox; commands and the saga may be under way. */
  ghost predicate FactsArrived(s: State) {
    forall svc :: svc != OrderService ==>
      && NodeOf(s, svc).cp == |StoreOf(s, svc)|
      && SubOf(s, ToInbox(svc)).offset == |TopicLog(s, ToInbox(svc))|
  }

  lemma FactArrives(s: State, o: Order, j: nat)
    requires StoresInv(s) && SubsInv(s) && FactsArrived(s) && Said(s, o, j) && j % 2 == 0 && j > 0
    ensures Item.Foreign(Trigger(o, j)) in Items(s) && Tells(Item.Foreign(Trigger(o, j)), o.id)
  {
    FactPublished(s, o, j);
    DoneWith(s, ToInbox(Teller(j)), Trigger(o, j));
    ItemOf(s, Item.Foreign(Trigger(o, j)));
    FactAbout(o, j);
  }

  /** What a fact says is told among the items. */
  ghost predicate Seen(items: seq<Item>, id: string, c: Contract) {
    && (c.PaymentCapturedV1? ==> CaptureSeen(items, id)) && (c.PaymentFailedV1? ==> FailureSeen(items, id))
    && (c.StockReservedV1? ==> ReservationSeen(items, id)) && (c.StockRejectedV1? ==> RejectionSeen(items, id))
    && (c.ShipmentDispatchedV1? ==> ShipmentSeen(items, id)) && (c.PaymentRefundedV1? ==> RefundSeen(items, id))
  }

  lemma SeenAmong(items: seq<Item>, id: string, i: Item)
    requires i in items && Tells(i, id)
    ensures Seen(items, id, i.msg.body)
  {
  }

  /** Message j has been said about an order, and says this. */
  ghost predicate Word(s: State, id: string, j: nat, c: Contract) {
    && Numbered(j) && j % 2 == 0 && j > 0
    && IsPlaced(s, id) && Spoken(OrderOf(s, id), Phase(s, id), j) && Says(OrderOf(s, id), j) == c
  }

  lemma WordSeen(s: State, id: string, j: nat, c: Contract)
    requires StoresInv(s) && SubsInv(s) && FactsArrived(s) && Word(s, id, j, c)
    ensures Seen(Items(s), id, c)
  {
    var o := OrderOf(s, id);
    FactArrives(s, o, j);
    SeenAmong(Items(s), o.id, Item.Foreign(Trigger(o, j)));
  }

  /** The word behind each thing that has happened. */
  lemma PaymentWord(s: State, id: string)
    requires OnScript(s, id) && IsPlaced(s, id)
    ensures Captured(s, id) ==> exists c: Contract :: c.PaymentCapturedV1? && Word(s, id, 2, c)
    ensures Failed(s, id) ==> exists c: Contract :: c.PaymentFailedV1? && Word(s, id, 2, c)
  {
    var o := OrderOf(s, id);
    PaymentBy(s, id, o, Phase(s, id));
    assert Spoken(o, Phase(s, id), 2) ==> Word(s, id, 2, Says(o, 2));
  }

  lemma RefundWord(s: State, id: string)
    requires OnScript(s, id) && IsPlaced(s, id)
    ensures Refunded(s, id) ==> exists c: Contract :: c.PaymentRefundedV1? && Word(s, id, EPILOGUE, c)
  {
    var o := OrderOf(s, id);
    PaymentBy(s, id, o, Phase(s, id));
    assert Spoken(o, Phase(s, id), EPILOGUE) ==> Word(s, id, EPILOGUE, Says(o, EPILOGUE));
  }

  lemma DeliveryWord(s: State, id: string)
    requires OnScript(s, id) && IsPlaced(s, id)
    ensures Reserved(s, id) ==> exists c: Contract :: c.StockReservedV1? && Word(s, id, 4, c)
    ensures Rejected(s, id) ==> exists c: Contract :: c.StockRejectedV1? && Word(s, id, 4, c)
    ensures Shipped(s, id) ==> exists c: Contract :: c.ShipmentDispatchedV1? && Word(s, id, 6, c)
  {
    var o := OrderOf(s, id);
    ReservationBy(s, id, o, Phase(s, id));
    ShipmentBy(s, id, o, Phase(s, id));
    assert Spoken(o, Phase(s, id), 4) ==> Word(s, id, 4, Says(o, 4));
    assert Spoken(o, Phase(s, id), 6) ==> Word(s, id, 6, Says(o, 6));
  }

  /** Whatever has happened to an order is told among the items. */
  lemma HappenedSeen(s: State, id: string)
    requires StoresInv(s) && SubsInv(s) && FactsArrived(s) && IsPlaced(s, id)
    ensures Captured(s, id) ==> CaptureSeen(Items(s), id)
    ensures Failed(s, id) ==> FailureSeen(Items(s), id)
    ensures Reserved(s, id) ==> ReservationSeen(Items(s), id)
    ensures Rejected(s, id) ==> RejectionSeen(Items(s), id)
    ensures Refunded(s, id) ==> RefundSeen(Items(s), id)
    ensures Shipped(s, id) ==> ShipmentSeen(Items(s), id)
  {
    assert OnScript(s, id);
    PaymentWord(s, id);
    RefundWord(s, id);
    DeliveryWord(s, id);
    forall j: nat, c | Word(s, id, j, c) ensures Seen(Items(s), id, c) {
      WordSeen(s, id, j, c);
    }
  }

  lemma PlacementIsSeen(s: State, id: string)
    requires IsPlaced(s, id)
    ensures PlacementSeen(Items(s), id)
  {
    var r := PlacementStored(s, id);
    ItemOf(s, Own(r));
  }

  /**
   * Once the services' facts are in the inbox and both runners have caught up, a
   * placed order has a row, and its status is the one its histories call for,
   * however far its fulfillment has come.
   */
  lemma StatusExact(steps: seq<Step>, id: string)
    requires IsPlaced(Run(steps), id) && FactsArrived(Run(steps)) && ViewCaughtUp(Run(steps))
    ensures var s := Run(steps); var rows := s.view.table.rows;
      && id in rows
      && rows[id].status ==
           if Refunded(s, id) then "refunded"
           else if Rejected(s, id) then "rejected"
           else if Failed(s, id) then "payment_failed"
           else if Shipped(s, id) then "shipped"
           else if Reserved(s, id) then "reserved"
           else if Captured(s, id) then "paid"
           else "placed"
  {
    RunKeeps(steps);
    var s := Run(steps);
    ViewSettled(s);
    FoldStatus(Items(s), id);
    ItemsFromLogs(s);
    SeenHappened(s, Items(s), id);
    HappenedSeen(s, id);
    PlacementIsSeen(s, id);
  }
}
