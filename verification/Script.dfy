/**
 * What is supposed to happen to an order: its fate is a function of its total
 * and quantity, and its joint history over the saga's, payment's, reservation's
 * and shipment's streams is a fixed script of alternating beats. Even beats are
 * the saga's, odd beats a service's. The lemmas say that each beat is exactly
 * what the code does when it receives the message the beat before it produced,
 * and that the messages of earlier beats change nothing any more.
 */
module Script {
  import opened Wrappers
  import opened Messaging
  import opened Keys
  import opened Kernel
  import opened Contracts
  import opened CommandHandling
  import opened Saga
  import opened FulfillmentSaga
  import Billing
  import Inventory
  import Ordering
  import Shipping

  datatype Order = Order(id: string, customer: string, cents: int, currency: string, qty: int)

  /** What placing an order demands: a positive total, a three-letter currency, a positive quantity, an ID. */
  predicate Placeable(o: Order) {
    o.id != "" && o.cents > 0 && |o.currency| == 3 && o.qty > 0
  }

  /** Exactly the placeable orders are those built from value objects; placing one records what was ordered. */
  lemma PlaceableIsParsed(o: Order)
    ensures Placeable(o) <==>
      o.id != "" && Ordering.NewMoney(o.cents, o.currency).Ok? && Ordering.NewQuantity(o.qty).Ok?
    ensures Placeable(o) ==>
      Ordering.Place(o.id, o.customer, Ordering.NewMoney(o.cents, o.currency).value, Ordering.NewQuantity(o.qty).value)
        == Ok(OrderPlaced(o.id, o.customer, o.cents, o.currency, o.qty))
  {
  }

  datatype Fate = Declined | Rejected | Delivered

  function FateOf(o: Order): Fate {
    if o.cents > Billing.CAPTURE_LIMIT_CENTS then Declined
    else if o.qty > Inventory.AVAILABLE_STOCK then Rejected
    else Delivered
  }

  /** How many beats the order's script has. */
  function Length(o: Order): nat {
    match FateOf(o) case Declined => 3 case Rejected => 6 case Delivered => 7
  }

  // ---- The script ------------------------------------------------------

  const SAGA_CATEGORY := "saga.order_fulfillment"
  const ORDER_CATEGORY := "order"

  /** The refund's fact is the one message that triggers no beat. */
  const EPILOGUE := 8

  /** The numbers of the messages there can be about an order. */
  predicate Numbered(j: nat) { j < 7 || j == EPILOGUE }

  /** The stream, and the version in it, whose record triggers beat j. */
  function TriggerCategory(j: nat): string {
    if j % 2 == 1 then SAGA_CATEGORY
    else if j == 0 then ORDER_CATEGORY
    else if j == 2 then Billing.CATEGORY
    else if j == 4 then Inventory.CATEGORY
    else if j == 6 then Shipping.CATEGORY
    else Billing.CATEGORY
  }

  function TriggerVersion(j: nat): nat {
    if j % 2 == 1 then j + 1 else if j == EPILOGUE then 2 else 1
  }

  function TriggerID(id: string, j: nat): string { IDAt(TriggerCategory(j), id, TriggerVersion(j)) }

  /** What the message that triggers beat j says. */
  function Says(o: Order, j: nat): Contract {
    if j == 0 then OrderPlacedV1(o.id, o.customer, o.cents, o.currency, o.qty)
    else if j == 1 then CapturePayment(o.id, o.cents)
    else if j == 2 then
      if FateOf(o) == Declined then PaymentFailedV1(o.id, Billing.LIMIT_REASON) else PaymentCapturedV1(o.id, o.cents)
    else if j == 3 then ReserveStock(o.id, o.qty)
    else if j == 4 then
      if FateOf(o) == Rejected then StockRejectedV1(o.id, Inventory.STOCK_REASON) else StockReservedV1(o.id, o.qty)
    else if j == 5 then
      if FateOf(o) == Rejected then RefundPayment(o.id) else CreateShipment(o.id)
    else if j == 6 then ShipmentDispatchedV1(o.id)
    else PaymentRefundedV1(o.id)
  }

  /** After k beats, message j has been said. */
  predicate Spoken(o: Order, k: nat, j: nat) {
    if j == EPILOGUE then FateOf(o) == Rejected && k >= 6 else j <= k && j < Length(o)
  }

  function Trigger(o: Order, j: nat): Message<Contract> {
    Message(TriggerID(o.id, j), o.id, NameOf(Says(o, j)), 1, Says(o, j))
  }

  /** The topic of the command the saga sends in its b-th block. */
  function CommandTopic(o: Order, b: nat): string {
    if b == 0 then BILLING_COMMANDS
    else if b == 1 then INVENTORY_COMMANDS
    else if FateOf(o) == Rejected then BILLING_COMMANDS
    else SHIPPING_COMMANDS
  }

  /** The saga's decisions at its b-th block: the next command, until the end; a rejection ends with the refund. */
  function Decided(o: Order, b: nat): Decisions<Contract> {
    if 2 * b + 1 < Length(o)
    then Decisions([OutCommand(CommandTopic(o, b), "", Says(o, 2 * b + 1))], b == 2 && FateOf(o) == Rejected)
    else Decisions([], true)
  }

  function BlockAt(o: Order, b: nat): seq<SagaEvent<Contract>> {
    Block(Def(), o.id, Trigger(o, 2 * b), Decided(o, b))
  }

  function Blocks(o: Order, n: nat): seq<SagaEvent<Contract>> {
    if n == 0 then [] else Blocks(o, n - 1) + BlockAt(o, n - 1)
  }

  /** The four streams after k beats. */
  function SagaAt(o: Order, k: nat): seq<SagaEvent<Contract>> { Blocks(o, (k + 1) / 2) }

  function PaymentAt(o: Order, k: nat): seq<Event> {
    if k < 2 then []
    else if FateOf(o) == Declined then [PaymentFailed(o.id, Billing.LIMIT_REASON)]
    else [PaymentCaptured(o.id, o.cents)] + (if FateOf(o) == Rejected && k >= 6 then [PaymentRefunded(o.id)] else [])
  }

  function ReservationAt(o: Order, k: nat): seq<Event> {
    if k < 4 then []
    else if FateOf(o) == Rejected then [StockRejected(o.id, Inventory.STOCK_REASON)]
    else [StockReserved(o.id, o.qty)]
  }

  function ShipmentAt(o: Order, k: nat): seq<Event> {
    if k < 6 || FateOf(o) == Rejected then [] else [ShipmentDispatched(o.id)]
  }

  // ---- Message IDs -----------------------------------------------------

  lemma TriggerCategories(j: nat)
    requires Numbered(j)
    ensures |TriggerCategory(j)| ==
      (if j % 2 == 1 then 22 else if j == 0 then 5 else if j == 4 then 11 else if j == 6 then 8 else 7)
    ensures '/' !in TriggerCategory(j)
  {
  }

  /** A trigger's ID determines the order and the beat. */
  lemma TriggerIDInjective(id: string, j: nat, id': string, j': nat)
    requires Numbered(j) && Numbered(j')
    ensures TriggerID(id, j) == TriggerID(id', j') <==> id == id' && j == j'
  {
    TriggerCategories(j);
    TriggerCategories(j');
    IDAtInjective(TriggerCategory(j), id, TriggerVersion(j), TriggerCategory(j'), id', TriggerVersion(j'));
  }

  // ---- The saga's beats ------------------------------------------------

  /** The IDs the saga has seen after n blocks. */
  ghost function SeenAt(id: string, n: nat): set<string> {
    set b: nat | b < n :: TriggerID(id, 2 * b)
  }

  predicate EndedAt(o: Order, n: nat) {
    n > 0 && Decided(o, n - 1).end
  }

  function StateAt(o: Order, n: nat): Fulfillment {
    if n == 0 then ZERO else Fulfillment(o.cents, o.qty)
  }

  /** The instance as the script has it after n blocks. */
  ghost predicate Tracks(o: Order, n: nat, i: Instance<Fulfillment, Contract>) {
    i.state == StateAt(o, n) && i.seen == SeenAt(o.id, n) && i.ended == EndedAt(o, n)
  }

  /** The number of blocks in the whole script. */
  function BlockCount(o: Order): nat { (Length(o) + 1) / 2 }

  /** Handling the b-th trigger applies the script's decision. */
  lemma TriggerApplied(o: Order, b: nat, i: Instance<Fulfillment, Contract>)
    requires b < BlockCount(o) && i.state == StateAt(o, b)
    ensures Apply(Def(), i, EventReceived(Trigger(o, 2 * b))) ==
      Applied(Instance(StateAt(o, b + 1), i.ended, i.seen + {TriggerID(o.id, 2 * b)}, Decided(o, b)), None)
    ensures o.id != "" ==> Correlated(Def(), Trigger(o, 2 * b)) == Some(o.id)
  {
    FactHandled(i, Trigger(o, 2 * b));
  }

  lemma NotSeen(id: string, n: nat)
    requires n < 4
    ensures TriggerID(id, 2 * n) !in SeenAt(id, n)
    ensures SeenAt(id, n + 1) == SeenAt(id, n) + {TriggerID(id, 2 * n)}
  {
    if b: nat :| b < n && TriggerID(id, 2 * b) == TriggerID(id, 2 * n) {
      TriggerIDInjective(id, 2 * b, id, 2 * n);
    }
  }

  /** At the end of n blocks, the next trigger is recorded with exactly the script's next block. */
  lemma BlockDecided(o: Order, n: nat, i: Instance<Fulfillment, Contract>)
    requires n < BlockCount(o) && Tracks(o, n, i)
    ensures Decide(Def(), o.id, i, Trigger(o, 2 * n)) == Record(BlockAt(o, n))
  {
    NotSeen(o.id, n);
    TriggerApplied(o, n, i);
    assert AllAddressed(Decided(o, n).commands);
  }

  /** The script's saga stream replays to the script's instance. */
  lemma {:induction false} BlocksReplay(o: Order, n: nat)
    requires n <= BlockCount(o)
    ensures Rebuilt(Def(), Blocks(o, n)).err.None? && Tracks(o, n, Rebuilt(Def(), Blocks(o, n)).state)
  {
    if n == 0 {
      assert SeenAt(o.id, 0) == {};
    } else {
      BlocksReplay(o, n - 1);
      var i := Rebuilt(Def(), Blocks(o, n - 1)).state;
      BlockDecided(o, n - 1, i);
      TriggerApplied(o, n - 1, i);
      NotSeen(o.id, n - 1);
      ReplayBlock(Def(), o.id, i, Trigger(o, 2 * (n - 1)));
      ReplayConcat(Applier(Def()), NewInstance(Def()), Blocks(o, n - 1), BlockAt(o, n - 1));
    }
  }

  /** After n blocks the next trigger is recorded as the next block. */
  lemma SagaNext(o: Order, n: nat)
    requires n < BlockCount(o)
    ensures Rebuilt(Def(), Blocks(o, n)).err.None?
    ensures Decide(Def(), o.id, Rebuilt(Def(), Blocks(o, n)).state, Trigger(o, 2 * n)) == Record(BlockAt(o, n))
  {
    BlocksReplay(o, n);
    BlockDecided(o, n, Rebuilt(Def(), Blocks(o, n)).state);
  }

  /** After n blocks an earlier trigger is ignored. */
  lemma SagaAgain(o: Order, n: nat, b: nat)
    requires b < n <= BlockCount(o)
    ensures Rebuilt(Def(), Blocks(o, n)).err.None?
    ensures Decide(Def(), o.id, Rebuilt(Def(), Blocks(o, n)).state, Trigger(o, 2 * b)) == Ignore
  {
    BlocksReplay(o, n);
    assert TriggerID(o.id, 2 * b) in SeenAt(o.id, n);
  }

  /** The command the saga requests for beat j. */
  function Request(o: Order, j: nat): SagaEvent<Contract> {
    CommandRequested(CommandTopic(o, j / 2), o.id, NameOf(Says(o, j)), 1, Says(o, j))
  }

  /** Commands are at the odd positions of the saga's stream, and nowhere else. */
  ghost predicate InPlace(o: Order, v: nat, e: SagaEvent<Contract>) {
    if v % 2 == 1 && v < Length(o) then e == Request(o, v) else !e.CommandRequested?
  }

  lemma BlockInPlace(o: Order, b: nat)
    requires b < BlockCount(o)
    ensures var block := BlockAt(o, b);
      && |block| == 2 + (if b == 2 && FateOf(o) == Rejected then 1 else 0)
      && (forall v: nat :: v < |block| ==> InPlace(o, 2 * b + v, block[v]))
      && (Decided(o, b).end ==> Closed(block))
  {
    var j := 2 * b + 1;
    BlockParts(Def(), o.id, Trigger(o, 2 * b), Decided(o, b));
    if j < Length(o) {
      assert AllRequested(Def(), o.id, Decided(o, b).commands) == [Request(o, j)];
    } else {
      assert AllRequested(Def(), o.id, Decided(o, b).commands) == [];
    }
  }

  lemma InPlaceConcat(o: Order, before: seq<SagaEvent<Contract>>, block: seq<SagaEvent<Contract>>)
    requires forall v: nat :: v < |before| ==> InPlace(o, v, before[v])
    requires forall v: nat :: v < |block| ==> InPlace(o, |before| + v, block[v])
    ensures forall v: nat :: v < |before + block| ==> InPlace(o, v, (before + block)[v])
  {
    forall v: nat | v < |before + block| ensures InPlace(o, v, (before + block)[v]) {
      if v >= |before| {
        assert InPlace(o, |before| + (v - |before|), block[v - |before|]);
      }
    }
  }

  lemma {:induction false} BlocksInPlace(o: Order, n: nat)
    requires n <= BlockCount(o)
    ensures |Blocks(o, n)| == 2 * n + (if n == 3 && FateOf(o) == Rejected then 1 else 0)
    ensures forall v: nat :: v < |Blocks(o, n)| ==> InPlace(o, v, Blocks(o, n)[v])
    ensures n > 0 && Decided(o, n - 1).end ==> Closed(Blocks(o, n))
  {
    if n > 0 {
      BlocksInPlace(o, n - 1);
      BlockInPlace(o, n - 1);
      InPlaceConcat(o, Blocks(o, n - 1), BlockAt(o, n - 1));
    }
  }

  // ---- The services' beats ---------------------------------------------

  lemma PaymentBeat(o: Order, k: nat, j: nat)
    requires Placeable(o) && j <= k <= Length(o) && j < Length(o) && (j == 1 || (j == 5 && FateOf(o) == Rejected))
    ensures var r := Billing.React(PaymentAt(o, k), Says(o, j));
      if j == k then r.Emit? && PaymentAt(o, k + 1) == PaymentAt(o, k) + r.events else r == NoChange
  {
    Billing.ReplayOfShape(o.id, PaymentAt(o, k));
  }

  lemma ReservationBeat(o: Order, k: nat)
    requires Placeable(o) && 3 <= k <= Length(o) && 3 < Length(o)
    ensures var r := Inventory.React(ReservationAt(o, k), Says(o, 3));
      if k == 3 then r.Emit? && ReservationAt(o, k + 1) == ReservationAt(o, k) + r.events else r == NoChange
  {
    Inventory.ReplayOfShape(o.id, ReservationAt(o, k));
  }

  lemma ShipmentBeat(o: Order, k: nat)
    requires Placeable(o) && 5 <= k <= Length(o) && FateOf(o) == Delivered
    ensures var r := Shipping.React(ShipmentAt(o, k), Says(o, 5));
      if k == 5 then r.Emit? && ShipmentAt(o, k + 1) == ShipmentAt(o, k) + r.events else r == NoChange
  {
    Shipping.ReplayOfShape(o.id, ShipmentAt(o, k));
  }
}
