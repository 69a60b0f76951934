/**
 * What every step of the fulfillment system keeps: each order's streams are
 * exactly its script up to the order's phase, every message on a topic is one
 * the script has spoken, and whatever is counted as handled has had its beat.
 */
module FulfillmentInvariant {
  import opened Wrappers
  import opened EventStore
  import opened Messaging
  import opened Keys
  import opened Broker
  import opened RelayFeed
  import opened Pipeline
  import opened Contracts
  import opened CommandHandling
  import opened Topology
  import opened Script
  import opened OrderSummary
  import opened FulfillmentSystem
  import Projection
  import Saga
  import Billing
  import Inventory
  import Shipping

  // ---- An order's streams ----------------------------------------------

  function OrderHistory(s: State, id: string): seq<Event> { History(s, OrderService, StreamID(ORDER_CATEGORY, id)) }
  function SagaHistory(s: State, id: string): seq<Event> { History(s, OrderService, StreamID(SAGA_CATEGORY, id)) }
  function PaymentHistory(s: State, id: string): seq<Event> {
    History(s, PaymentService, StreamID(Billing.CATEGORY, id))
  }
  function ReservationHistory(s: State, id: string): seq<Event> {
    History(s, StockService, StreamID(Inventory.CATEGORY, id))
  }
  function ShipmentHistory(s: State, id: string): seq<Event> {
    History(s, ShippingService, StreamID(Shipping.CATEGORY, id))
  }

  /** An order stream: the placement, then notifications. */
  ghost predicate OrderStream(id: string, es: seq<Event>) {
    && es != [] && es[0].OrderPlaced? && es[0].id == id && Placeable(OrderIn(es))
    && (forall k :: 1 <= k < |es| ==> es[k].CustomerNotified?)
  }

  function OrderIn(es: seq<Event>): Order
    requires es != [] && es[0].OrderPlaced?
  {
    Order(es[0].id, es[0].customer, es[0].cents, es[0].currency, es[0].qty)
  }

  ghost predicate IsPlaced(s: State, id: string) {
    OrderStream(id, OrderHistory(s, id))
  }

  function OrderOf(s: State, id: string): Order
    requires IsPlaced(s, id)
  {
    OrderIn(OrderHistory(s, id))
  }

  /** How far an order has come. */
  function Phase(s: State, id: string): nat {
    |SagaHistory(s, id)| / 2 + |PaymentHistory(s, id)| + |ReservationHistory(s, id)| + |ShipmentHistory(s, id)|
  }

  /** The joint history of an order is its script up to beat k. */
  ghost predicate At(s: State, id: string, o: Order, k: nat) {
    && k <= Length(o)
    && SagaHistory(s, id) == Wrap(SagaAt(o, k))
    && PaymentHistory(s, id) == PaymentAt(o, k)
    && ReservationHistory(s, id) == ReservationAt(o, k)
    && ShipmentHistory(s, id) == ShipmentAt(o, k)
  }

  ghost predicate OnScript(s: State, id: string) {
    if OrderHistory(s, id) == [] then Phase(s, id) == 0 && SagaHistory(s, id) == []
    else IsPlaced(s, id) && At(s, id, OrderOf(s, id), Phase(s, id))
  }

  lemma PhaseOfScript(s: State, id: string, o: Order, k: nat)
    requires At(s, id, o, k)
    ensures Phase(s, id) == k
  {
    BlocksInPlace(o, (k + 1) / 2);
  }

  // ---- The stores ------------------------------------------------------

  predicate Home(svc: Service, category: string) {
    category == CategoryOf(svc) || (svc == OrderService && category == SAGA_CATEGORY)
  }

  /** Every record is as its service stores it. */
  ghost predicate RecordsInv(svc: Service, log: Log<Event>) {
    forall r :: r in log ==>
      Home(svc, r.stream.category) && r.data == EventData(EventNameOf(r.data.payload), 1, r.data.payload)
  }

  ghost predicate StoresInv(s: State) {
    && (forall svc :: NodeInv(RelayOf(svc), NodeOf(s, svc)) && RecordsInv(svc, StoreOf(s, svc)))
    && (forall id :: OnScript(s, id))
  }

  // ---- Messages and what became of them --------------------------------

  /** Message j about a placed order has been said. */
  ghost predicate Said(s: State, o: Order, j: nat) {
    Numbered(j) && IsPlaced(s, o.id) && o == OrderOf(s, o.id) && Spoken(o, Phase(s, o.id), j)
  }

  /** The beats that a message with this ID triggers have been played. */
  ghost predicate Handled(s: State, mid: string) {
    forall id, j: nat {:trigger TriggerID(id, j)} :: j < 7 && TriggerID(id, j) == mid ==> Phase(s, id) > j
  }

  ghost predicate Done(s: State, link: Link, m: Message<Contract>) {
    if link.ToInbox? then m in s.inbox else Handled(s, m.id)
  }

  ghost predicate SubInv(s: State, link: Link) {
    var sub, log := SubOf(s, link), TopicLog(s, link);
    && sub.offset <= |log|
    && (forall i :: 0 <= i < sub.offset ==> Done(s, link, log[i]))
    && (sub.done ==> sub.offset < |log| && Done(s, link, log[sub.offset]))
  }

  /** A worker that took effect is done; one that has not decided on a prefix of what is now stored. */
  ghost predicate WorkInv(s: State, work: Work) {
    && Wired(work.link) && work.at < |TopicLog(s, work.link)| && TopicLog(s, work.link)[work.at] == work.msg
    && (work.effected ==> Done(s, work.link, work.msg))
    && (!work.effected ==>
          && TargetOf(work.link, work.msg).Some?
          && var stream := TargetOf(work.link, work.msg).value;
            var history := History(s, HomeOf(work.link), stream);
            && work.version <= |history|
            && ReactionOf(work.link, stream, history[..work.version], work.msg) == Emit(work.events))
  }

  /** The inbox holds foreign facts. */
  ghost predicate InboxInv(s: State) {
    forall m :: m in s.inbox ==> exists svc :: svc != OrderService && m in TopicLog(s, ToInbox(svc))
  }

  ghost predicate ViewInv(s: State) {
    Projection.ViewInv(Summarize, FirstWrite, EMPTY, OwnItems(StoreOf(s, OrderService)), ForeignItems(s.inbox), s.view)
  }

  ghost predicate SubsInv(s: State) {
    forall link :: Wired(link) ==> SubInv(s, link)
  }

  /** A service marks only what was handled. */
  ghost predicate MarksInv(s: State) {
    forall svc, mid :: mid in MarkedOf(s, svc) ==> Handled(s, mid)
  }

  ghost predicate WorksInv(s: State) {
    forall w :: w in s.work ==> WorkInv(s, s.work[w])
  }

  ghost predicate Inv(s: State) {
    StoresInv(s) && SubsInv(s) && MarksInv(s) && WorksInv(s) && InboxInv(s) && ViewInv(s)
  }

  // ---- Who said a message ----------------------------------------------

  lemma RecordInHistory(log: Log<Event>, r: RecordedEvent<Event>)
    requires WellFormed(log) && r in log
    ensures var es := Payloads(Events(log, r.stream)); 1 <= r.version <= |es| && es[r.version - 1] == r.data.payload
  {
    StreamMembers(log, r.stream);
    StreamVersions(log, r.stream);
    assert r in StreamOf(log, r.stream);
    var k :| 0 <= k < |StreamOf(log, r.stream)| && StreamOf(log, r.stream)[k] == r;
    assert Events(log, r.stream)[k] == r.data;
  }

  lemma RecordOfMessage(svc: Service, n: Node<Event, Contract>, topic: string, m: Message<Contract>)
    returns (r: RecordedEvent<Event>)
    requires NodeInv(RelayOf(svc), n) && m in LogOf(n.topics, topic)
    ensures r in n.log && Speaks(svc, r) == Some(Routed(topic, m))
  {
    var tr := RelayOf(svc);
    assert Covers(tr, n.log, topic, LogOf(n.topics, topic), n.cp);
    CoversMembers(tr, n.log, topic, LogOf(n.topics, topic), n.cp);
    r :| r in n.log && GoesTo(tr, r, topic) && tr(r).value.value.msg == m;
  }

  /** The record behind a message of a topic: its place in its stream's history. */
  lemma RecordBehind(s: State, link: Link, m: Message<Contract>) returns (r: RecordedEvent<Event>)
    requires StoresInv(s) && m in TopicLog(s, link)
    ensures r in StoreOf(s, SenderOf(link)) && Home(SenderOf(link), r.stream.category)
    ensures Speaks(SenderOf(link), r) == Some(Routed(TopicOf(link), m))
    ensures var es := History(s, SenderOf(link), r.stream);
      1 <= r.version <= |es| && es[r.version - 1] == r.data.payload
  {
    var svc := SenderOf(link);
    assert NodeInv(RelayOf(svc), NodeOf(s, svc)) && RecordsInv(svc, StoreOf(s, svc));
    r := RecordOfMessage(svc, NodeOf(s, svc), TopicOf(link), m);
    RecordInHistory(StoreOf(s, svc), r);
  }

  /** A position of an order's saga stream says the command of that beat, or nothing. */
  lemma SagaPosition(s: State, id: string, v: nat)
    requires OnScript(s, id) && v < |SagaHistory(s, id)|
    ensures IsPlaced(s, id) && SagaHistory(s, id)[v].SagaStep?
    ensures var o := OrderOf(s, id); var step := SagaHistory(s, id)[v].step;
      InPlace(o, v, step) && (v % 2 == 1 && v < Length(o) ==> v <= Phase(s, id))
  {
    var o, n := OrderOf(s, id), (Phase(s, id) + 1) / 2;
    BlocksInPlace(o, n);
    assert InPlace(o, v, Blocks(o, n)[v]);
  }

  lemma RecordID(r: RecordedEvent<Event>, id: string, j: nat)
    requires r.stream == StreamID(TriggerCategory(j), id) && r.version == TriggerVersion(j)
    ensures MessageID(r) == TriggerID(id, j)
  {
  }

  /** A command on a service's topic is the one the saga's script sends it. */
  lemma CommandSaid(s: State, svc: Service, m: Message<Contract>) returns (o: Order, j: nat)
    requires StoresInv(s) && svc != OrderService && m in TopicLog(s, ToService(svc))
    ensures Said(s, o, j) && j % 2 == 1 && j < Length(o)
    ensures m == Trigger(o, j) && CommandTopic(o, j / 2) == CommandsTopic(svc)
  {
    var r := RecordBehind(s, ToService(svc), m);
    assert OnScript(s, r.stream.id);
    o, j := CommandNumber(s, r, CommandsTopic(svc), m);
  }

  /** The record of the saga's request for beat j says message j. */
  lemma RequestSpeaks(r: RecordedEvent<Event>, o: Order, j: nat)
    requires j % 2 == 1 && r.stream == StreamID(SAGA_CATEGORY, o.id) && r.version == j + 1
    requires r.data.payload == SagaStep(Request(o, j))
    ensures Speaks(OrderService, r) == Some(Routed(CommandTopic(o, j / 2), Trigger(o, j)))
  {
    RecordID(r, o.id, j);
  }

  /** Only a command request speaks on another topic than ordering's own. */
  lemma SpeaksCommand(r: RecordedEvent<Event>)
    requires Speaks(OrderService, r).Some? && Speaks(OrderService, r).value.topic != ORDERING_EVENTS
    ensures r.data.payload.SagaStep? && r.data.payload.step.CommandRequested?
  {
  }

  lemma RequestBehind(s: State, r: RecordedEvent<Event>) returns (o: Order, j: nat)
    requires OnScript(s, r.stream.id) && Home(OrderService, r.stream.category)
    requires var es := History(s, OrderService, r.stream); 1 <= r.version <= |es| && es[r.version - 1] == r.data.payload
    requires r.data.payload.SagaStep? && r.data.payload.step.CommandRequested?
    ensures Said(s, o, j) && j % 2 == 1 && j < Length(o)
    ensures r.stream == StreamID(SAGA_CATEGORY, o.id) && r.version == j + 1 && r.data.payload == SagaStep(Request(o, j))
  {
    RequestStream(s, r);
    var id := r.stream.id;
    j := r.version - 1;
    SagaPosition(s, id, j);
    o := OrderOf(s, id);
  }

  lemma RequestStream(s: State, r: RecordedEvent<Event>)
    requires OnScript(s, r.stream.id) && Home(OrderService, r.stream.category)
    requires var es := History(s, OrderService, r.stream); 1 <= r.version <= |es| && es[r.version - 1] == r.data.payload
    requires r.data.payload.SagaStep?
    ensures r.stream == StreamID(SAGA_CATEGORY, r.stream.id)
    ensures r.version <= |SagaHistory(s, r.stream.id)| && SagaHistory(s, r.stream.id)[r.version - 1] == r.data.payload
  {
    NoStepsAtHome(s, OrderService, r);
  }

  lemma CommandNumber(s: State, r: RecordedEvent<Event>, topic: string, m: Message<Contract>) returns (o: Order, j: nat)
    requires OnScript(s, r.stream.id) && Home(OrderService, r.stream.category)
    requires var es := History(s, OrderService, r.stream); 1 <= r.version <= |es| && es[r.version - 1] == r.data.payload
    requires Speaks(OrderService, r) == Some(Routed(topic, m)) && topic != ORDERING_EVENTS
    ensures Said(s, o, j) && j % 2 == 1 && j < Length(o) && m == Trigger(o, j) && CommandTopic(o, j / 2) == topic
  {
    SpeaksCommand(r);
    o, j := RequestBehind(s, r);
    RequestSpeaks(r, o, j);
  }

  // ---- What the services' own records say ------------------------------

  lemma PaymentFact(o: Order, k: nat, v: nat)
    requires k <= Length(o) && 1 <= v <= |PaymentAt(o, k)|
    ensures var j := if v == 1 then 2 else EPILOGUE;
      Public(PaymentService, PaymentAt(o, k)[v - 1]) == Some(Says(o, j)) && Spoken(o, k, j) && v == TriggerVersion(j)
  {
  }

  lemma ReservationFact(o: Order, k: nat, v: nat)
    requires k <= Length(o) && 1 <= v <= |ReservationAt(o, k)|
    ensures Public(StockService, ReservationAt(o, k)[v - 1]) == Some(Says(o, 4)) && Spoken(o, k, 4) && v == 1
  {
  }

  lemma ShipmentFact(o: Order, k: nat, v: nat)
    requires k <= Length(o) && 1 <= v <= |ShipmentAt(o, k)|
    ensures Public(ShippingService, ShipmentAt(o, k)[v - 1]) == Some(Says(o, 6)) && Spoken(o, k, 6) && v == 1
  {
  }

  /** The number of the message a service's own record says. */
  function FactNumber(svc: Service, version: int): nat {
    match svc
    case OrderService => 0
    case PaymentService => if version == 1 then 2 else EPILOGUE
    case StockService => 4
    case ShippingService => 6
  }

  lemma OwnFact(s: State, svc: Service, r: RecordedEvent<Event>)
    requires OnScript(s, r.stream.id) && r.stream.category == CategoryOf(svc)
    requires var es := History(s, svc, r.stream); 1 <= r.version <= |es| && es[r.version - 1] == r.data.payload
    requires Public(svc, r.data.payload).Some?
    ensures var j := FactNumber(svc, r.version);
      && IsPlaced(s, r.stream.id) && Said(s, OrderOf(s, r.stream.id), j)
      && Public(svc, r.data.payload) == Some(Says(OrderOf(s, r.stream.id), j)) && r.version == TriggerVersion(j)
      && r.stream == StreamID(TriggerCategory(j), OrderOf(s, r.stream.id).id)
  {
    var id := r.stream.id;
    assert IsPlaced(s, id);
    var o, k := OrderOf(s, id), Phase(s, id);
    match svc {
      case OrderService =>
      case PaymentService => PaymentFact(o, k, r.version);
      case StockService => ReservationFact(o, k, r.version);
      case ShippingService => ShipmentFact(o, k, r.version);
    }
  }

  /** The saga's stream says no facts. */
  lemma SagaSaysNoFact(s: State, r: RecordedEvent<Event>)
    requires OnScript(s, r.stream.id) && r.stream.category == SAGA_CATEGORY
    requires var es := SagaHistory(s, r.stream.id); 1 <= r.version <= |es| && es[r.version - 1] == r.data.payload
    requires Speaks(OrderService, r).Some?
    ensures Speaks(OrderService, r).value.topic != ORDERING_EVENTS
  {
    SagaPosition(s, r.stream.id, r.version - 1);
    StepSpeaks(OrderOf(s, r.stream.id), r, r.version - 1, r.data.payload.step);
  }

  /** A step of the saga speaks only to request a command. */
  lemma StepSpeaks(o: Order, r: RecordedEvent<Event>, v: nat, step: Saga.SagaEvent<Contract>)
    requires r.data.payload == SagaStep(step) && InPlace(o, v, step)
    requires Speaks(OrderService, r).Some?
    ensures Speaks(OrderService, r).value.topic != ORDERING_EVENTS
  {
    if step.CommandRequested? {
      assert step.topic == CommandTopic(o, v / 2);
    }
  }

  /** A fact on a service's topic is a message the script has spoken. */
  lemma FactSaid(s: State, link: Link, m: Message<Contract>) returns (o: Order, j: nat)
    requires StoresInv(s) && !link.ToService? && m in TopicLog(s, link)
    ensures Said(s, o, j) && j % 2 == 0 && m == Trigger(o, j) && TriggerCategory(j) == CategoryOf(link.from)
  {
    var r := RecordBehind(s, link, m);
    assert OnScript(s, r.stream.id);
    o, j := FactBehind(s, link.from, r, m);
  }

  lemma SpeaksFact(svc: Service, r: RecordedEvent<Event>)
    requires Speaks(svc, r).Some? && (svc == OrderService ==> !r.data.payload.SagaStep?)
    ensures Public(svc, r.data.payload).Some?
  {
  }

  lemma FactBehind(s: State, svc: Service, r: RecordedEvent<Event>, m: Message<Contract>) returns (o: Order, j: nat)
    requires OnScript(s, r.stream.id) && Home(svc, r.stream.category)
    requires var es := History(s, svc, r.stream); 1 <= r.version <= |es| && es[r.version - 1] == r.data.payload
    requires Speaks(svc, r) == Some(Routed(EventsTopic(svc), m))
    ensures Said(s, o, j) && j % 2 == 0 && m == Trigger(o, j) && TriggerCategory(j) == CategoryOf(svc)
  {
    if r.stream.category == SAGA_CATEGORY && svc == OrderService {
      SagaSaysNoFact(s, r);
    }
    o, j := FactAtHome(s, svc, r, m);
  }

  lemma FactAtHome(s: State, svc: Service, r: RecordedEvent<Event>, m: Message<Contract>) returns (o: Order, j: nat)
    requires OnScript(s, r.stream.id) && r.stream.category == CategoryOf(svc)
    requires var es := History(s, svc, r.stream); 1 <= r.version <= |es| && es[r.version - 1] == r.data.payload
    requires Speaks(svc, r) == Some(Routed(EventsTopic(svc), m))
    ensures Said(s, o, j) && j % 2 == 0 && m == Trigger(o, j) && TriggerCategory(j) == CategoryOf(svc)
  {
    NoStepsAtHome(s, svc, r);
    SpeaksFact(svc, r);
    OwnFact(s, svc, r);
    o := OrderOf(s, r.stream.id);
    j := FactNumber(svc, r.version);
    RecordID(r, o.id, j);
    MessageSpoken(svc, r, m, o, j);
  }

  /** What a relay says of a fact's record is the script's message. */
  lemma MessageSpoken(svc: Service, r: RecordedEvent<Event>, m: Message<Contract>, o: Order, j: nat)
    requires Speaks(svc, r) == Some(Routed(EventsTopic(svc), m)) && Public(svc, r.data.payload) == Some(Says(o, j))
    requires svc == OrderService ==> !r.data.payload.SagaStep?
    requires r.stream.id == o.id && MessageID(r) == TriggerID(o.id, j)
    ensures m == Trigger(o, j)
  {
  }

  /** Saga steps are only in the saga's streams. */
  lemma NoStepsAtHome(s: State, svc: Service, r: RecordedEvent<Event>)
    requires OnScript(s, r.stream.id)
    requires var es := History(s, svc, r.stream); 1 <= r.version <= |es| && es[r.version - 1] == r.data.payload
    ensures svc == OrderService && r.stream.category == ORDER_CATEGORY ==> !r.data.payload.SagaStep?
  {
  }
}
