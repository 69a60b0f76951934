/**
 * The guarantees of the fulfillment system, for every run: with arbitrary
 * duplication, redelivery, reordering, concurrency, partial publishes, crashes
 * and rebuilds.
 */
module Fulfillment {
  import opened Wrappers
  import opened EventStore
  import opened Messaging
  import opened Broker
  import opened RelayFeed
  import opened Pipeline
  import opened Contracts
  import opened CommandHandling
  import opened Topology
  import opened Script
  import opened FulfillmentSystem
  import opened FulfillmentInvariant
  import opened FulfillmentSteps
  import opened FulfillmentWorkers
  import Billing
  import Inventory

  // ---- The invariant holds in every run --------------------------------

  lemma StartStores()
    ensures StoresInv(START)
  {
    forall svc ensures NodeInv(RelayOf(svc), NodeOf(START, svc)) && RecordsInv(svc, StoreOf(START, svc)) {
      NewNodeInv(RelayOf(svc));
    }
    forall id ensures OnScript(START, id) {
    }
  }

  lemma StartInv()
    ensures Inv(START)
  {
    StartStores();
  }

  lemma PlaceKeeps(s: State, s': State, o: Order)
    requires Inv(s) && s' == Next(s, Place(o))
    ensures Inv(s')
  {
    if Placeable(o) {
      assert OrderIn([PlacedBy(o)]) == o;
      OrderAppendKeeps(s, o.id, 0, PlacedBy(o));
    }
  }

  lemma NotifyKeeps(s: State, s': State, id: string, reason: string, version: nat)
    requires Inv(s) && s' == Next(s, Notify(id, reason, version))
    ensures Inv(s')
  {
    if version > 0 {
      OrderAppendKeeps(s, id, version, CustomerNotified(id, reason));
    }
  }

  lemma RelayingKeeps(s: State, s': State, svc: Service, step: NodeStep<Event>)
    requires Inv(s) && s' == Next(s, Relaying(svc, step))
    ensures Inv(s')
  {
    if !step.Append? {
      RelayKeeps(s, svc, step);
    }
  }

  lemma BeginningKeeps(s: State, s': State, w: nat, link: Link, at: nat)
    requires Inv(s) && s' == Next(s, Begin(w, link, at))
    ensures Inv(s')
  {
    assert s' == BeginNext(s, w, link, at);
    if link.ToInbox? {
      StoreKeeps(s, w, link, at);
    } else {
      BeginKeeps(s, w, link, at);
    }
  }

  /** What acknowledging or restarting may do: nothing, or move or reset one group's offset. */
  ghost predicate OffsetSet(s: State, s': State, link: Link, sub: Sub) {
    Wired(link) && s' == s.(subs := s.subs[link := sub])
    && (sub == Sub(SubOf(s, link).offset, false)
        || (SubOf(s, link).done && sub == Sub(SubOf(s, link).offset + 1, false)))
  }

  lemma AcknowledgeSets(s: State, s': State, link: Link)
    requires s' == Next(s, FulfillmentSystem.Acknowledge(link))
    ensures s' == s || OffsetSet(s, s', link, Sub(SubOf(s, link).offset + 1, false))
  {
  }

  lemma RestartSets(s: State, s': State, link: Link)
    requires s' == Next(s, FulfillmentSystem.Restart(link))
    ensures s' == s || OffsetSet(s, s', link, Sub(SubOf(s, link).offset, false))
  {
  }

  lemma OffsetSetKeeps(s: State, s': State, link: Link, sub: Sub)
    requires Inv(s) && (s' == s || OffsetSet(s, s', link, sub))
    ensures Inv(s')
  {
    if s' != s {
      OffsetKeeps(s, s', link, sub);
    }
  }

  lemma AcknowledgeKeeps(s: State, s': State, link: Link)
    requires Inv(s) && s' == Next(s, FulfillmentSystem.Acknowledge(link))
    ensures Inv(s')
  {
    AcknowledgeSets(s, s', link);
    OffsetSetKeeps(s, s', link, Sub(SubOf(s, link).offset + 1, false));
  }

  lemma RestartKeeps(s: State, s': State, link: Link)
    requires Inv(s) && s' == Next(s, FulfillmentSystem.Restart(link))
    ensures Inv(s')
  {
    RestartSets(s, s', link);
    OffsetSetKeeps(s, s', link, Sub(SubOf(s, link).offset, false));
  }

  lemma FinishingKeeps(s: State, s': State, w: nat)
    requires Inv(s) && s' == Next(s, Finish(w))
    ensures Inv(s')
  {
    assert s' == FinishNext(s, w);
    FinishKeeps(s, w);
  }

  lemma CrashKeeps(s: State, s': State, w: nat)
    requires Inv(s) && s' == Next(s, CrashWorker(w))
    ensures Inv(s')
  {
    WorkDropped(s, s', w);
  }

  /** Every atomic step keeps the system's invariant. */
  lemma NextKeeps(s: State, step: Step)
    requires Inv(s)
    ensures Inv(Next(s, step))
  {
    StepKeeps(s, Next(s, step), step);
  }

  lemma StepKeeps(s: State, s': State, step: Step)
    requires Inv(s) && s' == Next(s, step)
    ensures Inv(s')
  {
    match step {
      case Place(o) => PlaceKeeps(s, s', o);
      case Notify(id, reason, version) => NotifyKeeps(s, s', id, reason, version);
      case Relaying(svc, ns) => RelayingKeeps(s, s', svc, ns);
      case Begin(w, link, at) => BeginningKeeps(s, s', w, link, at);
      case Commit(w) => CommitKeeps(s, s', w);
      case Finish(w) => FinishingKeeps(s, s', w);
      case CrashWorker(w) => CrashKeeps(s, s', w);
      case Acknowledge(link) => AcknowledgeKeeps(s, s', link);
      case Restart(link) => RestartKeeps(s, s', link);
      case Project(vs) => ProjectKeeps(s, s', vs);
    }
  }

  lemma {:induction false} RunKeeps(steps: seq<Step>)
    ensures Inv(Run(steps))
  {
    if steps == [] {
      StartInv();
    } else {
      RunKeeps(steps[..|steps| - 1]);
      NextKeeps(Run(steps[..|steps| - 1]), steps[|steps| - 1]);
    }
  }

  // ---- Safety ----------------------------------------------------------

  /**
   * In every run, every order's joint history is a prefix of its script: an
   * order that was not placed has no history at all, and a placed one's saga,
   * payment, reservation and shipment streams are exactly those after as many
   * beats as there have been.
   */
  lemma AlwaysOnScript(steps: seq<Step>, id: string)
    ensures var s := Run(steps);
      if IsPlaced(s, id) then At(s, id, OrderOf(s, id), Phase(s, id))
      else
        OrderHistory(s, id) == SagaHistory(s, id) == PaymentHistory(s, id) == ReservationHistory(s, id)
          == ShipmentHistory(s, id) == []
  {
    RunKeeps(steps);
    assert OnScript(Run(steps), id);
  }

  /**
   * A shipped order was captured for exactly its total, within the limit, and
   * not refunded, and reserved for exactly its quantity, within the stock.
   */
  lemma ShippedMeansPaidAndReserved(steps: seq<Step>, id: string)
    requires ShipmentHistory(Run(steps), id) != []
    ensures var s := Run(steps);
      && IsPlaced(s, id)
      && ShipmentHistory(s, id) == [ShipmentDispatched(id)]
      && PaymentHistory(s, id) == [PaymentCaptured(id, OrderOf(s, id).cents)]
      && ReservationHistory(s, id) == [StockReserved(id, OrderOf(s, id).qty)]
      && OrderOf(s, id).cents <= Billing.CAPTURE_LIMIT_CENTS && OrderOf(s, id).qty <= Inventory.AVAILABLE_STOCK
  {
    AlwaysOnScript(steps, id);
  }

  /** A refunded order was captured for exactly its total, its stock was rejected, and it was never shipped. */
  lemma RefundedMeansRejected(steps: seq<Step>, id: string)
    requires exists e :: e in PaymentHistory(Run(steps), id) && e.PaymentRefunded?
    ensures var s := Run(steps);
      && IsPlaced(s, id)
      && PaymentHistory(s, id) == [PaymentCaptured(id, OrderOf(s, id).cents), PaymentRefunded(id)]
      && ReservationHistory(s, id) == [StockRejected(id, Inventory.STOCK_REASON)]
      && ShipmentHistory(s, id) == []
  {
    AlwaysOnScript(steps, id);
  }

  /** In every run, no command on any topic is met with an error: it takes effect now or has taken effect before. */
  lemma NoCommandRejected(steps: seq<Step>, svc: Service, m: Message<Contract>)
    requires svc != OrderService && m in TopicLog(Run(steps), ToService(svc))
    ensures var s := Run(steps); var stream := StreamID(CategoryOf(svc), m.body.orderId);
      var r := CommandReact(svc, History(s, svc, stream), m);
      !r.Fault? && (r == NoChange ==> Handled(s, m.id))
  {
    RunKeeps(steps);
    Reacted(Run(steps), ToService(svc), m);
  }

  /** In every run, an ID a service has marked as processed is one whose beat has been played. */
  lemma MarkedMeansDone(steps: seq<Step>, svc: Service, o: Order, j: nat)
    requires j < 7 && TriggerID(o.id, j) in MarkedOf(Run(steps), svc)
    ensures Phase(Run(steps), o.id) > j
  {
    RunKeeps(steps);
    assert Handled(Run(steps), TriggerID(o.id, j));
  }

  // ---- Everything that was recorded gets said --------------------------

  /** A record whose service's relay has caught up is on its topic. */
  lemma Published(s: State, svc: Service, stream: StreamID, v: nat, topic: string, m: Message<Contract>)
    requires StoresInv(s) && NodeOf(s, svc).cp == |StoreOf(s, svc)|
    requires 1 <= v <= |History(s, svc, stream)|
    requires forall r: RecordedEvent<Event> {:trigger Speaks(svc, r)} ::
      r.stream == stream && r.version == v && r.data.payload == History(s, svc, stream)[v - 1] ==>
        Speaks(svc, r) == Some(Routed(topic, m))
    ensures m in LogOf(NodeOf(s, svc).topics, topic)
  {
    var n := NodeOf(s, svc);
    assert NodeInv(RelayOf(svc), n);
    var r := StreamOf(n.log, stream)[v - 1];
    StreamMembers(n.log, stream);
    StreamVersions(n.log, stream);
    assert r in StreamOf(n.log, stream);
    assert Speaks(svc, r) == Some(Routed(topic, m));
    var i :| 0 <= i < |n.log| && n.log[i] == r;
    assert Covers(RelayOf(svc), n.log, topic, LogOf(n.topics, topic), n.cp);
    CoversMembers(RelayOf(svc), n.log, topic, LogOf(n.topics, topic), n.cp);
    assert GoesTo(RelayOf(svc), n.log[i], topic);
  }

  lemma ActorTopic(o: Order, j: nat)
    requires j % 2 == 1 && j < Length(o)
    ensures Actor(o, j) != OrderService && CommandTopic(o, j / 2) == CommandsTopic(Actor(o, j))
  {
  }

  /** A command that has been said is recorded in the saga's stream. */
  lemma CommandRecorded(s: State, o: Order, j: nat)
    requires OnScript(s, o.id) && Said(s, o, j) && j % 2 == 1
    ensures j < |SagaHistory(s, o.id)| && SagaHistory(s, o.id)[j] == SagaStep(Request(o, j)) && j < Length(o)
  {
    OddSaid(o, Phase(s, o.id), j);
    SagaPosition(s, o.id, j);
  }

  lemma OddSaid(o: Order, k: nat, j: nat)
    requires Spoken(o, k, j) && j % 2 == 1 && k <= Length(o)
    ensures j < Length(o) && j < |SagaAt(o, k)|
  {
    BlocksInPlace(o, (k + 1) / 2);
    assert j < 2 * ((k + 1) / 2);
  }

  lemma CommandPublished(s: State, o: Order, j: nat)
    requires StoresInv(s) && NodeOf(s, OrderService).cp == |StoreOf(s, OrderService)|
    requires Said(s, o, j) && j % 2 == 1
    ensures j < Length(o) && Actor(o, j) != OrderService && Trigger(o, j) in TopicLog(s, ToService(Actor(o, j)))
  {
    assert OnScript(s, o.id);
    CommandRecorded(s, o, j);
    ActorTopic(o, j);
    RequestPublished(s, o, j);
  }

  lemma RequestPublished(s: State, o: Order, j: nat)
    requires StoresInv(s) && NodeOf(s, OrderService).cp == |StoreOf(s, OrderService)|
    requires j % 2 == 1 && j < |SagaHistory(s, o.id)| && SagaHistory(s, o.id)[j] == SagaStep(Request(o, j))
    ensures Trigger(o, j) in LogOf(NodeOf(s, OrderService).topics, CommandTopic(o, j / 2))
  {
    var stream := StreamID(SAGA_CATEGORY, o.id);
    forall r: RecordedEvent<Event> {:trigger Speaks(OrderService, r)} |
      r.stream == stream && r.version == j + 1 && r.data.payload == History(s, OrderService, stream)[j]
      ensures Speaks(OrderService, r) == Some(Routed(CommandTopic(o, j / 2), Trigger(o, j)))
    {
      RequestSpeaks(r, o, j);
    }
    Published(s, OrderService, stream, j + 1, CommandTopic(o, j / 2), Trigger(o, j));
  }

  /** Whose fact message j is. */
  function Teller(j: nat): Service {
    if j == 0 then OrderService else if j == 4 then StockService else if j == 6 then ShippingService else PaymentService
  }

  /** What a fact's record holds. */
  function Told(o: Order, j: nat): Event {
    if j == 0 then PlacedBy(o)
    else if j == 2 then
      (if FateOf(o) == Declined then PaymentFailed(o.id, Billing.LIMIT_REASON) else PaymentCaptured(o.id, o.cents))
    else if j == 4 then
      (if FateOf(o) == Rejected then StockRejected(o.id, Inventory.STOCK_REASON) else StockReserved(o.id, o.qty))
    else if j == 6 then ShipmentDispatched(o.id)
    else PaymentRefunded(o.id)
  }

  /** The history in which a fact is told. */
  function Telling(s: State, o: Order, j: nat): seq<Event> {
    History(s, Teller(j), StreamID(TriggerCategory(j), o.id))
  }

  /** The teller's history of an order after k beats. */
  function TellerAt(o: Order, k: nat, j: nat): seq<Event> {
    if j == 4 then ReservationAt(o, k) else if j == 6 then ShipmentAt(o, k) else PaymentAt(o, k)
  }

  lemma ToldAt(o: Order, k: nat, j: nat)
    requires Spoken(o, k, j) && Numbered(j) && j % 2 == 0 && j > 0 && k <= Length(o)
    ensures 1 <= TriggerVersion(j) <= |TellerAt(o, k, j)| && TellerAt(o, k, j)[TriggerVersion(j) - 1] == Told(o, j)
  {
  }

  lemma FactRecorded(s: State, o: Order, j: nat)
    requires OnScript(s, o.id) && Said(s, o, j) && j % 2 == 0
    ensures 1 <= TriggerVersion(j) <= |Telling(s, o, j)| && Telling(s, o, j)[TriggerVersion(j) - 1] == Told(o, j)
  {
    if j == 0 {
      assert Telling(s, o, j) == OrderHistory(s, o.id);
    } else {
      ToldAt(o, Phase(s, o.id), j);
      assert Telling(s, o, j) == TellerAt(o, Phase(s, o.id), j);
    }
  }

  lemma FactSpeaks(r: RecordedEvent<Event>, o: Order, j: nat)
    requires Numbered(j) && j % 2 == 0 && r.stream == StreamID(TriggerCategory(j), o.id)
      && r.version == TriggerVersion(j)
    requires r.data.payload == Told(o, j)
    ensures Speaks(Teller(j), r) == Some(Routed(EventsTopic(Teller(j)), Trigger(o, j)))
  {
    RecordID(r, o.id, j);
  }

  lemma FactPublished(s: State, o: Order, j: nat)
    requires StoresInv(s) && NodeOf(s, Teller(j)).cp == |StoreOf(s, Teller(j))|
    requires Said(s, o, j) && j % 2 == 0
    ensures Trigger(o, j) in TopicLog(s, ToSaga(Teller(j))) && Trigger(o, j) in TopicLog(s, ToInbox(Teller(j)))
  {
    assert OnScript(s, o.id);
    FactRecorded(s, o, j);
    ToldPublished(s, o, j);
  }

  lemma ToldPublished(s: State, o: Order, j: nat)
    requires StoresInv(s) && NodeOf(s, Teller(j)).cp == |StoreOf(s, Teller(j))| && Numbered(j) && j % 2 == 0
    requires 1 <= TriggerVersion(j) <= |Telling(s, o, j)| && Telling(s, o, j)[TriggerVersion(j) - 1] == Told(o, j)
    ensures Trigger(o, j) in LogOf(NodeOf(s, Teller(j)).topics, EventsTopic(Teller(j)))
  {
    ToldSpeaks(o, j);
    var stream := StreamID(TriggerCategory(j), o.id);
    Published(s, Teller(j), stream, TriggerVersion(j), EventsTopic(Teller(j)), Trigger(o, j));
  }

  lemma ToldSpeaks(o: Order, j: nat)
    requires Numbered(j) && j % 2 == 0
    ensures forall r: RecordedEvent<Event> {:trigger Speaks(Teller(j), r)} ::
      r.stream == StreamID(TriggerCategory(j), o.id) && r.version == TriggerVersion(j)
        && r.data.payload == Told(o, j) ==>
        Speaks(Teller(j), r) == Some(Routed(EventsTopic(Teller(j)), Trigger(o, j)))
  {
    forall r: RecordedEvent<Event> {:trigger Speaks(Teller(j), r)} |
      r.stream == StreamID(TriggerCategory(j), o.id) && r.version == TriggerVersion(j) && r.data.payload == Told(o, j)
      ensures Speaks(Teller(j), r) == Some(Routed(EventsTopic(Teller(j)), Trigger(o, j)))
    {
      FactSpeaks(r, o, j);
    }
  }

  // ---- The outcome -----------------------------------------------------

  /** A message of a group that has caught up is done with. */
  lemma DoneWith(s: State, link: Link, m: Message<Contract>)
    requires SubsInv(s) && Wired(link) && SubOf(s, link).offset == |TopicLog(s, link)| && m in TopicLog(s, link)
    ensures Done(s, link, m)
  {
    assert SubInv(s, link);
    var i :| 0 <= i < |TopicLog(s, link)| && TopicLog(s, link)[i] == m;
  }

  /** When nothing is left to relay or deliver, whatever has been said has had its effect. */
  lemma SaidMeansHandled(s: State, o: Order, j: nat)
    requires StoresInv(s) && SubsInv(s) && Quiescent(s) && Said(s, o, j)
    ensures Handled(s, TriggerID(o.id, j))
  {
    if j % 2 == 1 {
      CommandPublished(s, o, j);
      DoneWith(s, ToService(Actor(o, j)), Trigger(o, j));
    } else {
      FactPublished(s, o, j);
      DoneWith(s, ToSaga(Teller(j)), Trigger(o, j));
    }
  }

  lemma HandledMeans(s: State, id: string, j: nat)
    requires Handled(s, TriggerID(id, j)) && j < 7
    ensures Phase(s, id) > j
  {
  }

  lemma PhaseComplete(s: State, o: Order)
    requires StoresInv(s) && SubsInv(s) && Quiescent(s) && IsPlaced(s, o.id) && o == OrderOf(s, o.id)
    ensures Phase(s, o.id) >= Length(o)
  {
    var k := Phase(s, o.id);
    if k < Length(o) {
      SaidMeansHandled(s, o, k);
      HandledMeans(s, o.id, k);
    }
  }

  /** So every placed order has then played its whole script. */
  lemma ScriptComplete(s: State, id: string)
    requires StoresInv(s) && SubsInv(s) && Quiescent(s) && IsPlaced(s, id)
    ensures At(s, id, OrderOf(s, id), Length(OrderOf(s, id)))
  {
    PlacedAt(s, id);
    PhaseComplete(s, OrderOf(s, id));
    AtEnd(s, id, OrderOf(s, id), Phase(s, id));
  }

  lemma PlacedAt(s: State, id: string)
    requires StoresInv(s) && IsPlaced(s, id)
    ensures At(s, id, OrderOf(s, id), Phase(s, id))
  {
    assert OnScript(s, id);
  }

  lemma AtEnd(s: State, id: string, o: Order, k: nat)
    requires At(s, id, o, k) && k >= Length(o)
    ensures At(s, id, o, Length(o))
  {
    assert k == Length(o);
  }
}
