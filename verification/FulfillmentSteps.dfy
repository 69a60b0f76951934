/**
 * The fulfillment invariant holds at the start and is kept by every step. The
 * heart is Beat: receiving a message the script has spoken either plays exactly
 * the next beat or changes nothing.
 */
module FulfillmentSteps {
  import opened Wrappers
  import opened EventStore
  import opened Messaging
  import opened Pipeline
  import opened Contracts
  import opened CommandHandling
  import opened Topology
  import opened Script
  import opened FulfillmentSystem
  import opened FulfillmentInvariant
  import opened FulfillmentGrowth
  import Saga
  import FulfillmentSaga

  // ---- One beat --------------------------------------------------------

  /** Who plays beat j. */
  function Actor(o: Order, j: nat): Service {
    if j % 2 == 0 then OrderService
    else if j == 1 then PaymentService
    else if j == 3 then StockService
    else if FateOf(o) == Rejected then PaymentService
    else ShippingService
  }

  /** The actor's stream after k beats. */
  function ActorAt(o: Order, k: nat, svc: Service): seq<Event> {
    match svc
    case OrderService => Wrap(SagaAt(o, k))
    case PaymentService => PaymentAt(o, k)
    case StockService => ReservationAt(o, k)
    case ShippingService => ShipmentAt(o, k)
  }

  function ReactsAt(o: Order, k: nat, j: nat): Reaction {
    if j % 2 == 0 then SagaReact(o.id, ActorAt(o, k, OrderService), Trigger(o, j))
    else CommandReact(Actor(o, j), ActorAt(o, k, Actor(o, j)), Trigger(o, j))
  }

  lemma Unwrapped(es: seq<Saga.SagaEvent<Contract>>)
    ensures AllSteps(Wrap(es)) && Unwrap(Wrap(es)) == es
  {
  }

  lemma WrapConcat(a: seq<Saga.SagaEvent<Contract>>, b: seq<Saga.SagaEvent<Contract>>)
    ensures Wrap(a + b) == Wrap(a) + Wrap(b)
  {
  }

  /** The saga's beat. */
  lemma SagaBeat(o: Order, k: nat, j: nat)
    requires j <= k <= Length(o) && j < Length(o) && j % 2 == 0
    ensures var r := ReactsAt(o, k, j);
      if j == k then r.Emit? && Wrap(SagaAt(o, k + 1)) == Wrap(SagaAt(o, k)) + r.events else r == NoChange
  {
    var n := (k + 1) / 2;
    Unwrapped(SagaAt(o, k));
    if j == k {
      SagaNext(o, n);
      assert (k + 1 + 1) / 2 == n + 1 && 2 * n == j;
      WrapConcat(Blocks(o, n), BlockAt(o, n));
    } else {
      SagaAgain(o, n, j / 2);
      assert 2 * (j / 2) == j;
    }
  }

  lemma CommandBeat(o: Order, k: nat, j: nat)
    requires Placeable(o) && j <= k <= Length(o) && j < Length(o) && j % 2 == 1
    ensures var r := ReactsAt(o, k, j); var svc := Actor(o, j);
      if j == k then r.Emit? && ActorAt(o, k + 1, svc) == ActorAt(o, k, svc) + r.events else r == NoChange
  {
    if j == 3 {
      ReservationBeat(o, k);
    } else if Actor(o, j) == PaymentService {
      PaymentBeat(o, k, j);
    } else {
      ShipmentBeat(o, k);
    }
  }

  /** The streams of those who do not play a beat stay as they are. */
  lemma OthersRest(o: Order, k: nat, svc: Service)
    requires k < Length(o) && svc != Actor(o, k)
    ensures ActorAt(o, k + 1, svc) == ActorAt(o, k, svc)
  {
  }

  /**
   * Receiving message j after k beats: the next beat is played, an earlier one
   * is not repeated, nothing is rejected.
   */
  lemma Beat(o: Order, k: nat, j: nat)
    requires Placeable(o) && j <= k <= Length(o) && j < Length(o)
    ensures var r := ReactsAt(o, k, j);
      if j == k then
        r.Emit? && forall svc ::
          ActorAt(o, k + 1, svc) == ActorAt(o, k, svc) + (if svc == Actor(o, k) then r.events else [])
      else r == NoChange
  {
    if j % 2 == 0 {
      SagaBeat(o, k, j);
    } else {
      CommandBeat(o, k, j);
    }
    if j == k {
      var r := ReactsAt(o, k, j);
      forall svc ensures ActorAt(o, k + 1, svc) == ActorAt(o, k, svc) + (if svc == Actor(o, k) then r.events else []) {
        if svc != Actor(o, k) {
          OthersRest(o, k, svc);
        }
      }
    }
  }

  // ---- Deliveries ------------------------------------------------------

  function ActorCategory(svc: Service): string {
    if svc == OrderService then SAGA_CATEGORY else CategoryOf(svc)
  }

  /** The stream an actor plays an order's beats on, as it is now. */
  function ActorHistory(s: State, svc: Service, id: string): seq<Event> {
    History(s, svc, StreamID(ActorCategory(svc), id))
  }

  lemma ActorStreams(s: State, id: string)
    ensures ActorHistory(s, OrderService, id) == SagaHistory(s, id)
    ensures ActorHistory(s, PaymentService, id) == PaymentHistory(s, id)
    ensures ActorHistory(s, StockService, id) == ReservationHistory(s, id)
    ensures ActorHistory(s, ShippingService, id) == ShipmentHistory(s, id)
  {
  }

  lemma AtActors(s: State, id: string, o: Order, k: nat)
    ensures At(s, id, o, k) <==> k <= Length(o) && forall svc :: ActorHistory(s, svc, id) == ActorAt(o, k, svc)
  {
    ActorStreams(s, id);
    assert At(s, id, o, k) <==>
      (k <= Length(o)
       && ActorHistory(s, OrderService, id) == ActorAt(o, k, OrderService)
       && ActorHistory(s, PaymentService, id) == ActorAt(o, k, PaymentService)
       && ActorHistory(s, StockService, id) == ActorAt(o, k, StockService)
       && ActorHistory(s, ShippingService, id) == ActorAt(o, k, ShippingService));
  }

  /** The saga listens to every trigger of an even beat, and not to the refund's fact. */
  lemma TriggerCorrelates(o: Order, j: nat)
    requires j % 2 == 0 && o.id != "" && (j < Length(o) || j == EPILOGUE)
    ensures Saga.Correlated(FulfillmentSaga.Def(), Trigger(o, j)) == if j == EPILOGUE then None else Some(o.id)
  {
    var start := Saga.Instance(FulfillmentSaga.ZERO, false, {}, Saga.Decisions([], false));
    FulfillmentSaga.FactHandled(start, Trigger(o, j));
  }

  lemma ActorOfCommand(o: Order, j: nat, svc: Service)
    requires j % 2 == 1 && j < Length(o) && svc != OrderService && CommandTopic(o, j / 2) == CommandsTopic(svc)
    ensures Actor(o, j) == svc
  {
  }

  lemma CommandTarget(o: Order, j: nat, svc: Service)
    requires svc != OrderService
    ensures TargetOf(ToService(svc), Trigger(o, j)) == Some(StreamID(ActorCategory(svc), o.id))
  {
  }

  lemma ReactsOnScript(s: State, link: Link, o: Order, j: nat)
    requires At(s, o.id, o, Phase(s, o.id)) && HomeOf(link) == Actor(o, j) && (link.ToService? <==> j % 2 == 1)
    ensures var stream := StreamID(ActorCategory(Actor(o, j)), o.id);
      ReactionOf(link, stream, History(s, HomeOf(link), stream), Trigger(o, j)) == ReactsAt(o, Phase(s, o.id), j)
  {
    AtActors(s, o.id, o, Phase(s, o.id));
    assert ActorHistory(s, HomeOf(link), o.id) == ActorAt(o, Phase(s, o.id), HomeOf(link));
  }

  /** Message m on a link is message j about order o, and the consumer reacts to it as the script says. */
  ghost predicate IsBeat(s: State, link: Link, m: Message<Contract>, o: Order, j: nat) {
    && Said(s, o, j) && m == Trigger(o, j)
    && (j == EPILOGUE ==> TargetOf(link, m) == None)
    && (j != EPILOGUE ==>
          var stream := StreamID(ActorCategory(Actor(o, j)), o.id);
          && TargetOf(link, m) == Some(stream) && HomeOf(link) == Actor(o, j)
          && ReactionOf(link, stream, History(s, HomeOf(link), stream), m) == ReactsAt(o, Phase(s, o.id), j))
  }

  lemma DeliveredCommand(s: State, svc: Service, m: Message<Contract>) returns (o: Order, j: nat)
    requires StoresInv(s) && svc != OrderService && m in TopicLog(s, ToService(svc))
    ensures IsBeat(s, ToService(svc), m, o, j)
  {
    o, j := CommandSaid(s, svc, m);
    ActorOfCommand(o, j, svc);
    CommandTarget(o, j, svc);
    assert OnScript(s, o.id);
    ReactsOnScript(s, ToService(svc), o, j);
  }

  lemma DeliveredFact(s: State, svc: Service, m: Message<Contract>) returns (o: Order, j: nat)
    requires StoresInv(s) && m in TopicLog(s, ToSaga(svc))
    ensures IsBeat(s, ToSaga(svc), m, o, j)
  {
    o, j := FactSaid(s, ToSaga(svc), m);
    assert OnScript(s, o.id);
    TriggerCorrelates(o, j);
    if j != EPILOGUE {
      ReactsOnScript(s, ToSaga(svc), o, j);
    }
  }

  /**
   * Any message of a topic, handed to any consumer: it is about a placed order,
   * it is handled on the stream of the actor of its beat, and the reaction is
   * the script's.
   */
  lemma DeliveredAsScripted(s: State, link: Link, m: Message<Contract>) returns (o: Order, j: nat)
    requires StoresInv(s) && Wired(link) && !link.ToInbox? && m in TopicLog(s, link)
    ensures IsBeat(s, link, m, o, j)
  {
    if link.ToService? {
      o, j := DeliveredCommand(s, link.service, m);
    } else {
      o, j := DeliveredFact(s, link.from, m);
    }
  }

  // ---- Steps that append -----------------------------------------------

  /** An order none of whose streams changed is still on script. */
  lemma StaysOnScript(s: State, s': State, id: string)
    requires OnScript(s, id) && OrderHistory(s', id) == OrderHistory(s, id)
    requires forall svc :: ActorHistory(s', svc, id) == ActorHistory(s, svc, id)
    ensures OnScript(s', id)
  {
    ActorStreams(s, id);
    ActorStreams(s', id);
    assert Phase(s', id) == Phase(s, id);
  }

  lemma Placing(s: State, s': State, o: Order)
    requires OnScript(s, o.id) && OrderHistory(s, o.id) == [] && Placeable(o)
    requires OrderHistory(s', o.id) == [PlacedBy(o)]
    requires forall svc :: ActorHistory(s', svc, o.id) == ActorHistory(s, svc, o.id)
    ensures OnScript(s', o.id)
  {
    ActorStreams(s, o.id);
    ActorStreams(s', o.id);
    assert OrderIn([PlacedBy(o)]) == o;
    assert At(s', o.id, o, 0);
  }

  lemma Notifying(s: State, s': State, id: string, reason: string)
    requires OnScript(s, id) && OrderHistory(s, id) != []
    requires OrderHistory(s', id) == OrderHistory(s, id) + [CustomerNotified(id, reason)]
    requires forall svc :: ActorHistory(s', svc, id) == ActorHistory(s, svc, id)
    ensures OnScript(s', id)
  {
    ActorStreams(s, id);
    ActorStreams(s', id);
    assert Phase(s', id) == Phase(s, id);
    assert OrderIn(OrderHistory(s', id)) == OrderIn(OrderHistory(s, id));
  }

  /** The categories of orders and of the actors' streams are all different. */
  lemma CategoriesDiffer()
    ensures forall svc :: ActorCategory(svc) != ORDER_CATEGORY
    ensures forall svc :: Home(svc, ActorCategory(svc))
    ensures Home(OrderService, ORDER_CATEGORY)
  {
  }

  /** What is ever appended to an order's own stream: the placement of a new order, or a notification. */
  ghost predicate OrderEvent(id: string, version: nat, e: Event) {
    if version == 0 then e.OrderPlaced? && e.id == id && Placeable(OrderIn([e])) else e.CustomerNotified? && e.id == id
  }

  lemma OrderAppended(s: State, s': State, id: string, version: nat, e: Event, x: string)
    requires OnScript(s, x) && OrderEvent(id, version, e)
    requires AppendedTo(s, s', OrderService, StreamID(ORDER_CATEGORY, id), version, [e])
    ensures OnScript(s', x)
  {
    CategoriesDiffer();
    forall svc ensures ActorHistory(s', svc, x) == ActorHistory(s, svc, x) {
      assert StreamID(ActorCategory(svc), x) != StreamID(ORDER_CATEGORY, id);
    }
    assert OrderHistory(s', x) ==
      OrderHistory(s, x) + (if x == id && |OrderHistory(s, id)| == version then [e] else []);
    if x != id || |OrderHistory(s, id)| != version {
      StaysOnScript(s, s', x);
    } else if version == 0 {
      Placing(s, s', OrderIn([e]));
    } else {
      Notifying(s, s', id, e.reason);
    }
  }

  lemma OrderAppendKeeps(s: State, id: string, version: nat, e: Event)
    requires Inv(s) && OrderEvent(id, version, e)
    ensures Inv(WithNode(s, OrderService, Appending(StreamID(ORDER_CATEGORY, id), version, [e])))
  {
    var stream := StreamID(ORDER_CATEGORY, id);
    var s' := WithNode(s, OrderService, Appending(stream, version, [e]));
    CategoriesDiffer();
    AppendEffect(s, OrderService, stream, version, [e]);
    forall x ensures OnScript(s', x) {
      assert OnScript(s, x);
      OrderAppended(s, s', id, version, e, x);
    }
    OneNode(s, OrderService, Appending(stream, version, [e]));
    NodesGrow(s, s');
  }

  lemma RelayKeeps(s: State, svc: Service, step: NodeStep<Event>)
    requires Inv(s) && !step.Append?
    ensures Inv(WithNode(s, svc, step))
  {
    var s' := WithNode(s, svc, step);
    RelayEffect(s, svc, step);
    forall x ensures OnScript(s', x) {
      assert OnScript(s, x);
      StaysOnScript(s, s', x);
    }
    OneNode(s, svc, step);
    NodesGrow(s, s');
  }
}
