/**
 * The four services as one step system: stores, relays and topics; any number
 * of workers delivering any message of a topic any number of times, each
 * reading a stream, deciding, and appending later at the version it read;
 * deduplicators, the inbox, and the order_summary runners. A crash may fall
 * between any two effects.
 */
module FulfillmentSystem {
  import opened Wrappers
  import opened EventStore
  import opened Messaging
  import opened Broker
  import opened Inbox
  import opened Pipeline
  import opened Contracts
  import opened CommandHandling
  import opened Topology
  import opened Script
  import opened OrderSummary
  import Projection
  import Saga
  import FulfillmentSaga
  import Billing
  import Inventory
  import Shipping

  // ---- Wiring ----------------------------------------------------------

  /** Who consumes what: the saga and the inbox consume facts, the services commands. */
  datatype Link = ToSaga(from: Service) | ToService(service: Service) | ToInbox(from: Service)

  /** Ordering consumes no commands off the wire, and its own facts not through the inbox. */
  predicate Wired(link: Link) {
    match link
    case ToSaga(_) => true
    case ToService(s) => s != OrderService
    case ToInbox(s) => s != OrderService
  }

  function CommandsTopic(s: Service): string {
    match s
    case OrderService => ""
    case PaymentService => BILLING_COMMANDS
    case StockService => INVENTORY_COMMANDS
    case ShippingService => SHIPPING_COMMANDS
  }

  function TopicOf(link: Link): string {
    match link
    case ToSaga(s) => EventsTopic(s)
    case ToService(s) => CommandsTopic(s)
    case ToInbox(s) => EventsTopic(s)
  }

  /** The service whose relay feeds the link's topic. */
  function SenderOf(link: Link): Service {
    if link.ToService? then OrderService else link.from
  }

  /** The service in whose store a delivery takes effect. */
  function HomeOf(link: Link): Service {
    if link.ToService? then link.service else OrderService
  }

  function CategoryOf(s: Service): string {
    match s
    case OrderService => ORDER_CATEGORY
    case PaymentService => Billing.CATEGORY
    case StockService => Inventory.CATEGORY
    case ShippingService => Shipping.CATEGORY
  }

  // ---- What a delivery decides -----------------------------------------

  /** The stream a message is handled on; None when the consumer acknowledges it untouched. */
  function TargetOf(link: Link, m: Message<Contract>): Option<StreamID> {
    match link
    case ToSaga(_) =>
      (match Saga.Correlated(FulfillmentSaga.Def(), m)
       case None => None
       case Some(id) => Some(StreamID(SAGA_CATEGORY, id)))
    case ToService(s) => Some(StreamID(CategoryOf(s), m.body.orderId))
    case ToInbox(_) => None
  }

  function Wrap(es: seq<Saga.SagaEvent<Contract>>): (ws: seq<Event>)
    ensures |ws| == |es|
    ensures forall k :: 0 <= k < |es| ==> ws[k] == SagaStep(es[k])
  {
    seq(|es|, k requires 0 <= k < |es| => SagaStep(es[k]))
  }

  predicate AllSteps(es: seq<Event>) { forall e :: e in es ==> e.SagaStep? }

  function Unwrap(es: seq<Event>): (steps: seq<Saga.SagaEvent<Contract>>)
    requires AllSteps(es)
    ensures |steps| == |es|
  {
    seq(|es|, k requires 0 <= k < |es| => es[k].step)
  }

  /** The saga's reaction to a message on an instance's history. */
  function SagaReact(id: string, history: seq<Event>, m: Message<Contract>): Reaction {
    if !AllSteps(history) then Fault(UNKNOWN_EVENT)
    else
      var i := Saga.Rebuilt(FulfillmentSaga.Def(), Unwrap(history));
      if i.err.Some? then Fault(i.err.value)
      else
        match Saga.Decide(FulfillmentSaga.Def(), id, i.state, m)
        case Ignore => NoChange
        case Refuse(x) => Fault(x)
        case Record(es) => Emit(Wrap(es))
  }

  const UNDECODABLE := DomainError("undecodable")

  /** A service's reaction to a wire command; one it cannot decode is definitively rejected. */
  function CommandReact(s: Service, history: seq<Event>, m: Message<Contract>): Reaction {
    if m.name != NameOf(m.body) then Fault(UNDECODABLE)
    else
      match s
      case PaymentService =>
        if m.body.CapturePayment? || m.body.RefundPayment? then Billing.React(history, m.body) else Fault(UNDECODABLE)
      case StockService => if m.body.ReserveStock? then Inventory.React(history, m.body) else Fault(UNDECODABLE)
      case ShippingService => if m.body.CreateShipment? then Shipping.React(history, m.body) else Fault(UNDECODABLE)
      case OrderService => Fault(UNDECODABLE)
  }

  function ReactionOf(link: Link, stream: StreamID, history: seq<Event>, m: Message<Contract>): Reaction {
    if link.ToService? then CommandReact(link.service, history, m) else SagaReact(stream.id, history, m)
  }

  // ---- State -----------------------------------------------------------

  /** A consumer group's offset, and whether the message there was handled since it was last delivered. */
  datatype Sub = Sub(offset: nat, done: bool)

  /**
   * A worker that was handed message `msg`, number `at` of its topic. Until it
   * has taken effect it holds the events it decided on and the version it read.
   */
  datatype Work = Work(link: Link, at: nat, msg: Message<Contract>, version: nat, events: seq<Event>, effected: bool)

  datatype State = State(
    nodes: map<Service, Node<Event, Contract>>,
    subs: map<Link, Sub>,
    marked: map<Service, set<string>>,
    work: map<nat, Work>,
    inbox: seq<Message<Contract>>,
    view: Projection.View<Summary, Item>)

  function NodeOf(s: State, svc: Service): Node<Event, Contract> {
    if svc in s.nodes then s.nodes[svc] else NewNode()
  }

  function StoreOf(s: State, svc: Service): Log<Event> { NodeOf(s, svc).log }

  function TopicLog(s: State, link: Link): seq<Message<Contract>> {
    LogOf(NodeOf(s, SenderOf(link)).topics, TopicOf(link))
  }

  function SubOf(s: State, link: Link): Sub {
    if link in s.subs then s.subs[link] else Sub(0, false)
  }

  function MarkedOf(s: State, svc: Service): set<string> {
    if svc in s.marked then s.marked[svc] else {}
  }

  function OwnItems(log: Log<Event>): (items: seq<Item>)
    ensures |items| == |log|
    ensures forall k :: 0 <= k < |log| ==> items[k] == Own(log[k])
  {
    seq(|log|, k requires 0 <= k < |log| => Own(log[k]))
  }

  function ForeignItems(ms: seq<Message<Contract>>): (items: seq<Item>)
    ensures |items| == |ms|
    ensures forall k :: 0 <= k < |ms| ==> items[k] == Item.Foreign(ms[k])
  {
    seq(|ms|, k requires 0 <= k < |ms| => Item.Foreign(ms[k]))
  }

  /** A stream's events in a service's store. */
  function History(s: State, svc: Service, stream: StreamID): seq<Event> {
    Payloads(Events(StoreOf(s, svc), stream))
  }

  const START := State(map[], map[], map[], map[], [], Projection.View(EMPTY, [], Projection.FRESH, Projection.FRESH))

  // ---- Steps -----------------------------------------------------------

  datatype Step =
    | Place(order: Order)
    | Notify(id: string, reason: string, version: nat)
    | Relaying(svc: Service, nodeStep: NodeStep<Event>)
    | Begin(worker: nat, link: Link, at: nat)
    | Commit(worker: nat)
    | Finish(worker: nat)
    | CrashWorker(worker: nat)
    | Acknowledge(link: Link)
    | Restart(link: Link)
    | Project(viewStep: Projection.ViewStep)

  ghost function WithNode(s: State, svc: Service, step: NodeStep<Event>): State {
    s.(nodes := s.nodes[svc := NodeNext(RelayOf(svc), NodeOf(s, svc), step)])
  }

  /** Appending to a service's store at an expected version. */
  function Appending(stream: StreamID, version: nat, es: seq<Event>): NodeStep<Event> {
    NodeStep.Append(Op(stream, version, Stored(es)))
  }

  function PlacedBy(o: Order): Event { OrderPlaced(o.id, o.customer, o.cents, o.currency, o.qty) }

  /** What a worker does with a message it was just handed; None when it fails transiently. */
  function Handed(s: State, link: Link, at: nat, m: Message<Contract>): Option<Work> {
    var effected := Work(link, at, m, 0, [], true);
    if link.ToService? && m.id in MarkedOf(s, link.service) then Some(effected)
    else
      match TargetOf(link, m)
      case None => Some(effected)
      case Some(stream) =>
        var history := History(s, HomeOf(link), stream);
        match ReactionOf(link, stream, history, m)
        case NoChange => Some(effected)
        case Emit(es) => Some(Work(link, at, m, |history|, es, false))
        case Fault(x) =>
          // A definitive rejection is reported and acknowledged; only the command consumer makes the difference.
          if link.ToService? && x.DomainError? then Some(effected) else None
  }

  ghost function BeginNext(s: State, w: nat, link: Link, at: nat): State {
    if !Wired(link) || at >= |TopicLog(s, link)| then s
    else
      var m := TopicLog(s, link)[at];
      match Handed(s, link, at, m)
      case None => s.(work := s.work - {w})
      case Some(work) =>
        s.(work := s.work[w := work], inbox := if link.ToInbox? then Received(s.inbox, m) else s.inbox)
  }

  ghost function Appended(s: State, work: Work): State
    requires TargetOf(work.link, work.msg).Some?
  {
    WithNode(s, HomeOf(work.link), Appending(TargetOf(work.link, work.msg).value, work.version, work.events))
  }

  /** The append succeeds only at the version that was read; otherwise the worker starts over. */
  ghost function CommitNext(s: State, w: nat): State {
    if w !in s.work || s.work[w].effected || TargetOf(s.work[w].link, s.work[w].msg).None? then s
    else
      var work := s.work[w];
      if |History(s, HomeOf(work.link), TargetOf(work.link, work.msg).value)| != work.version
        then s.(work := s.work - {w})
      else Appended(s, work).(work := s.work[w := work.(effected := true)])
  }

  /** A command that took effect, or was rejected, is marked; then the message is done with. */
  function FinishNext(s: State, w: nat): State {
    if w !in s.work || !s.work[w].effected then s
    else
      var work := s.work[w];
      var sub := SubOf(s, work.link);
      s.(work := s.work - {w},
         subs := if work.at == sub.offset then s.subs[work.link := Sub(sub.offset, true)] else s.subs,
         marked := if work.link.ToService?
           then s.marked[work.link.service := MarkedOf(s, work.link.service) + {work.msg.id}]
                   else s.marked)
  }

  /** One atomic step; a step that is not enabled does nothing. */
  ghost function Next(s: State, step: Step): State {
    match step
    case Place(o) =>
      if Placeable(o) then WithNode(s, OrderService, Appending(StreamID(ORDER_CATEGORY, o.id), 0, [PlacedBy(o)])) else s
    case Notify(id, reason, version) =>
      if version > 0
      then WithNode(s, OrderService, Appending(StreamID(ORDER_CATEGORY, id), version, [CustomerNotified(id, reason)]))
      else s
    case Relaying(svc, ns) => if ns.Append? then s else WithNode(s, svc, ns)
    case Begin(w, link, at) => BeginNext(s, w, link, at)
    case Commit(w) => CommitNext(s, w)
    case Finish(w) => FinishNext(s, w)
    case CrashWorker(w) => s.(work := s.work - {w})
    case Acknowledge(link) =>
      if Wired(link) && SubOf(s, link).done
      then s.(subs := s.subs[link := Sub(SubOf(s, link).offset + 1, false)]) else s
    case Restart(link) => if Wired(link) then s.(subs := s.subs[link := Sub(SubOf(s, link).offset, false)]) else s
    case Project(vs) =>
      var own, foreign := OwnItems(StoreOf(s, OrderService)), ForeignItems(s.inbox);
      s.(view := Projection.ViewNext(Summarize, FirstWrite, EMPTY, own, foreign, s.view, vs))
  }

  ghost function Run(steps: seq<Step>): State {
    if steps == [] then START
    else Next(Run(steps[..|steps| - 1]), steps[|steps| - 1])
  }

  /** Nothing is left to relay, deliver or project. */
  ghost predicate Quiescent(s: State) {
    && (forall svc :: NodeOf(s, svc).cp == |StoreOf(s, svc)|)
    && (forall link :: Wired(link) ==> SubOf(s, link).offset == |TopicLog(s, link)|)
    && s.view.own.cp == |StoreOf(s, OrderService)|
    && s.view.foreign.cp == |s.inbox|
  }
}
