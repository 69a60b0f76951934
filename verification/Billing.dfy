/**
 * Billing: the Payment aggregate (billing/internal/domain/payment.go) and its
 * command handlers (billing/internal/app/app.go).
 */
module Billing {
  import opened Wrappers
  import opened EventStore
  import opened Registry
  import opened Kernel
  import opened Repository
  import opened Contracts
  import opened CommandHandling
  import OCC = OptimisticConcurrency

  const CATEGORY := "payment"
  const CAPTURE_LIMIT_CENTS := 99_999
  const LIMIT_REASON := "amount exceeds capture limit"

  const INVALID_AMOUNT := DomainError("invalid_amount")
  const NOT_CAPTURED := DomainError("not_captured")
  const ALREADY_REFUNDED := DomainError("already_refunded")

  datatype Status = NoPayment | Captured | Failed | Refunded

  datatype Payment = Payment(order: string, status: Status)

  const NEW_PAYMENT := Payment("", NoPayment)

  function Apply(p: Payment, e: Event): Applied<Payment> {
    match e
    case PaymentCaptured(o, _) => Applied(Payment(o, Captured), None)
    case PaymentFailed(o, _) => Applied(Payment(o, Failed), None)
    case PaymentRefunded(_) => Applied(p.(status := Refunded), None)
    case _ => Applied(p, Some(UNKNOWN_EVENT))
  }

  /** The handlers as a function of the payment's history. */
  function React(history: seq<Event>, cmd: Contract): Reaction {
    var a := Replay(Apply, NEW_PAYMENT, history);
    match cmd
    case CapturePayment(o, cents) =>
      if history != [] then (if a.err.Some? then Fault(a.err.value) else NoChange)
      else if cents <= 0 then Fault(INVALID_AMOUNT)
      else if cents > CAPTURE_LIMIT_CENTS then Emit([PaymentFailed(o, LIMIT_REASON)])
      else Emit([PaymentCaptured(o, cents)])
    case RefundPayment(_) =>
      if history == [] then Fault(ErrNotFound)
      else if a.err.Some? then Fault(a.err.value)
      else (match a.state.status
            case Refunded => NoChange
            case Captured => Emit([PaymentRefunded(a.state.order)])
            case _ => Fault(NOT_CAPTURED))
    case _ => Fault(Failure("no handler for command"))
  }

  // ---- The decisions, case by case -------------------------------------

  predicate PaymentEvent(e: Event) { e.PaymentCaptured? || e.PaymentFailed? || e.PaymentRefunded? }

  /** The last event says what became of the payment. */
  lemma LastSays(es: seq<Event>)
    requires es != [] && AllKnown(PaymentEvent, es)
    ensures Replay(Apply, NEW_PAYMENT, es).err == None
    ensures match es[|es| - 1]
      case PaymentCaptured(o, _) => Replay(Apply, NEW_PAYMENT, es).state == Payment(o, Captured)
      case PaymentFailed(o, _) => Replay(Apply, NEW_PAYMENT, es).state == Payment(o, Failed)
      case PaymentRefunded(_) => Replay(Apply, NEW_PAYMENT, es).state.status == Refunded
      case _ => false
  {
    var init, last := es[..|es| - 1], es[|es| - 1];
    assert last in es && forall e :: e in init ==> e in es;
    KnownReplays(Apply, PaymentEvent, NEW_PAYMENT, es);
    KnownReplays(Apply, PaymentEvent, NEW_PAYMENT, init);
    ReplaySnoc(Apply, NEW_PAYMENT, init, last);
    assert es == init + [last];
  }

  /**
   * Capturing: an amount that is not positive is rejected, one over the limit is
   * recorded as a failed payment, any other is captured; a payment that has been
   * decided already needs nothing.
   */
  lemma CaptureLaw(history: seq<Event>, o: string, cents: int)
    ensures React(history, CapturePayment(o, cents)) ==
      if history != [] then (if AllKnown(PaymentEvent, history) then NoChange else Fault(UNKNOWN_EVENT))
      else if cents <= 0 then Fault(DomainError("invalid_amount"))
      else if cents > 99_999 then Emit([PaymentFailed(o, "amount exceeds capture limit")])
      else Emit([PaymentCaptured(o, cents)])
  {
    KnownReplays(Apply, PaymentEvent, NEW_PAYMENT, history);
  }

  /**
   * Refunding: there must be a payment; a captured one is refunded, for its own
   * order, a refunded one needs nothing, and a failed one cannot be refunded.
   */
  lemma RefundLaw(history: seq<Event>, o: string)
    ensures React(history, RefundPayment(o)) ==
      if history == [] then Fault(DomainError("not_found"))
      else if !AllKnown(PaymentEvent, history) then Fault(UNKNOWN_EVENT)
      else
        match history[|history| - 1]
        case PaymentCaptured(order, _) => Emit([PaymentRefunded(order)])
        case PaymentRefunded(_) => NoChange
        case _ => Fault(DomainError("not_captured"))
  {
    KnownReplays(Apply, PaymentEvent, NEW_PAYMENT, history);
    if history != [] && AllKnown(PaymentEvent, history) {
      LastSays(history);
    }
  }

  // ---- Payment streams under redelivery --------------------------------

  predicate Decided(id: string, e: Event) {
    || (e.PaymentCaptured? && e.orderId == id && 0 < e.cents <= CAPTURE_LIMIT_CENTS)
    || e == PaymentFailed(id, LIMIT_REASON)
  }

  /** The only streams a payment can have: none, captured, declined, or captured and then refunded. */
  predicate PaymentShape(id: string, es: seq<Event>) {
    || es == []
    || (|es| == 1 && Decided(id, es[0]))
    || (|es| == 2 && Decided(id, es[0]) && es[0].PaymentCaptured? && es[1] == PaymentRefunded(id))
  }

  /** What such a stream replays to. */
  lemma ReplayOfShape(id: string, es: seq<Event>)
    requires PaymentShape(id, es)
    ensures Replay(Apply, NEW_PAYMENT, es) == Applied(
      if es == [] then NEW_PAYMENT
      else Payment(id, if |es| == 2 then Refunded else if es[0].PaymentCaptured? then Captured else Failed), None)
  {
    if es != [] {
      ReplaySnoc(Apply, NEW_PAYMENT, [], es[0]);
      assert [] + [es[0]] == [es[0]];
      if |es| == 1 {
        assert es == [es[0]];
      } else {
        ReplaySnoc(Apply, NEW_PAYMENT, [es[0]], es[1]);
        assert es == [es[0]] + [es[1]];
      }
    }
  }

  lemma ReactKeepsShape(id: string, es: seq<Event>, cmd: Contract)
    requires PaymentShape(id, es) && cmd.orderId == id && React(es, cmd).Emit?
    ensures PaymentShape(id, es + React(es, cmd).events)
  {
    ReplayOfShape(id, es);
  }

  /**
   * With any number of concurrent consumers, redeliveries and crashes, every
   * payment stream is empty, captured, declined, or captured and then refunded,
   * and names its own order.
   */
  lemma PaymentStreams(steps: seq<OCC.Step<Contract, Event>>, id: string)
    ensures var log := OCC.Run(CATEGORY, Decider(React, (c: Contract) => c.orderId), steps).log;
      PaymentShape(id, Payloads(Events(log, StreamID(CATEGORY, id))))
  {
    forall es, cmd: Contract {:trigger React(es, cmd)} | PaymentShape(cmd.orderId, es) && React(es, cmd).Emit?
      ensures PaymentShape(cmd.orderId, es + React(es, cmd).events)
    {
      ReactKeepsShape(cmd.orderId, es, cmd);
    }
    StreamsKept(CATEGORY, React, (c: Contract) => c.orderId, PaymentShape, steps, id);
  }

  /** Executing a command again after it took effect, even after later commands, changes nothing and succeeds. */
  lemma ReplaySafe(id: string, es: seq<Event>, cmd: Contract, later: seq<Event>)
    requires PaymentShape(id, es) && cmd.orderId == id && React(es, cmd).Emit?
    requires PaymentShape(id, es + React(es, cmd).events + later)
    ensures React(es + React(es, cmd).events + later, cmd) == NoChange
  {
    ReplayOfShape(id, es);
    ReplayOfShape(id, es + React(es, cmd).events + later);
  }

  // ---- The handlers ----------------------------------------------------

  class Handlers<!P> {
    const payments: Repository<Payment, Event, P>

    ghost predicate Ready()
      reads this, payments, payments.store
    {
      payments.store.Valid() && payments.category == CATEGORY && payments.zero == NEW_PAYMENT && payments.apply == Apply
    }

    ghost predicate Executes(before: Log<P>, cmd: Contract, err: Option<Error>)
      reads payments.registry, payments.store
    {
      Follows(payments.registry.entries, payments.registry.codec, React, StreamID(CATEGORY, cmd.orderId),
              before, cmd, payments.store.all, err)
    }

    constructor (store: MemoryStore<P>, registry: EventRegistry<Event, P>)
      requires store.Valid()
      ensures Ready() && payments.store == store && payments.registry == registry
    {
      payments := new Repository(store, registry, CATEGORY, NEW_PAYMENT, Apply);
    }

    method CapturePayment(cmd: Contract) returns (err: Option<Error>)
      requires Ready() && cmd.CapturePayment?
      modifies payments.store
      ensures Ready() && Executes(old(payments.store.all), cmd, err)
      ensures cmd.cents <= 0 && Events(old(payments.store.all), StreamID(CATEGORY, cmd.orderId)) == [] ==>
        err == Some(DomainError("invalid_amount")) && payments.store.all == old(payments.store.all)
    {
      var loaded := payments.Load(cmd.orderId);
      NotFoundIsEmpty(payments.registry.entries, Apply, NEW_PAYMENT,
                      Events(payments.store.all, StreamID(CATEGORY, cmd.orderId)));
      if loaded.Ok? {
        return None;
      }
      if loaded.error != ErrNotFound {
        return Some(loaded.error);
      }
      err := CaptureNew(cmd);
    }

    /** A payment that nobody has heard of: decided once, unless the amount makes no sense. */
    method CaptureNew(cmd: Contract) returns (err: Option<Error>)
      requires Ready() && cmd.CapturePayment?
      requires Events(payments.store.all, StreamID(CATEGORY, cmd.orderId)) == []
      modifies payments.store
      ensures Ready() && Executes(old(payments.store.all), cmd, err)
      ensures cmd.cents <= 0 ==>
        err == Some(DomainError("invalid_amount")) && payments.store.all == old(payments.store.all)
    {
      if cmd.cents <= 0 {
        return Some(INVALID_AMOUNT);
      }
      var p := Capture(cmd.orderId, cmd.cents);
      err := payments.Save(cmd.orderId, p, null);
    }

    /** Both outcomes are facts: an amount over the limit is recorded as a failed payment. */
    method Capture(order: string, cents: int) returns (p: Root<Payment, Event>)
      ensures fresh(p) && p.version == 0
      ensures p.pending ==
        [if cents > CAPTURE_LIMIT_CENTS then PaymentFailed(order, LIMIT_REASON) else PaymentCaptured(order, cents)]
    {
      p := new Root<Payment, Event>(NEW_PAYMENT, Apply);
      if cents > CAPTURE_LIMIT_CENTS {
        var _ := p.Raise(PaymentFailed(order, LIMIT_REASON));
      } else {
        var _ := p.Raise(PaymentCaptured(order, cents));
      }
    }

    method RefundPayment(cmd: Contract) returns (err: Option<Error>)
      requires Ready() && cmd.RefundPayment?
      modifies payments.store
      ensures Ready() && Executes(old(payments.store.all), cmd, err)
      ensures Events(old(payments.store.all), StreamID(CATEGORY, cmd.orderId)) == [] ==>
        err == Some(DomainError("not_found")) && payments.store.all == old(payments.store.all)
    {
      var loaded := payments.Load(cmd.orderId);
      if loaded.Err? {
        return Some(loaded.error);
      }
      var p := loaded.value;
      var refused := Refund(p);
      if refused == Some(ALREADY_REFUNDED) {
        return None;
      }
      if refused.Some? {
        return refused;
      }
      err := payments.Save(cmd.orderId, p, null);
    }

    method Refund(p: Root<Payment, Event>) returns (err: Option<Error>)
      requires p.apply == Apply && p.pending == []
      modifies p`state, p`pending
      ensures err == match old(p.state).status
        case Refunded => Some(ALREADY_REFUNDED)
        case Captured => None
        case _ => Some(NOT_CAPTURED)
      ensures p.pending == if err.None? then [PaymentRefunded(old(p.state).order)] else []
    {
      match p.state.status {
        case Refunded => return Some(ALREADY_REFUNDED);
        case Captured => err := p.Raise(PaymentRefunded(p.state.order));
        case _ => return Some(NOT_CAPTURED);
      }
    }
  }
}
