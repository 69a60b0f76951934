/**
 * Marks and effects in the three services that consume wire commands: whatever
 * messages they are sent, an ID is marked only if the message was definitively
 * rejected or its command has taken effect, in that executing it again changes nothing.
 */
module CommandEffects {
  import opened Wrappers
  import opened EventStore
  import opened Kernel
  import opened Contracts
  import opened CommandHandling
  import Consumer
  import Billing
  import Inventory
  import Shipping

  type ContractReactor = Reactor<Contract>

  function HistoryOf(category: string, log: Log<Event>, cmd: Contract): seq<Event> {
    Payloads(Events(log, StreamID(category, cmd.orderId)))
  }

  /** One attempt of a service's handler on its store. */
  function Execution(category: string, react: ContractReactor): Consumer.Executor<Log<Event>, Contract> {
    (log: Log<Event>, cmd: Contract) =>
      match react(HistoryOf(category, log, cmd), cmd)
      case NoChange => (log, None)
      case Fault(x) => (log, Some(x))
      case Emit(es) => (AppendAll(log, StreamID(category, cmd.orderId), Stored(es)), None)
  }

  /** The command has taken effect: executing it now would succeed and change nothing. */
  predicate InEffect(category: string, react: ContractReactor, log: Log<Event>, cmd: Contract) {
    react(HistoryOf(category, log, cmd), cmd) == NoChange
  }

  function Effect(category: string, react: ContractReactor): (Log<Event>, Contract) -> bool {
    (log: Log<Event>, cmd: Contract) => InEffect(category, react, log, cmd)
  }

  /** What a command led to makes it a no-op, and no other command about the order takes that back. */
  ghost predicate Final(react: ContractReactor) {
    && (forall es, c {:trigger react(es, c)} :: react(es, c).Emit? ==> react(es + react(es, c).events, c) == NoChange)
    && (forall es, c, d: Contract {:trigger react(es, c), react(es, d)} ::
          react(es, c).Emit? && react(es, d) == NoChange ==> react(es + react(es, c).events, d) == NoChange)
  }

  lemma HistoryAfter(category: string, log: Log<Event>, c: Contract, es: seq<Event>, d: Contract)
    ensures var after := AppendAll(log, StreamID(category, c.orderId), Stored(es));
      HistoryOf(category, after, d) == HistoryOf(category, log, d) + (if c.orderId == d.orderId then es else [])
  {
    AppendAllLaw(log, StreamID(category, c.orderId), Stored(es));
  }

  lemma EffectTaken(category: string, react: ContractReactor, log: Log<Event>, c: Contract)
    requires Final(react) && Execution(category, react)(log, c).1.None?
    ensures Effect(category, react)(Execution(category, react)(log, c).0, c)
  {
    var history := HistoryOf(category, log, c);
    if react(history, c).Emit? {
      HistoryAfter(category, log, c, react(history, c).events, c);
    }
  }

  lemma EffectKept(category: string, react: ContractReactor, log: Log<Event>, c: Contract, d: Contract)
    requires Final(react) && Effect(category, react)(log, d)
    ensures Effect(category, react)(Execution(category, react)(log, c).0, d)
  {
    var history := HistoryOf(category, log, c);
    if react(history, c).Emit? {
      var es := react(history, c).events;
      HistoryAfter(category, log, c, es, d);
      if c.orderId == d.orderId {
        assert HistoryOf(category, log, d) == history;
        assert react(history + es, d) == NoChange;
      } else {
        assert HistoryOf(category, log, d) + [] == HistoryOf(category, log, d);
      }
    }
  }

  lemma FinalLasts(category: string, react: ContractReactor)
    requires Final(react)
    ensures Consumer.Lasting(Execution(category, react), Effect(category, react))
  {
    var exec, effect := Execution(category, react), Effect(category, react);
    forall log, c {:trigger exec(log, c)} | exec(log, c).1.None? ensures effect(exec(log, c).0, c) {
      EffectTaken(category, react, log, c);
    }
    forall log, c, d {:trigger exec(log, c), effect(log, d)} | effect(log, d) ensures effect(exec(log, c).0, d) {
      EffectKept(category, react, log, c, d);
    }
  }

  lemma BillingFinal()
    ensures Final(Billing.React)
  {
    forall es, c {:trigger Billing.React(es, c)} | Billing.React(es, c).Emit?
      ensures Billing.React(es + Billing.React(es, c).events, c) == NoChange
    {
      ReplaySnoc(Billing.Apply, Billing.NEW_PAYMENT, es, Billing.React(es, c).events[0]);
    }
    forall es, c, d: Contract {:trigger Billing.React(es, c), Billing.React(es, d)} |
      Billing.React(es, c).Emit? && Billing.React(es, d) == NoChange
      ensures Billing.React(es + Billing.React(es, c).events, d) == NoChange
    {
      ReplaySnoc(Billing.Apply, Billing.NEW_PAYMENT, es, Billing.React(es, c).events[0]);
    }
  }

  lemma InventoryFinal()
    ensures Final(Inventory.React)
  {
    forall es, c {:trigger Inventory.React(es, c)} | Inventory.React(es, c).Emit?
      ensures Inventory.React(es + Inventory.React(es, c).events, c) == NoChange
    {
      ReplaySnoc(Inventory.Apply, Inventory.NEW_RESERVATION, es, Inventory.React(es, c).events[0]);
    }
  }

  lemma ShippingFinal()
    ensures Final(Shipping.React)
  {
    forall es, c {:trigger Shipping.React(es, c)} | Shipping.React(es, c).Emit?
      ensures Shipping.React(es + Shipping.React(es, c).events, c) == NoChange
    {
      ReplaySnoc(Shipping.Apply, Shipping.NEW_SHIPMENT, es, Shipping.React(es, c).events[0]);
    }
  }

  /** In every run of a consumer with these commands, marked means rejected or in effect. */
  ghost predicate MarksAreTrue(category: string, react: ContractReactor) {
    forall commandOf: string -> Option<Contract>, steps: seq<Consumer.Step<Log<Event>>>, id: string ::
      var s := Consumer.Run(Execution(category, react), Effect(category, react), commandOf, [], steps);
      id in s.marked ==>
        id in s.rejected || (commandOf(id).Some? && InEffect(category, react, s.world, commandOf(id).value))
  }

  lemma FinalMarksTrue(category: string, react: ContractReactor)
    requires Final(react)
    ensures MarksAreTrue(category, react)
  {
    FinalLasts(category, react);
    forall commandOf: string -> Option<Contract>, steps: seq<Consumer.Step<Log<Event>>>, id: string |
      id in Consumer.Run(Execution(category, react), Effect(category, react), commandOf, [], steps).marked
      ensures var s := Consumer.Run(Execution(category, react), Effect(category, react), commandOf, [], steps);
        id in s.rejected || (commandOf(id).Some? && InEffect(category, react, s.world, commandOf(id).value))
    {
      Consumer.MarkedMeansSettled(Execution(category, react), Effect(category, react), commandOf, [], steps);
      var s := Consumer.Run(Execution(category, react), Effect(category, react), commandOf, [], steps);
      assert Consumer.Settled(Effect(category, react), commandOf, s, id);
    }
  }

  /** For arbitrary commands, not only those the saga sends. */
  lemma ServicesMarkTruly()
    ensures MarksAreTrue(Billing.CATEGORY, Billing.React)
    ensures MarksAreTrue(Inventory.CATEGORY, Inventory.React)
    ensures MarksAreTrue(Shipping.CATEGORY, Shipping.React)
  {
    BillingFinal();
    FinalMarksTrue(Billing.CATEGORY, Billing.React);
    InventoryFinal();
    FinalMarksTrue(Inventory.CATEGORY, Inventory.React);
    ShippingFinal();
    FinalMarksTrue(Shipping.CATEGORY, Shipping.React);
  }
}
