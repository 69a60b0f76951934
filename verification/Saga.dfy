/**
 * The saga engine (saga/saga.go). What an instance received, what it asked for
 * and that it is over are the events of one stream; its state is recovered by
 * running the handlers over that stream again.
 */
module Saga {
  import opened Wrappers
  import opened EventStore
  import opened Kernel
  import opened Messaging
  import opened Keys
  import OCC = OptimisticConcurrency

  /** An empty key stands for the saga's correlation ID. */
  datatype OutCommand<B> = OutCommand(topic: string, key: string, cmd: B)

  datatype Decisions<B> = Decisions(commands: seq<OutCommand<B>>, end: bool)

  function Send<B>(cmds: seq<OutCommand<B>>): Decisions<B> { Decisions(cmds, false) }

  function End<B>(): Decisions<B> { Decisions([], true) }

  /** A handler works on the state in place, so a failing one may leave it changed. */
  datatype Handled<S, B> = Handled(state: S, result: Result<Decisions<B>>)

  datatype Handler<!S, !B> = Handler(
    correlate: Message<B> -> Option<string>,
    handle: (S, Message<B>) -> Handled<S, B>)

  /** describe gives a command's name and contract version. */
  datatype Definition<!S, !B> = Definition(
    name: string, handlers: map<string, Handler<S, B>>, zero: S, describe: B -> (string, int))

  function Category<S, B>(def: Definition<S, B>): string { "saga." + def.name }

  datatype SagaEvent<B> =
    | EventReceived(envelope: Message<B>)
    | CommandRequested(topic: string, key: string, command: string, version: int, body: B)
    | Ended

  function EventName<B>(e: SagaEvent<B>): string {
    match e
    case EventReceived(_) => "saga.event_received"
    case CommandRequested(_, _, _, _, _) => "saga.command_requested"
    case Ended => "saga.ended"
  }

  datatype Instance<S, B> = Instance(state: S, ended: bool, seen: set<string>, last: Decisions<B>)

  function NewInstance<S, B>(def: Definition<S, B>): Instance<S, B> {
    Instance(def.zero, false, {}, Decisions([], false))
  }

  function Apply<S, B(==)>(def: Definition<S, B>, i: Instance<S, B>, e: SagaEvent<B>): Applied<Instance<S, B>> {
    match e
    case EventReceived(m) =>
      var marked := i.(seen := i.seen + {m.id});
      var key := EventKey(m.name, m.version);
      // A handler removed since the event was recorded is tolerated.
      if key !in def.handlers then Applied(marked.(last := Decisions([], false)), None)
      else
        var h := def.handlers[key].handle(i.state, m);
        if h.result.Err? then Applied(marked.(state := h.state), Some(h.result.error))
        else Applied(marked.(state := h.state, last := h.result.value), None)
    case CommandRequested(_, _, _, _, _) => Applied(i, None)
    case Ended => Applied(i.(ended := true), None)
  }

  function Applier<S, B(==)>(def: Definition<S, B>): Kernel.Transition<Instance<S, B>, SagaEvent<B>> {
    (i, e) => Apply(def, i, e)
  }

  // ---- Receiving an envelope -------------------------------------------

  /** No handler is registered for the message, or the registered one accepts it. */
  predicate Accepts<S, B>(def: Definition<S, B>, s: S, msg: Message<B>) {
    var key := EventKey(msg.name, msg.version);
    key in def.handlers ==> def.handlers[key].handle(s, msg).result.Ok?
  }

  /**
   * When an instance is still the replay of its events after an envelope it has
   * not seen was raised on it: exactly when the handler, if there is one, did
   * not fail. A failing one leaves the envelope marked as seen but not recorded.
   */
  lemma ReceivedStaysLive<S, B>(def: Definition<S, B>, es: seq<SagaEvent<B>>, msg: Message<B>)
    requires Rebuilt(def, es).err.None? && msg.id !in Rebuilt(def, es).state.seen
    ensures var i := Rebuilt(def, es).state;
      var a := Apply(def, i, EventReceived(msg));
      var recorded := es + (if a.err.None? then [EventReceived(msg)] else []);
      Rebuilt(def, recorded) == Applied(a.state, None) <==> Accepts(def, i.state, msg)
  {
    var i := Rebuilt(def, es).state;
    if Accepts(def, i.state, msg) {
      ReplaySnoc(Applier(def), NewInstance(def), es, EventReceived(msg));
    } else {
      assert es + [] == es;
      assert msg.id in Apply(def, i, EventReceived(msg)).state.seen;
    }
  }

  /** A definition whose only handler rejects every message. */
  function Rejecting(): Definition<int, int> {
    var reject := (s: int, m: Message<int>) => Handled(s, Err(DomainError("rejected")));
    Definition("rejecting", map[EventKey("stock.counted", 1) := Handler((m: Message<int>) => Some(m.key), reject)],
               0, (c: int) => ("stock.count", 1))
  }

  /** Such a message exists: here a fresh instance differs from the replay of its (empty) history after one Raise. */
  lemma RejectedEnvelopeDrifts()
    ensures var msg := Message("stock/7#1", "7", "stock.counted", 1, 0);
      var a := Apply(Rejecting(), NewInstance(Rejecting()), EventReceived(msg));
      a.err == Some(DomainError("rejected")) && a.state.seen == {"stock/7#1"}
      && Rebuilt(Rejecting(), []) == Applied(NewInstance(Rejecting()), None)
      && a.state != Rebuilt(Rejecting(), []).state
  {
    var msg := Message("stock/7#1", "7", "stock.counted", 1, 0);
    assert msg.id !in NewInstance(Rejecting()).seen;
    assert EventKey(msg.name, msg.version) in Rejecting().handlers;
  }

  // ---- One delivery ----------------------------------------------------

  /** The instance a message is for; None when the saga does not react to it. */
  function Correlated<S, B>(def: Definition<S, B>, msg: Message<B>): Option<string> {
    var key := EventKey(msg.name, msg.version);
    if key !in def.handlers then None
    else
      match def.handlers[key].correlate(msg)
      case None => None
      case Some(id) => if id == "" then None else Some(id)
  }

  function Requested<S, B>(def: Definition<S, B>, id: string, out: OutCommand<B>): SagaEvent<B> {
    var (name, version) := def.describe(out.cmd);
    CommandRequested(out.topic, if out.key == "" then id else out.key, name, version, out.cmd)
  }

  function AllRequested<S, B>(def: Definition<S, B>, id: string, outs: seq<OutCommand<B>>): (es: seq<SagaEvent<B>>)
    ensures |es| == |outs|
    ensures forall k :: 0 <= k < |outs| ==> es[k] == Requested(def, id, outs[k])
  {
    seq(|outs|, k requires 0 <= k < |outs| => Requested(def, id, outs[k]))
  }

  /** What receiving an envelope adds to the stream, given the decisions it led to. */
  function Block<S, B>(def: Definition<S, B>, id: string, msg: Message<B>, d: Decisions<B>): seq<SagaEvent<B>> {
    [EventReceived(msg)] + AllRequested(def, id, d.commands) + (if d.end then [Ended] else [])
  }

  lemma BlockParts<S, B>(def: Definition<S, B>, id: string, msg: Message<B>, d: Decisions<B>)
    ensures Block(def, id, msg, d) ==
      var decided := [EventReceived(msg)] + AllRequested(def, id, d.commands);
      if d.end then decided + [Ended] else decided
  {
  }

  predicate AllAddressed<B(==)>(outs: seq<OutCommand<B>>) {
    forall out :: out in outs ==> out.topic != ""
  }

  datatype Verdict<B> = Ignore | Refuse(error: Error) | Record(events: seq<SagaEvent<B>>)

  /** The decision about one message on an instance as loaded. */
  function Decide<S, B(==)>(def: Definition<S, B>, id: string, i: Instance<S, B>, msg: Message<B>): Verdict<B> {
    if i.ended || msg.id in i.seen then Ignore
    else
      var a := Apply(def, i, EventReceived(msg));
      if a.err.Some? then Refuse(a.err.value)
      else if !AllAddressed(a.state.last.commands) then Refuse(Failure("command has no topic"))
      else Record(Block(def, id, msg, a.state.last))
  }

  /** A command that no topic is given for. */
  ghost predicate Unaddressed<B>(outs: seq<OutCommand<B>>) {
    exists k :: 0 <= k < |outs| && outs[k].topic == ""
  }

  /**
   * A recorded block, event by event: the envelope; one request for each command,
   * in order, on its topic, keyed by its own key or else by the saga's ID, under
   * the command's name and contract version; and the end marker exactly if the
   * handler ends the saga.
   */
  ghost predicate IsBlock<S, B>(
    def: Definition<S, B>, id: string, msg: Message<B>, d: Decisions<B>, es: seq<SagaEvent<B>>)
  {
    && |es| == 1 + |d.commands| + (if d.end then 1 else 0)
    && es[0] == EventReceived(msg)
    && (forall k :: 0 <= k < |d.commands| ==> RequestsOut(def, id, d.commands[k], es[1 + k]))
    && (d.end ==> es[|es| - 1] == Ended)
  }

  ghost predicate RequestsOut<S, B>(def: Definition<S, B>, id: string, out: OutCommand<B>, e: SagaEvent<B>) {
    && e.CommandRequested? && e.topic == out.topic && e.body == out.cmd
    && e.key == (if out.key == "" then id else out.key)
    && (e.command, e.version) == def.describe(out.cmd)
  }

  /**
   * What becomes of a message: it is ignored exactly if the saga is over or has
   * seen its ID; if the handler fails, that is the error it is handed back with;
   * a command without a topic is an error too; otherwise the envelope and what the
   * handler decided are recorded.
   */
  lemma DecideLaw<S, B>(def: Definition<S, B>, id: string, i: Instance<S, B>, msg: Message<B>)
    ensures Decide(def, id, i, msg) == Ignore <==> i.ended || msg.id in i.seen
    ensures !i.ended && msg.id !in i.seen ==>
      var key := EventKey(msg.name, msg.version);
      if key !in def.handlers then Decide(def, id, i, msg) == Record([EventReceived(msg)])
      else
        match def.handlers[key].handle(i.state, msg).result
        case Err(x) => Decide(def, id, i, msg) == Refuse(x)
        case Ok(d) =>
          if Unaddressed(d.commands) then Decide(def, id, i, msg) == Refuse(Failure("command has no topic"))
          else Decide(def, id, i, msg).Record? && IsBlock(def, id, msg, d, Decide(def, id, i, msg).events)
  {
    var key := EventKey(msg.name, msg.version);
    if key in def.handlers && def.handlers[key].handle(i.state, msg).result.Ok? {
      AddressedLaw(def.handlers[key].handle(i.state, msg).result.value.commands);
      BlockLaw(def, id, msg, def.handlers[key].handle(i.state, msg).result.value);
    }
  }

  lemma AddressedLaw<B>(outs: seq<OutCommand<B>>)
    ensures AllAddressed(outs) <==> !Unaddressed(outs)
  {
    assert forall k :: 0 <= k < |outs| ==> outs[k] in outs;
  }

  lemma BlockLaw<S, B>(def: Definition<S, B>, id: string, msg: Message<B>, d: Decisions<B>)
    ensures IsBlock(def, id, msg, d, Block(def, id, msg, d))
  {
    var es, requests := Block(def, id, msg, d), AllRequested(def, id, d.commands);
    forall k | 0 <= k < |d.commands| ensures RequestsOut(def, id, d.commands[k], es[1 + k]) {
      assert es[1 + k] == requests[k];
    }
  }

  /** A message belongs to the instance its handler correlates it with, if it has a handler and the ID is not empty. */
  lemma CorrelatedLaw<S, B>(def: Definition<S, B>, msg: Message<B>, id: string)
    ensures var key := EventKey(msg.name, msg.version);
      Correlated(def, msg) == Some(id) <==>
        key in def.handlers && def.handlers[key].correlate(msg) == Some(id) && id != ""
  {
  }

  // ---- Replay ----------------------------------------------------------

  function Rebuilt<S, B(==)>(def: Definition<S, B>, es: seq<SagaEvent<B>>): Applied<Instance<S, B>> {
    Replay(Applier(def), NewInstance(def), es)
  }

  lemma {:induction false} RequestsDoNotMatter<S, B>(def: Definition<S, B>, i: Instance<S, B>, es: seq<SagaEvent<B>>)
    requires forall e :: e in es ==> e.CommandRequested?
    ensures Replay(Applier(def), i, es) == Applied(i, None)
  {
    if es != [] {
      assert es[0] in es;
      RequestsDoNotMatter(def, i, es[1..]);
    }
  }

  /** Replaying a recorded block gives the state the live decision had, plus the end marker. */
  lemma ReplayBlock<S, B>(def: Definition<S, B>, id: string, i: Instance<S, B>, msg: Message<B>)
    requires Decide(def, id, i, msg).Record?
    ensures var live := Apply(def, i, EventReceived(msg)).state;
      Replay(Applier(def), i, Decide(def, id, i, msg).events) == Applied(live.(ended := live.last.end), None)
  {
    var live := Apply(def, i, EventReceived(msg)).state;
    var requests := AllRequested(def, id, live.last.commands);
    var tail: seq<SagaEvent<B>> := if live.last.end then [Ended] else [];
    var es := Decide(def, id, i, msg).events;
    assert es == [EventReceived(msg)] + (requests + tail);
    assert es[1..] == requests + tail;
    RequestsDoNotMatter(def, live, requests);
    ReplayConcat(Applier(def), live, requests, tail);
    if tail != [] {
      assert tail[1..] == [];
    }
  }

  /**
   * The instance afterwards: the state the handler left, the message's ID seen, and
   * over exactly if the handler said so.
   */
  lemma ReplayedState<S, B>(def: Definition<S, B>, id: string, i: Instance<S, B>, msg: Message<B>)
    requires Decide(def, id, i, msg).Record?
    ensures var key := EventKey(msg.name, msg.version);
      Replay(Applier(def), i, Decide(def, id, i, msg).events) == Applied(
        if key !in def.handlers then Instance(i.state, false, i.seen + {msg.id}, Decisions([], false))
        else
          var h := def.handlers[key].handle(i.state, msg);
          Instance(h.state, h.result.value.end, i.seen + {msg.id}, h.result.value),
        None)
  {
    ReplayBlock(def, id, i, msg);
  }

  // ---- The serial run and what it looks like ---------------------------

  /** The stream after handling the messages one after the other. */
  function SerialStream<S, B(==)>(def: Definition<S, B>, id: string, ms: seq<Message<B>>): seq<SagaEvent<B>> {
    if ms == [] then []
    else
      var before := SerialStream(def, id, ms[..|ms| - 1]);
      match Decide(def, id, Rebuilt(def, before).state, ms[|ms| - 1])
      case Record(es) => before + es
      case _ => before
  }

  /** Every message was recorded in its turn. */
  ghost predicate AllRecorded<S, B>(def: Definition<S, B>, id: string, ms: seq<Message<B>>) {
    ms == [] ||
    (var init := ms[..|ms| - 1];
     AllRecorded(def, id, init)
       && Decide(def, id, Rebuilt(def, SerialStream(def, id, init)).state, ms[|ms| - 1]).Record?)
  }

  /** The envelopes of a stream, in order. */
  function Envelopes<B>(es: seq<SagaEvent<B>>): seq<Message<B>> {
    if es == [] then []
    else
      var before := Envelopes(es[..|es| - 1]);
      if es[|es| - 1].EventReceived? then before + [es[|es| - 1].envelope] else before
  }

  lemma {:induction false} EnvelopesConcat<B>(a: seq<SagaEvent<B>>, b: seq<SagaEvent<B>>)
    ensures Envelopes(a + b) == Envelopes(a) + Envelopes(b)
  {
    if b == [] {
      assert a + b == a;
    } else {
      EnvelopesConcat(a, b[..|b| - 1]);
      assert (a + b)[..|a + b| - 1] == a + b[..|b| - 1];
    }
  }

  lemma {:induction false} EnvelopesOfRequests<B>(es: seq<SagaEvent<B>>)
    requires forall e :: e in es ==> !e.EventReceived?
    ensures Envelopes(es) == []
  {
    if es != [] {
      EnvelopesOfRequests(es[..|es| - 1]);
      assert es[|es| - 1] in es;
    }
  }

  lemma EnvelopesOfBlock<S, B>(def: Definition<S, B>, id: string, msg: Message<B>, d: Decisions<B>)
    ensures Envelopes(Block(def, id, msg, d)) == [msg]
  {
    var rest := AllRequested(def, id, d.commands) + (if d.end then [Ended] else []);
    assert Block(def, id, msg, d) == [EventReceived(msg)] + rest;
    EnvelopesConcat([EventReceived(msg)], rest);
    EnvelopesOfRequests(rest);
    assert Envelopes([EventReceived(msg)]) == [msg];
  }

  ghost function IDs<B>(ms: seq<Message<B>>): set<string> {
    set m | m in ms :: m.id
  }

  /**
   * The shape of a serial stream: its envelopes are exactly the handled
   * messages, no ID twice; it replays without error; the replayed instance has
   * seen exactly those IDs; and the end marker, if any, is the last event.
   */
  ghost predicate WellShaped<S, B>(def: Definition<S, B>, ms: seq<Message<B>>, es: seq<SagaEvent<B>>) {
    var r := Rebuilt(def, es);
    && Envelopes(es) == ms
    && DistinctIDs(ms)
    && r.err.None?
    && r.state.seen == IDs(ms)
    && EndsLast(es)
    && (r.state.ended <==> Closed(es))
  }

  predicate Closed<B>(es: seq<SagaEvent<B>>) { es != [] && es[|es| - 1].Ended? }

  ghost predicate EndsLast<B>(es: seq<SagaEvent<B>>) {
    forall k :: 0 <= k < |es| && es[k].Ended? ==> k == |es| - 1
  }

  lemma EndOfBlock<S, B>(def: Definition<S, B>, id: string, msg: Message<B>, d: Decisions<B>)
    ensures var es := Block(def, id, msg, d);
      es != [] && EndsLast(es) && (d.end <==> Closed(es))
  {
  }

  lemma EndsLastConcat<B>(a: seq<SagaEvent<B>>, b: seq<SagaEvent<B>>)
    requires EndsLast(a) && !Closed(a) && EndsLast(b) && b != []
    ensures EndsLast(a + b) && (Closed(a + b) <==> Closed(b))
  {
  }

  lemma NewID<B>(ms: seq<Message<B>>, msg: Message<B>)
    requires DistinctIDs(ms) && msg.id !in IDs(ms)
    ensures DistinctIDs(ms + [msg]) && IDs(ms + [msg]) == IDs(ms) + {msg.id}
  {
    assert forall k :: 0 <= k < |ms| ==> ms[k].id in IDs(ms);
  }

  lemma ShapedBlock<S, B>(
    def: Definition<S, B>, id: string, ms: seq<Message<B>>, es: seq<SagaEvent<B>>, msg: Message<B>)
    requires WellShaped(def, ms, es) && Decide(def, id, Rebuilt(def, es).state, msg).Record?
    ensures WellShaped(def, ms + [msg], es + Decide(def, id, Rebuilt(def, es).state, msg).events)
  {
    var i := Rebuilt(def, es).state;
    var block := Decide(def, id, i, msg).events;
    var live := Apply(def, i, EventReceived(msg)).state;
    assert Rebuilt(def, es + block) == Applied(live.(ended := live.last.end), None) by {
      ReplayBlock(def, id, i, msg);
      ReplayConcat(Applier(def), NewInstance(def), es, block);
    }
    assert Envelopes(es + block) == ms + [msg] by {
      EnvelopesConcat(es, block);
      EnvelopesOfBlock(def, id, msg, live.last);
    }
    assert EndsLast(es + block) && (Closed(es + block) <==> live.last.end) by {
      EndOfBlock(def, id, msg, live.last);
      EndsLastConcat(es, block);
    }
    NewID(ms, msg);
  }

  lemma {:induction false} SerialShape<S, B>(def: Definition<S, B>, id: string, ms: seq<Message<B>>)
    requires AllRecorded(def, id, ms)
    ensures WellShaped(def, ms, SerialStream(def, id, ms))
  {
    if ms != [] {
      var init := ms[..|ms| - 1];
      SerialShape(def, id, init);
      ShapedBlock(def, id, init, SerialStream(def, id, init), ms[|ms| - 1]);
      SerialStreamSnoc(def, id, init, ms[|ms| - 1]);
      assert init + [ms[|ms| - 1]] == ms;
    }
  }

  // ---- Concurrent deliveries -------------------------------------------

  function Stored<B>(e: SagaEvent<B>): EventData<SagaEvent<B>> {
    EventData(EventName(e), 1, e)
  }

  function StoredAll<B>(es: seq<SagaEvent<B>>): (ds: seq<EventData<SagaEvent<B>>>)
    ensures |ds| == |es|
  {
    seq(|es|, k requires 0 <= k < |es| => Stored(es[k]))
  }

  function Payloads<B>(ds: seq<EventData<SagaEvent<B>>>): (es: seq<SagaEvent<B>>)
    ensures |es| == |ds|
  {
    seq(|ds|, k requires 0 <= k < |ds| => ds[k].payload)
  }

  /** A delivery as a command on the store's streams. */
  function Delivery<S, B(==)>(def: Definition<S, B>): OCC.Decider<Message<B>, SagaEvent<B>> {
    (id, ds, msg) =>
      var i := Rebuilt(def, Payloads(ds));
      if i.err.Some? || Correlated(def, msg) != Some(id) then OCC.Skip
      else
        var v := Decide(def, id, i.state, msg);
        if v.Record? then OCC.Write(StoredAll(v.events)) else OCC.Skip
  }

  lemma PayloadsOfStored<B>(ds: seq<EventData<SagaEvent<B>>>, es: seq<SagaEvent<B>>)
    ensures Payloads(ds + StoredAll(es)) == Payloads(ds) + es
  {
  }

  lemma DeliveryWrites<S, B>(def: Definition<S, B>, id: string, ds: seq<EventData<SagaEvent<B>>>, msg: Message<B>)
    requires Delivery(def)(id, ds, msg).Write?
    ensures Correlated(def, msg) == Some(id)
    ensures var v := Decide(def, id, Rebuilt(def, Payloads(ds)).state, msg);
      v.Record? && Delivery(def)(id, ds, msg).events == StoredAll(v.events)
  {
  }

  lemma SerialStreamSnoc<S, B>(def: Definition<S, B>, id: string, ms: seq<Message<B>>, msg: Message<B>)
    requires Decide(def, id, Rebuilt(def, SerialStream(def, id, ms)).state, msg).Record?
    ensures var before := SerialStream(def, id, ms);
      SerialStream(def, id, ms + [msg]) == before + Decide(def, id, Rebuilt(def, before).state, msg).events
    ensures AllRecorded(def, id, ms) ==> AllRecorded(def, id, ms + [msg])
  {
    assert (ms + [msg])[..|ms|] == ms;
  }

  lemma {:induction false} SerialDeliveries<S, B>(def: Definition<S, B>, id: string, ms: seq<Message<B>>)
    requires OCC.AllWrite(Delivery(def), id, ms)
    ensures AllRecorded(def, id, ms)
    ensures Payloads(OCC.Serial(Delivery(def), id, ms)) == SerialStream(def, id, ms)
    ensures forall m :: m in ms ==> Correlated(def, m) == Some(id)
  {
    if ms != [] {
      var init, last := ms[..|ms| - 1], ms[|ms| - 1];
      SerialDeliveries(def, id, init);
      var before := OCC.Serial(Delivery(def), id, init);
      DeliveryWrites(def, id, before, last);
      var v := Decide(def, id, Rebuilt(def, SerialStream(def, id, init)).state, last);
      assert OCC.Serial(Delivery(def), id, ms) == before + StoredAll(v.events);
      PayloadsOfStored(before, v.events);
      SerialStreamSnoc(def, id, init, last);
      assert ms == init + [last];
    }
  }

  /**
   * Saga serializability. For every interleaving of any number of concurrent
   * deliveries to any instances, with crashes and with other appends to the
   * same store, an instance's stream is the serial stream of the messages it
   * recorded: a concatenation of blocks, each holding exactly the decisions on
   * the state replayed from the events before it, no envelope ID twice, nothing
   * after the end marker.
   */
  lemma SagaSerializable<S, B>(
    def: Definition<S, B>, steps: seq<OCC.Step<Message<B>, SagaEvent<B>>>, id: string)
    ensures var log := OCC.Run(Category(def), Delivery(def), steps).log;
      var es := Payloads(Events(log, StreamID(Category(def), id)));
      var ms := OCC.Committed(Category(def), Delivery(def), steps, id);
      && es == SerialStream(def, id, ms)
      && AllRecorded(def, id, ms)
      && WellShaped(def, ms, es)
      && (forall m :: m in ms ==> Correlated(def, m) == Some(id))
  {
    var ms := OCC.Committed(Category(def), Delivery(def), steps, id);
    OCC.Serializable(Category(def), Delivery(def), steps, id);
    SerialDeliveries(def, id, ms);
    SerialShape(def, id, ms);
  }

  /**
   * The end is final. Once an instance's stream is closed by the end marker, it
   * never changes again, whatever is delivered, redelivered or still in flight,
   * including workers that decided on it before it ended.
   */
  lemma EndedIsFinal<S, B>(
    def: Definition<S, B>, steps: seq<OCC.Step<Message<B>, SagaEvent<B>>>,
    more: seq<OCC.Step<Message<B>, SagaEvent<B>>>, id: string)
    requires Closed(Payloads(Events(OCC.Run(Category(def), Delivery(def), steps).log, StreamID(Category(def), id))))
    ensures Events(OCC.Run(Category(def), Delivery(def), steps + more).log, StreamID(Category(def), id))
         == Events(OCC.Run(Category(def), Delivery(def), steps).log, StreamID(Category(def), id))
  {
    var stream := StreamID(Category(def), id);
    var before := Events(OCC.Run(Category(def), Delivery(def), steps).log, stream);
    var after := Events(OCC.Run(Category(def), Delivery(def), steps + more).log, stream);
    OCC.RunGrows(Category(def), Delivery(def), steps, more);
    StreamGrows(OCC.Run(Category(def), Delivery(def), steps).log,
                OCC.Run(Category(def), Delivery(def), steps + more).log, stream);
    SagaSerializable(def, steps + more, id);
    NothingAfterEnd(before, after);
  }

  lemma NothingAfterEnd<B>(before: seq<EventData<SagaEvent<B>>>, after: seq<EventData<SagaEvent<B>>>)
    requires before <= after && Closed(Payloads(before)) && EndsLast(Payloads(after))
    ensures after == before
  {
    assert Payloads(after)[|before| - 1] == Payloads(before)[|before| - 1];
  }
}
