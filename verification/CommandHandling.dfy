/**
 * What the services' command handlers have in common: load the aggregate, let
 * it react, append its events at the version it was loaded at. A service's
 * behaviour is given by its reaction to a command on a history.
 */
module CommandHandling {
  import opened Wrappers
  import opened EventStore
  import opened Registry
  import opened Kernel
  import opened Repository
  import opened Contracts
  import OCC = OptimisticConcurrency

  /** Nothing to do, an error, or events to append to the stream. */
  datatype Reaction =
    | NoChange
    | Fault(error: Error)
    | Emit(events: seq<Event>)

  type Reactor<!C> = (seq<Event>, C) -> Reaction

  function Payloads(ds: seq<EventData<Event>>): (es: seq<Event>)
    ensures |es| == |ds|
  {
    seq(|ds|, k requires 0 <= k < |ds| => ds[k].payload)
  }

  function Stored(es: seq<Event>): (ds: seq<EventData<Event>>)
    ensures |ds| == |es|
  {
    seq(|es|, k requires 0 <= k < |es| => EventData(EventNameOf(es[k]), 1, es[k]))
  }

  /** A command as a decision on the stream it is addressed to. */
  function Decider<C>(react: Reactor<C>, target: C -> string): OCC.Decider<C, Event> {
    (id, ds, cmd) =>
      if target(cmd) != id then OCC.Skip
      else
        var r := react(Payloads(ds), cmd);
        if r.Emit? then OCC.Write(Stored(r.events)) else OCC.Skip
  }

  /** A property of histories that no reaction breaks. */
  ghost predicate Kept<C(!new)>(react: Reactor<C>, target: C -> string, good: (string, seq<Event>) -> bool) {
    && (forall id :: good(id, []))
    && (forall es, cmd {:trigger react(es, cmd)} ::
          good(target(cmd), es) && react(es, cmd).Emit? ==> good(target(cmd), es + react(es, cmd).events))
  }

  lemma {:induction false} SerialKept<C(!new)>(
    react: Reactor<C>, target: C -> string, good: (string, seq<Event>) -> bool, id: string, cmds: seq<C>)
    requires Kept(react, target, good)
    ensures good(id, Payloads(OCC.Serial(Decider(react, target), id, cmds)))
  {
    if cmds == [] {
      assert Payloads([]) == [];
    } else {
      var cmd := cmds[|cmds| - 1];
      var before := OCC.Serial(Decider(react, target), id, cmds[..|cmds| - 1]);
      SerialKept(react, target, good, id, cmds[..|cmds| - 1]);
      var r := react(Payloads(before), cmd);
      if target(cmd) == id && r.Emit? {
        assert Payloads(before + Stored(r.events)) == Payloads(before) + r.events;
      }
    }
  }

  /**
   * Whatever the interleaving of concurrent consumers, redelivered commands,
   * crashes and appends elsewhere, every stream has the property.
   */
  lemma StreamsKept<C(!new)>(
    category: string, react: Reactor<C>, target: C -> string, good: (string, seq<Event>) -> bool,
    steps: seq<OCC.Step<C, Event>>, id: string)
    requires Kept(react, target, good)
    ensures good(id, Payloads(Events(OCC.Run(category, Decider(react, target), steps).log, StreamID(category, id))))
  {
    OCC.Serializable(category, Decider(react, target), steps, id);
    SerialKept(react, target, good, id, OCC.Committed(category, Decider(react, target), steps, id));
  }

  /** The only error an aggregate of these services refuses an event with. */
  ghost predicate RefusesUnknown<S(!new)>(apply: Transition<S, Event>) {
    forall s, e {:trigger apply(s, e)} :: apply(s, e).err in {None, Some(UNKNOWN_EVENT)}
  }

  lemma {:induction false} ReplayRefusesUnknown<S(!new)>(apply: Transition<S, Event>, s: S, es: seq<Event>)
    requires RefusesUnknown(apply)
    ensures Replay(apply, s, es).err in {None, Some(UNKNOWN_EVENT)}
  {
    if es != [] {
      ReplayRefusesUnknown(apply, apply(s, es[0]).state, es[1..]);
    }
  }

  /** A history of events that the aggregate knows. */
  predicate AllKnown(knows: Event -> bool, es: seq<Event>) { forall e :: e in es ==> knows(e) }

  /** An aggregate that refuses just the events it does not know replays exactly the histories of those it does. */
  lemma {:induction false} KnownReplays<S(!new)>(
    apply: Transition<S, Event>, knows: Event -> bool, s: S, es: seq<Event>)
    requires forall s, e {:trigger apply(s, e)} :: apply(s, e).err == if knows(e) then None else Some(UNKNOWN_EVENT)
    ensures Replay(apply, s, es).err == if AllKnown(knows, es) then None else Some(UNKNOWN_EVENT)
  {
    if es != [] {
      assert es == [es[0]] + es[1..];
      assert AllKnown(knows, es) <==> knows(es[0]) && AllKnown(knows, es[1..]);
      KnownReplays(apply, knows, apply(s, es[0]).state, es[1..]);
    }
  }

  /** Loading reports "not found" exactly for an empty stream. */
  lemma NotFoundIsEmpty<S(!new), P>(
    entries: Entries<Event, P>, apply: Transition<S, Event>, zero: S, ds: seq<EventData<P>>)
    requires RefusesUnknown(apply)
    ensures Loaded(entries, apply, zero, ds) == Err(ErrNotFound) <==> ds == []
  {
    DecodeAllFails(entries, ds);
    if ds != [] && DecodeAll(entries, ds).Ok? {
      ReplayRefusesUnknown(apply, zero, DecodeAll(entries, ds).value);
    }
  }

  /** A handler's effect on the store and its error are what the reaction prescribes. */
  ghost predicate Follows<C, P>(
    entries: Entries<Event, P>, codec: Codec<Event, P>, react: Reactor<C>,
    stream: StreamID, before: Log<P>, cmd: C, after: Log<P>, err: Option<Error>)
  {
    match DecodeAll(entries, Events(before, stream))
    case Err(x) => after == before && err == Some(x)
    case Ok(history) =>
      match react(history, cmd)
      case NoChange => after == before && err == None
      case Fault(x) => after == before && err == Some(x)
      case Emit(es) =>
        match EncodeAll(entries, codec, es)
        case Err(x) => after == before && err == Some(x)
        case Ok(data) => after == AppendAll(before, stream, data) && err == None
  }
}
