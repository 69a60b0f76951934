/**
 * Loading and saving aggregates (eventstore/repository.go), and the position
 * that tells a caller how far its saves have brought the store
 * (eventstore/position.go).
 */
module Repository {
  import opened Wrappers
  import opened EventStore
  import opened Registry
  import opened Kernel

  /** The highest sequence number recorded by the saves made under one context. */
  class Position {
    var seqNo: int

    constructor ()
      ensures seqNo == 0
    {
      seqNo := 0;
    }

    method Record(s: int)
      modifies this
      ensures seqNo == if s > old(seqNo) then s else old(seqNo)
    {
      if s > seqNo {
        seqNo := s;
      }
    }
  }

  /** What loading a stream yields: the replayed state, and how many events it holds. */
  function Loaded<S, E, P>(entries: Entries<E, P>, apply: Transition<S, E>, zero: S, ds: seq<EventData<P>>)
    : Result<(S, int)>
  {
    if ds == [] then Err(ErrNotFound)
    else
      match DecodeAll(entries, ds)
      case Err(x) => Err(x)
      case Ok(es) =>
        var a := Replay(apply, zero, es);
        if a.err.Some? then Err(a.err.value) else Ok((a.state, |ds|))
  }

  /** A load, spelled out: every record of the stream decodes, and the events lead from zero to the state. */
  ghost predicate LoadedBy<S, E, P>(
    entries: Entries<E, P>, apply: Transition<S, E>, zero: S, ds: seq<EventData<P>>, es: seq<E>, states: seq<S>, s: S,
    version: int)
  {
    && version == |ds| == |es| && version > 0
    && (forall i :: 0 <= i < |ds| ==> DecodeData(entries, ds[i]) == Ok(es[i]))
    && Replayed(apply, zero, es, states, s, None)
  }

  /** An empty stream is not found; another loads exactly if it decodes record by record and replays event by event. */
  lemma LoadedLaw<S, E, P>(
    entries: Entries<E, P>, apply: Transition<S, E>, zero: S, ds: seq<EventData<P>>, s: S, version: int)
    ensures Loaded(entries, apply, zero, []) == Err(DomainError("not_found"))
    ensures Loaded(entries, apply, zero, ds) == Ok((s, version)) <==>
      exists es, states :: LoadedBy(entries, apply, zero, ds, es, states, s, version)
  {
    if DecodeAll(entries, ds).Ok? {
      var es := DecodeAll(entries, ds).value;
      DecodeAllLaw(entries, ds, es);
      ReplayLaw(apply, zero, es, s, None);
      if Loaded(entries, apply, zero, ds) == Ok((s, version)) {
        var states :| Replayed(apply, zero, es, states, s, None);
        assert LoadedBy(entries, apply, zero, ds, es, states, s, version);
      }
    }
    if es, states :| LoadedBy(entries, apply, zero, ds, es, states, s, version) {
      DecodeAllLaw(entries, ds, es);
      ReplayedIs(apply, zero, es, states, s, None);
    }
  }

  /**
   * Replay equals live. Take an aggregate that is either fresh (its stream is
   * empty) or was loaded, and let it accept some events. If saving them
   * succeeds, loading the stream again yields the saver's state and version; if
   * it fails, the stream is what it was.
   */
  lemma SaveThenLoad<S, E(!new), P>(
    entries: Entries<E, P>, codec: Codec<E, P>, apply: Transition<S, E>, zero: S,
    log: Log<P>, stream: StreamID, start: (S, int), pending: seq<E>, live: S, after: Log<P>, r: Result<int>)
    requires Inverse(entries, codec)
    requires Events(log, stream) == [] ==> start == (zero, 0)
    requires Events(log, stream) != [] ==> Loaded(entries, apply, zero, Events(log, stream)) == Ok(start)
    requires pending != [] && Replay(apply, start.0, pending) == Applied(live, None)
    requires EncodeAll(entries, codec, pending).Ok?
    requires (after, r) == TryAppend(log, stream, start.1, EncodeAll(entries, codec, pending).value)
    ensures r.Ok? ==> Loaded(entries, apply, zero, Events(after, stream)) == Ok((live, start.1 + |pending|))
    ensures r.Err? ==> after == log
  {
    var ds := Events(log, stream);
    var data := EncodeAll(entries, codec, pending).value;
    TryAppendLaw(log, stream, start.1, data);
    if r.Ok? {
      var hist := DecodeAll(entries, ds).value;
      var ds' := Events(after, stream);
      assert DecodeAll(entries, ds') == Ok(hist + pending) by {
        DecodeAppended(entries, codec, ds, hist, pending);
      }
      assert Replay(apply, zero, hist + pending) == Applied(live, None) by {
        ReplayConcat(apply, zero, hist, pending);
      }
      assert |data| == |pending| by {
        DecodeAppended(entries, codec, ds, hist, pending);
      }
      assert |ds'| == start.1 + |pending|;
    }
  }

  function ErrorOf<T>(r: Result<T>): Option<Error> {
    if r.Err? then Some(r.error) else None
  }

  class Repository<S, !E(!new), !P> {
    const store: MemoryStore<P>
    const registry: EventRegistry<E, P>
    const category: string
    const zero: S
    const apply: Transition<S, E>

    constructor (
      store: MemoryStore<P>, registry: EventRegistry<E, P>, category: string, zero: S, apply: Transition<S, E>)
      ensures this.store == store && this.registry == registry && this.category == category
      ensures this.zero == zero && this.apply == apply
    {
      this.store, this.registry, this.category := store, registry, category;
      this.zero, this.apply := zero, apply;
    }

    method Load(id: string) returns (r: Result<Root<S, E>>)
      requires store.Valid()
      ensures var l := Loaded(registry.entries, apply, zero, Events(store.all, StreamID(category, id)));
        match r
        case Err(x) => l == Err(x)
        case Ok(a) =>
          && fresh(a) && l == Ok((a.state, a.version)) && a.pending == []
          && a.apply == apply && a.zero == zero
          && a.Live(DecodeAll(registry.entries, Events(store.all, StreamID(category, id))).value)
    {
      var stream := StreamID(category, id);
      var recs := store.Load(stream, 0);
      ghost var ds := Events(store.all, stream);
      assert recs == StreamOf(store.all, stream);
      if |recs| == 0 {
        return Err(ErrNotFound);
      }
      var events: seq<E> := [];
      for i := 0 to |recs|
        invariant |events| == i
        invariant DecodeAll(registry.entries, ds[..i]) == Ok(events)
      {
        var d := registry.Decode(recs[i].data);
        assert ds[i] == recs[i].data;
        if d.Err? {
          DecodeAllErr(registry.entries, ds, i);
          return Err(d.error);
        }
        assert ds[..i + 1][..i] == ds[..i];
        events := events + [d.value];
      }
      assert ds[..|recs|] == ds;
      var a := new Root<S, E>(zero, apply);
      var err := a.Rehydrate(events);
      return if err.Some? then Err(err.value) else Ok(a);
    }

    method EncodePending(pending: seq<E>) returns (r: Result<seq<EventData<P>>>)
      ensures r == EncodeAll(registry.entries, registry.codec, pending)
      ensures r.Ok? ==> |r.value| == |pending|
    {
      var data: seq<EventData<P>> := [];
      for i := 0 to |pending|
        invariant |data| == i
        invariant EncodeAll(registry.entries, registry.codec, pending[..i]) == Ok(data)
      {
        var d := registry.Encode(pending[i]);
        if d.Err? {
          EncodeAllErr(registry.entries, registry.codec, pending, i);
          return Err(d.error);
        }
        assert pending[..i + 1][..i] == pending[..i];
        data := data + [d.value];
      }
      assert pending[..|pending|] == pending;
      return Ok(data);
    }

    /**
     * The aggregate's version and pending events change only when the append
     * succeeded, and then the stream holds exactly what was pending.
     */
    method Save(id: string, a: Root<S, E>, pos: Position?) returns (err: Option<Error>)
      requires store.Valid()
      modifies store, a`version, a`pending, if pos == null then {} else {pos}
      ensures store.Valid()
      ensures old(a.pending) == [] ==>
        err == None && store.all == old(store.all) && a.version == old(a.version) && a.pending == []
      ensures old(a.pending) != [] ==>
        var encoded := EncodeAll(registry.entries, registry.codec, old(a.pending));
        match encoded
        case Err(x) => err == Some(x) && store.all == old(store.all)
        case Ok(data) =>
          var (after, r) := TryAppend(old(store.all), StreamID(category, id), old(a.version), data);
          store.all == after && err == ErrorOf(r)
      ensures err.Some? ==> a.version == old(a.version) && a.pending == old(a.pending)
      ensures err.None? ==> a.version == old(a.version) + |old(a.pending)| && a.pending == []
      ensures pos != null ==>
        pos.seqNo ==
          (if err.None? && old(a.pending) != [] && |store.all| > old(pos.seqNo) then |store.all| else old(pos.seqNo))
      ensures err.None? ==> forall hist :: old(a.Live(hist)) ==> a.Live(hist + old(a.pending))
    {
      var pending := a.pending;
      if |pending| == 0 {
        assert forall hist: seq<E> :: hist + pending == hist;
        return None;
      }
      var encoded := EncodePending(pending);
      if encoded.Err? {
        return Some(encoded.error);
      }
      var data := encoded.value;
      var stream := StreamID(category, id);
      TryAppendPosition(store.all, stream, a.version, data);
      var r := store.Append(stream, a.version, data);
      if r.Err? {
        return Some(r.error);
      }
      if pos != null && r.value > 0 {
        pos.Record(r.value);
      }
      var _ := a.TakeUncommitted();
      return None;
    }
  }
}
