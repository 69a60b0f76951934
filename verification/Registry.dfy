/**
 * The event codec with its upcaster chains (eventstore/registry.go): stored
 * payloads never change, a chain of partial functions lifts an old payload to
 * the current schema version when it is read.
 */
module Registry {
  import opened Wrappers
  import opened EventStore

  type Upcaster<!P> = P -> Option<P>

  datatype Entry<!E, !P> = Entry(decode: P -> Option<E>, upcasters: seq<Upcaster<P>>)

  /** How a service names and serializes its events; serializing can fail. */
  datatype Codec<!E, !P> = Codec(nameOf: E -> string, marshal: E -> Option<P>)

  type Entries<!E, !P> = map<string, Entry<E, P>>

  /** Runs a chain of upcasters front to back; the first failure ends it. */
  function Lift<P>(ups: seq<Upcaster<P>>, payload: P): Option<P> {
    if ups == [] then Some(payload)
    else
      match ups[0](payload)
      case None => None
      case Some(lifted) => Lift(ups[1..], lifted)
  }

  function Then<P>(first: Option<P>, ups: seq<Upcaster<P>>): Option<P> {
    match first
    case None => None
    case Some(p) => Lift(ups, p)
  }

  function DecodeData<E, P>(entries: Entries<E, P>, d: EventData<P>): Result<E> {
    if d.eventName !in entries then Err(Failure("unregistered event"))
    else
      var ent := entries[d.eventName];
      if d.schemaVersion < 1 || d.schemaVersion > 1 + |ent.upcasters| then
        Err(Failure("stored schema version out of range"))
      else
        match Lift(ent.upcasters[d.schemaVersion - 1..], d.payload)
        case None => Err(Failure("upcasting"))
        case Some(p) =>
          match ent.decode(p)
          case None => Err(Failure("decoding"))
          case Some(e) => Ok(e)
  }

  function EncodeEvent<E, P>(entries: Entries<E, P>, codec: Codec<E, P>, e: E): Result<EventData<P>> {
    var name := codec.nameOf(e);
    if name !in entries then Err(Failure("unregistered event"))
    else
      match codec.marshal(e)
      case None => Err(Failure("encoding"))
      case Some(p) => Ok(EventData(name, 1 + |entries[name].upcasters|, p))
  }

  function WithUpcaster<E, P>(entries: Entries<E, P>, name: string, up: Upcaster<P>): Entries<E, P>
    requires name in entries
  {
    entries[name := entries[name].(upcasters := entries[name].upcasters + [up])]
  }

  /** The codec assumption: what a registered decoder reads back is what was written. */
  ghost predicate Inverse<E(!new), P>(entries: Entries<E, P>, codec: Codec<E, P>) {
    forall e {:trigger codec.marshal(e)} :: codec.nameOf(e) in entries && codec.marshal(e).Some? ==>
      entries[codec.nameOf(e)].decode(codec.marshal(e).value) == Some(e)
  }

  // ---- What decoding is ------------------------------------------------

  /** The payloads a record goes through from its stored version on, one upcaster after another. */
  ghost predicate Chain<P>(ups: seq<Upcaster<P>>, version: int, payloads: seq<P>) {
    && 1 <= version && 1 <= |payloads| && version + |payloads| <= |ups| + 2
    && forall i :: 0 <= i < |payloads| - 1 ==> ups[version - 1 + i](payloads[i]) == Some(payloads[i + 1])
  }

  /**
   * How a record is read: its payload goes through the upcasters from its stored
   * version on, each fed what the one before gave, and what comes out of the last
   * is decoded. The first of these steps that fails is the error.
   */
  ghost predicate Reads<E, P>(entries: Entries<E, P>, d: EventData<P>, payloads: seq<P>, r: Result<E>) {
    if d.eventName !in entries then r == Err(Failure("unregistered event"))
    else
      var ent := entries[d.eventName];
      if d.schemaVersion < 1 || d.schemaVersion > 1 + |ent.upcasters| then
        r == Err(Failure("stored schema version out of range"))
      else
        && Chain(ent.upcasters, d.schemaVersion, payloads) && payloads[0] == d.payload
        && var last, next := payloads[|payloads| - 1], d.schemaVersion - 1 + |payloads| - 1;
          if next < |ent.upcasters| then ent.upcasters[next](last) == None && r == Err(Failure("upcasting"))
          else if ent.decode(last).None? then r == Err(Failure("decoding"))
          else r == Ok(ent.decode(last).value)
  }

  lemma ChainCons<P>(ups: seq<Upcaster<P>>, version: int, payload: P, rest: seq<P>)
    requires 1 <= version <= |ups| && Chain(ups, version + 1, rest) && ups[version - 1](payload) == Some(rest[0])
    ensures Chain(ups, version, [payload] + rest)
  {
    var payloads := [payload] + rest;
    forall i | 0 <= i < |payloads| - 1 ensures ups[version - 1 + i](payloads[i]) == Some(payloads[i + 1]) {
      if i > 0 {
        assert ups[version + 1 - 1 + (i - 1)](rest[i - 1]) == Some(rest[i]);
      }
    }
  }

  lemma {:induction false} LiftChain<P>(ups: seq<Upcaster<P>>, version: int, payload: P) returns (payloads: seq<P>)
    requires 1 <= version <= 1 + |ups|
    ensures Chain(ups, version, payloads) && payloads[0] == payload
    ensures var lifted, last := Lift(ups[version - 1..], payload), payloads[|payloads| - 1];
      var next := version - 1 + |payloads| - 1;
      if lifted.Some? then next == |ups| && lifted == Some(last) else next < |ups| && ups[next](last) == None
    decreases |ups| - version
  {
    payloads := [payload];
    if version <= |ups| {
      assert ups[version - 1..][1..] == ups[version..];
      var lifted := ups[version - 1](payload);
      if lifted.Some? {
        var rest := LiftChain(ups, version + 1, lifted.value);
        ChainCons(ups, version, payload, rest);
        payloads := [payload] + rest;
      }
    }
  }

  lemma {:induction false} ChainLifts<P>(ups: seq<Upcaster<P>>, version: int, payloads: seq<P>)
    requires Chain(ups, version, payloads)
    ensures version <= 1 + |ups|
    ensures Lift(ups[version - 1..], payloads[0]) == Lift(ups[version + |payloads| - 2..], payloads[|payloads| - 1])
    decreases |payloads|
  {
    if |payloads| > 1 {
      var init := payloads[..|payloads| - 1];
      ChainLifts(ups, version, init);
      var v := version + |init| - 1;
      assert ups[v - 1](payloads[|init| - 1]) == Some(payloads[|init|]);
      assert ups[v - 1..][1..] == ups[v..];
    }
  }

  lemma ReadOf<E, P>(entries: Entries<E, P>, d: EventData<P>) returns (payloads: seq<P>)
    ensures Reads(entries, d, payloads, DecodeData(entries, d))
  {
    payloads := [d.payload];
    if d.eventName in entries && 1 <= d.schemaVersion <= 1 + |entries[d.eventName].upcasters| {
      payloads := LiftChain(entries[d.eventName].upcasters, d.schemaVersion, d.payload);
    }
  }

  lemma ReadIs<E, P>(entries: Entries<E, P>, d: EventData<P>, payloads: seq<P>, r: Result<E>)
    requires Reads(entries, d, payloads, r)
    ensures DecodeData(entries, d) == r
  {
    if d.eventName in entries && 1 <= d.schemaVersion <= 1 + |entries[d.eventName].upcasters| {
      ChainLifts(entries[d.eventName].upcasters, d.schemaVersion, payloads);
    }
  }

  /** Decoding is reading in this way, upcaster by upcaster. */
  lemma DecodeLaw<E, P>(entries: Entries<E, P>, d: EventData<P>, r: Result<E>)
    ensures DecodeData(entries, d) == r <==> exists payloads :: Reads(entries, d, payloads, r)
  {
    var read := ReadOf(entries, d);
    if payloads :| Reads(entries, d, payloads, r) {
      ReadIs(entries, d, payloads, r);
    }
  }

  // ---- Laws ------------------------------------------------------------

  lemma {:induction false} LiftConcat<P>(a: seq<Upcaster<P>>, b: seq<Upcaster<P>>, payload: P)
    ensures Lift(a + b, payload) == Then(Lift(a, payload), b)
  {
    if a == [] {
      assert a + b == b;
    } else {
      assert (a + b)[1..] == a[1..] + b;
      if a[0](payload).Some? {
        LiftConcat(a[1..], b, a[0](payload).value);
      }
    }
  }

  /** Lifting v to the current version is lifting v to w and then w to the current one. */
  lemma LiftThroughMiddle<P>(ups: seq<Upcaster<P>>, v: int, w: int, payload: P)
    requires 1 <= v <= w <= 1 + |ups|
    ensures Lift(ups[v - 1..], payload) == Then(Lift(ups[v - 1..w - 1], payload), ups[w - 1..])
  {
    assert ups[v - 1..] == ups[v - 1..w - 1] + ups[w - 1..];
    LiftConcat(ups[v - 1..w - 1], ups[w - 1..], payload);
  }

  /**
   * Registering one more upcaster: records of other events decode as before; a
   * record that was in range stays in range, and its payload is the old lift
   * followed by the new upcaster.
   */
  lemma NextUpcaster<E, P>(entries: Entries<E, P>, name: string, up: Upcaster<P>, d: EventData<P>)
    requires name in entries
    ensures var after := WithUpcaster(entries, name, up);
      && (d.eventName != name ==> DecodeData(after, d) == DecodeData(entries, d))
      && (d.eventName == name && 1 <= d.schemaVersion <= 1 + |entries[name].upcasters| ==>
            d.schemaVersion <= 1 + |after[name].upcasters| &&
            Lift(after[name].upcasters[d.schemaVersion - 1..], d.payload)
              == Then(Lift(entries[name].upcasters[d.schemaVersion - 1..], d.payload), [up]))
  {
    var old_ := entries[name].upcasters;
    if d.eventName == name && 1 <= d.schemaVersion <= 1 + |old_| {
      assert (old_ + [up])[d.schemaVersion - 1..] == old_[d.schemaVersion - 1..] + [up];
      LiftConcat(old_[d.schemaVersion - 1..], [up], d.payload);
    }
  }

  /** Under an inverse codec, decoding what was just encoded gives the event back. */
  lemma EncodeThenDecode<E(!new), P>(entries: Entries<E, P>, codec: Codec<E, P>, e: E)
    requires Inverse(entries, codec)
    ensures EncodeEvent(entries, codec, e).Ok? ==>
      DecodeData(entries, EncodeEvent(entries, codec, e).value) == Ok(e)
  {
    if EncodeEvent(entries, codec, e).Ok? {
      var ups := entries[codec.nameOf(e)].upcasters;
      assert ups[|ups|..] == [];
    }
  }

  // ---- Whole streams ---------------------------------------------------

  function DecodeAll<E, P>(entries: Entries<E, P>, ds: seq<EventData<P>>): Result<seq<E>> {
    if ds == [] then Ok([])
    else
      match DecodeAll(entries, ds[..|ds| - 1])
      case Err(x) => Err(x)
      case Ok(es) =>
        match DecodeData(entries, ds[|ds| - 1])
        case Err(x) => Err(x)
        case Ok(e) => Ok(es + [e])
  }

  function EncodeAll<E, P>(entries: Entries<E, P>, codec: Codec<E, P>, es: seq<E>): Result<seq<EventData<P>>> {
    if es == [] then Ok([])
    else
      match EncodeAll(entries, codec, es[..|es| - 1])
      case Err(x) => Err(x)
      case Ok(ds) =>
        match EncodeEvent(entries, codec, es[|es| - 1])
        case Err(x) => Err(x)
        case Ok(d) => Ok(ds + [d])
  }

  /** A stream decodes record by record, in order. */
  lemma {:induction false} DecodeAllLaw<E, P>(entries: Entries<E, P>, ds: seq<EventData<P>>, es: seq<E>)
    ensures DecodeAll(entries, ds) == Ok(es) <==>
      |es| == |ds| && forall i :: 0 <= i < |ds| ==> DecodeData(entries, ds[i]) == Ok(es[i])
  {
    if ds != [] {
      var init, last := ds[..|ds| - 1], |ds| - 1;
      if |es| == |ds| {
        DecodeAllLaw(entries, init, es[..last]);
        assert es == es[..last] + [es[last]];
        assert forall i :: 0 <= i < last ==> init[i] == ds[i] && es[..last][i] == es[i];
      }
      if DecodeAll(entries, init).Ok? {
        DecodeAllLaw(entries, init, DecodeAll(entries, init).value);
      }
    }
  }

  /** Events are encoded one by one, in order. */
  lemma {:induction false} EncodeAllLaw<E, P>(
    entries: Entries<E, P>, codec: Codec<E, P>, es: seq<E>, ds: seq<EventData<P>>)
    ensures EncodeAll(entries, codec, es) == Ok(ds) <==>
      |ds| == |es| && forall i :: 0 <= i < |es| ==> EncodeEvent(entries, codec, es[i]) == Ok(ds[i])
  {
    if es != [] {
      var init, last := es[..|es| - 1], |es| - 1;
      if |ds| == |es| {
        EncodeAllLaw(entries, codec, init, ds[..last]);
        assert ds == ds[..last] + [ds[last]];
        assert forall i :: 0 <= i < last ==> init[i] == es[i] && ds[..last][i] == ds[i];
      }
      if EncodeAll(entries, codec, init).Ok? {
        EncodeAllLaw(entries, codec, init, EncodeAll(entries, codec, init).value);
      }
    }
  }

  lemma {:induction false} EncodeAllLength<E, P>(entries: Entries<E, P>, codec: Codec<E, P>, es: seq<E>)
    ensures EncodeAll(entries, codec, es).Ok? ==> |EncodeAll(entries, codec, es).value| == |es|
  {
    if es != [] {
      EncodeAllLength(entries, codec, es[..|es| - 1]);
    }
  }

  /** A stream that decodes to `hist` and then gains the encoding of `es` decodes to both. */
  lemma {:induction false} DecodeAppended<E(!new), P>(
    entries: Entries<E, P>, codec: Codec<E, P>, ds: seq<EventData<P>>, hist: seq<E>, es: seq<E>)
    requires Inverse(entries, codec)
    requires DecodeAll(entries, ds) == Ok(hist)
    requires EncodeAll(entries, codec, es).Ok?
    ensures |EncodeAll(entries, codec, es).value| == |es|
    ensures DecodeAll(entries, ds + EncodeAll(entries, codec, es).value) == Ok(hist + es)
  {
    if es == [] {
      assert ds + [] == ds && hist + [] == hist;
    } else {
      var init, last := es[..|es| - 1], es[|es| - 1];
      DecodeAppended(entries, codec, ds, hist, init);
      EncodeThenDecode(entries, codec, last);
      var di := EncodeAll(entries, codec, init).value;
      var all := ds + EncodeAll(entries, codec, es).value;
      assert all[..|all| - 1] == ds + di;
      assert hist + es == hist + init + [last];
    }
  }

  lemma {:induction false} DecodeAllErr<E, P>(entries: Entries<E, P>, ds: seq<EventData<P>>, i: nat)
    requires i < |ds|
    requires DecodeAll(entries, ds[..i]).Ok? && DecodeData(entries, ds[i]).Err?
    ensures DecodeAll(entries, ds) == Err(DecodeData(entries, ds[i]).error)
    decreases |ds|
  {
    if i + 1 == |ds| {
      assert ds[..|ds| - 1] == ds[..i];
    } else {
      var init := ds[..|ds| - 1];
      assert init[..i] == ds[..i];
      DecodeAllErr(entries, init, i);
    }
  }

  /** Failing to decode is a transient error, never a definitive rejection. */
  lemma {:induction false} DecodeAllFails<E, P>(entries: Entries<E, P>, ds: seq<EventData<P>>)
    ensures DecodeAll(entries, ds).Err? ==> DecodeAll(entries, ds).error.Failure?
  {
    if ds != [] {
      DecodeAllFails(entries, ds[..|ds| - 1]);
    }
  }

  /** So is failing to encode. */
  lemma {:induction false} EncodeAllFails<E, P>(entries: Entries<E, P>, codec: Codec<E, P>, es: seq<E>)
    ensures EncodeAll(entries, codec, es).Err? ==> EncodeAll(entries, codec, es).error.Failure?
  {
    if es != [] {
      EncodeAllFails(entries, codec, es[..|es| - 1]);
    }
  }

  lemma {:induction false} EncodeAllErr<E, P>(entries: Entries<E, P>, codec: Codec<E, P>, es: seq<E>, i: nat)
    requires i < |es|
    requires EncodeAll(entries, codec, es[..i]).Ok? && EncodeEvent(entries, codec, es[i]).Err?
    ensures EncodeAll(entries, codec, es) == Err(EncodeEvent(entries, codec, es[i]).error)
    decreases |es|
  {
    if i + 1 == |es| {
      assert es[..|es| - 1] == es[..i];
    } else {
      var init := es[..|es| - 1];
      assert init[..i] == es[..i];
      EncodeAllErr(entries, codec, init, i);
    }
  }

  // ---- The registry object ---------------------------------------------

  class EventRegistry<!E, !P> {
    var entries: Entries<E, P>
    const codec: Codec<E, P>

    constructor (codec: Codec<E, P>)
      ensures this.codec == codec && entries == map[]
    {
      this.codec := codec;
      entries := map[];
    }

    /** False stands for the panic on an empty or duplicate name. */
    method Register(name: string, decode: P -> Option<E>) returns (ok: bool)
      modifies this
      ensures ok <==> name != "" && name !in old(entries)
      ensures entries == if ok then old(entries)[name := Entry(decode, [])] else old(entries)
    {
      ok := name != "" && name !in entries;
      if ok {
        entries := entries[name := Entry(decode, [])];
      }
    }

    /** False stands for the panic on an unregistered event. */
    method RegisterUpcaster(name: string, up: Upcaster<P>) returns (ok: bool)
      modifies this
      ensures ok <==> name in old(entries)
      ensures entries == if ok then WithUpcaster(old(entries), name, up) else old(entries)
    {
      ok := name in entries;
      if ok {
        entries := entries[name := entries[name].(upcasters := entries[name].upcasters + [up])];
      }
    }

    method Encode(e: E) returns (r: Result<EventData<P>>)
      ensures r == EncodeEvent(entries, codec, e)
      ensures r.Ok? <==> codec.nameOf(e) in entries && codec.marshal(e).Some?
      ensures r.Ok? ==>
        r.value.eventName == codec.nameOf(e) && Some(r.value.payload) == codec.marshal(e) &&
        r.value.schemaVersion == 1 + |entries[codec.nameOf(e)].upcasters|
    {
      var name := codec.nameOf(e);
      if name !in entries {
        return Err(Failure("unregistered event"));
      }
      var payload := codec.marshal(e);
      if payload.None? {
        return Err(Failure("encoding"));
      }
      return Ok(EventData(name, 1 + |entries[name].upcasters|, payload.value));
    }

    method Decode(d: EventData<P>) returns (r: Result<E>)
      ensures r == DecodeData(entries, d)
      ensures exists payloads :: Reads(entries, d, payloads, r)
    {
      DecodeLaw(entries, d, DecodeData(entries, d));
      if d.eventName !in entries {
        return Err(Failure("unregistered event"));
      }
      var ent := entries[d.eventName];
      var current := 1 + |ent.upcasters|;
      if d.schemaVersion < 1 || d.schemaVersion > current {
        return Err(Failure("stored schema version out of range"));
      }
      var payload := d.payload;
      for v := d.schemaVersion to current
        invariant Lift(ent.upcasters[d.schemaVersion - 1..], d.payload) == Lift(ent.upcasters[v - 1..], payload)
      {
        assert ent.upcasters[v - 1..][1..] == ent.upcasters[v..];
        var lifted := ent.upcasters[v - 1](payload);
        if lifted.None? {
          return Err(Failure("upcasting"));
        }
        payload := lifted.value;
      }
      var event := ent.decode(payload);
      return if event.None? then Err(Failure("decoding")) else Ok(event.value);
    }
  }
}
