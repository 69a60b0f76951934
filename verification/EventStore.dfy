/**
 * The event store port and its in-memory implementation (eventstore/store.go,
 * eventstore/memory.go): one global log, a per-stream index into it, and
 * optimistic concurrency on the stream version.
 */
module EventStore {
  import opened Wrappers

  datatype StreamID = StreamID(category: string, id: string)

  /** An event as it is handed to the store; P stands for its serialized form. */
  datatype EventData<P> = EventData(eventName: string, schemaVersion: int, payload: P)

  datatype RecordedEvent<P> = RecordedEvent(
    globalSeq: int, stream: StreamID, version: int, data: EventData<P>)

  type Log<P> = seq<RecordedEvent<P>>

  // ---- What a log says about one stream -------------------------------

  /** The records of stream s, in log order. */
  function StreamOf<P>(log: Log<P>, s: StreamID): Log<P> {
    if log == [] then []
    else
      var before := StreamOf(log[..|log| - 1], s);
      var last := log[|log| - 1];
      if last.stream == s then before + [last] else before
  }

  /** The log positions of stream s, in order. */
  function Positions<P>(log: Log<P>, s: StreamID): seq<nat> {
    if log == [] then []
    else
      var before := Positions(log[..|log| - 1], s);
      if log[|log| - 1].stream == s then before + [|log| - 1] else before
  }

  /** The events of stream s without their positions. */
  function Events<P>(log: Log<P>, s: StreamID): (es: seq<EventData<P>>)
    ensures |es| == |StreamOf(log, s)|
  {
    var recs := StreamOf(log, s);
    seq(|recs|, i requires 0 <= i < |recs| => recs[i].data)
  }

  /** Sequence numbers count the log from 1, versions count each stream from 1. */
  ghost predicate WellFormed<P>(log: Log<P>) {
    forall i {:trigger log[i]} :: 0 <= i < |log| ==>
      log[i].globalSeq == i + 1 && log[i].version == |StreamOf(log[..i], log[i].stream)| + 1
  }

  /** The record that appending d to stream s creates. */
  function Stamp<P>(log: Log<P>, s: StreamID, d: EventData<P>): RecordedEvent<P> {
    RecordedEvent(|log| + 1, s, |StreamOf(log, s)| + 1, d)
  }

  function AppendAll<P>(log: Log<P>, s: StreamID, es: seq<EventData<P>>): Log<P> {
    if es == [] then log
    else
      var before := AppendAll(log, s, es[..|es| - 1]);
      before + [Stamp(before, s, es[|es| - 1])]
  }

  /** Append as a function of the log: all of es, or a conflict and nothing. */
  function TryAppend<P>(log: Log<P>, s: StreamID, expected: int, es: seq<EventData<P>>): (Log<P>, Result<int>) {
    if es == [] then (log, Ok(0))
    else if |StreamOf(log, s)| != expected then (log, Err(VersionConflict))
    else var after := AppendAll(log, s, es); (after, Ok(|after|))
  }

  /** The suffix a tailing reader at `after` still has to see, cut to `limit` when positive. */
  function Tail<P>(log: Log<P>, after: int, limit: int): Log<P> {
    var from := if after < 0 then 0 else if after > |log| then |log| else after;
    var rest := log[from..];
    if 0 < limit < |rest| then rest[..limit] else rest
  }

  /** An append some other writer tries. */
  datatype Op<P> = Op(stream: StreamID, expected: int, events: seq<EventData<P>>)

  function ApplyOps<P>(log: Log<P>, ops: seq<Op<P>>): Log<P> {
    if ops == [] then log
    else
      var op := ops[|ops| - 1];
      TryAppend(ApplyOps(log, ops[..|ops| - 1]), op.stream, op.expected, op.events).0
  }

  // ---- Laws of the specification --------------------------------------

  lemma {:induction false} StreamOfConcat<P>(a: Log<P>, b: Log<P>, s: StreamID)
    ensures StreamOf(a + b, s) == StreamOf(a, s) + StreamOf(b, s)
  {
    if b == [] {
      assert a + b == a;
    } else {
      StreamOfConcat(a, b[..|b| - 1], s);
      assert (a + b)[..|a + b| - 1] == a + b[..|b| - 1];
    }
  }

  lemma StreamOfSnoc<P>(log: Log<P>, r: RecordedEvent<P>, s: StreamID)
    ensures StreamOf(log + [r], s) == StreamOf(log, s) + (if r.stream == s then [r] else [])
  {
    assert (log + [r])[..|log|] == log;
  }

  lemma {:induction false} StreamMembers<P>(log: Log<P>, s: StreamID)
    ensures forall r :: r in StreamOf(log, s) <==> r in log && r.stream == s
  {
    if log != [] {
      var init := log[..|log| - 1];
      StreamMembers(init, s);
      assert log == init + [log[|log| - 1]];
    }
  }

  lemma WellFormedPrefix<P>(log: Log<P>, n: nat)
    requires WellFormed(log) && n <= |log|
    ensures WellFormed(log[..n])
  {
    forall i | 0 <= i < n ensures log[..n][i].globalSeq == i + 1 &&
      log[..n][i].version == |StreamOf(log[..n][..i], log[..n][i].stream)| + 1
    {
      assert log[..n][i] == log[i] && log[..n][..i] == log[..i];
    }
  }

  lemma AppendAllStep<P>(log: Log<P>, s: StreamID, es: seq<EventData<P>>, i: nat)
    requires i < |es|
    ensures var mid := AppendAll(log, s, es[..i]); AppendAll(log, s, es[..i + 1]) == mid + [Stamp(mid, s, es[i])]
  {
    assert es[..i + 1][..i] == es[..i];
  }

  /** Versions are the 1-based positions within the stream. */
  lemma {:induction false} StreamVersions<P>(log: Log<P>, s: StreamID)
    requires WellFormed(log)
    ensures forall k :: 0 <= k < |StreamOf(log, s)| ==>
      StreamOf(log, s)[k].version == k + 1 && StreamOf(log, s)[k].stream == s
  {
    if log != [] {
      var init := log[..|log| - 1];
      WellFormedPrefix(log, |log| - 1);
      StreamVersions(init, s);
    }
  }

  /** Stream and version identify a record of a well-formed log. */
  lemma RecordKeyUnique<P>(log: Log<P>, i: nat, j: nat)
    requires WellFormed(log) && i < j < |log|
    ensures log[i].stream != log[j].stream || log[i].version < log[j].version
  {
    var s := log[i].stream;
    if log[j].stream == s {
      assert log[..i + 1] == log[..i] + [log[i]];
      StreamOfSnoc(log[..i], log[i], s);
      assert log[..j] == log[..i + 1] + log[i + 1..j];
      StreamOfConcat(log[..i + 1], log[i + 1..j], s);
    }
  }

  /** The index lists exactly, in order, each stream's positions in the log. */
  ghost predicate Indexed<P>(log: Log<P>, index: map<StreamID, seq<nat>>) {
    forall s :: Lookup(index, s) == Positions(log, s)
  }

  function Lookup(index: map<StreamID, seq<nat>>, s: StreamID): seq<nat> {
    if s in index then index[s] else []
  }

  lemma IndexedSnoc<P>(log: Log<P>, index: map<StreamID, seq<nat>>, r: RecordedEvent<P>)
    requires Indexed(log, index)
    ensures Indexed(log + [r], index[r.stream := Lookup(index, r.stream) + [|log|]])
  {
    var after := index[r.stream := Lookup(index, r.stream) + [|log|]];
    forall s ensures Lookup(after, s) == Positions(log + [r], s) {
      assert (log + [r])[..|log|] == log;
      assert Lookup(index, s) == Positions(log, s);
    }
  }

  lemma PositionsMatch<P>(log: Log<P>, s: StreamID)
    ensures |Positions(log, s)| == |StreamOf(log, s)|
    ensures forall k :: 0 <= k < |Positions(log, s)| ==>
      Positions(log, s)[k] < |log| && log[Positions(log, s)[k]] == StreamOf(log, s)[k]
  {
  }

  lemma WellFormedSnoc<P>(log: Log<P>, r: RecordedEvent<P>)
    requires WellFormed(log)
    requires r.globalSeq == |log| + 1 && r.version == |StreamOf(log, r.stream)| + 1
    ensures WellFormed(log + [r])
  {
    var after := log + [r];
    forall i | 0 <= i < |after| ensures after[i].globalSeq == i + 1 &&
      after[i].version == |StreamOf(after[..i], after[i].stream)| + 1
    {
      assert after[..i] == log[..i];
      if i == |log| {
        assert log[..i] == log;
      } else {
        assert after[i] == log[i];
      }
    }
  }

  /**
   * What an append of es to stream s means: s gains exactly es, in order, after
   * its old events; no other stream changes; the log's prefix is kept.
   */
  ghost predicate Appended<P>(log: Log<P>, s: StreamID, es: seq<EventData<P>>, after: Log<P>) {
    && |after| == |log| + |es|
    && log <= after
    && Events(after, s) == Events(log, s) + es
    && StreamOf(log, s) <= StreamOf(after, s)
    && (forall t :: t != s ==> StreamOf(after, t) == StreamOf(log, t))
    && (forall i :: |log| <= i < |after| ==> after[i].stream == s && after[i].data == es[i - |log|])
    && (WellFormed(log) ==> WellFormed(after))
  }

  lemma AppendedSnoc<P>(log: Log<P>, s: StreamID, es: seq<EventData<P>>, mid: Log<P>, e: EventData<P>)
    requires Appended(log, s, es, mid)
    ensures Appended(log, s, es + [e], mid + [Stamp(mid, s, e)])
  {
    var r := Stamp(mid, s, e);
    var after := mid + [r];
    StreamOfSnoc(mid, r, s);
    assert Events(after, s) == Events(mid, s) + [e];
    forall t | t != s ensures StreamOf(after, t) == StreamOf(log, t) {
      StreamOfSnoc(mid, r, t);
    }
    if WellFormed(log) {
      WellFormedSnoc(mid, r);
    }
  }

  lemma {:induction false} AppendAllLaw<P>(log: Log<P>, s: StreamID, es: seq<EventData<P>>)
    ensures Appended(log, s, es, AppendAll(log, s, es))
  {
    if es == [] {
      assert Events(log, s) + [] == Events(log, s);
    } else {
      var init := es[..|es| - 1];
      AppendAllLaw(log, s, init);
      AppendedSnoc(log, s, init, AppendAll(log, s, init), es[|es| - 1]);
      assert es == init + [es[|es| - 1]];
    }
  }

  /** The position a successful append reports is the new end of the log. */
  lemma TryAppendPosition<P>(log: Log<P>, s: StreamID, expected: int, es: seq<EventData<P>>)
    ensures TryAppend(log, s, expected, es).1.Ok? && es != [] ==>
      TryAppend(log, s, expected, es).1.value == |TryAppend(log, s, expected, es).0| > 0
  {
    AppendAllLaw(log, s, es);
  }

  lemma AppendAllEnd<P>(log: Log<P>, s: StreamID, es: seq<EventData<P>>)
    requires WellFormed(log) && es != []
    ensures var after := AppendAll(log, s, es);
      WellFormed(after) && after != [] && after[|after| - 1].globalSeq == |after|
  {
    AppendAllLaw(log, s, es);
  }

  /** An append at the version the stream really has succeeds; at any other it stores nothing. */
  lemma TryAppendLaw<P>(log: Log<P>, s: StreamID, expected: int, es: seq<EventData<P>>)
    ensures var (after, r) := TryAppend(log, s, expected, es);
      && log <= after
      && (r.Ok? <==> es == [] || |Events(log, s)| == expected)
      && (r.Ok? ==> Events(after, s) == Events(log, s) + es)
      && (r.Err? ==> after == log && r.error == VersionConflict)
      && (r.Ok? && es != [] ==> r.value == after[|after| - 1].globalSeq == |after|)
      && (forall t :: t != s ==> StreamOf(after, t) == StreamOf(log, t))
      && (WellFormed(log) ==> WellFormed(after))
  {
    AppendAllLaw(log, s, es);
  }

  /** A log only grows, and so does each of its streams. */
  lemma StreamGrows<P>(log: Log<P>, after: Log<P>, s: StreamID)
    requires log <= after
    ensures StreamOf(log, s) <= StreamOf(after, s)
    ensures Events(log, s) <= Events(after, s)
  {
    assert after == log + after[|log|..];
    StreamOfConcat(log, after[|log|..], s);
  }

  lemma TailSnoc<P>(log: Log<P>, r: RecordedEvent<P>, after: int)
    ensures Tail(log + [r], after, 0) == if after > |log| then [] else Tail(log, after, 0) + [r]
  {
  }

  lemma TailStep<P>(log: Log<P>, k: nat, after: int)
    requires k < |log| && WellFormed(log)
    ensures Tail(log[..k + 1], after, 0) ==
      Tail(log[..k], after, 0) + (if log[k].globalSeq <= after then [] else [log[k]])
  {
    assert log[..k + 1] == log[..k] + [log[k]];
    TailSnoc(log[..k], log[k], after);
  }

  lemma TailPrefix<P>(log: Log<P>, k: nat, after: int, limit: int)
    requires k <= |log| && limit > 0 && |Tail(log[..k], after, 0)| == limit
    ensures Tail(log, after, limit) == Tail(log[..k], after, 0)
  {
  }

  lemma TailWhole<P>(log: Log<P>, after: int, limit: int)
    requires limit > 0 ==> |Tail(log, after, 0)| < limit
    ensures Tail(log, after, limit) == Tail(log, after, 0)
  {
  }

  lemma {:induction false} ApplyOpsGrows<P>(log: Log<P>, ops: seq<Op<P>>)
    ensures log <= ApplyOps(log, ops)
    ensures WellFormed(log) ==> WellFormed(ApplyOps(log, ops))
  {
    if ops != [] {
      ApplyOpsGrows(log, ops[..|ops| - 1]);
      var op := ops[|ops| - 1];
      TryAppendLaw(ApplyOps(log, ops[..|ops| - 1]), op.stream, op.expected, op.events);
    }
  }

  lemma {:induction false} ApplyOpsConcat<P>(log: Log<P>, a: seq<Op<P>>, b: seq<Op<P>>)
    ensures ApplyOps(log, a + b) == ApplyOps(ApplyOps(log, a), b)
  {
    if b == [] {
      assert a + b == a;
    } else {
      ApplyOpsConcat(log, a, b[..|b| - 1]);
      assert (a + b)[..|a + b| - 1] == a + b[..|b| - 1];
    }
  }

  /** What a reader is given: the records from a position on, in order, at most `limit` of them if that is positive. */
  lemma TailLaw<P>(log: Log<P>, after: int, limit: int)
    ensures var from := if after < 0 then 0 else Min(after, |log|); var out := Tail(log, after, limit);
      && |out| == (if limit <= 0 then |log| - from else Min(limit, |log| - from))
      && forall k :: 0 <= k < |out| ==> out[k] == log[from + k]
  {
  }

  /** Loading a stream after a version gives exactly the stream's records with higher versions. */
  lemma LoadLaw<P>(log: Log<P>, stream: StreamID, after: int)
    requires WellFormed(log)
    ensures forall r :: r in Tail(StreamOf(log, stream), after, 0) <==>
      r in log && r.stream == stream && r.version > after
  {
    var recs, out := StreamOf(log, stream), Tail(StreamOf(log, stream), after, 0);
    StreamMembers(log, stream);
    StreamVersions(log, stream);
    TailLaw(recs, after, 0);
    forall r | r in recs && r.version > after ensures r in out {
      var k :| 0 <= k < |recs| && recs[k] == r;
      assert out[k - (if after < 0 then 0 else after)] == r;
    }
  }

  // ---- The in-memory store --------------------------------------------

  class MemoryStore<P> {
    var all: Log<P>
    var streams: map<StreamID, seq<nat>>

    ghost predicate Valid()
      reads this
    {
      WellFormed(all) && Indexed(all, streams)
    }

    constructor ()
      ensures Valid() && all == []
    {
      all, streams := [], map[];
    }

    method Append(stream: StreamID, expectedVersion: int, events: seq<EventData<P>>)
      returns (r: Result<int>)
      requires Valid()
      modifies this
      ensures Valid()
      ensures (all, r) == TryAppend(old(all), stream, expectedVersion, events)
    {
      if |events| == 0 {
        return Ok(0);
      }
      PositionsMatch(all, stream);
      if |Lookup(streams, stream)| != expectedVersion {
        return Err(VersionConflict);
      }
      ghost var before := all;
      for i := 0 to |events|
        invariant Valid()
        invariant all == AppendAll(before, stream, events[..i])
        invariant |StreamOf(all, stream)| == expectedVersion + i
      {
        AppendAllStep(before, stream, events, i);
        Record(stream, expectedVersion + i + 1, events[i]);
      }
      assert events[..|events|] == events;
      AppendAllEnd(before, stream, events);
      r := Ok(all[|all| - 1].globalSeq);
    }

    method Record(stream: StreamID, version: int, d: EventData<P>)
      requires Valid() && version == |StreamOf(all, stream)| + 1
      modifies this
      ensures Valid()
      ensures all == old(all) + [Stamp(old(all), stream, d)]
      ensures |StreamOf(all, stream)| == version
    {
      var rec := RecordedEvent(|all| + 1, stream, version, d);
      IndexedSnoc(all, streams, rec);
      WellFormedSnoc(all, rec);
      StreamOfSnoc(all, rec, stream);
      streams := streams[stream := Lookup(streams, stream) + [|all|]];
      all := all + [rec];
    }

    method Load(stream: StreamID, afterVersion: int) returns (out: Log<P>)
      requires Valid()
      ensures out == Tail(StreamOf(all, stream), afterVersion, 0)
    {
      out := [];
      var positions := Lookup(streams, stream);
      PositionsMatch(all, stream);
      StreamVersions(all, stream);
      ghost var recs := StreamOf(all, stream);
      for k := 0 to |positions|
        invariant out == Tail(recs[..k], afterVersion, 0)
      {
        assert recs[..k + 1] == recs[..k] + [recs[k]];
        TailSnoc(recs[..k], recs[k], afterVersion);
        if all[positions[k]].version > afterVersion {
          out := out + [all[positions[k]]];
        }
      }
      assert recs[..|positions|] == recs;
    }

    method ReadAll(afterSeq: int, limit: int) returns (out: Log<P>)
      requires Valid()
      ensures out == Tail(all, afterSeq, limit)
    {
      out := [];
      for k := 0 to |all|
        invariant out == Tail(all[..k], afterSeq, 0)
        invariant limit > 0 ==> |out| < limit
      {
        TailStep(all, k, afterSeq);
        if all[k].globalSeq <= afterSeq {
          continue;
        }
        out := out + [all[k]];
        assert out == Tail(all[..k + 1], afterSeq, 0);
        if limit > 0 && |out| == limit {
          TailPrefix(all, k + 1, afterSeq, limit);
          return;
        }
      }
      assert all[..|all|] == all;
      TailWhole(all, afterSeq, limit);
    }

    /** What other writers append in the meantime. */
    method Others(ops: seq<Op<P>>)
      requires Valid()
      modifies this
      ensures Valid()
      ensures all == ApplyOps(old(all), ops)
    {
      for i := 0 to |ops|
        invariant Valid()
        invariant all == ApplyOps(old(all), ops[..i])
      {
        assert ops[..i + 1][..i] == ops[..i];
        var _ := Append(ops[i].stream, ops[i].expected, ops[i].events);
      }
      assert ops[..|ops|] == ops;
    }

    method Head() returns (seqNo: int)
      requires Valid()
      ensures seqNo == |all|
    {
      if |all| == 0 {
        return 0;
      }
      seqNo := all[|all| - 1].globalSeq;
    }
  }

  // ---- Checkpoints (eventstore/checkpoint.go) --------------------------

  class MemoryCheckpointStore {
    var positions: map<string, int>

    constructor ()
      ensures positions == map[]
    {
      positions := map[];
    }

    function At(name: string): int
      reads this
    {
      if name in positions then positions[name] else 0
    }

    method Get(name: string) returns (position: int)
      ensures position == At(name)
    {
      position := if name in positions then positions[name] else 0;
    }

    method Set(name: string, position: int)
      modifies this
      ensures positions == old(positions)[name := position]
    {
      positions := positions[name := position];
    }
  }
}
