/**
 * Running a projection (projection/projection.go, catchup.go, inbox.go,
 * wait.go): handler registration, the two polling runners, Reset, and waiting
 * for a checkpoint. The read tables are an object the handlers change; a run
 * may be stopped between any two effects.
 */
module ProjectionRunner {
  import opened Wrappers
  import opened EventStore
  import opened Registry
  import opened Kernel
  import opened Messaging
  import opened Keys
  import opened Inbox
  import opened Projections = Projection

  /** The read tables. */
  class Tables<T> {
    var content: T

    constructor (t: T)
      ensures content == t
    {
      content := t;
    }
  }

  /** A handler may fail after part of its writes. */
  type StoreHandler<!T, !E> = (T, E) -> Applied<T>
  type FactHandler<!T, !B> = (T, Message<B>) -> Applied<T>

  function StoreCursor(name: string): string { "projection." + name + ".store" }

  function InboxCursor(name: string): string { "projection." + name + ".inbox" }

  class Projection<!T, !E, !B> {
    const name: string
    var domainHandlers: map<string, StoreHandler<T, E>>
    var foreignHandlers: map<string, FactHandler<T, B>>

    constructor (name: string)
      requires name != ""
      ensures this.name == name && domainHandlers == map[] && foreignHandlers == map[]
    {
      this.name := name;
      domainHandlers, foreignHandlers := map[], map[];
    }

    function StoreCheckpoint(): string { StoreCursor(name) }

    function InboxCheckpoint(): string { InboxCursor(name) }

    /** False stands for the panic on a duplicate. */
    method On(event: string, fn: StoreHandler<T, E>) returns (ok: bool)
      modifies this`domainHandlers
      ensures ok <==> event !in old(domainHandlers)
      ensures domainHandlers == if ok then old(domainHandlers)[event := fn] else old(domainHandlers)
    {
      ok := event !in domainHandlers;
      if ok {
        domainHandlers := domainHandlers[event := fn];
      }
    }

    function Foreign(event: string, version: int): Option<FactHandler<T, B>>
      reads this
    {
      if EventKey(event, version) in foreignHandlers then Some(foreignHandlers[EventKey(event, version)]) else None
    }

    /** A handler answers for one contract name and version, and for no other. */
    method OnIntegration(event: string, version: int, fn: FactHandler<T, B>) returns (ok: bool)
      modifies this`foreignHandlers
      ensures ok <==> old(Foreign(event, version)) == None
      ensures Foreign(event, version) == if ok then Some(fn) else old(Foreign(event, version))
      ensures forall e, v :: e != event || v != version ==> Foreign(e, v) == old(Foreign(e, v))
    {
      var key := EventKey(event, version);
      ok := key !in foreignHandlers;
      if ok {
        foreignHandlers := foreignHandlers[key := fn];
      }
      forall e, v | e != event || v != version ensures Foreign(e, v) == old(Foreign(e, v)) {
        EventKeyInjective(e, v, event, version);
      }
    }
  }

  /** Both names start alike, then comes the name of the projection; their ends tell them apart. */
  lemma CursorsDiffer(a: string, b: string)
    ensures StoreCursor(a) != InboxCursor(b)
    ensures StoreCursor(a) == StoreCursor(b) ==> a == b
    ensures InboxCursor(a) == InboxCursor(b) ==> a == b
  {
    assert StoreCursor(a)[|StoreCursor(a)| - 1] == 'e' && InboxCursor(b)[|InboxCursor(b)| - 1] == 'x';
    assert StoreCursor(a)[11..11 + |a|] == a && StoreCursor(b)[11..11 + |b|] == b;
    assert InboxCursor(a)[11..11 + |a|] == a && InboxCursor(b)[11..11 + |b|] == b;
  }

  /** No two cursors share a name: not the two of a projection, and none with any of another projection. */
  lemma CheckpointsDiffer<T, E, B, T', E', B'>(p: Projection<T, E, B>, q: Projection<T', E', B'>)
    ensures p.StoreCheckpoint() != q.InboxCheckpoint()
    ensures p.StoreCheckpoint() == q.StoreCheckpoint() <==> p.name == q.name
    ensures p.InboxCheckpoint() == q.InboxCheckpoint() <==> p.name == q.name
  {
    CursorsDiffer(p.name, q.name);
  }

  // ---- What handling one item does -------------------------------------

  /** Records without a handler are skipped undecoded; one that cannot be decoded stops the runner. */
  function HandleRecord<T, E, P>(
    handlers: map<string, StoreHandler<T, E>>, entries: Entries<E, P>, t: T, rec: RecordedEvent<P>): Applied<T>
  {
    if rec.data.eventName !in handlers then Applied(t, None)
    else
      match DecodeData(entries, rec.data)
      case Err(x) => Applied(t, Some(x))
      case Ok(e) => handlers[rec.data.eventName](t, e)
  }

  function RecordHandling<T, E, P>(
    handlers: map<string, StoreHandler<T, E>>, entries: Entries<E, P>): Transition<T, RecordedEvent<P>>
  {
    (t: T, rec: RecordedEvent<P>) => HandleRecord(handlers, entries, t, rec)
  }

  function HandleFact<T, B>(handlers: map<string, FactHandler<T, B>>, t: T, m: Message<B>): Applied<T> {
    var key := EventKey(m.name, m.version);
    if key !in handlers then Applied(t, None) else handlers[key](t, m)
  }

  function FactHandling<T, B>(handlers: map<string, FactHandler<T, B>>): Transition<T, InboxMessage<B>> {
    (t: T, m: InboxMessage<B>) => HandleFact(handlers, t, m.message)
  }

  /** The positions a runner may have reached: handled a stretch of the log, checkpointed no further. */
  ghost predicate Reached<T, I>(
    handle: Transition<T, I>, log: seq<I>, before: T, start: int, after: T, cp: int, pos: int, err: Option<Error>)
  {
    && 0 <= start <= cp <= pos <= |log|
    && var done := Replay(handle, before, log[start..pos]);
      && done.err.None?
      && (err.None? ==> after == done.state)
      && (err.Some? ==> pos < |log| && handle(done.state, log[pos]) == Applied(after, err))
  }

  lemma ReachedStep<T, I>(
    handle: Transition<T, I>, log: seq<I>, before: T, start: int, mid: T, cp: int, pos: int)
    requires Reached(handle, log, before, start, mid, cp, pos, None) && pos < |log|
    ensures var a := handle(mid, log[pos]);
      Reached(handle, log, before, start, a.state, cp, if a.err.None? then pos + 1 else pos, a.err)
  {
    ReplaySnoc(handle, before, log[start..pos], log[pos]);
    assert log[start..pos + 1] == log[start..pos] + [log[pos]];
  }

  lemma ReachedGrows<T, I>(
    handle: Transition<T, I>, log: seq<I>, longer: seq<I>, before: T, start: int, after: T, cp: int, pos: int)
    requires Reached(handle, log, before, start, after, cp, pos, None) && log <= longer
    ensures Reached(handle, longer, before, start, after, cp, pos, None)
  {
    assert longer[start..pos] == log[start..pos];
  }

  /** A run, table by table: one for each item, and the error is that of the item at `pos`. */
  lemma ReachedTables<T, I>(
    handle: Transition<T, I>, log: seq<I>, before: T, start: int, after: T, cp: int, pos: int, err: Option<Error>)
    returns (tables: seq<T>)
    requires Reached(handle, log, before, start, after, cp, pos, err)
    ensures |tables| == pos - start + 1 && tables[0] == before
    ensures forall i :: 0 <= i < pos - start ==> handle(tables[i], log[start + i]) == Applied(tables[i + 1], None)
    ensures err.None? ==> after == tables[pos - start]
    ensures err.Some? ==> pos < |log| && handle(tables[pos - start], log[pos]) == Applied(after, err)
  {
    tables := ReplayStates(handle, before, log[start..pos]);
    forall i | 0 <= i < pos - start ensures handle(tables[i], log[start + i]) == Applied(tables[i + 1], None) {
      assert log[start..pos][i] == log[start + i];
    }
  }

  /**
   * A record the store runner got past, and one that stopped it. Without a handler
   * it leaves the tables alone; otherwise it was decoded and its handler succeeded.
   * It stops the runner if it cannot be decoded or its handler fails.
   */
  lemma RecordLaw<T, E, P>(
    handlers: map<string, StoreHandler<T, E>>, entries: Entries<E, P>, t: T, rec: RecordedEvent<P>, t': T,
    err: Option<Error>)
    requires RecordHandling(handlers, entries)(t, rec) == Applied(t', err)
    ensures rec.data.eventName !in handlers ==> t' == t && err.None?
    ensures rec.data.eventName in handlers ==>
      match DecodeData(entries, rec.data)
      case Err(x) => t' == t && err == Some(x)
      case Ok(e) => handlers[rec.data.eventName](t, e) == Applied(t', err)
  {
  }

  /**
   * What a run of the store runner amounts to: it got past every record up to
   * `pos` without an error, and an error is that of the record at `pos`, which the
   * checkpoint has not passed.
   */
  lemma StoreRunLaw<T, E, P>(
    handlers: map<string, StoreHandler<T, E>>, entries: Entries<E, P>, log: Log<P>, before: T, start: int, after: T,
    cp: int, pos: int, err: Option<Error>) returns (tables: seq<T>)
    requires Reached(RecordHandling(handlers, entries), log, before, start, after, cp, pos, err)
    ensures |tables| == pos - start + 1 && tables[0] == before && cp <= pos
    ensures forall i {:trigger tables[i + 1]} :: 0 <= i < pos - start ==>
      var d := log[start + i].data;
      if d.eventName !in handlers then tables[i + 1] == tables[i]
      else
        && DecodeData(entries, d).Ok?
        && handlers[d.eventName](tables[i], DecodeData(entries, d).value) == Applied(tables[i + 1], None)
    ensures err.None? ==> after == tables[pos - start]
    ensures err.Some? ==>
      && pos < |log| && log[pos].data.eventName in handlers
      && var d, table := log[pos].data, tables[pos - start];
        match DecodeData(entries, d)
        case Err(x) => err == Some(x) && after == table
        case Ok(e) => handlers[d.eventName](table, e) == Applied(after, err)
  {
    var handle := RecordHandling(handlers, entries);
    tables := ReachedTables(handle, log, before, start, after, cp, pos, err);
    if err.Some? {
      RecordLaw(handlers, entries, tables[pos - start], log[pos], after, err);
    }
    forall i {:trigger tables[i + 1]} | 0 <= i < pos - start
      ensures var d := log[start + i].data;
        if d.eventName !in handlers then tables[i + 1] == tables[i]
        else
          && DecodeData(entries, d).Ok?
          && handlers[d.eventName](tables[i], DecodeData(entries, d).value) == Applied(tables[i + 1], None)
    {
      assert handle(tables[i], log[start + i]) == Applied(tables[i + 1], None);
      RecordLaw(handlers, entries, tables[i], log[start + i], tables[i + 1], None);
    }
  }

  /** The same for a fact from the inbox, whose handler decodes for itself. */
  lemma FactLaw<T, B>(
    handlers: map<string, FactHandler<T, B>>, t: T, item: InboxMessage<B>, t': T, err: Option<Error>)
    requires FactHandling(handlers)(t, item) == Applied(t', err)
    ensures var key := EventKey(item.message.name, item.message.version);
      if key !in handlers then t' == t && err.None? else handlers[key](t, item.message) == Applied(t', err)
  {
  }

  lemma InboxRunLaw<T, B>(
    handlers: map<string, FactHandler<T, B>>, log: seq<InboxMessage<B>>, before: T, start: int, after: T, cp: int,
    pos: int, err: Option<Error>) returns (tables: seq<T>)
    requires Reached(FactHandling(handlers), log, before, start, after, cp, pos, err)
    ensures |tables| == pos - start + 1 && tables[0] == before && cp <= pos
    ensures forall i {:trigger tables[i + 1]} :: 0 <= i < pos - start ==>
      var m := log[start + i].message;
      if EventKey(m.name, m.version) !in handlers then tables[i + 1] == tables[i]
      else handlers[EventKey(m.name, m.version)](tables[i], m) == Applied(tables[i + 1], None)
    ensures err.None? ==> after == tables[pos - start]
    ensures err.Some? ==>
      && pos < |log|
      && var m := log[pos].message;
        && EventKey(m.name, m.version) in handlers
        && handlers[EventKey(m.name, m.version)](tables[pos - start], m) == Applied(after, err)
  {
    var handle := FactHandling(handlers);
    tables := ReachedTables(handle, log, before, start, after, cp, pos, err);
    if err.Some? {
      FactLaw(handlers, tables[pos - start], log[pos], after, err);
    }
    forall i {:trigger tables[i + 1]} | 0 <= i < pos - start
      ensures var m := log[start + i].message;
        if EventKey(m.name, m.version) !in handlers then tables[i + 1] == tables[i]
        else handlers[EventKey(m.name, m.version)](tables[i], m) == Applied(tables[i + 1], None)
    {
      assert handle(tables[i], log[start + i]) == Applied(tables[i + 1], None);
      FactLaw(handlers, tables[i], log[start + i], tables[i + 1], None);
    }
  }

  const DEFAULT_BATCH := 100

  // ---- The store runner ------------------------------------------------

  /** One pass of the polling loop: what others append first, and where the run is stopped, if it is. */
  datatype Turn<P> = Turn(ops: seq<Op<P>>, stopAt: Option<nat>)

  class CatchUp<!T, !E, !P, !B> {
    const projection: Projection<T, E, B>
    const tables: Tables<T>
    const store: MemoryStore<P>
    const registry: EventRegistry<E, P>
    const checkpoints: MemoryCheckpointStore
    const batchSize: Positive

    constructor (projection: Projection<T, E, B>, tables: Tables<T>, store: MemoryStore<P>,
                 registry: EventRegistry<E, P>, checkpoints: MemoryCheckpointStore, batchSize: int)
      ensures this.projection == projection && this.tables == tables && this.store == store
      ensures this.registry == registry && this.checkpoints == checkpoints
      ensures this.batchSize == if batchSize <= 0 then DEFAULT_BATCH else batchSize
    {
      this.projection, this.tables, this.store := projection, tables, store;
      this.registry, this.checkpoints := registry, checkpoints;
      this.batchSize := if batchSize <= 0 then DEFAULT_BATCH else batchSize;
    }

    function Handling(): Transition<T, RecordedEvent<P>>
      reads projection, registry
    {
      RecordHandling(projection.domainHandlers, registry.entries)
    }

    function Cursor(): int
      reads checkpoints
    {
      checkpoints.At(projection.StoreCheckpoint())
    }

    /** Handles a batch in order until it ends, fails, or the run is stopped. */
    method HandleBatch(recs: Log<P>, stopAt: Option<nat>,
                       ghost handle: Transition<T, RecordedEvent<P>>, ghost before: T,
                       ghost start: int, ghost from: int)
      returns (done: bool, err: Option<Error>, ghost pos: int)
      requires 0 <= from && from + |recs| <= |store.all| && recs == store.all[from..from + |recs|]
      requires Reached(handle, store.all, before, start, tables.content, from, from, None)
      requires handle == Handling()
      modifies tables
      ensures Reached(handle, store.all, before, start, tables.content, from, pos, err)
      ensures done ==> err.None? && pos == from + |recs|
      ensures stopAt.None? ==> done || err.Some?
    {
      pos, done, err := from, false, None;
      for i := 0 to |recs|
        invariant pos == from + i && err == None && handle == Handling()
        invariant Reached(handle, store.all, before, start, tables.content, from, pos, None)
      {
        if stopAt == Some(i) {
          return;
        }
        ReachedStep(handle, store.all, before, start, tables.content, from, pos);
        assert recs[i] == store.all[pos];
        ghost var a := handle(tables.content, recs[i]);
        err := HandleOne(recs[i]);
        assert a == Applied(tables.content, err);
        if err.Some? {
          return;
        }
        pos := pos + 1;
      }
      done := true;
    }

    method HandleOne(rec: RecordedEvent<P>) returns (err: Option<Error>)
      modifies tables
      ensures Applied(tables.content, err) ==
        HandleRecord(projection.domainHandlers, registry.entries, old(tables.content), rec)
    {
      var name := rec.data.eventName;
      if name !in projection.domainHandlers {
        return None;
      }
      var decoded := registry.Decode(rec.data);
      if decoded.Err? {
        return Some(decoded.error);
      }
      var a := projection.domainHandlers[name](tables.content, decoded.value);
      tables.content, err := a.state, a.err;
    }

    /**
     * However the run ends, the tables gained exactly the records from the old
     * checkpoint to some position, in order, and the checkpoint is not past it;
     * an error is the first one a record met. A run that is never stopped and
     * meets no error moves on by a batch each turn until the store's end.
     */
    method Run(turns: seq<Turn<P>>) returns (err: Option<Error>, ghost pos: int)
      requires store.Valid() && 0 <= Cursor() <= |store.all|
      modifies store, tables, checkpoints
      ensures store.Valid() && old(store.all) <= store.all
      ensures Reached(
        old(Handling()), store.all, old(tables.content), old(Cursor()), tables.content, Cursor(), pos, err)
      ensures forall other :: other != projection.StoreCheckpoint() ==>
        checkpoints.At(other) == old(checkpoints.At(other))
      ensures forall n: string :: checkpoints.At(InboxCursor(n)) == old(checkpoints.At(InboxCursor(n)))
      ensures err.None? && (forall turn :: turn in turns ==> turn.stopAt.None?) ==>
        Cursor() >= Min(old(Cursor()) + |turns|, |old(store.all)|)
    {
      var name := projection.StoreCheckpoint();
      forall n: string ensures InboxCursor(n) != name {
        CursorsDiffer(projection.name, n);
      }
      var seqNo := checkpoints.Get(name);
      ghost var handle, before, start := Handling(), tables.content, seqNo;
      pos, err := seqNo, None;
      assert store.all[seqNo..seqNo] == [];
      for i := 0 to |turns|
        invariant store.Valid() && old(store.all) <= store.all && seqNo == Cursor() == pos && err == None
        invariant handle == Handling()
        invariant Reached(handle, store.all, before, start, tables.content, seqNo, seqNo, None)
        invariant forall other :: other != name ==> checkpoints.At(other) == old(checkpoints.At(other))
        invariant (forall turn :: turn in turns ==> turn.stopAt.None?) ==> seqNo >= Min(start + i, |old(store.all)|)
      {
        ghost var was := store.all;
        store.Others(turns[i].ops);
        ApplyOpsGrows(was, turns[i].ops);
        ReachedGrows(handle, was, store.all, before, start, tables.content, seqNo, seqNo);
        var done;
        seqNo, done, err, pos := Pass(seqNo, turns[i].stopAt, handle, before, start);
        assert turns[i] in turns;
        if !done {
          return;
        }
      }
    }

    /** One pass of the loop from the cursor; not done means an error or a stop. */
    method Pass(seqNo: int, stopAt: Option<nat>,
                ghost handle: Transition<T, RecordedEvent<P>>, ghost before: T, ghost start: int)
      returns (next: int, done: bool, err: Option<Error>, ghost pos: int)
      requires store.Valid() && seqNo == Cursor()
      requires Reached(handle, store.all, before, start, tables.content, seqNo, seqNo, None)
      requires handle == Handling()
      modifies tables, checkpoints
      ensures next == Cursor()
      ensures Reached(handle, store.all, before, start, tables.content, next, pos, err)
      ensures done ==> err.None? && pos == next == Min(seqNo + batchSize, |store.all|)
      ensures err.None? && stopAt.None? ==> done
      ensures forall other :: other != projection.StoreCheckpoint() ==>
        checkpoints.At(other) == old(checkpoints.At(other))
    {
      next, done, err, pos := seqNo, true, None, seqNo;
      var recs := store.ReadAll(seqNo, batchSize);
      if |recs| == 0 {
        return;
      }
      ghost var end := seqNo + |recs|;
      assert recs == store.all[seqNo..end];
      assert recs[|recs| - 1] == store.all[end - 1];
      done, err, pos := HandleBatch(recs, stopAt, handle, before, start, seqNo);
      if !done {
        return;
      }
      next := recs[|recs| - 1].globalSeq;
      checkpoints.Set(projection.StoreCheckpoint(), next);
    }
  }

  // ---- The inbox runner ------------------------------------------------

  class InboxReader<!T, !E, !B> {
    const projection: Projection<T, E, B>
    const tables: Tables<T>
    const inbox: MemoryInbox<B>
    const checkpoints: MemoryCheckpointStore
    const batchSize: Positive

    constructor (projection: Projection<T, E, B>, tables: Tables<T>, inbox: MemoryInbox<B>,
                 checkpoints: MemoryCheckpointStore, batchSize: int)
      ensures this.projection == projection && this.tables == tables && this.inbox == inbox
      ensures this.checkpoints == checkpoints
      ensures this.batchSize == if batchSize <= 0 then DEFAULT_BATCH else batchSize
    {
      this.projection, this.tables, this.inbox, this.checkpoints := projection, tables, inbox, checkpoints;
      this.batchSize := if batchSize <= 0 then DEFAULT_BATCH else batchSize;
    }

    function Handling(): Transition<T, InboxMessage<B>>
      reads projection
    {
      FactHandling(projection.foreignHandlers)
    }

    function Cursor(): int
      reads checkpoints
    {
      checkpoints.At(projection.InboxCheckpoint())
    }

    method HandleBatch(msgs: seq<InboxMessage<B>>, stopAt: Option<nat>,
                       ghost handle: Transition<T, InboxMessage<B>>, ghost before: T, ghost start: int, ghost from: int)
      returns (done: bool, err: Option<Error>, ghost pos: int)
      requires 0 <= from && from + |msgs| <= |inbox.msgs| && msgs == inbox.msgs[from..from + |msgs|]
      requires Reached(handle, inbox.msgs, before, start, tables.content, from, from, None)
      requires handle == Handling()
      modifies tables
      ensures Reached(handle, inbox.msgs, before, start, tables.content, from, pos, err)
      ensures done ==> err.None? && pos == from + |msgs|
      ensures stopAt.None? ==> done || err.Some?
    {
      pos, done, err := from, false, None;
      for i := 0 to |msgs|
        invariant pos == from + i && err == None
        invariant Reached(handle, inbox.msgs, before, start, tables.content, from, pos, None)
      {
        if stopAt == Some(i) {
          return;
        }
        assert msgs[i] == inbox.msgs[pos];
        err := HandleOne(msgs[i], handle, before, start, from, pos);
        if err.Some? {
          return;
        }
        pos := pos + 1;
      }
      done := true;
    }

    method HandleOne(item: InboxMessage<B>, ghost handle: Transition<T, InboxMessage<B>>, ghost before: T,
                     ghost start: int, ghost from: int, ghost pos: int)
      returns (err: Option<Error>)
      requires handle == Handling()
      requires Reached(handle, inbox.msgs, before, start, tables.content, from, pos, None)
      requires pos < |inbox.msgs| && item == inbox.msgs[pos]
      modifies tables
      ensures Applied(tables.content, err) == handle(old(tables.content), item)
      ensures Reached(
        handle, inbox.msgs, before, start, tables.content, from, if err.None? then pos + 1 else pos, err)
    {
      ReachedStep(handle, inbox.msgs, before, start, tables.content, from, pos);
      var m := item.message;
      var key := EventKey(m.name, m.version);
      if key !in projection.foreignHandlers {
        return None;
      }
      var a := projection.foreignHandlers[key](tables.content, m);
      tables.content, err := a.state, a.err;
    }

    /**
     * Tails the inbox like the store runner tails the store; `arrivals` are the
     * messages the inbox takes before each turn.
     */
    method Run(turns: seq<(seq<Message<B>>, Option<nat>)>) returns (err: Option<Error>, ghost pos: int)
      requires inbox.Valid() && 0 <= Cursor() <= |inbox.msgs|
      modifies inbox, tables, checkpoints
      ensures inbox.Valid() && old(inbox.msgs) <= inbox.msgs
      ensures Reached(
        old(Handling()), inbox.msgs, old(tables.content), old(Cursor()), tables.content, Cursor(), pos, err)
      ensures forall other :: other != projection.InboxCheckpoint() ==>
        checkpoints.At(other) == old(checkpoints.At(other))
      ensures forall n: string :: checkpoints.At(StoreCursor(n)) == old(checkpoints.At(StoreCursor(n)))
      ensures err.None? && (forall turn :: turn in turns ==> turn.1.None?) ==>
        Cursor() >= Min(old(Cursor()) + |turns|, |old(inbox.msgs)|)
    {
      var name := projection.InboxCheckpoint();
      forall n: string ensures StoreCursor(n) != name {
        CursorsDiffer(n, projection.name);
      }
      var seqNo := checkpoints.Get(name);
      ghost var handle, before, start := Handling(), tables.content, seqNo;
      pos, err := seqNo, None;
      assert inbox.msgs[seqNo..seqNo] == [];
      for i := 0 to |turns|
        invariant inbox.Valid() && old(inbox.msgs) <= inbox.msgs && seqNo == Cursor() == pos && err == None
        invariant handle == Handling()
        invariant Reached(handle, inbox.msgs, before, start, tables.content, seqNo, seqNo, None)
        invariant forall other :: other != name ==> checkpoints.At(other) == old(checkpoints.At(other))
        invariant (forall turn :: turn in turns ==> turn.1.None?) ==> seqNo >= Min(start + i, |old(inbox.msgs)|)
      {
        ghost var was := inbox.msgs;
        TakeIn(turns[i].0);
        ReachedGrows(handle, was, inbox.msgs, before, start, tables.content, seqNo, seqNo);
        var done;
        seqNo, done, err, pos := Pass(seqNo, turns[i].1, handle, before, start);
        assert turns[i] in turns;
        if !done {
          return;
        }
      }
    }

    /** What the inbox writers store in the meantime. */
    method TakeIn(arrivals: seq<Message<B>>)
      requires inbox.Valid()
      modifies inbox
      ensures inbox.Valid() && old(inbox.msgs) <= inbox.msgs
      ensures Contents(inbox.msgs) == AllReceived(Contents(old(inbox.msgs)), arrivals, |arrivals|)
    {
      ghost var given := Contents(inbox.msgs);
      for i := 0 to |arrivals|
        invariant inbox.Valid() && old(inbox.msgs) <= inbox.msgs
        invariant Contents(inbox.msgs) == AllReceived(given, arrivals, i)
      {
        inbox.Append(arrivals[i]);
      }
    }

    method Pass(seqNo: int, stopAt: Option<nat>,
                ghost handle: Transition<T, InboxMessage<B>>, ghost before: T, ghost start: int)
      returns (next: int, done: bool, err: Option<Error>, ghost pos: int)
      requires inbox.Valid() && seqNo == Cursor()
      requires Reached(handle, inbox.msgs, before, start, tables.content, seqNo, seqNo, None)
      requires handle == Handling()
      modifies tables, checkpoints
      ensures next == Cursor()
      ensures Reached(handle, inbox.msgs, before, start, tables.content, next, pos, err)
      ensures done ==> err.None? && pos == next == Min(seqNo + batchSize, |inbox.msgs|)
      ensures err.None? && stopAt.None? ==> done
      ensures forall other :: other != projection.InboxCheckpoint() ==>
        checkpoints.At(other) == old(checkpoints.At(other))
    {
      next, done, err, pos := seqNo, true, None, seqNo;
      var msgs := inbox.ReadAll(seqNo, batchSize);
      if |msgs| == 0 {
        return;
      }
      ghost var end := seqNo + |msgs|;
      assert msgs == inbox.msgs[seqNo..end];
      assert msgs[|msgs| - 1] == inbox.msgs[end - 1];
      done, err, pos := HandleBatch(msgs, stopAt, handle, before, start, seqNo);
      if !done {
        return;
      }
      next := msgs[|msgs| - 1].seqNo;
      checkpoints.Set(projection.InboxCheckpoint(), next);
    }
  }

  // ---- What runs add up to ---------------------------------------------

  /** Handlers that succeed: a run's effect is a fold over the items it handled. */
  lemma {:induction false} ReplayIsFold<T(!new), I(!new)>(
    handle: Transition<T, I>, apply: Handling<T, I>, t: T, items: seq<I>)
    requires forall u, i {:trigger handle(u, i)} :: handle(u, i) == Applied(apply(u, i), None)
    ensures Replay(handle, t, items) == Applied(Fold(apply, t, items), None)
  {
    if items != [] {
      var init, last := items[..|items| - 1], items[|items| - 1];
      ReplayIsFold(handle, apply, t, init);
      ReplaySnoc(handle, t, init, last);
      assert init + [last] == items;
    }
  }

  lemma {:induction false} FoldConcat<T, I>(apply: Handling<T, I>, t: T, a: seq<I>, b: seq<I>)
    ensures Fold(apply, t, a + b) == Fold(apply, Fold(apply, t, a), b)
  {
    if b == [] {
      assert a + b == a;
    } else {
      FoldConcat(apply, t, a, b[..|b| - 1]);
      assert (a + b)[..|a + b| - 1] == a + b[..|b| - 1];
    }
  }

  lemma Overlap<I(!new)>(log: seq<I>, cp: int, pos: int)
    requires 0 <= cp <= pos <= |log|
    ensures SameItems(log, log[0..pos] + log[cp..|log|])
  {
    var twice := log[0..pos] + log[cp..|log|];
    forall i ensures i in log <==> i in twice {
      if i in log {
        var k :| 0 <= k < |log| && log[k] == i;
        if k < pos {
          assert twice[k] == i;
        } else {
          assert twice[pos + (k - cp)] == i;
        }
      }
    }
  }

  /**
   * Restarting from the checkpoint makes up for a stopped run. If the first run
   * got to `pos` with its checkpoint at cp, and the next goes from cp to the end,
   * then with handlers that keep the projection contract the tables are as if
   * every item had been handled exactly once.
   */
  lemma Resumed<T(!new), I(!new)>(
    handle: Transition<T, I>, apply: Handling<T, I>, log: seq<I>, empty: T, mid: T, after: T, cp: int, pos: int)
    requires forall u, i {:trigger handle(u, i)} :: handle(u, i) == Applied(apply(u, i), None)
    requires Tame(apply, log)
    requires Reached(handle, log, empty, 0, mid, cp, pos, None)
    requires Reached(handle, log, mid, cp, after, |log|, |log|, None)
    ensures after == Fold(apply, empty, log)
  {
    ReplayIsFold(handle, apply, empty, log[0..pos]);
    ReplayIsFold(handle, apply, mid, log[cp..|log|]);
    FoldConcat(apply, empty, log[0..pos], log[cp..|log|]);
    Overlap(log, cp, pos);
    Converges(apply, empty, log, log[0..pos] + log[cp..|log|]);
  }

  /**
   * What waiting for a save's position buys: the checkpoint the wait saw is at
   * least seqNo, so in the tables the runner left, every record up to seqNo
   * shows, in that applying it again would change nothing.
   */
  lemma SavedShows<T(!new), I(!new)>(
    handle: Transition<T, I>, apply: Handling<T, I>, log: seq<I>, empty: T, tables: T, cp: int, pos: int, seqNo: int)
    requires forall u, i {:trigger handle(u, i)} :: handle(u, i) == Applied(apply(u, i), None)
    requires Tame(apply, log)
    requires Reached(handle, log, empty, 0, tables, cp, pos, None) && seqNo <= cp
    ensures forall k :: 0 <= k < seqNo ==> apply(tables, log[k]) == tables
  {
    ReplayIsFold(handle, apply, empty, log[0..pos]);
    forall k | 0 <= k < seqNo ensures apply(tables, log[k]) == tables {
      assert log[0..pos][k] == log[k];
      assert forall i :: i in log[0..pos] ==> i in log;
      Absorbs(apply, empty, log[0..pos], log[k]);
    }
  }

  // ---- Reset and wait --------------------------------------------------

  /** Both cursors go back to the start, and no other. */
  method Reset<T, E, B>(checkpoints: MemoryCheckpointStore, p: Projection<T, E, B>)
    modifies checkpoints
    ensures checkpoints.At(p.StoreCheckpoint()) == 0 && checkpoints.At(p.InboxCheckpoint()) == 0
    ensures forall other :: other != p.StoreCheckpoint() && other != p.InboxCheckpoint() ==>
      checkpoints.At(other) == old(checkpoints.At(other))
  {
    checkpoints.Set(p.StoreCheckpoint(), 0);
    checkpoints.Set(p.InboxCheckpoint(), 0);
  }

  /**
   * Polls the checkpoint until it reaches seqNo or the time is up; `progress`
   * is what a runner sets it to between two polls. Success means nothing was
   * asked for or the checkpoint is there now; failure means it was short of it
   * at every poll.
   */
  method WaitForCheckpoint(checkpoints: MemoryCheckpointStore, name: string, seqNo: int, progress: seq<int>)
    returns (reached: bool, polls: nat)
    modifies checkpoints
    ensures reached ==> seqNo <= 0 || checkpoints.At(name) >= seqNo
    ensures seqNo <= 0 ==> reached && polls == 0 && checkpoints.positions == old(checkpoints.positions)
    ensures !reached ==> old(checkpoints.At(name)) < seqNo && forall v :: v in progress ==> v < seqNo
    ensures polls <= |progress| && (!reached ==> polls == |progress|)
    ensures checkpoints.At(name) == if polls == 0 then old(checkpoints.At(name)) else progress[polls - 1]
    ensures forall other :: other != name ==> checkpoints.At(other) == old(checkpoints.At(other))
  {
    polls := 0;
    if seqNo <= 0 {
      return true, 0;
    }
    while true
      invariant polls <= |progress|
      invariant checkpoints.At(name) == if polls == 0 then old(checkpoints.At(name)) else progress[polls - 1]
      invariant polls > 0 ==> old(checkpoints.At(name)) < seqNo
      invariant forall k :: 0 <= k < polls - 1 ==> progress[k] < seqNo
      invariant forall other :: other != name ==> checkpoints.At(other) == old(checkpoints.At(other))
      decreases |progress| - polls
    {
      var cur := checkpoints.Get(name);
      if cur >= seqNo {
        return true, polls;
      }
      if polls == |progress| {
        return false, polls;
      }
      checkpoints.Set(name, progress[polls]);
      polls := polls + 1;
    }
  }
}
