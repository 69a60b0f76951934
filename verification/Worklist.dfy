/**
 * The notification worklist (ordering/internal/adapters/postgres/notifications.go)
 * and the worker that drains it (ordering/internal/app/notifier.go).
 */
module Worklist {
  import opened Wrappers
  import opened EventStore
  import opened Registry
  import opened Contracts
  import opened CommandHandling
  import opened Ordering

  /** One row per order and reason, numbered by a counter that never goes back. */
  datatype Row = Row(id: nat, orderId: string, reason: string, sent: bool)

  predicate Queued(rows: seq<Row>, orderId: string, reason: string) {
    exists r :: r in rows && r.orderId == orderId && r.reason == reason
  }

  /** Enqueuing what is already queued, sent or not, does nothing to the rows. */
  function Enqueued(rows: seq<Row>, nextId: nat, orderId: string, reason: string): seq<Row> {
    if Queued(rows, orderId, reason) then rows else rows + [Row(nextId, orderId, reason, false)]
  }

  /** The oldest rows not yet sent, at most `limit` of them, by age. */
  ghost predicate Oldest(rows: seq<Row>, limit: nat, out: seq<Row>) {
    && |out| <= limit
    && (forall i, j :: 0 <= i < j < |out| ==> out[i].id < out[j].id)
    && (forall r :: r in out ==> r in rows && !r.sent)
    && (forall r :: r in rows && !r.sent && r !in out ==> |out| == limit && forall o :: o in out ==> o.id < r.id)
  }

  function Marked(rows: seq<Row>, id: nat): (after: seq<Row>)
    ensures |after| == |rows|
    ensures forall k :: 0 <= k < |rows| ==> after[k] == if rows[k].id == id then rows[k].(sent := true) else rows[k]
  {
    seq(|rows|, k requires 0 <= k < |rows| => if rows[k].id == id then rows[k].(sent := true) else rows[k])
  }

  /** Rows are numbered in order, and no order is queued twice for one reason. */
  ghost predicate RowsInv(rows: seq<Row>, nextId: nat) {
    && (forall i :: 0 <= i < |rows| ==> rows[i].id < nextId)
    && (forall i, j :: 0 <= i < j < |rows| ==> rows[i].id < rows[j].id)
    && (forall i, j :: 0 <= i < j < |rows| ==> rows[i].orderId != rows[j].orderId || rows[i].reason != rows[j].reason)
  }

  lemma EnqueuedKeeps(rows: seq<Row>, nextId: nat, orderId: string, reason: string)
    requires RowsInv(rows, nextId)
    ensures RowsInv(Enqueued(rows, nextId, orderId, reason), nextId + 1)
    ensures Queued(Enqueued(rows, nextId, orderId, reason), orderId, reason)
  {
    var after := Enqueued(rows, nextId, orderId, reason);
    if !Queued(rows, orderId, reason) {
      assert forall i :: 0 <= i < |rows| ==> rows[i] in rows;
      assert after[|rows|] in after;
    }
  }

  /** The next row is claimed if it is unsent and there is room for it. */
  lemma OldestTakes(rows: seq<Row>, row: Row, limit: nat, out: seq<Row>)
    requires Oldest(rows, limit, out) && forall r :: r in rows ==> r.id < row.id
    requires !row.sent && |out| < limit
    ensures Oldest(rows + [row], limit, out + [row])
  {
    assert forall r :: r in rows + [row] <==> r in rows || r == row;
    assert forall r :: r in out + [row] <==> r in out || r == row;
  }

  lemma OldestSkips(rows: seq<Row>, row: Row, limit: nat, out: seq<Row>)
    requires Oldest(rows, limit, out) && forall r :: r in rows ==> r.id < row.id
    requires row.sent || |out| == limit
    ensures Oldest(rows + [row], limit, out)
  {
    assert forall r :: r in rows + [row] <==> r in rows || r == row;
  }

  /** The rows once the first k milestones are enqueued, one after the other. */
  function AllEnqueued(rows: seq<Row>, nextId: nat, milestones: seq<(string, string)>, k: nat): seq<Row>
    requires k <= |milestones|
  {
    if k == 0 then rows
    else
      Enqueued(AllEnqueued(rows, nextId, milestones, k - 1), nextId + k - 1, milestones[k - 1].0, milestones[k - 1].1)
  }

  lemma EnqueuedNext(
    rows: seq<Row>, nextId: nat, milestones: seq<(string, string)>, k: nat, now: seq<Row>, number: nat,
    next: seq<Row>)
    requires k < |milestones| && now == AllEnqueued(rows, nextId, milestones, k) && number == nextId + k
    requires next == Enqueued(now, number, milestones[k].0, milestones[k].1)
    ensures next == AllEnqueued(rows, nextId, milestones, k + 1)
  {
  }

  ghost predicate AllQueued(rows: seq<Row>, milestones: seq<(string, string)>, k: nat)
    requires k <= |milestones|
  {
    forall i :: 0 <= i < k ==> Queued(rows, milestones[i].0, milestones[i].1)
  }

  lemma {:induction false} AllAreQueued(rows: seq<Row>, nextId: nat, milestones: seq<(string, string)>, k: nat)
    requires k <= |milestones|
    ensures rows <= AllEnqueued(rows, nextId, milestones, k)
    ensures AllQueued(AllEnqueued(rows, nextId, milestones, k), milestones, k)
  {
    if k > 0 {
      AllAreQueued(rows, nextId, milestones, k - 1);
      var before, after := AllEnqueued(rows, nextId, milestones, k - 1), AllEnqueued(rows, nextId, milestones, k);
      if before != after {
        assert after[|before|] in after;
      }
      assert forall r :: r in before ==> r in after;
    }
  }

  class NotificationQueue {
    var rows: seq<Row>
    var nextId: nat

    ghost predicate Valid()
      reads this
    {
      RowsInv(rows, nextId)
    }

    constructor ()
      ensures Valid() && rows == []
    {
      rows, nextId := [], 1;
    }

    /** The counter advances even when the row is already there. */
    method Enqueue(orderId: string, reason: string)
      requires Valid()
      modifies this
      ensures Valid()
      ensures rows == Enqueued(old(rows), old(nextId), orderId, reason) && nextId == old(nextId) + 1
      ensures Queued(rows, orderId, reason)
    {
      EnqueuedKeeps(rows, nextId, orderId, reason);
      if !exists r :: r in rows && r.orderId == orderId && r.reason == reason {
        rows := rows + [Row(nextId, orderId, reason, false)];
      }
      nextId := nextId + 1;
    }

    method EnqueueAll(milestones: seq<(string, string)>)
      requires Valid()
      modifies this
      ensures Valid()
      ensures rows == AllEnqueued(old(rows), old(nextId), milestones, |milestones|)
      ensures nextId == old(nextId) + |milestones|
      ensures old(rows) <= rows && AllQueued(rows, milestones, |milestones|)
    {
      ghost var before, id := rows, nextId;
      for k := 0 to |milestones|
        invariant Valid() && rows == AllEnqueued(before, id, milestones, k) && nextId == id + k
      {
        ghost var now, number := rows, nextId;
        Enqueue(milestones[k].0, milestones[k].1);
        EnqueuedNext(before, id, milestones, k, now, number, rows);
      }
      AllAreQueued(before, id, milestones, |milestones|);
    }

    /** What is left to send, by age, at most `limit` rows. */
    method Pending(limit: nat) returns (out: seq<Row>)
      requires Valid()
      ensures Oldest(rows, limit, out)
    {
      out := [];
      for k := 0 to |rows|
        invariant Oldest(rows[..k], limit, out)
      {
        assert forall r :: r in rows[..k] ==> r.id < rows[k].id;
        assert rows[..k + 1] == rows[..k] + [rows[k]];
        if !rows[k].sent && |out| < limit {
          OldestTakes(rows[..k], rows[k], limit, out);
          out := out + [rows[k]];
        } else {
          OldestSkips(rows[..k], rows[k], limit, out);
        }
      }
      assert rows[..|rows|] == rows;
    }

    method MarkSent(id: nat)
      requires Valid()
      modifies this`rows
      ensures Valid()
      ensures rows == Marked(old(rows), id)
    {
      ghost var before := rows;
      for k := 0 to |rows|
        invariant |rows| == |before|
        invariant forall i :: 0 <= i < |rows| ==>
          rows[i] == if i < k && before[i].id == id then before[i].(sent := true) else before[i]
      {
        if rows[k].id == id && !rows[k].sent {
          rows := rows[k := rows[k].(sent := true)];
        }
      }
    }
  }

  // ---- The worker ------------------------------------------------------

  /** The stream of an order holds the notification a row asks for. */
  ghost predicate Told<P>(entries: Entries<Event, P>, log: Log<P>, row: Row) {
    ParseOrderID(row.orderId).Some? &&
    exists d :: d in Events(log, StreamID(CATEGORY, ParseOrderID(row.orderId).value))
      && Notifies(entries, d, row.reason)
  }

  ghost predicate Notifies<P>(entries: Entries<Event, P>, d: EventData<P>, reason: string) {
    DecodeData(entries, d).Ok? && DecodeData(entries, d).value.CustomerNotified?
      && DecodeData(entries, d).value.reason == reason
  }

  lemma ToldStays<P>(entries: Entries<Event, P>, log: Log<P>, after: Log<P>, row: Row)
    requires Told(entries, log, row) && log <= after
    ensures Told(entries, after, row)
  {
    StreamGrows(log, after, StreamID(CATEGORY, ParseOrderID(row.orderId).value));
  }

  /** Every event of a decoded history comes from a stored one. */
  lemma {:induction false} DecodedFrom<P>(entries: Entries<Event, P>, ds: seq<EventData<P>>, reason: string)
    requires DecodeAll(entries, ds).Ok? && Tells(DecodeAll(entries, ds).value, reason)
    ensures exists d :: d in ds && Notifies(entries, d, reason)
  {
    var init, last := ds[..|ds| - 1], ds[|ds| - 1];
    var es := DecodeAll(entries, init).value;
    var e :| e in DecodeAll(entries, ds).value && e.CustomerNotified? && e.reason == reason;
    if e in es {
      DecodedFrom(entries, init, reason);
      var d :| d in init && Notifies(entries, d, reason);
      assert d in ds;
    } else {
      assert last in ds && Notifies(entries, last, reason);
    }
  }

  /** A notify command that followed its reaction without an error left the notification in the stream. */
  lemma NotifyTells<P>(
    entries: Entries<Event, P>, codec: Codec<Event, P>, before: Log<P>, row: Row, after: Log<P>)
    requires Inverse(entries, codec) && ParseOrderID(row.orderId).Some?
    requires Follows(entries, codec, React, StreamID(CATEGORY, ParseOrderID(row.orderId).value), before,
                     NotifyCustomer(row.orderId, row.reason), after, None)
    ensures Told(entries, after, row)
  {
    var stream, cmd := StreamID(CATEGORY, ParseOrderID(row.orderId).value), NotifyCustomer(row.orderId, row.reason);
    var ds := Events(before, stream);
    var history := DecodeAll(entries, ds).value;
    NotifySucceeds(history, cmd);
    if React(history, cmd).Emit? {
      var es := React(history, cmd).events;
      DecodeAppended(entries, codec, ds, history, es);
      AppendAllLaw(before, stream, EncodeAll(entries, codec, es).value);
    } else {
      assert history + [] == history;
    }
    DecodedFrom(entries, Events(after, stream), row.reason);
  }

  /** Only what was told is marked as sent. */
  ghost predicate SentMeansTold<P>(entries: Entries<Event, P>, log: Log<P>, rows: seq<Row>) {
    forall r :: r in rows && r.sent ==> Told(entries, log, r)
  }

  lemma {:induction false} EnqueuedTold<P>(
    entries: Entries<Event, P>, log: Log<P>, rows: seq<Row>, nextId: nat, milestones: seq<(string, string)>, k: nat)
    requires SentMeansTold(entries, log, rows) && k <= |milestones|
    ensures SentMeansTold(entries, log, AllEnqueued(rows, nextId, milestones, k))
  {
    if k > 0 {
      EnqueuedTold(entries, log, rows, nextId, milestones, k - 1);
    }
  }

  lemma MarkedTold<P>(entries: Entries<Event, P>, log: Log<P>, rows: seq<Row>, row: Row)
    requires SentMeansTold(entries, log, rows) && Told(entries, log, row)
    requires forall r :: r in rows && r.id == row.id ==> r.orderId == row.orderId && r.reason == row.reason
    ensures SentMeansTold(entries, log, Marked(rows, row.id))
  {
    var after := Marked(rows, row.id);
    forall r | r in after && r.sent ensures Told(entries, log, r) {
      var k :| 0 <= k < |after| && after[k] == r;
      assert rows[k] in rows;
      assert Told(entries, log, r) == Told(entries, log, rows[k]);
    }
  }

  const DEFAULT_BATCH := 50
  const ATTEMPTS := 3

  /** What others append before each attempt at a row, and whether the worker dies before marking it. */
  datatype Turn<P> = Turn(ops: seq<seq<Op<P>>>, crash: bool)

  function OpsAt<P>(ops: seq<seq<Op<P>>>, k: nat): seq<Op<P>> { if k < |ops| then ops[k] else [] }

  function TurnAt<P>(turns: seq<Turn<P>>, k: nat): Turn<P> { if k < |turns| then turns[k] else Turn([], false) }

  // ---- What a run of the worker is -------------------------------------

  /** One attempt at a row: the log before others and the attempt, the log it left, and its error. */
  datatype Try<P> = Try(found: Log<P>, left: Log<P>, err: Option<Error>)

  /** An attempt is one notify command on the log as others have made it; a malformed order ID is rejected. */
  ghost predicate Tried<P>(
    entries: Entries<Event, P>, codec: Codec<Event, P>, row: Row, ops: seq<Op<P>>, t: Try<P>)
  {
    match ParseOrderID(row.orderId)
    case None => t.err == Some(DomainError("invalid_id")) && t.left == ApplyOps(t.found, ops)
    case Some(id) =>
      Follows(entries, codec, React, StreamID(CATEGORY, id), ApplyOps(t.found, ops),
              NotifyCustomer(row.orderId, row.reason), t.left, t.err)
  }

  ghost predicate Passing(err: Option<Error>) { err.Some? && !err.value.DomainError? }

  /**
   * A dispatch: up to three attempts, each on what the one before left, and another
   * one exactly if the last failed in a way that may pass.
   */
  ghost predicate Dispatched<P>(
    entries: Entries<Event, P>, codec: Codec<Event, P>, row: Row, ops: seq<seq<Op<P>>>, log: Log<P>,
    tries: seq<Try<P>>)
  {
    && 1 <= |tries| <= 3 && tries[0].found == log
    && (forall k :: 0 <= k < |tries| ==> Tried(entries, codec, row, OpsAt(ops, k), tries[k]))
    && (forall k :: 0 <= k < |tries| - 1 ==> Passing(tries[k].err) && tries[k + 1].found == tries[k].left)
    && (|tries| < 3 ==> !Passing(tries[|tries| - 1].err))
  }

  function Last<P>(tries: seq<Try<P>>): Try<P>
    requires tries != []
  {
    tries[|tries| - 1]
  }

  ghost predicate SentOne<P>(
    entries: Entries<Event, P>, codec: Codec<Event, P>, row: Row, ops: seq<seq<Op<P>>>, tries: seq<Try<P>>)
  {
    tries != [] && Dispatched(entries, codec, row, ops, tries[0].found, tries)
  }

  /** One dispatch starts on the log that the one before left. */
  ghost predicate Next<P>(tries: seq<Try<P>>, next: seq<Try<P>>) {
    tries != [] && next != [] && next[0].found == Last(tries).left
  }

  /** A tick's dispatches, one for each claimed row in order, each on the log the one before left. */
  ghost predicate Ticked<P>(
    entries: Entries<Event, P>, codec: Codec<Event, P>, claimed: seq<Row>, turns: seq<Turn<P>>, log: Log<P>,
    sends: seq<seq<Try<P>>>, left: Log<P>)
  {
    && |sends| <= |claimed|
    && (forall k :: 0 <= k < |sends| ==> SentOne(entries, codec, claimed[k], TurnAt(turns, k).ops, sends[k]))
    && (forall k :: 0 <= k < |sends| - 1 ==> Next(sends[k], sends[k + 1]))
    && (if sends == [] then left == log else sends[0][0].found == log && left == Last(sends[|sends| - 1]).left)
  }

  /** The k-th claimed row was dispatched without an error, and the worker lived to mark it. */
  ghost predicate Retires<P>(turns: seq<Turn<P>>, sends: seq<seq<Try<P>>>, k: nat) {
    k < |sends| && sends[k] != [] && Last(sends[k]).err.None? && !TurnAt(turns, k).crash
  }

  /** The rows after a tick: exactly those of its claimed rows that it retires are sent now. */
  ghost predicate RowsAfter<P>(
    rows: seq<Row>, claimed: seq<Row>, turns: seq<Turn<P>>, sends: seq<seq<Try<P>>>, after: seq<Row>)
  {
    && |after| == |rows|
    && forall j :: 0 <= j < |rows| ==>
      after[j] == rows[j].(sent := rows[j].sent || Retired(claimed, turns, sends, rows[j]))
  }

  ghost predicate Retired<P>(claimed: seq<Row>, turns: seq<Turn<P>>, sends: seq<seq<Try<P>>>, row: Row) {
    exists k :: Claims(claimed, k, row) && Retires(turns, sends, k)
  }

  ghost predicate Claims(claimed: seq<Row>, k: nat, row: Row) {
    k < |claimed| && claimed[k].id == row.id
  }

  /** What is enqueued before a tick, and what happens to the worker in it. */
  type Tick<P> = (seq<(string, string)>, seq<Turn<P>>)

  /** The worklist with its counter, and the log. */
  datatype Sheet<P> = Sheet(rows: seq<Row>, nextId: nat, log: Log<P>)

  /** What a tick found, the rows it claimed, its dispatches of them, and what it left. */
  datatype Worked<P> = Worked(found: Sheet<P>, claimed: seq<Row>, sends: seq<seq<Try<P>>>, left: Sheet<P>)

  /** One tick: the oldest rows not yet sent are claimed and dispatched, and retired where that succeeds. */
  ghost predicate TickWorked<P>(
    entries: Entries<Event, P>, codec: Codec<Event, P>, batchSize: nat, tick: Tick<P>, w: Worked<P>)
  {
    var rows := AllEnqueued(w.found.rows, w.found.nextId, tick.0, |tick.0|);
    && Oldest(rows, batchSize, w.claimed) && |w.sends| == |w.claimed|
    && Ticked(entries, codec, w.claimed, tick.1, w.found.log, w.sends, w.left.log)
    && RowsAfter(rows, w.claimed, tick.1, w.sends, w.left.rows)
    && w.left.nextId == w.found.nextId + |tick.0|
  }

  /** A whole run: tick after tick, each on what the one before left. */
  ghost predicate Working<P>(
    entries: Entries<Event, P>, codec: Codec<Event, P>, batchSize: nat, ticks: seq<Tick<P>>, start: Sheet<P>,
    work: seq<Worked<P>>, end: Sheet<P>)
  {
    && |work| <= |ticks|
    && (forall i :: 0 <= i < |work| ==> TickWorked(entries, codec, batchSize, ticks[i], work[i]))
    && (forall i :: 0 <= i < |work| - 1 ==> work[i + 1].found == work[i].left)
    && (if work == [] then end == start else work[0].found == start && end == work[|work| - 1].left)
  }

  /** A dispatch under way: every attempt so far failed in a way that may pass. */
  ghost predicate Trying<P>(
    entries: Entries<Event, P>, codec: Codec<Event, P>, row: Row, ops: seq<seq<Op<P>>>, log: Log<P>,
    tries: seq<Try<P>>, now: Log<P>)
  {
    && (if tries == [] then now == log else tries[0].found == log && now == Last(tries).left)
    && (forall k :: 0 <= k < |tries| ==> Tried(entries, codec, row, OpsAt(ops, k), tries[k]))
    && (forall k :: 0 <= k < |tries| ==> Passing(tries[k].err))
    && (forall k :: 0 <= k < |tries| - 1 ==> tries[k + 1].found == tries[k].left)
  }

  lemma TryingSnoc<P>(
    entries: Entries<Event, P>, codec: Codec<Event, P>, row: Row, ops: seq<seq<Op<P>>>, log: Log<P>,
    tries: seq<Try<P>>, t: Try<P>)
    requires Trying(entries, codec, row, ops, log, tries, t.found) && |tries| < 3
    requires Tried(entries, codec, row, OpsAt(ops, |tries|), t)
    ensures Passing(t.err) ==> Trying(entries, codec, row, ops, log, tries + [t], t.left)
    ensures !Passing(t.err) || |tries| == 2 ==> Dispatched(entries, codec, row, ops, log, tries + [t])
  {
    AllTried(entries, codec, row, ops, tries, t);
    TriesChain(tries, t);
  }

  lemma TriesChain<P>(tries: seq<Try<P>>, t: Try<P>)
    requires forall k :: 0 <= k < |tries| ==> Passing(tries[k].err)
    requires forall k :: 0 <= k < |tries| - 1 ==> tries[k + 1].found == tries[k].left
    requires tries != [] ==> t.found == Last(tries).left
    ensures forall k :: 0 <= k < |tries| ==>
      Passing((tries + [t])[k].err) && (tries + [t])[k + 1].found == (tries + [t])[k].left
  {
  }

  lemma AllTried<P>(
    entries: Entries<Event, P>, codec: Codec<Event, P>, row: Row, ops: seq<seq<Op<P>>>, tries: seq<Try<P>>, t: Try<P>)
    requires forall k :: 0 <= k < |tries| ==> Tried(entries, codec, row, OpsAt(ops, k), tries[k])
    requires Tried(entries, codec, row, OpsAt(ops, |tries|), t)
    ensures forall k :: 0 <= k < |tries + [t]| ==> Tried(entries, codec, row, OpsAt(ops, k), (tries + [t])[k])
  {
  }

  /** What a tick reports is what its dispatches reported, and what succeeded was told. */
  ghost predicate Reported<P>(
    entries: Entries<Event, P>, log: Log<P>, claimed: seq<Row>, errs: seq<Option<Error>>, sends: seq<seq<Try<P>>>)
  {
    && |errs| == |sends| <= |claimed|
    && forall k :: 0 <= k < |errs| ==>
      && sends[k] != [] && errs[k] == Last(sends[k]).err
      && (errs[k].None? ==> Told(entries, log, claimed[k]))
  }

  lemma ReportedSnoc<P>(
    entries: Entries<Event, P>, log: Log<P>, after: Log<P>, claimed: seq<Row>, errs: seq<Option<Error>>,
    sends: seq<seq<Try<P>>>, tries: seq<Try<P>>)
    requires Reported(entries, log, claimed, errs, sends) && |errs| < |claimed| && log <= after && tries != []
    requires Last(tries).err.None? ==> Told(entries, after, claimed[|errs|])
    ensures Reported(entries, after, claimed, errs + [Last(tries).err], sends + [tries])
  {
    forall k | 0 <= k < |errs| && errs[k].None? ensures Told(entries, after, claimed[k]) {
      ToldStays(entries, log, after, claimed[k]);
    }
  }

  class Notifier<!P> {
    const queue: NotificationQueue
    const handlers: Handlers<P>
    const batchSize: Positive

    constructor (queue: NotificationQueue, handlers: Handlers<P>, batchSize: int)
      ensures this.queue == queue && this.handlers == handlers
      ensures this.batchSize == if batchSize <= 0 then DEFAULT_BATCH else batchSize
    {
      this.queue, this.handlers := queue, handlers;
      this.batchSize := if batchSize <= 0 then DEFAULT_BATCH else batchSize;
    }

    ghost predicate Ready()
      reads this, queue, handlers, handlers.orders, handlers.orders.store, handlers.orders.registry
    {
      && queue.Valid() && handlers.Ready()
      && Inverse(handlers.orders.registry.entries, handlers.orders.registry.codec)
      && SentMeansTold(handlers.orders.registry.entries, handlers.orders.store.all, queue.rows)
    }

    /** The bus tries up to three times, and not again after a success or a definitive rejection. */
    method Dispatch(row: Row, ops: seq<seq<Op<P>>>) returns (err: Option<Error>, ghost tries: seq<Try<P>>)
      requires Ready()
      modifies handlers.orders.store
      ensures Ready() && old(handlers.orders.store.all) <= handlers.orders.store.all
      ensures Dispatched(
        handlers.orders.registry.entries, handlers.orders.registry.codec, row, ops, old(handlers.orders.store.all),
        tries)
      ensures Last(tries).left == handlers.orders.store.all && Last(tries).err == err
      ensures err.None? ==> Told(handlers.orders.registry.entries, handlers.orders.store.all, row)
    {
      err, tries := None, [];
      ghost var entries, codec := handlers.orders.registry.entries, handlers.orders.registry.codec;
      ghost var log := handlers.orders.store.all;
      for attempt := 0 to ATTEMPTS
        invariant Ready() && log <= handlers.orders.store.all && |tries| == attempt
        invariant Trying(entries, codec, row, ops, log, tries, handlers.orders.store.all)
        invariant attempt > 0 ==> err == Last(tries).err && Passing(err)
        invariant attempt == 3 ==> Dispatched(entries, codec, row, ops, log, tries)
      {
        ghost var t: Try<P>;
        err, t := Attempt(row, OpsAt(ops, attempt));
        TryingSnoc(entries, codec, row, ops, log, tries, t);
        tries := tries + [t];
        if err.None? || err.value.DomainError? {
          return;
        }
      }
    }

    method Attempt(row: Row, ops: seq<Op<P>>) returns (err: Option<Error>, ghost t: Try<P>)
      requires Ready()
      modifies handlers.orders.store
      ensures Ready() && old(handlers.orders.store.all) <= handlers.orders.store.all
      ensures t == Try(old(handlers.orders.store.all), handlers.orders.store.all, err)
      ensures Tried(handlers.orders.registry.entries, handlers.orders.registry.codec, row, ops, t)
      ensures err.None? ==> Told(handlers.orders.registry.entries, handlers.orders.store.all, row)
    {
      Interference(ops);
      ghost var before := handlers.orders.store.all;
      err := handlers.NotifyCustomer(NotifyCustomer(row.orderId, row.reason));
      Grown(before, row, err);
      t := Try(old(handlers.orders.store.all), handlers.orders.store.all, err);
    }

    method Interference(ops: seq<Op<P>>)
      requires Ready()
      modifies handlers.orders.store
      ensures Ready() && old(handlers.orders.store.all) <= handlers.orders.store.all
      ensures handlers.orders.store.all == ApplyOps(old(handlers.orders.store.all), ops)
    {
      ghost var before := handlers.orders.store.all;
      handlers.orders.store.Others(ops);
      ApplyOpsGrows(before, ops);
      StillTold(before);
    }

    /** Rows that were told stay told. */
    lemma StillTold(before: Log<P>)
      requires before <= handlers.orders.store.all
      requires SentMeansTold(handlers.orders.registry.entries, before, queue.rows)
      ensures SentMeansTold(handlers.orders.registry.entries, handlers.orders.store.all, queue.rows)
    {
      forall r | r in queue.rows && r.sent
        ensures Told(handlers.orders.registry.entries, handlers.orders.store.all, r) {
        ToldStays(handlers.orders.registry.entries, before, handlers.orders.store.all, r);
      }
    }

    lemma Grown(before: Log<P>, row: Row, err: Option<Error>)
      requires Inverse(handlers.orders.registry.entries, handlers.orders.registry.codec)
      requires SentMeansTold(handlers.orders.registry.entries, before, queue.rows)
      requires match ParseOrderID(row.orderId)
        case None => err.Some? && handlers.orders.store.all == before
        case Some(id) =>
          Follows(handlers.orders.registry.entries, handlers.orders.registry.codec, React, StreamID(CATEGORY, id),
                  before, NotifyCustomer(row.orderId, row.reason), handlers.orders.store.all, err)
      ensures before <= handlers.orders.store.all
      ensures SentMeansTold(handlers.orders.registry.entries, handlers.orders.store.all, queue.rows)
      ensures err.None? ==> Told(handlers.orders.registry.entries, handlers.orders.store.all, row)
    {
      var entries, codec := handlers.orders.registry.entries, handlers.orders.registry.codec;
      if ParseOrderID(row.orderId).Some? {
        FollowsGrows(entries, codec, StreamID(CATEGORY, ParseOrderID(row.orderId).value), before,
                     NotifyCustomer(row.orderId, row.reason), handlers.orders.store.all, err);
        if err.None? {
          NotifyTells(entries, codec, before, row, handlers.orders.store.all);
        }
      }
      StillTold(before);
    }

    /**
     * A row is marked exactly when its command succeeded and the worker lived to
     * mark it; otherwise it stays pending for the next tick.
     */
    method Send(row: Row, turn: Turn<P>) returns (err: Option<Error>, ghost tries: seq<Try<P>>)
      requires Ready()
      requires forall r :: r in queue.rows && r.id == row.id ==> r.orderId == row.orderId && r.reason == row.reason
      modifies handlers.orders.store, queue`rows
      ensures Ready() && old(handlers.orders.store.all) <= handlers.orders.store.all
      ensures Dispatched(
        handlers.orders.registry.entries, handlers.orders.registry.codec, row, turn.ops,
        old(handlers.orders.store.all), tries)
      ensures Last(tries).left == handlers.orders.store.all && Last(tries).err == err
      ensures queue.rows == if err.Some? || turn.crash then old(queue.rows) else Marked(old(queue.rows), row.id)
      ensures err.None? ==> Told(handlers.orders.registry.entries, handlers.orders.store.all, row)
    {
      err, tries := Dispatch(row, turn.ops);
      if err.Some? || turn.crash {
        return;
      }
      MarkedTold(handlers.orders.registry.entries, handlers.orders.store.all, queue.rows, row);
      queue.MarkSent(row.id);
    }

    /** Works one claimed batch, and reports what came of each row. */
    method Tick(pending: seq<Row>, turns: seq<Turn<P>>)
      returns (errs: seq<Option<Error>>, ghost sends: seq<seq<Try<P>>>)
      requires Ready() && SameWork(pending, queue.rows)
      modifies handlers.orders.store, queue`rows
      ensures Ready() && old(handlers.orders.store.all) <= handlers.orders.store.all
      ensures |errs| == |pending|
      ensures Ticked(
        handlers.orders.registry.entries, handlers.orders.registry.codec, pending, turns,
        old(handlers.orders.store.all), sends, handlers.orders.store.all)
      ensures RowsAfter(old(queue.rows), pending, turns, sends, queue.rows)
      ensures Reported(handlers.orders.registry.entries, handlers.orders.store.all, pending, errs, sends)
      ensures forall k, r ::
        0 <= k < |pending| && r in queue.rows && r.id == pending[k].id && errs[k].None? && !TurnAt(turns, k).crash ==>
          r.sent
    {
      errs, sends := [], [];
      ghost var entries, codec := handlers.orders.registry.entries, handlers.orders.registry.codec;
      ghost var start, rows := handlers.orders.store.all, queue.rows;
      for k := 0 to |pending|
        invariant Ready() && start <= handlers.orders.store.all && |errs| == k
        invariant SameWork(pending, queue.rows)
        invariant Ticking(
          entries, codec, pending, turns, start, rows, errs, sends, handlers.orders.store.all, queue.rows)
      {
        ghost var before, log := queue.rows, handlers.orders.store.all;
        assert pending[k] in pending;
        var err;
        ghost var tries;
        err, tries := Send(pending[k], TurnAt(turns, k));
        SameWorkMarked(pending, before, queue.rows, pending[k].id);
        TickingSnoc(entries, codec, pending, turns, start, rows, errs, sends, log, before, tries,
                    handlers.orders.store.all, queue.rows);
        errs, sends := errs + [err], sends + [tries];
      }
      SentAfter(rows, pending, turns, sends, queue.rows);
    }

    /**
     * Any number of ticks; between them the projection enqueues more. Each tick
     * claims the oldest unsent rows, dispatches them one by one, and retires those
     * for which that succeeds; `work` is the history of it.
     */
    method Run(ticks: seq<Tick<P>>) returns (ghost work: seq<Worked<P>>)
      requires Ready()
      modifies handlers.orders.store, queue
      ensures Ready() && old(handlers.orders.store.all) <= handlers.orders.store.all
      ensures |work| == |ticks| && Working(
        handlers.orders.registry.entries, handlers.orders.registry.codec, batchSize, ticks, old(Now()), work, Now())
    {
      ghost var entries, codec, start := handlers.orders.registry.entries, handlers.orders.registry.codec, Now();
      work := [];
      for i := 0 to |ticks|
        invariant Ready() && old(handlers.orders.store.all) <= handlers.orders.store.all
        invariant |work| == i && Working(entries, codec, batchSize, ticks, start, work, Now())
      {
        ghost var w := Work(ticks[i]);
        WorkingSnoc(entries, codec, batchSize, ticks, start, work, w);
        work := work + [w];
      }
    }

    ghost function Now(): Sheet<P>
      reads queue, handlers, handlers.orders, handlers.orders.store
    {
      Sheet(queue.rows, queue.nextId, handlers.orders.store.all)
    }

    method Work(tick: Tick<P>) returns (ghost w: Worked<P>)
      requires Ready()
      modifies handlers.orders.store, queue
      ensures Ready() && old(handlers.orders.store.all) <= handlers.orders.store.all
      ensures TickWorked(handlers.orders.registry.entries, handlers.orders.registry.codec, batchSize, tick, w)
      ensures w.found == old(Now()) && w.left == Now()
    {
      EnqueuedTold(handlers.orders.registry.entries, handlers.orders.store.all, queue.rows, queue.nextId, tick.0,
                   |tick.0|);
      queue.EnqueueAll(tick.0);
      var pending := queue.Pending(batchSize);
      ghost var sends: seq<seq<Try<P>>> := [];
      OldestIsWork(queue.rows, queue.nextId, batchSize, pending);
      if |pending| > 0 {
        var errs;
        errs, sends := Tick(pending, tick.1);
      }
      w := Worked(old(Now()), pending, sends, Now());
    }
  }

  lemma WorkingSnoc<P>(
    entries: Entries<Event, P>, codec: Codec<Event, P>, batchSize: nat, ticks: seq<Tick<P>>, start: Sheet<P>,
    work: seq<Worked<P>>, w: Worked<P>)
    requires |work| < |ticks| && Working(entries, codec, batchSize, ticks, start, work, w.found)
    requires TickWorked(entries, codec, batchSize, ticks[|work|], w)
    ensures Working(entries, codec, batchSize, ticks, start, work + [w], w.left)
  {
    AllWorked(entries, codec, batchSize, ticks, work, w);
    WorkedChain(work, w);
  }

  lemma AllWorked<P>(
    entries: Entries<Event, P>, codec: Codec<Event, P>, batchSize: nat, ticks: seq<Tick<P>>, work: seq<Worked<P>>,
    w: Worked<P>)
    requires |work| < |ticks|
    requires forall i :: 0 <= i < |work| ==> TickWorked(entries, codec, batchSize, ticks[i], work[i])
    requires TickWorked(entries, codec, batchSize, ticks[|work|], w)
    ensures forall i :: 0 <= i < |work + [w]| ==> TickWorked(entries, codec, batchSize, ticks[i], (work + [w])[i])
  {
    var worked := (tick, w) => TickWorked(entries, codec, batchSize, tick, w);
    assert forall i :: 0 <= i < |work| ==> worked(ticks[i], work[i]);
    AllSnoc(worked, ticks, work, w);
  }

  lemma AllSnoc<A, B>(holds: (A, B) -> bool, inputs: seq<A>, done: seq<B>, next: B)
    requires |done| < |inputs| && (forall i :: 0 <= i < |done| ==> holds(inputs[i], done[i]))
    requires holds(inputs[|done|], next)
    ensures forall i :: 0 <= i < |done + [next]| ==> holds(inputs[i], (done + [next])[i])
  {
  }

  lemma WorkedChain<P>(work: seq<Worked<P>>, w: Worked<P>)
    requires forall i :: 0 <= i < |work| - 1 ==> work[i + 1].found == work[i].left
    requires work != [] ==> work[|work| - 1].left == w.found
    ensures forall i :: 0 <= i < |work| ==> (work + [w])[i + 1].found == (work + [w])[i].left
  {
  }

  lemma TickedSnoc<P>(
    entries: Entries<Event, P>, codec: Codec<Event, P>, claimed: seq<Row>, turns: seq<Turn<P>>, log: Log<P>,
    sends: seq<seq<Try<P>>>, mid: Log<P>, tries: seq<Try<P>>)
    requires Ticked(entries, codec, claimed, turns, log, sends, mid) && |sends| < |claimed|
    requires Dispatched(entries, codec, claimed[|sends|], TurnAt(turns, |sends|).ops, mid, tries)
    ensures Ticked(entries, codec, claimed, turns, log, sends + [tries], Last(tries).left)
  {
    AllSent(entries, codec, claimed, turns, sends, tries);
    SendsChain(sends, tries);
  }

  lemma AllSent<P>(
    entries: Entries<Event, P>, codec: Codec<Event, P>, claimed: seq<Row>, turns: seq<Turn<P>>,
    sends: seq<seq<Try<P>>>, tries: seq<Try<P>>)
    requires |sends| < |claimed|
    requires forall k :: 0 <= k < |sends| ==> SentOne(entries, codec, claimed[k], TurnAt(turns, k).ops, sends[k])
    requires SentOne(entries, codec, claimed[|sends|], TurnAt(turns, |sends|).ops, tries)
    ensures forall k :: 0 <= k < |sends + [tries]| ==>
      SentOne(entries, codec, claimed[k], TurnAt(turns, k).ops, (sends + [tries])[k])
  {
  }

  lemma SendsChain<P>(sends: seq<seq<Try<P>>>, tries: seq<Try<P>>)
    requires tries != [] && forall k :: 0 <= k < |sends| ==> sends[k] != []
    requires forall k :: 0 <= k < |sends| - 1 ==> Next(sends[k], sends[k + 1])
    requires sends != [] ==> Next(sends[|sends| - 1], tries)
    ensures forall k :: 0 <= k < |sends| ==> Next((sends + [tries])[k], (sends + [tries])[k + 1])
  {
  }

  lemma RetiresSnoc<P>(turns: seq<Turn<P>>, sends: seq<seq<Try<P>>>, tries: seq<Try<P>>, k: nat)
    ensures k != |sends| ==> Retires(turns, sends + [tries], k) == Retires(turns, sends, k)
  {
  }

  lemma RowsAfterSnoc<P>(
    rows: seq<Row>, claimed: seq<Row>, turns: seq<Turn<P>>, sends: seq<seq<Try<P>>>, mid: seq<Row>,
    tries: seq<Try<P>>, after: seq<Row>)
    requires RowsAfter(rows, claimed, turns, sends, mid) && |sends| < |claimed| && tries != []
    requires after ==
      if Last(tries).err.Some? || TurnAt(turns, |sends|).crash then mid else Marked(mid, claimed[|sends|].id)
    ensures RowsAfter(rows, claimed, turns, sends + [tries], after)
  {
    var all: seq<seq<Try<P>>> := sends + [tries];
    forall j | 0 <= j < |rows|
      ensures after[j] == rows[j].(sent := rows[j].sent || Retired(claimed, turns, all, rows[j]))
    {
      if k :| Claims(claimed, k, rows[j]) && Retires(turns, sends, k) {
        RetiresSnoc(turns, sends, tries, k);
      }
      if k :| Claims(claimed, k, rows[j]) && Retires(turns, all, k) {
        RetiresSnoc(turns, sends, tries, k);
      }
      assert mid[j].id == rows[j].id;
      assert Retires(turns, all, |sends|) <==> Last(tries).err.None? && !TurnAt(turns, |sends|).crash;
      assert Claims(claimed, |sends|, rows[j]) <==> claimed[|sends|].id == rows[j].id;
    }
  }

  /** A tick under way. */
  ghost predicate Ticking<P>(
    entries: Entries<Event, P>, codec: Codec<Event, P>, claimed: seq<Row>, turns: seq<Turn<P>>, start: Log<P>,
    rows: seq<Row>, errs: seq<Option<Error>>, sends: seq<seq<Try<P>>>, log: Log<P>, now: seq<Row>)
  {
    && Ticked(entries, codec, claimed, turns, start, sends, log)
    && RowsAfter(rows, claimed, turns, sends, now)
    && Reported(entries, log, claimed, errs, sends)
  }

  lemma TickingSnoc<P>(
    entries: Entries<Event, P>, codec: Codec<Event, P>, claimed: seq<Row>, turns: seq<Turn<P>>, start: Log<P>,
    rows: seq<Row>, errs: seq<Option<Error>>, sends: seq<seq<Try<P>>>, log: Log<P>, now: seq<Row>,
    tries: seq<Try<P>>, log': Log<P>, now': seq<Row>)
    requires Ticking(entries, codec, claimed, turns, start, rows, errs, sends, log, now) && |errs| < |claimed|
    requires Dispatched(entries, codec, claimed[|errs|], TurnAt(turns, |errs|).ops, log, tries)
    requires log <= log' && Last(tries).left == log'
    requires Last(tries).err.None? ==> Told(entries, log', claimed[|errs|])
    requires now' ==
      if Last(tries).err.Some? || TurnAt(turns, |errs|).crash then now else Marked(now, claimed[|errs|].id)
    ensures Ticking(
      entries, codec, claimed, turns, start, rows, errs + [Last(tries).err], sends + [tries], log', now')
  {
    TickedSnoc(entries, codec, claimed, turns, start, sends, log, tries);
    RowsAfterSnoc(rows, claimed, turns, sends, now, tries, now');
    ReportedSnoc(entries, log, log', claimed, errs, sends, tries);
  }

  /** A claimed row that was dispatched without an error, and not lost to a crash, is sent. */
  lemma SentAfter<P>(
    rows: seq<Row>, claimed: seq<Row>, turns: seq<Turn<P>>, sends: seq<seq<Try<P>>>, after: seq<Row>)
    requires RowsAfter(rows, claimed, turns, sends, after)
    ensures forall k, r :: 0 <= k < |claimed| && Retires(turns, sends, k) && r in after && r.id == claimed[k].id ==>
      r.sent
  {
    forall k, r | 0 <= k < |claimed| && Retires(turns, sends, k) && r in after && r.id == claimed[k].id
      ensures r.sent
    {
      var j :| 0 <= j < |after| && after[j] == r;
      assert Claims(claimed, k, rows[j]);
    }
  }

  lemma FollowsGrows<P>(
    entries: Entries<Event, P>, codec: Codec<Event, P>, stream: StreamID, before: Log<P>, cmd: Command,
    after: Log<P>, err: Option<Error>)
    requires Follows(entries, codec, React, stream, before, cmd, after, err)
    ensures before <= after
  {
    if DecodeAll(entries, Events(before, stream)).Ok? {
      var r := React(DecodeAll(entries, Events(before, stream)).value, cmd);
      if r.Emit? && EncodeAll(entries, codec, r.events).Ok? {
        AppendAllLaw(before, stream, EncodeAll(entries, codec, r.events).value);
      }
    }
  }

  /** Rows with the same number ask for the same notification. */
  ghost predicate SameWork(claimed: seq<Row>, rows: seq<Row>) {
    forall a, b :: a in claimed && b in rows && a.id == b.id ==> a.orderId == b.orderId && a.reason == b.reason
  }

  lemma SameWorkSelf(rows: seq<Row>, nextId: nat)
    requires RowsInv(rows, nextId)
    ensures SameWork(rows, rows)
  {
  }

  lemma SameWorkMarked(claimed: seq<Row>, rows: seq<Row>, after: seq<Row>, id: nat)
    requires SameWork(claimed, rows) && (after == rows || after == Marked(rows, id))
    ensures SameWork(claimed, after)
  {
    forall a, b | a in claimed && b in after && a.id == b.id ensures a.orderId == b.orderId && a.reason == b.reason {
      var k :| 0 <= k < |after| && after[k] == b;
      assert rows[k] in rows;
    }
  }

  lemma OldestIsWork(rows: seq<Row>, nextId: nat, limit: nat, out: seq<Row>)
    requires RowsInv(rows, nextId) && Oldest(rows, limit, out)
    ensures SameWork(out, rows)
  {
    SameWorkSelf(rows, nextId);
  }
}
