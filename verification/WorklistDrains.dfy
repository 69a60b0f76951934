/**
 * The worklist drains, oldest rows first: ticks in which every dispatch succeeds
 * and no worker dies retire a whole batch each, whatever is enqueued in between
 * (ordering/internal/app/notifier.go).
 */
module WorklistDrains {
  import opened Contracts
  import opened Registry
  import opened Worklist

  /** The numbers of the unsent rows older than a number. */
  function Older(rows: seq<Row>, id: nat): set<nat> {
    set r | r in rows && !r.sent && r.id < id :: r.id
  }

  /** Every claimed row was dispatched without an error, and the worker lived to mark each. */
  ghost predicate Clean<P>(tick: Tick<P>, w: Worked<P>) {
    forall k :: 0 <= k < |w.claimed| ==> Retires(tick.1, w.sends, k)
  }

  /** The same rows in the same places, sent ones still sent, and perhaps more behind them. */
  ghost predicate Continues(rows: seq<Row>, after: seq<Row>) {
    && |rows| <= |after|
    && forall j :: 0 <= j < |rows| ==>
      && after[j].id == rows[j].id && after[j].orderId == rows[j].orderId && after[j].reason == rows[j].reason
      && (rows[j].sent ==> after[j].sent)
  }

  lemma {:induction false} SubsetSize<T>(a: set<T>, b: set<T>)
    requires a <= b
    ensures |a| <= |b|
  {
    if a != {} {
      var x :| x in a;
      SubsetSize(a - {x}, b - {x});
    }
  }

  function Numbers(claimed: seq<Row>): set<nat> {
    set r | r in claimed :: r.id
  }

  lemma {:induction false} AscendingNumbers(claimed: seq<Row>)
    requires forall i, j :: 0 <= i < j < |claimed| ==> claimed[i].id < claimed[j].id
    ensures |Numbers(claimed)| == |claimed|
  {
    if claimed != [] {
      var init, last := claimed[..|claimed| - 1], claimed[|claimed| - 1];
      AscendingNumbers(init);
      assert claimed == init + [last];
      assert Numbers(claimed) == Numbers(init) + {last.id};
      assert last.id !in Numbers(init);
    }
  }

  // ---- One tick --------------------------------------------------------

  lemma EnqueuedOlder(rows: seq<Row>, nextId: nat, orderId: string, reason: string, id: nat)
    requires id <= nextId
    ensures Older(Enqueued(rows, nextId, orderId, reason), id) == Older(rows, id)
  {
    var after := Enqueued(rows, nextId, orderId, reason);
    assert forall r :: r in after ==> r in rows || r.id == nextId;
    assert forall r :: r in rows ==> r in after;
  }

  lemma {:induction false} AllEnqueuedKeep(rows: seq<Row>, nextId: nat, milestones: seq<(string, string)>, k: nat)
    requires RowsInv(rows, nextId) && k <= |milestones|
    ensures RowsInv(AllEnqueued(rows, nextId, milestones, k), nextId + k)
  {
    if k > 0 {
      AllEnqueuedKeep(rows, nextId, milestones, k - 1);
      var before, number, m := AllEnqueued(rows, nextId, milestones, k - 1), nextId + k - 1, milestones[k - 1];
      EnqueuedKeeps(before, number, m.0, m.1);
      EnqueuedNext(rows, nextId, milestones, k - 1, before, number, Enqueued(before, number, m.0, m.1));
    }
  }

  /** What is enqueued goes behind: nothing becomes older than a row that was there. */
  lemma {:induction false} EnqueuedBehind(
    rows: seq<Row>, nextId: nat, milestones: seq<(string, string)>, k: nat, id: nat)
    requires k <= |milestones| && id < nextId
    ensures Older(AllEnqueued(rows, nextId, milestones, k), id) == Older(rows, id)
  {
    if k > 0 {
      EnqueuedBehind(rows, nextId, milestones, k - 1, id);
      EnqueuedOlder(AllEnqueued(rows, nextId, milestones, k - 1), nextId + (k - 1), milestones[k - 1].0,
                    milestones[k - 1].1, id);
    }
  }

  lemma AfterContinues<P>(
    rows: seq<Row>, nextId: nat, claimed: seq<Row>, turns: seq<Turn<P>>, sends: seq<seq<Try<P>>>, after: seq<Row>)
    requires RowsInv(rows, nextId) && RowsAfter(rows, claimed, turns, sends, after)
    ensures RowsInv(after, nextId) && Continues(rows, after)
  {
  }

  /**
   * A clean tick: a row that is still unsent after it was not claimed, so a whole
   * batch of older rows was, and those are sent now.
   */
  lemma BatchRetired<P>(
    rows: seq<Row>, nextId: nat, batchSize: nat, claimed: seq<Row>, turns: seq<Turn<P>>, sends: seq<seq<Try<P>>>,
    after: seq<Row>, j: nat)
    requires RowsInv(rows, nextId) && Oldest(rows, batchSize, claimed)
    requires RowsAfter(rows, claimed, turns, sends, after)
    requires forall k :: 0 <= k < |claimed| ==> Retires(turns, sends, k)
    requires j < |rows| && !after[j].sent
    ensures |Older(after, rows[j].id)| + batchSize <= |Older(rows, rows[j].id)|
  {
    var id := rows[j].id;
    forall k | 0 <= k < |claimed| ensures claimed[k].id != id {
      ClaimedIsSent(rows, claimed, turns, sends, after, j, k);
    }
    AscendingNumbers(claimed);
    ClaimedAreSent(rows, claimed, turns, sends, after);
    assert Numbers(claimed) <= Older(rows, id);
    assert Older(after, id) <= Older(rows, id) - Numbers(claimed) by {
      StillOlder(rows, claimed, turns, sends, after, id);
    }
    SubsetSize(Older(after, id), Older(rows, id) - Numbers(claimed));
  }

  lemma ClaimedIsSent<P>(
    rows: seq<Row>, claimed: seq<Row>, turns: seq<Turn<P>>, sends: seq<seq<Try<P>>>, after: seq<Row>, j: nat, k: nat)
    requires RowsAfter(rows, claimed, turns, sends, after) && j < |rows| && k < |claimed| && Retires(turns, sends, k)
    ensures claimed[k].id == rows[j].id ==> after[j].sent
  {
    assert Claims(claimed, k, rows[j]) <==> claimed[k].id == rows[j].id;
  }

  lemma ClaimedAreSent<P>(
    rows: seq<Row>, claimed: seq<Row>, turns: seq<Turn<P>>, sends: seq<seq<Try<P>>>, after: seq<Row>)
    requires RowsAfter(rows, claimed, turns, sends, after)
    requires forall k :: 0 <= k < |claimed| ==> Retires(turns, sends, k)
    ensures forall r :: r in after && r.id in Numbers(claimed) ==> r.sent
  {
    forall r | r in after && r.id in Numbers(claimed) ensures r.sent {
      var c :| c in claimed && c.id == r.id;
      var k :| 0 <= k < |claimed| && claimed[k] == c;
      var i :| 0 <= i < |after| && after[i] == r;
      ClaimedIsSent(rows, claimed, turns, sends, after, i, k);
    }
  }

  lemma StillOlder<P>(
    rows: seq<Row>, claimed: seq<Row>, turns: seq<Turn<P>>, sends: seq<seq<Try<P>>>, after: seq<Row>, id: nat)
    requires RowsAfter(rows, claimed, turns, sends, after)
    requires forall r :: r in after && r.id in Numbers(claimed) ==> r.sent
    ensures Older(after, id) <= Older(rows, id) - Numbers(claimed)
  {
    forall n | n in Older(after, id) ensures n in Older(rows, id) && n !in Numbers(claimed) {
      var r :| r in after && !r.sent && r.id == n && r.id < id;
      var i :| 0 <= i < |after| && after[i] == r;
      assert rows[i] in rows;
    }
  }

  /** One tick from what it found to what it left, and what it does if it is clean. */
  lemma TickDrains<P>(
    entries: Entries<Event, P>, codec: Codec<Event, P>, batchSize: nat, tick: Tick<P>, w: Worked<P>, j: nat)
    requires RowsInv(w.found.rows, w.found.nextId) && TickWorked(entries, codec, batchSize, tick, w)
    requires j < |w.found.rows|
    ensures RowsInv(w.left.rows, w.left.nextId) && Continues(w.found.rows, w.left.rows)
    ensures Clean(tick, w) && !w.left.rows[j].sent ==>
      |Older(w.left.rows, w.found.rows[j].id)| + batchSize <= |Older(w.found.rows, w.found.rows[j].id)|
  {
    var rows := AllEnqueued(w.found.rows, w.found.nextId, tick.0, |tick.0|);
    AllEnqueuedKeep(w.found.rows, w.found.nextId, tick.0, |tick.0|);
    AllAreQueued(w.found.rows, w.found.nextId, tick.0, |tick.0|);
    EnqueuedBehind(w.found.rows, w.found.nextId, tick.0, |tick.0|, w.found.rows[j].id);
    RowsDrain(w.found.rows, w.found.nextId, batchSize, rows, w.left.nextId, w.claimed, tick.1, w.sends, w.left.rows, j);
  }

  lemma RowsDrain<P>(
    found: seq<Row>, foundId: nat, batchSize: nat, rows: seq<Row>, nextId: nat, claimed: seq<Row>,
    turns: seq<Turn<P>>, sends: seq<seq<Try<P>>>, after: seq<Row>, j: nat)
    requires RowsInv(found, foundId) && RowsInv(rows, nextId) && found <= rows && j < |found|
    requires Older(rows, found[j].id) == Older(found, found[j].id)
    requires Oldest(rows, batchSize, claimed) && RowsAfter(rows, claimed, turns, sends, after)
    ensures RowsInv(after, nextId) && Continues(found, after)
    ensures (forall k :: 0 <= k < |claimed| ==> Retires(turns, sends, k)) && !after[j].sent ==>
      |Older(after, found[j].id)| + batchSize <= |Older(found, found[j].id)|
  {
    AfterContinues(rows, nextId, claimed, turns, sends, after);
    if (forall k :: 0 <= k < |claimed| ==> Retires(turns, sends, k)) && !after[j].sent {
      BatchRetired(rows, nextId, batchSize, claimed, turns, sends, after, j);
    }
  }

  // ---- Any number of ticks ---------------------------------------------

  /** What the first k ticks left. */
  function Left<P>(start: Sheet<P>, work: seq<Worked<P>>, k: nat): Sheet<P>
    requires k <= |work|
  {
    if k == 0 then start else work[k - 1].left
  }

  lemma OneMore<P>(
    entries: Entries<Event, P>, codec: Codec<Event, P>, batchSize: nat, ticks: seq<Tick<P>>, start: Sheet<P>,
    work: seq<Worked<P>>, end: Sheet<P>, j: nat, k: nat)
    requires Working(entries, codec, batchSize, ticks, start, work, end) && k < |work| && Clean(ticks[k], work[k])
    requires RowsInv(Left(start, work, k).rows, Left(start, work, k).nextId) && j < |Left(start, work, k).rows|
    ensures RowsInv(Left(start, work, k + 1).rows, Left(start, work, k + 1).nextId)
    ensures Nearer(Left(start, work, k).rows, Left(start, work, k + 1).rows, j, batchSize)
  {
    FoundIsLeft(entries, codec, batchSize, ticks, start, work, end, k);
    TickDrains(entries, codec, batchSize, ticks[k], work[k], j);
  }

  /** Every row is in its place, and row j, if it is not sent, has that many fewer before it. */
  ghost predicate Nearer(rows: seq<Row>, now: seq<Row>, j: nat, fewer: int) {
    && Continues(rows, now) && j < |rows|
    && (now[j].sent || |Older(now, rows[j].id)| + fewer <= |Older(rows, rows[j].id)|)
  }

  lemma NearerStill(rows: seq<Row>, mid: seq<Row>, now: seq<Row>, j: nat, some: int, more: int, fewer: int)
    requires Nearer(rows, mid, j, some) && Nearer(mid, now, j, more) && fewer == some + more
    ensures Nearer(rows, now, j, fewer)
  {
    assert mid[j].id == rows[j].id;
  }

  lemma OneMoreTimes(k: int, n: int)
    ensures k * n == (k - 1) * n + n
  {
  }

  lemma {:induction false} DrainedTo<P>(
    entries: Entries<Event, P>, codec: Codec<Event, P>, batchSize: nat, ticks: seq<Tick<P>>, start: Sheet<P>,
    work: seq<Worked<P>>, end: Sheet<P>, j: nat, k: nat)
    requires RowsInv(start.rows, start.nextId) && j < |start.rows| && k <= |work|
    requires Working(entries, codec, batchSize, ticks, start, work, end)
    requires forall i :: 0 <= i < |work| ==> Clean(ticks[i], work[i])
    ensures RowsInv(Left(start, work, k).rows, Left(start, work, k).nextId)
    ensures Nearer(start.rows, Left(start, work, k).rows, j, k * batchSize)
  {
    if k > 0 {
      DrainedTo(entries, codec, batchSize, ticks, start, work, end, j, k - 1);
      OneMore(entries, codec, batchSize, ticks, start, work, end, j, k - 1);
      OneMoreTimes(k, batchSize);
      NearerStill(start.rows, Left(start, work, k - 1).rows, Left(start, work, k).rows, j, (k - 1) * batchSize,
                  batchSize, k * batchSize);
    }
  }

  lemma FoundIsLeft<P>(
    entries: Entries<Event, P>, codec: Codec<Event, P>, batchSize: nat, ticks: seq<Tick<P>>, start: Sheet<P>,
    work: seq<Worked<P>>, end: Sheet<P>, k: nat)
    requires Working(entries, codec, batchSize, ticks, start, work, end) && k < |work|
    ensures work[k].found == Left(start, work, k) && TickWorked(entries, codec, batchSize, ticks[k], work[k])
  {
    if k > 0 {
      assert work[k - 1 + 1].found == work[k - 1].left;
    }
  }

  /**
   * After n clean ticks every row is sent that had fewer than n batches of unsent
   * rows before it, and every row keeps its place, order and reason.
   */
  lemma Drained<P>(
    entries: Entries<Event, P>, codec: Codec<Event, P>, batchSize: nat, ticks: seq<Tick<P>>, start: Sheet<P>,
    work: seq<Worked<P>>, end: Sheet<P>, j: nat)
    requires RowsInv(start.rows, start.nextId) && j < |start.rows|
    requires Working(entries, codec, batchSize, ticks, start, work, end)
    requires forall i :: 0 <= i < |work| ==> Clean(ticks[i], work[i])
    ensures Continues(start.rows, end.rows)
    ensures |Older(start.rows, start.rows[j].id)| < |work| * batchSize ==> end.rows[j].sent
  {
    DrainedTo(entries, codec, batchSize, ticks, start, work, end, j, |work|);
  }
}
