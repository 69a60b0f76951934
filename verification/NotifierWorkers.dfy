/**
 * Any number of notifier workers on one worklist, interleaved, crashing between
 * any two effects, while orders are placed and milestones are enqueued again:
 * no order is ever notified twice for one reason, and no row is marked sent
 * before its notification is in the order's stream.
 */
module NotifierWorkers {
  import opened Wrappers
  import opened EventStore
  import opened Contracts
  import opened CommandHandling
  import opened Ordering
  import opened Worklist

  /** A worker that loaded the order of a row it holds, and decided. */
  datatype Job = Job(row: Row, id: string, version: nat, events: seq<Event>, done: bool)

  /** `held` are rows as workers once read them; others may have marked them since. */
  datatype Desk = Desk(log: Log<Event>, rows: seq<Row>, nextId: nat, held: map<nat, Row>, jobs: map<nat, Job>)

  datatype Step =
    | Enqueue(orderId: string, reason: string)
    | Claim(worker: nat, index: nat)
    | Load(worker: nat)
    | Commit(worker: nat)
    | Mark(worker: nat)
    | Crash(worker: nat)
    | Placing(cmd: Command)
    | Elsewhere(op: Op<Event>)

  function OrderEvents(log: Log<Event>, id: string): seq<Event> {
    Payloads(Events(log, StreamID(CATEGORY, id)))
  }

  /**
   * What a worker that holds a row decides on loading the order; None when the
   * command fails and the row stays pending.
   */
  function Decided(log: Log<Event>, row: Row): Option<Job> {
    match ParseOrderID(row.orderId)
    case None => None
    case Some(id) =>
      var history := OrderEvents(log, id);
      match React(history, NotifyCustomer(row.orderId, row.reason))
      case Fault(_) => None
      case NoChange => Some(Job(row, id, |history|, [], true))
      case Emit(es) => Some(Job(row, id, |history|, es, false))
  }

  function AppendTo(log: Log<Event>, id: string, version: nat, es: seq<Event>): Log<Event> {
    TryAppend(log, StreamID(CATEGORY, id), version, Stored(es)).0
  }

  /** One atomic step; a step that is not enabled does nothing. */
  function Next(s: Desk, step: Step): Desk {
    match step
    case Enqueue(orderId, reason) => s.(rows := Enqueued(s.rows, s.nextId, orderId, reason), nextId := s.nextId + 1)
    case Claim(w, k) =>
      if k >= |s.rows| || s.rows[k].sent then s else s.(held := s.held[w := s.rows[k]])
    case Load(w) =>
      if w !in s.held || Decided(s.log, s.held[w]).None? then s
      else s.(jobs := s.jobs[w := Decided(s.log, s.held[w]).value])
    case Commit(w) =>
      if w !in s.jobs || s.jobs[w].done then s
      else if |OrderEvents(s.log, s.jobs[w].id)| != s.jobs[w].version then s.(jobs := s.jobs - {w})
      else s.(log := AppendTo(s.log, s.jobs[w].id, s.jobs[w].version, s.jobs[w].events),
              jobs := s.jobs[w := s.jobs[w].(done := true)])
    case Mark(w) =>
      if w !in s.jobs || !s.jobs[w].done then s
      else s.(rows := Marked(s.rows, s.jobs[w].row.id), jobs := s.jobs - {w})
    case Crash(w) => s.(held := s.held - {w}, jobs := s.jobs - {w})
    case Placing(cmd) =>
      if !cmd.PlaceOrder? || Place(cmd.id, cmd.customer, cmd.total, cmd.qty).Err? then s
      else s.(log := AppendTo(s.log, cmd.id, 0, [Place(cmd.id, cmd.customer, cmd.total, cmd.qty).value]))
    case Elsewhere(op) =>
      if op.stream.category == CATEGORY then s else s.(log := TryAppend(s.log, op.stream, op.expected, op.events).0)
  }

  function Run(steps: seq<Step>): Desk {
    if steps == [] then Desk([], [], 1, map[], map[])
    else Next(Run(steps[..|steps| - 1]), steps[|steps| - 1])
  }

  // ---- The invariant ---------------------------------------------------

  /** The notification a row asks for is in its order's stream. */
  ghost predicate Heard(log: Log<Event>, row: Row) {
    ParseOrderID(row.orderId).Some? && Tells(OrderEvents(log, ParseOrderID(row.orderId).value), row.reason)
  }

  ghost predicate JobInv(log: Log<Event>, job: Job) {
    && ParseOrderID(job.row.orderId) == Some(job.id)
    && (job.done ==> Heard(log, job.row))
    && (!job.done ==>
          && job.version <= |OrderEvents(log, job.id)|
          && React(OrderEvents(log, job.id)[..job.version], NotifyCustomer(job.row.orderId, job.row.reason)) ==
             Emit(job.events))
  }

  ghost predicate LogInv(log: Log<Event>) {
    forall id :: ReasonsDistinct(OrderEvents(log, id))
  }

  ghost predicate SentInv(log: Log<Event>, rows: seq<Row>) {
    forall r :: r in rows && r.sent ==> Heard(log, r)
  }

  /** The number of a row read earlier still stands for the same order and reason. */
  ghost predicate RowStands(rows: seq<Row>, nextId: nat, row: Row) {
    row.id < nextId && SameWork([row], rows)
  }

  ghost predicate HeldInv(s: Desk) {
    forall w :: w in s.held ==> RowStands(s.rows, s.nextId, s.held[w])
  }

  ghost predicate JobsInv(s: Desk) {
    forall w :: w in s.jobs ==> JobInv(s.log, s.jobs[w]) && RowStands(s.rows, s.nextId, s.jobs[w].row)
  }

  ghost predicate Inv(s: Desk) {
    LogInv(s.log) && RowsInv(s.rows, s.nextId) && SentInv(s.log, s.rows) && HeldInv(s) && JobsInv(s)
  }

  lemma OrderEventsGrow(log: Log<Event>, after: Log<Event>, id: string)
    requires log <= after
    ensures OrderEvents(log, id) <= OrderEvents(after, id)
  {
    StreamGrows(log, after, StreamID(CATEGORY, id));
  }

  lemma HeardStays(log: Log<Event>, after: Log<Event>, row: Row)
    requires log <= after && Heard(log, row)
    ensures Heard(after, row)
  {
    OrderEventsGrow(log, after, ParseOrderID(row.orderId).value);
  }

  lemma JobStays(log: Log<Event>, after: Log<Event>, job: Job)
    requires log <= after && JobInv(log, job)
    ensures JobInv(after, job)
  {
    OrderEventsGrow(log, after, job.id);
    if job.done {
      HeardStays(log, after, job.row);
    } else {
      assert OrderEvents(after, job.id)[..job.version] == OrderEvents(log, job.id)[..job.version];
    }
  }

  /** A step that only adds to the log and keeps its order streams sound keeps everything. */
  lemma LogGrows(s: Desk, after: Log<Event>)
    requires Inv(s) && s.log <= after && LogInv(after)
    ensures Inv(s.(log := after))
  {
    forall r | r in s.rows && r.sent ensures Heard(after, r) {
      HeardStays(s.log, after, r);
    }
    forall w | w in s.jobs ensures JobInv(after, s.jobs[w]) {
      JobStays(s.log, after, s.jobs[w]);
    }
  }

  /** A reaction appended to the very history it was decided on leaves every order's reasons distinct. */
  lemma AppendDistinct(log: Log<Event>, id: string, cmd: Command, es: seq<Event>)
    requires LogInv(log) && React(OrderEvents(log, id), cmd) == Emit(es)
    ensures var after := AppendTo(log, id, |OrderEvents(log, id)|, es);
      LogInv(after) && log <= after && OrderEvents(after, id) == OrderEvents(log, id) + es
  {
    var after := AppendTo(log, id, |OrderEvents(log, id)|, es);
    TryAppendLaw(log, StreamID(CATEGORY, id), |OrderEvents(log, id)|, Stored(es));
    ReactKeepsDistinct(OrderEvents(log, id), cmd);
    assert OrderEvents(after, id) == OrderEvents(log, id) + es;
    forall x ensures ReasonsDistinct(OrderEvents(after, x)) {
      if x != id {
        assert OrderEvents(after, x) == OrderEvents(log, x);
      }
    }
  }

  lemma JobsChanged(s: Desk, s': Desk)
    requires Inv(s) && s' == s.(jobs := s'.jobs)
    requires forall w :: w in s'.jobs ==>
      (w in s.jobs && s'.jobs[w] == s.jobs[w])
      || (JobInv(s.log, s'.jobs[w]) && RowStands(s.rows, s.nextId, s'.jobs[w].row))
    ensures Inv(s')
  {
  }

  lemma CommitKeeps(s: Desk, w: nat)
    requires Inv(s)
    ensures Inv(Next(s, Commit(w)))
  {
    if w in s.jobs && !s.jobs[w].done && |OrderEvents(s.log, s.jobs[w].id)| == s.jobs[w].version {
      var job := s.jobs[w];
      var cmd := NotifyCustomer(job.row.orderId, job.row.reason);
      var history := OrderEvents(s.log, job.id);
      assert history[..job.version] == history;
      AppendDistinct(s.log, job.id, cmd, job.events);
      var mid := s.(log := AppendTo(s.log, job.id, job.version, job.events));
      LogGrows(s, mid.log);
      NotifySucceeds(history, cmd);
      assert JobInv(mid.log, job.(done := true));
      assert RowStands(s.rows, s.nextId, job.row);
      JobsChanged(mid, Next(s, Commit(w)));
    }
  }

  lemma PlacingKeeps(s: Desk, cmd: Command)
    requires Inv(s)
    ensures Inv(Next(s, Placing(cmd)))
  {
    if cmd.PlaceOrder? && Place(cmd.id, cmd.customer, cmd.total, cmd.qty).Ok? {
      var es := [Place(cmd.id, cmd.customer, cmd.total, cmd.qty).value];
      TryAppendLaw(s.log, StreamID(CATEGORY, cmd.id), 0, Stored(es));
      if OrderEvents(s.log, cmd.id) == [] {
        AppendDistinct(s.log, cmd.id, cmd, es);
        LogGrows(s, AppendTo(s.log, cmd.id, 0, es));
      }
    }
  }

  lemma ElsewhereKeeps(s: Desk, op: Op<Event>)
    requires Inv(s) && op.stream.category != CATEGORY
    ensures Inv(Next(s, Elsewhere(op)))
  {
    TryAppendLaw(s.log, op.stream, op.expected, op.events);
    var after := TryAppend(s.log, op.stream, op.expected, op.events).0;
    assert forall id :: OrderEvents(after, id) == OrderEvents(s.log, id);
    LogGrows(s, after);
  }

  /** A row read earlier still stands when another is queued: the new one has a number of its own. */
  lemma StandsAfterEnqueue(rows: seq<Row>, nextId: nat, orderId: string, reason: string, row: Row)
    requires RowStands(rows, nextId, row)
    ensures RowStands(Enqueued(rows, nextId, orderId, reason), nextId + 1, row)
  {
  }

  lemma SentAfterEnqueue(log: Log<Event>, rows: seq<Row>, nextId: nat, orderId: string, reason: string)
    requires SentInv(log, rows)
    ensures SentInv(log, Enqueued(rows, nextId, orderId, reason))
  {
    forall r | r in Enqueued(rows, nextId, orderId, reason) && r.sent ensures Heard(log, r) {
      assert r in rows;
    }
  }

  lemma RowsChanged(s: Desk, s': Desk)
    requires Inv(s) && s' == s.(rows := s'.rows, nextId := s'.nextId)
    requires RowsInv(s'.rows, s'.nextId) && SentInv(s.log, s'.rows)
    requires forall row :: RowStands(s.rows, s.nextId, row) ==> RowStands(s'.rows, s'.nextId, row)
    ensures Inv(s')
  {
    assert forall w :: w in s.held ==> RowStands(s.rows, s.nextId, s.held[w]);
    assert forall w :: w in s.jobs ==> RowStands(s.rows, s.nextId, s.jobs[w].row);
  }

  lemma EnqueueKeeps(s: Desk, orderId: string, reason: string)
    requires Inv(s)
    ensures Inv(Next(s, Enqueue(orderId, reason)))
  {
    EnqueuedKeeps(s.rows, s.nextId, orderId, reason);
    SentAfterEnqueue(s.log, s.rows, s.nextId, orderId, reason);
    var rows := Enqueued(s.rows, s.nextId, orderId, reason);
    forall row | RowStands(s.rows, s.nextId, row) ensures RowStands(rows, s.nextId + 1, row) {
      StandsAfterEnqueue(s.rows, s.nextId, orderId, reason, row);
    }
    RowsChanged(s, Next(s, Enqueue(orderId, reason)));
  }

  lemma HeldChanged(s: Desk, s': Desk)
    requires Inv(s) && s' == s.(held := s'.held)
    requires forall w :: w in s'.held ==>
      (w in s.held && s'.held[w] == s.held[w]) || RowStands(s.rows, s.nextId, s'.held[w])
    ensures Inv(s')
  {
  }

  lemma ClaimKeeps(s: Desk, w: nat, k: nat)
    requires Inv(s)
    ensures Inv(Next(s, Claim(w, k)))
  {
    if k < |s.rows| && !s.rows[k].sent {
      SameWorkSelf(s.rows, s.nextId);
      assert s.rows[k] in s.rows;
      assert RowStands(s.rows, s.nextId, s.rows[k]);
      HeldChanged(s, Next(s, Claim(w, k)));
    }
  }

  lemma LoadedJob(log: Log<Event>, row: Row)
    requires Decided(log, row).Some?
    ensures JobInv(log, Decided(log, row).value) && Decided(log, row).value.row == row
  {
    var job := Decided(log, row).value;
    var history := OrderEvents(log, job.id);
    assert history[..|history|] == history;
    if job.done {
      NotifySucceeds(history, NotifyCustomer(job.row.orderId, job.row.reason));
      assert history + [] == history;
    }
  }

  lemma LoadKeeps(s: Desk, w: nat)
    requires Inv(s)
    ensures Inv(Next(s, Load(w)))
  {
    if w in s.held && Decided(s.log, s.held[w]).Some? {
      var job := Decided(s.log, s.held[w]).value;
      LoadedJob(s.log, s.held[w]);
      assert RowStands(s.rows, s.nextId, job.row);
      JobAdded(s, w, job);
    }
  }

  lemma JobAdded(s: Desk, w: nat, job: Job)
    requires Inv(s) && JobInv(s.log, job) && RowStands(s.rows, s.nextId, job.row)
    ensures Inv(s.(jobs := s.jobs[w := job]))
  {
    JobsChanged(s, s.(jobs := s.jobs[w := job]));
  }

  lemma MarkedHeard(log: Log<Event>, rows: seq<Row>, row: Row)
    requires SentInv(log, rows) && Heard(log, row) && SameWork([row], rows)
    ensures SentInv(log, Marked(rows, row.id))
  {
    var after := Marked(rows, row.id);
    assert row in [row];
    forall r | r in after && r.sent ensures Heard(log, r) {
      var k :| 0 <= k < |after| && after[k] == r;
      assert rows[k] in rows;
    }
  }

  /** Marking rows as sent changes neither what they ask for nor whose they are. */
  lemma RowsMarked(s: Desk, rows: seq<Row>, id: nat)
    requires Inv(s) && rows == Marked(s.rows, id) && SentInv(s.log, rows)
    ensures Inv(s.(rows := rows))
  {
    forall row | RowStands(s.rows, s.nextId, row) ensures RowStands(rows, s.nextId, row) {
      SameWorkMarked([row], s.rows, rows, id);
    }
    RowsChanged(s, s.(rows := rows));
  }

  lemma MarkKeeps(s: Desk, w: nat)
    requires Inv(s)
    ensures Inv(Next(s, Mark(w)))
  {
    if w in s.jobs && s.jobs[w].done {
      var rows := Marked(s.rows, s.jobs[w].row.id);
      MarkedHeard(s.log, s.rows, s.jobs[w].row);
      RowsMarked(s, rows, s.jobs[w].row.id);
      JobsChanged(s.(rows := rows), Next(s, Mark(w)));
    }
  }

  lemma CrashKeeps(s: Desk, w: nat)
    requires Inv(s)
    ensures Inv(Next(s, Crash(w)))
  {
    HeldChanged(s, s.(held := s.held - {w}));
    JobsChanged(s.(held := s.held - {w}), Next(s, Crash(w)));
  }

  lemma NextKeeps(s: Desk, step: Step)
    requires Inv(s)
    ensures Inv(Next(s, step))
  {
    match step {
      case Enqueue(orderId, reason) => EnqueueKeeps(s, orderId, reason);
      case Claim(w, k) => ClaimKeeps(s, w, k);
      case Load(w) => LoadKeeps(s, w);
      case Commit(w) => CommitKeeps(s, w);
      case Mark(w) => MarkKeeps(s, w);
      case Placing(cmd) => PlacingKeeps(s, cmd);
      case Elsewhere(op) =>
        if op.stream.category != CATEGORY {
          ElsewhereKeeps(s, op);
        }
      case Crash(w) => CrashKeeps(s, w);
    }
  }

  lemma {:induction false} RunKeeps(steps: seq<Step>)
    ensures Inv(Run(steps))
  {
    if steps == [] {
      assert forall id :: OrderEvents([], id) == [];
    } else {
      RunKeeps(steps[..|steps| - 1]);
      NextKeeps(Run(steps[..|steps| - 1]), steps[|steps| - 1]);
    }
  }

  /**
   * In every run: an order's stream never holds two notifications with the same
   * reason; a row is marked sent only if its notification is in the stream; and
   * there is one row per order and reason.
   */
  lemma NotifiedOnce(steps: seq<Step>, id: string)
    ensures var s := Run(steps);
      && ReasonsDistinct(OrderEvents(s.log, id))
      && (forall r :: r in s.rows && r.sent ==> Heard(s.log, r))
      && (forall i, j :: 0 <= i < j < |s.rows| ==>
            s.rows[i].orderId != s.rows[j].orderId || s.rows[i].reason != s.rows[j].reason)
  {
    RunKeeps(steps);
  }
  lemma RunSnoc(steps: seq<Step>, step: Step)
    ensures Run(steps + [step]) == Next(Run(steps), step)
  {
    assert (steps + [step])[..|steps|] == steps;
  }

  /**
   * A worker that nobody interferes with gets its row done: the notification is in
   * the order's stream and the row is sent, unless the command is one that fails.
   */
  lemma WorkedAlone(steps: seq<Step>, w: nat, k: nat)
    requires k < |Run(steps).rows| && !Run(steps).rows[k].sent && Decided(Run(steps).log, Run(steps).rows[k]).Some?
    ensures var s' := Run(steps + [Claim(w, k)] + [Load(w)] + [Commit(w)] + [Mark(w)]);
      && k < |s'.rows| && s'.rows[k] == Run(steps).rows[k].(sent := true)
      && Heard(s'.log, s'.rows[k])
  {
    var claimed := steps + [Claim(w, k)];
    RunSnoc(steps, Claim(w, k));
    RunSnoc(claimed, Load(w));
    RunSnoc(claimed + [Load(w)], Commit(w));
    RunSnoc(claimed + [Load(w)] + [Commit(w)], Mark(w));
    var done := claimed + [Load(w)] + [Commit(w)] + [Mark(w)];
    NotifiedOnce(done, "");
    assert Run(done).rows[k] in Run(done).rows;
  }
}
