/**
 * Read models (projection/projection.go, projection/catchup.go,
 * projection/inbox.go): a projection's handlers are fed from two logs by two
 * runners, at least once and in no order across the logs. If the handlers are
 * idempotent and commute, the result depends only on which items the logs hold.
 */
module Projection {
  import opened Wrappers

  type Handling<!T, !I> = (T, I) -> T

  /**
   * A handler that makes two writes can be cut short between them. What it has
   * done then is what handling `begun(i)` does; for one that makes a single
   * write, `begun(i)` is i.
   */
  function AllBegun<I>(begun: I -> I, items: seq<I>): (bs: seq<I>)
    ensures |bs| == |items| && forall k :: 0 <= k < |items| ==> bs[k] == begun(items[k])
  {
    seq(|items|, k requires 0 <= k < |items| => begun(items[k]))
  }

  function Fold<T, I>(apply: Handling<T, I>, t: T, items: seq<I>): T {
    if items == [] then t
    else apply(Fold(apply, t, items[..|items| - 1]), items[|items| - 1])
  }

  // ---- Convergence -----------------------------------------------------

  ghost predicate Idempotent<T(!new), I>(apply: Handling<T, I>, i: I) {
    forall t {:trigger apply(apply(t, i), i)} :: apply(apply(t, i), i) == apply(t, i)
  }

  ghost predicate Commute<T(!new), I>(apply: Handling<T, I>, i: I, j: I) {
    forall t {:trigger apply(apply(t, i), j)} :: apply(apply(t, i), j) == apply(apply(t, j), i)
  }

  /** The contract of a projection's handlers, for the items they will see. */
  ghost predicate Tame<T(!new), I(!new)>(apply: Handling<T, I>, items: seq<I>) {
    && (forall i :: i in items ==> Idempotent(apply, i))
    && (forall i, j :: i in items && j in items ==> Commute(apply, i, j))
  }

  ghost predicate SameItems<I(!new)>(a: seq<I>, b: seq<I>) {
    forall i :: i in a <==> i in b
  }

  function Without<I(==)>(items: seq<I>, x: I): seq<I> {
    if items == [] then []
    else
      var rest := Without(items[..|items| - 1], x);
      if items[|items| - 1] == x then rest else rest + [items[|items| - 1]]
  }

  lemma {:induction false} WithoutMembers<I>(items: seq<I>, x: I)
    ensures forall i :: i in Without(items, x) <==> i in items && i != x
  {
    if items != [] {
      WithoutMembers(items[..|items| - 1], x);
      assert items == items[..|items| - 1] + [items[|items| - 1]];
    }
  }

  lemma TameInit<T(!new), I(!new)>(apply: Handling<T, I>, items: seq<I>)
    requires Tame(apply, items) && items != []
    ensures Tame(apply, items[..|items| - 1])
  {
  }

  /** An item that was applied somewhere in the past is absorbed. */
  lemma {:induction false} Absorbs<T(!new), I(!new)>(apply: Handling<T, I>, t: T, items: seq<I>, i: I)
    requires Tame(apply, items) && i in items
    ensures apply(Fold(apply, t, items), i) == Fold(apply, t, items)
  {
    var init, last := items[..|items| - 1], items[|items| - 1];
    var before := Fold(apply, t, init);
    if last == i {
      assert Idempotent(apply, i);
    } else {
      TameInit(apply, items);
      Absorbs(apply, t, init, i);
      assert Commute(apply, last, i);
      assert apply(apply(before, last), i) == apply(apply(before, i), last);
    }
  }

  /** Any item can be taken out of a run and applied last. */
  lemma {:induction false} AppliedLast<T(!new), I(!new)>(apply: Handling<T, I>, t: T, items: seq<I>, x: I)
    requires Tame(apply, items) && x in items
    ensures Fold(apply, t, items) == apply(Fold(apply, t, Without(items, x)), x)
  {
    var init, last := items[..|items| - 1], items[|items| - 1];
    TameInit(apply, items);
    if x !in init {
      NothingWithout(init, x);
    } else {
      AppliedLast(apply, t, init, x);
      var rest := Fold(apply, t, Without(init, x));
      if last == x {
        assert Idempotent(apply, x);
      } else {
        assert Without(items, x)[..|Without(items, x)| - 1] == Without(init, x);
        assert Commute(apply, x, last);
        assert apply(apply(rest, x), last) == apply(apply(rest, last), x);
      }
    }
  }

  lemma {:induction false} NothingWithout<I>(items: seq<I>, x: I)
    requires x !in items
    ensures Without(items, x) == items
  {
    if items != [] {
      NothingWithout(items[..|items| - 1], x);
    }
  }

  /**
   * Convergence: two runs over the same items, in whatever order and with
   * whatever repetitions, leave the same table.
   */
  lemma {:induction false} Converges<T(!new), I(!new)>(apply: Handling<T, I>, t: T, a: seq<I>, b: seq<I>)
    requires Tame(apply, a) && SameItems(a, b)
    ensures Fold(apply, t, a) == Fold(apply, t, b)
    decreases |b|
  {
    if b == [] {
      assert forall k :: 0 <= k < |a| ==> a[k] in a;
    } else {
      var init, x := b[..|b| - 1], b[|b| - 1];
      assert b == init + [x];
      assert x in b;
      if x in init {
        assert SameItems(a, init);
        Converges(apply, t, a, init);
        Absorbs(apply, t, a, x);
      } else {
        WithoutMembers(a, x);
        AppliedLast(apply, t, a, x);
        assert Tame(apply, Without(a, x));
        assert forall i :: i in init ==> i in b;
        Converges(apply, t, Without(a, x), init);
      }
    }
  }

  // ---- The two runners -------------------------------------------------

  /**
   * A runner's durable checkpoint, and in memory its cursor, the end of the
   * batch it read, and how far it has handled that batch.
   */
  datatype Runner = Runner(cp: nat, cursor: nat, pos: nat, end: nat)

  const FRESH := Runner(0, 0, 0, 0)

  /** The read table, everything applied since it was last empty, and the runners. */
  datatype View<T, I> = View(table: T, applied: seq<I>, own: Runner, foreign: Runner)

  /** Falter: the handler of the next item fails between its writes. */
  datatype RunnerStep = ReadBatch(size: nat) | ApplyNext | Falter | SetCheckpoint | Crash

  /** What a runner does apart from applying; a step that is not enabled does nothing. */
  function RunnerNext(length: nat, r: Runner, step: RunnerStep): Runner {
    match step
    case ReadBatch(size) =>
      if r.pos == r.end == r.cursor && r.cursor < length
      then r.(end := if r.cursor + size < length then r.cursor + size else length) else r
    case ApplyNext => if r.pos < r.end then r.(pos := r.pos + 1) else r
    case Falter => r
    case SetCheckpoint => if r.pos == r.end > r.cursor then Runner(r.end, r.end, r.end, r.end) else r
    case Crash => Runner(r.cp, r.cp, r.cp, r.cp)
  }

  datatype ViewStep = OnStore(step: RunnerStep) | OnInbox(step: RunnerStep) | Rebuild

  /** The item that a step handles, in part or as a whole. */
  function Handles<I>(begun: I -> I, log: seq<I>, r: Runner, step: RunnerStep): Option<I> {
    if r.pos < r.end && r.pos < |log| && step.ApplyNext? then Some(log[r.pos])
    else if r.pos < r.end && r.pos < |log| && step.Falter? then Some(begun(log[r.pos]))
    else None
  }

  function Applying<T, I>(apply: Handling<T, I>, v: View<T, I>, item: Option<I>): View<T, I> {
    if item.None? then v else v.(table := apply(v.table, item.value), applied := v.applied + [item.value])
  }

  /** Rebuild: the runners stopped, the table truncated, both checkpoints reset, the runners restarted. */
  function ViewNext<T, I>(
    apply: Handling<T, I>, begun: I -> I, empty: T, own: seq<I>, foreign: seq<I>, v: View<T, I>,
    step: ViewStep): View<T, I>
  {
    match step
    case OnStore(s) =>
      Applying(apply, v, Handles(begun, own, v.own, s)).(own := RunnerNext(|own|, v.own, s))
    case OnInbox(s) =>
      Applying(apply, v, Handles(begun, foreign, v.foreign, s)).(foreign := RunnerNext(|foreign|, v.foreign, s))
    case Rebuild => View(empty, [], FRESH, FRESH)
  }

  /** Everything before a runner's position has been applied. */
  ghost predicate RunnerInv<I>(log: seq<I>, r: Runner, applied: seq<I>) {
    && r.cp == r.cursor <= r.pos <= r.end <= |log|
    && (forall k :: 0 <= k < r.pos ==> log[k] in applied)
  }

  /** In one of the logs, or the first part of what is. */
  ghost predicate Known<I(!new)>(begun: I -> I, own: seq<I>, foreign: seq<I>, i: I) {
    i in own || i in foreign || exists j :: (j in own || j in foreign) && i == begun(j)
  }

  ghost predicate ViewInv<T, I(!new)>(
    apply: Handling<T, I>, begun: I -> I, empty: T, own: seq<I>, foreign: seq<I>, v: View<T, I>)
  {
    && v.table == Fold(apply, empty, v.applied)
    && (forall i :: i in v.applied ==> Known(begun, own, foreign, i))
    && RunnerInv(own, v.own, v.applied)
    && RunnerInv(foreign, v.foreign, v.applied)
  }

  lemma FoldSnoc<T, I>(apply: Handling<T, I>, t: T, items: seq<I>, i: I)
    ensures Fold(apply, t, items + [i]) == apply(Fold(apply, t, items), i)
  {
    assert (items + [i])[..|items|] == items;
  }

  /** A step that does not handle an item as a whole leaves only positions whose items were applied. */
  lemma RunnerMoves<I>(log: seq<I>, r: Runner, applied: seq<I>, step: RunnerStep)
    requires RunnerInv(log, r, applied) && !step.ApplyNext?
    ensures RunnerInv(log, RunnerNext(|log|, r, step), applied)
  {
  }

  lemma RunnerApplies<I>(log: seq<I>, r: Runner, applied: seq<I>)
    requires RunnerInv(log, r, applied) && r.pos < r.end
    ensures RunnerInv(log, RunnerNext(|log|, r, ApplyNext), applied + [log[r.pos]])
  {
    var after := applied + [log[r.pos]];
    forall k | 0 <= k < r.pos + 1 ensures log[k] in after {
      if k < r.pos {
        assert log[k] in applied;
      } else {
        assert after[|applied|] == log[k];
      }
    }
  }

  /** What was applied stays applied when the other runner applies an item. */
  lemma RunnerRests<I>(log: seq<I>, r: Runner, applied: seq<I>, i: I)
    requires RunnerInv(log, r, applied)
    ensures RunnerInv(log, r, applied + [i])
  {
    forall k | 0 <= k < r.pos ensures log[k] in applied + [i] {
      assert log[k] in applied;
    }
  }

  /** The table and the items applied to it, after one more. */
  lemma TableApplies<T, I(!new)>(
    apply: Handling<T, I>, begun: I -> I, empty: T, own: seq<I>, foreign: seq<I>, v: View<T, I>, i: I)
    requires ViewInv(apply, begun, empty, own, foreign, v) && Known(begun, own, foreign, i)
    ensures apply(v.table, i) == Fold(apply, empty, v.applied + [i])
    ensures forall j :: j in v.applied + [i] ==> Known(begun, own, foreign, j)
  {
    FoldSnoc(apply, empty, v.applied, i);
  }

  lemma StoreStepKeeps<T, I(!new)>(
    apply: Handling<T, I>, begun: I -> I, empty: T, own: seq<I>, foreign: seq<I>, v: View<T, I>, step: RunnerStep)
    requires ViewInv(apply, begun, empty, own, foreign, v)
    ensures ViewInv(apply, begun, empty, own, foreign, ViewNext(apply, begun, empty, own, foreign, v, OnStore(step)))
  {
    var item := Handles(begun, own, v.own, step);
    if item.Some? {
      TableApplies(apply, begun, empty, own, foreign, v, item.value);
      RunnerRests(foreign, v.foreign, v.applied, item.value);
      if step.ApplyNext? {
        RunnerApplies(own, v.own, v.applied);
      } else {
        RunnerRests(own, v.own, v.applied, item.value);
      }
    } else if !step.ApplyNext? {
      RunnerMoves(own, v.own, v.applied, step);
    }
  }

  lemma InboxStepKeeps<T, I(!new)>(
    apply: Handling<T, I>, begun: I -> I, empty: T, own: seq<I>, foreign: seq<I>, v: View<T, I>, step: RunnerStep)
    requires ViewInv(apply, begun, empty, own, foreign, v)
    ensures ViewInv(apply, begun, empty, own, foreign, ViewNext(apply, begun, empty, own, foreign, v, OnInbox(step)))
  {
    var item := Handles(begun, foreign, v.foreign, step);
    if item.Some? {
      TableApplies(apply, begun, empty, own, foreign, v, item.value);
      RunnerRests(own, v.own, v.applied, item.value);
      if step.ApplyNext? {
        RunnerApplies(foreign, v.foreign, v.applied);
      } else {
        RunnerRests(foreign, v.foreign, v.applied, item.value);
      }
    } else if !step.ApplyNext? {
      RunnerMoves(foreign, v.foreign, v.applied, step);
    }
  }

  lemma ViewNextKeeps<T, I(!new)>(
    apply: Handling<T, I>, begun: I -> I, empty: T, own: seq<I>, foreign: seq<I>, v: View<T, I>, step: ViewStep)
    requires ViewInv(apply, begun, empty, own, foreign, v)
    ensures ViewInv(apply, begun, empty, own, foreign, ViewNext(apply, begun, empty, own, foreign, v, step))
  {
    match step {
      case OnStore(s) => StoreStepKeeps(apply, begun, empty, own, foreign, v, s);
      case OnInbox(s) => InboxStepKeeps(apply, begun, empty, own, foreign, v, s);
      case Rebuild =>
    }
  }

  lemma ViewGrows<T, I(!new)>(
    apply: Handling<T, I>, begun: I -> I, empty: T, own: seq<I>, foreign: seq<I>, own': seq<I>, foreign': seq<I>,
    v: View<T, I>)
    requires ViewInv(apply, begun, empty, own, foreign, v) && own <= own' && foreign <= foreign'
    ensures ViewInv(apply, begun, empty, own', foreign', v)
  {
    forall i | Known(begun, own, foreign, i) ensures Known(begun, own', foreign', i) {
      assert forall j :: j in own || j in foreign ==> j in own' || j in foreign';
    }
  }

  // ---- Handlers cut short ----------------------------------------------

  /**
   * The contract of handlers that may be cut short: whole or begun, they may be
   * repeated and reordered, and beginning what was handled changes nothing.
   */
  ghost predicate Repairable<T(!new), I(!new)>(apply: Handling<T, I>, begun: I -> I, items: seq<I>) {
    && Tame(apply, items + AllBegun(begun, items))
    && (forall i :: i in items ==> Contains(apply, i, begun(i)))
  }

  ghost predicate Contains<T(!new), I>(apply: Handling<T, I>, i: I, part: I) {
    forall t {:trigger apply(apply(t, i), part)} :: apply(apply(t, i), part) == apply(t, i)
  }

  lemma BegunMember<I(!new)>(begun: I -> I, items: seq<I>, i: I)
    requires i in items
    ensures begun(i) in AllBegun(begun, items)
  {
    var k :| 0 <= k < |items| && items[k] == i;
    assert AllBegun(begun, items)[k] == begun(i);
  }

  /** Whatever is known of two logs is tame if their items are repairable. */
  lemma KnownTame<T(!new), I(!new)>(
    apply: Handling<T, I>, begun: I -> I, own: seq<I>, foreign: seq<I>, items: seq<I>)
    requires Repairable(apply, begun, own + foreign) && forall i :: i in items ==> Known(begun, own, foreign, i)
    ensures Tame(apply, items)
  {
    var all := own + foreign + AllBegun(begun, own + foreign);
    forall i | i in items ensures i in all {
      if i !in own && i !in foreign {
        var j :| (j in own || j in foreign) && i == begun(j);
        BegunMember(begun, own + foreign, j);
      }
    }
  }

  /** Handling an item repairs a beginning made before it. */
  lemma HandlingRepairs<T(!new), I(!new)>(apply: Handling<T, I>, begun: I -> I, items: seq<I>, t: T, i: I)
    requires Repairable(apply, begun, items) && i in items
    ensures apply(apply(t, begun(i)), i) == apply(t, i)
  {
    BegunMember(begun, items, i);
    assert Commute(apply, begun(i), i);
    assert apply(apply(t, begun(i)), i) == apply(apply(t, i), begun(i));
  }

  /** Beginnings of items that were handled as a whole leave no trace. */
  lemma {:induction false} BegunVanish<T(!new), I(!new)>(
    apply: Handling<T, I>, begun: I -> I, empty: T, items: seq<I>, parts: seq<I>)
    requires Repairable(apply, begun, items)
    requires forall p :: p in parts ==> exists i :: i in items && p == begun(i)
    ensures Fold(apply, empty, items + parts) == Fold(apply, empty, items)
  {
    if parts == [] {
      assert items + parts == items;
    } else {
      var init, p := parts[..|parts| - 1], parts[|parts| - 1];
      assert parts == init + [p] && p in parts && forall q :: q in init ==> q in parts;
      BegunVanish(apply, begun, empty, items, init);
      FoldSnoc(apply, empty, items + init, p);
      assert items + parts == (items + init) + [p];
      var i :| i in items && p == begun(i);
      BeganBefore(apply, begun, empty, items, i);
    }
  }

  lemma BeganBefore<T(!new), I(!new)>(apply: Handling<T, I>, begun: I -> I, empty: T, items: seq<I>, i: I)
    requires Repairable(apply, begun, items) && i in items
    ensures apply(Fold(apply, empty, items), begun(i)) == Fold(apply, empty, items)
  {
    assert Tame(apply, items);
    AppliedLast(apply, empty, items, i);
    assert Contains(apply, i, begun(i));
  }

  function Beside<I(==)>(items: seq<I>, known: seq<I>): seq<I> {
    if items == [] then []
    else
      var rest := Beside(items[..|items| - 1], known);
      if items[|items| - 1] in known then rest else rest + [items[|items| - 1]]
  }

  lemma {:induction false} BesideMembers<I>(items: seq<I>, known: seq<I>)
    ensures forall i :: i in Beside(items, known) <==> i in items && i !in known
  {
    if items != [] {
      BesideMembers(items[..|items| - 1], known);
      assert items == items[..|items| - 1] + [items[|items| - 1]];
    }
  }

  /** Once both runners have caught up, the table is the fold of what the logs hold. */
  lemma CaughtUp<T(!new), I(!new)>(
    apply: Handling<T, I>, begun: I -> I, empty: T, own: seq<I>, foreign: seq<I>, v: View<T, I>)
    requires ViewInv(apply, begun, empty, own, foreign, v) && Repairable(apply, begun, own + foreign)
    requires v.own.cp == |own| && v.foreign.cp == |foreign|
    ensures v.table == Fold(apply, empty, own + foreign)
  {
    var all := own + foreign;
    var parts := Beside(v.applied, all);
    BesideMembers(v.applied, all);
    AllApplied(apply, begun, empty, own, foreign, v);
    assert forall i :: i in all + parts <==> i in v.applied;
    KnownTame(apply, begun, own, foreign, all + parts);
    Converges(apply, empty, all + parts, v.applied);
    BegunVanish(apply, begun, empty, all, parts);
  }

  lemma AllApplied<T(!new), I(!new)>(
    apply: Handling<T, I>, begun: I -> I, empty: T, own: seq<I>, foreign: seq<I>, v: View<T, I>)
    requires ViewInv(apply, begun, empty, own, foreign, v) && v.own.cp == |own| && v.foreign.cp == |foreign|
    ensures forall i :: i in own + foreign ==> i in v.applied
  {
    forall i | i in own + foreign ensures i in v.applied {
      if i in own {
        var k :| 0 <= k < |own| && own[k] == i;
        assert own[k] in v.applied;
      } else {
        var k :| 0 <= k < |foreign| && foreign[k] == i;
        assert foreign[k] in v.applied;
      }
    }
  }

  /** Everything up to the store checkpoint has taken effect: applying it again would change nothing. */
  lemma CheckpointReflected<T(!new), I(!new)>(
    apply: Handling<T, I>, begun: I -> I, empty: T, own: seq<I>, foreign: seq<I>, v: View<T, I>, p: nat)
    requires ViewInv(apply, begun, empty, own, foreign, v) && Repairable(apply, begun, own + foreign) && p <= v.own.cp
    ensures forall k :: 0 <= k < p ==> apply(v.table, own[k]) == v.table
  {
    KnownTame(apply, begun, own, foreign, v.applied);
    forall k | 0 <= k < p ensures apply(v.table, own[k]) == v.table {
      Absorbs(apply, empty, v.applied, own[k]);
    }
  }

  // ---- Runs ------------------------------------------------------------

  datatype Feeds<T, I> = Feeds(own: seq<I>, foreign: seq<I>, view: View<T, I>)

  datatype Step<I> = OwnEvent(item: I) | ForeignFact(item: I) | OnView(step: ViewStep)

  function Next<T, I>(apply: Handling<T, I>, begun: I -> I, empty: T, s: Feeds<T, I>, step: Step<I>): Feeds<T, I> {
    match step
    case OwnEvent(i) => s.(own := s.own + [i])
    case ForeignFact(i) => s.(foreign := s.foreign + [i])
    case OnView(vs) => s.(view := ViewNext(apply, begun, empty, s.own, s.foreign, s.view, vs))
  }

  function Run<T, I>(apply: Handling<T, I>, begun: I -> I, empty: T, steps: seq<Step<I>>): Feeds<T, I> {
    if steps == [] then Feeds([], [], View(empty, [], FRESH, FRESH))
    else Next(apply, begun, empty, Run(apply, begun, empty, steps[..|steps| - 1]), steps[|steps| - 1])
  }

  lemma {:induction false} RunKeeps<T, I(!new)>(apply: Handling<T, I>, begun: I -> I, empty: T, steps: seq<Step<I>>)
    ensures var s := Run(apply, begun, empty, steps); ViewInv(apply, begun, empty, s.own, s.foreign, s.view)
  {
    if steps != [] {
      var s := Run(apply, begun, empty, steps[..|steps| - 1]);
      RunKeeps(apply, begun, empty, steps[..|steps| - 1]);
      match steps[|steps| - 1] {
        case OwnEvent(i) => ViewGrows(apply, begun, empty, s.own, s.foreign, s.own + [i], s.foreign, s.view);
        case ForeignFact(i) => ViewGrows(apply, begun, empty, s.own, s.foreign, s.own, s.foreign + [i], s.view);
        case OnView(vs) => ViewNextKeeps(apply, begun, empty, s.own, s.foreign, s.view, vs);
      }
    }
  }

  lemma RepairableSame<T(!new), I(!new)>(apply: Handling<T, I>, begun: I -> I, a: seq<I>, b: seq<I>)
    requires Repairable(apply, begun, a) && SameItems(a, b)
    ensures Repairable(apply, begun, b)
  {
    forall i | i in b + AllBegun(begun, b) ensures i in a + AllBegun(begun, a) {
      if i !in b {
        var k :| 0 <= k < |b| && AllBegun(begun, b)[k] == i;
        BegunMember(begun, a, b[k]);
      }
    }
  }

  /**
   * Projection convergence. Take any two histories of the same projection, each
   * with its own arrival orders, batch cuts, crashes, replays and rebuilds. If
   * in both the runners have caught up and the logs hold the same items, the
   * read models are equal.
   */
  lemma RunsConverge<T(!new), I(!new)>(
    apply: Handling<T, I>, begun: I -> I, empty: T, one: seq<Step<I>>, other: seq<Step<I>>)
    requires var s := Run(apply, begun, empty, one);
      Repairable(apply, begun, s.own + s.foreign) && s.view.own.cp == |s.own| && s.view.foreign.cp == |s.foreign|
    requires var s := Run(apply, begun, empty, other); s.view.own.cp == |s.own| && s.view.foreign.cp == |s.foreign|
    requires SameItems(Run(apply, begun, empty, one).own + Run(apply, begun, empty, one).foreign,
                       Run(apply, begun, empty, other).own + Run(apply, begun, empty, other).foreign)
    ensures Run(apply, begun, empty, one).view.table == Run(apply, begun, empty, other).view.table
  {
    var s, s' := Run(apply, begun, empty, one), Run(apply, begun, empty, other);
    RunKeeps(apply, begun, empty, one);
    RunKeeps(apply, begun, empty, other);
    CaughtUp(apply, begun, empty, s.own, s.foreign, s.view);
    RepairableSame(apply, begun, s.own + s.foreign, s'.own + s'.foreign);
    CaughtUp(apply, begun, empty, s'.own, s'.foreign, s'.view);
    Converges(apply, empty, s.own + s.foreign, s'.own + s'.foreign);
  }

  /**
   * Read-your-writes. In every run, whenever the store checkpoint has reached
   * position p, every own event up to p shows in the view.
   */
  lemma ReadYourWrites<T(!new), I(!new)>(apply: Handling<T, I>, begun: I -> I, empty: T, steps: seq<Step<I>>, p: nat)
    requires Repairable(apply, begun, Run(apply, begun, empty, steps).own + Run(apply, begun, empty, steps).foreign)
    requires p <= Run(apply, begun, empty, steps).view.own.cp
    ensures var s := Run(apply, begun, empty, steps);
      p <= |s.own| && forall k :: 0 <= k < p ==> apply(s.view.table, s.own[k]) == s.view.table
  {
    RunKeeps(apply, begun, empty, steps);
    var s := Run(apply, begun, empty, steps);
    CheckpointReflected(apply, begun, empty, s.own, s.foreign, s.view, p);
  }

  // ---- Resetting under a live runner ------------------------------------

  /** The same rebuild, but the store runner was not stopped: it keeps its cursor and the batch it is in. */
  function RebuiltLive<T, I>(empty: T, v: View<T, I>): View<T, I> {
    View(empty, [], v.own.(cp := 0), FRESH)
  }

  /** The store runner handles the rest of its batch and sets its checkpoint. */
  function BatchEnded<T, I>(
    apply: Handling<T, I>, begun: I -> I, empty: T, own: seq<I>, foreign: seq<I>, v: View<T, I>): View<T, I>
    decreases if v.own.pos < v.own.end then v.own.end - v.own.pos else 0
  {
    if v.own.pos < v.own.end then
      var next := ViewNext(apply, begun, empty, own, foreign, v, OnStore(ApplyNext));
      BatchEnded(apply, begun, empty, own, foreign, next)
    else ViewNext(apply, begun, empty, own, foreign, v, OnStore(SetCheckpoint))
  }

  /** It ends the batch it is in, or reads one of at most `size` and ends that; with nothing to read it rests. */
  function OneBatch<T, I>(
    apply: Handling<T, I>, begun: I -> I, empty: T, own: seq<I>, foreign: seq<I>, v: View<T, I>, size: nat): View<T, I>
  {
    BatchEnded(apply, begun, empty, own, foreign,
               ViewNext(apply, begun, empty, own, foreign, v, OnStore(ReadBatch(size))))
  }

  lemma {:induction false} BatchEndedLaw<T, I>(
    apply: Handling<T, I>, begun: I -> I, empty: T, own: seq<I>, foreign: seq<I>, v: View<T, I>)
    requires v.own.cursor <= v.own.pos <= v.own.end <= |own|
    ensures var w := BatchEnded(apply, begun, empty, own, foreign, v); var r := v.own;
      && w.applied == v.applied + own[r.pos..r.end]
      && w.own == if r.end > r.cursor then Runner(r.end, r.end, r.end, r.end) else r
    decreases v.own.end - v.own.pos
  {
    var r := v.own;
    if r.pos < r.end {
      var next := ViewNext(apply, begun, empty, own, foreign, v, OnStore(ApplyNext));
      BatchEndedLaw(apply, begun, empty, own, foreign, next);
      assert own[r.pos..r.end] == [own[r.pos]] + own[r.pos + 1..r.end];
    } else {
      assert own[r.pos..r.end] == [];
    }
  }

  ghost predicate Distinct<I>(log: seq<I>) {
    forall i, j :: 0 <= i < j < |log| ==> log[i] != log[j]
  }

  /** Every handled item up to the store checkpoint has been applied. */
  ghost predicate Reflected<T, I>(handled: I -> bool, own: seq<I>, v: View<T, I>) {
    v.own.cp <= |own| && forall k :: 0 <= k < v.own.cp && handled(own[k]) ==> own[k] in v.applied
  }

  lemma StretchMembers<I>(log: seq<I>, from: nat, end: nat, k: nat)
    requires Distinct(log) && from <= end <= |log| && k < end
    ensures log[k] in log[from..end] <==> from <= k
  {
    if from <= k {
      assert log[from..end][k - from] == log[k];
    }
  }

  /**
   * Why the runners must be stopped for a rebuild: after a live one, wherever in
   * a batch the store runner was, the end of that batch leaves a checkpoint that
   * can be trusted exactly when the projection handles nothing that lies before
   * the runner's position, or the runner had nothing left to do.
   */
  lemma LiveRebuild<T, I(!new)>(
    apply: Handling<T, I>, begun: I -> I, empty: T, handled: I -> bool, own: seq<I>, foreign: seq<I>, v: View<T, I>,
    size: nat)
    requires ViewInv(apply, begun, empty, own, foreign, v) && Distinct(own) && size > 0
    ensures Reflected(handled, own, OneBatch(apply, begun, empty, own, foreign, RebuiltLive(empty, v), size)) <==>
      v.own.cursor == |own| || forall k :: 0 <= k < v.own.pos ==> !handled(own[k])
  {
    var live := ViewNext(apply, begun, empty, own, foreign, RebuiltLive(empty, v), OnStore(ReadBatch(size)));
    BatchEndedLaw(apply, begun, empty, own, foreign, live);
    var p, end := live.own.pos, live.own.end;
    assert p == v.own.pos && live.applied == [] && live.own.cursor == v.own.cursor;
    assert [] + own[p..end] == own[p..end];
    forall k | 0 <= k < end ensures own[k] in own[p..end] <==> p <= k {
      StretchMembers(own, p, end, k);
    }
  }

  /** Such a rebuild does lose items: of two, the one before the cursor is missing from a table that looks complete. */
  lemma LiveRebuildLoses()
    ensures var apply := (t: set<int>, i: int) => t + {i}; var begun := (i: int) => i;
      var v := View({7}, [7], Runner(1, 1, 1, 1), FRESH);
      var w := OneBatch(apply, begun, {}, [7, 8], [], RebuiltLive({}, v), 1);
      ViewInv(apply, begun, {}, [7, 8], [], v) && w.own.cp == |[7, 8]| && w.table == {8}
  {
    var apply, begun := (t: set<int>, i: int) => t + {i}, (i: int) => i;
    var v := View({7}, [7], Runner(1, 1, 1, 1), FRESH);
    assert [7][..0] == [] && {} + {7} == {7} && Fold(apply, {}, [7]) == apply(Fold(apply, {}, [7][..0]), 7);
    var read := ViewNext(apply, begun, {}, [7, 8], [], RebuiltLive({}, v), OnStore(ReadBatch(1)));
    assert read == View({}, [], Runner(0, 1, 1, 2), FRESH);
    var applied := ViewNext(apply, begun, {}, [7, 8], [], read, OnStore(ApplyNext));
    assert {} + {8} == {8} && [] + [8] == [8];
    assert applied == View({8}, [8], Runner(0, 1, 2, 2), FRESH);
    assert BatchEnded(apply, begun, {}, [7, 8], [], applied) == View({8}, [8], Runner(2, 2, 2, 2), FRESH);
  }
}
