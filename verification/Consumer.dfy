/**
 * Commands off the wire (cqrs/command.go, cqrs/wire.go): a bus that retries
 * transient errors and never a definitive rejection, and a consumer that
 * deduplicates by message ID, executes, and marks. The service's state W and
 * what others do to it between two attempts are parameters.
 */
module Consumer {
  import opened Wrappers
  import opened Messaging

  /** One attempt of a command handler; a failed one may have changed the state. */
  type Executor<!W, !C> = (W, C) -> (W, Option<Error>)

  predicate Transient(err: Option<Error>) { err.Some? && !err.value.DomainError? }

  function Disturb<W>(others: seq<W -> W>, k: nat, w: W): W {
    if k < |others| then others[k](w) else w
  }

  /**
   * The attempts of one dispatch from the k-th on, others interfering before
   * each. The caller may give up while waiting after attempt `stop`.
   */
  function Tries<W, C>(
    exec: Executor<W, C>, cmd: C, w: W, others: seq<W -> W>, stop: Option<nat>, k: nat, limit: nat): (W, Option<Error>)
    requires k < limit
    decreases limit - k
  {
    var (after, err) := exec(Disturb(others, k, w), cmd);
    if Transient(err) && k + 1 < limit && stop != Some(k) then Tries(exec, cmd, after, others, stop, k + 1, limit)
    else (after, err)
  }

  /** Attempt k, made in state `at`, failed in a way that may pass; `next` is what others then made of what it left. */
  ghost predicate Again<W, C>(
    exec: Executor<W, C>, cmd: C, others: seq<W -> W>, stop: Option<nat>, k: nat, at: W, next: W)
  {
    var (left, err) := exec(at, cmd);
    && err.Some? && !err.value.DomainError? && stop != Some(k)
    && next == if k + 1 < |others| then others[k + 1](left) else left
  }

  /**
   * What a dispatch may do, attempt by attempt, from the k-th on. `ats` are the
   * states the handler was run in: the start and then what the attempt before
   * left, each as others have changed it meanwhile. Every attempt but the last
   * failed in a way that may pass, and the last one gives the state and the error;
   * it is one of those only when no attempt was left or the caller had given up.
   */
  ghost predicate Attempted<W, C>(
    exec: Executor<W, C>, cmd: C, w: W, others: seq<W -> W>, stop: Option<nat>, k: nat, limit: nat, ats: seq<W>,
    after: W, err: Option<Error>)
  {
    && 1 <= |ats| && k + |ats| <= limit
    && ats[0] == (if k < |others| then others[k](w) else w)
    && (forall i :: 0 <= i < |ats| - 1 ==> Again(exec, cmd, others, stop, k + i, ats[i], ats[i + 1]))
    && (after, err) == exec(ats[|ats| - 1], cmd)
    && (err.Some? && !err.value.DomainError? ==> k + |ats| == limit || stop == Some(k + |ats| - 1))
  }

  /** One more attempt in front. */
  lemma AttemptedCons<W, C>(
    exec: Executor<W, C>, cmd: C, w: W, others: seq<W -> W>, stop: Option<nat>, k: nat, limit: nat, rest: seq<W>,
    after: W, err: Option<Error>)
    requires stop != Some(k)
    requires var a := exec(Disturb(others, k, w), cmd); a.1.Some? && !a.1.value.DomainError?
    requires Attempted(exec, cmd, exec(Disturb(others, k, w), cmd).0, others, stop, k + 1, limit, rest, after, err)
    ensures Attempted(exec, cmd, w, others, stop, k, limit, [Disturb(others, k, w)] + rest, after, err)
  {
    var ats := [Disturb(others, k, w)] + rest;
    forall i | 0 <= i < |ats| - 1 ensures Again(exec, cmd, others, stop, k + i, ats[i], ats[i + 1]) {
      if i > 0 {
        assert ats[i] == rest[i - 1] && ats[i + 1] == rest[i];
        assert Again(exec, cmd, others, stop, k + 1 + (i - 1), rest[i - 1], rest[i]);
      }
    }
  }

  /** Every dispatch is such a sequence of attempts. */
  lemma {:induction false} TriesEnd<W, C>(
    exec: Executor<W, C>, cmd: C, w: W, others: seq<W -> W>, stop: Option<nat>, k: nat, limit: nat)
    returns (ats: seq<W>)
    requires k < limit
    ensures var (after, err) := Tries(exec, cmd, w, others, stop, k, limit);
      Attempted(exec, cmd, w, others, stop, k, limit, ats, after, err)
    decreases limit - k
  {
    var at := Disturb(others, k, w);
    var (after, err) := exec(at, cmd);
    if Transient(err) && k + 1 < limit && stop != Some(k) {
      var rest := TriesEnd(exec, cmd, after, others, stop, k + 1, limit);
      var (last, e) := Tries(exec, cmd, after, others, stop, k + 1, limit);
      AttemptedCons(exec, cmd, w, others, stop, k, limit, rest, last, e);
      ats := [at] + rest;
    } else {
      ats := [at];
    }
  }

  /**
   * And it is no other: what comes of a dispatch is determined by how others
   * interfere and when the caller gives up.
   */
  lemma TriesAttempt<W, C>(
    exec: Executor<W, C>, cmd: C, w: W, others: seq<W -> W>, stop: Option<nat>, limit: nat, after: W,
    err: Option<Error>)
    requires 0 < limit
    ensures Tries(exec, cmd, w, others, stop, 0, limit) == (after, err) <==>
      exists ats :: Attempted(exec, cmd, w, others, stop, 0, limit, ats, after, err)
  {
    var ats := TriesEnd(exec, cmd, w, others, stop, 0, limit);
    var (last, e) := Tries(exec, cmd, w, others, stop, 0, limit);
    assert Attempted(exec, cmd, w, others, stop, 0, limit, ats, last, e);
    if ats' :| Attempted(exec, cmd, w, others, stop, 0, limit, ats', after, err) {
      AttemptedOnce(exec, cmd, w, others, stop, 0, limit, ats, last, e, ats', after, err);
    }
  }

  lemma AttemptedOnce<W, C>(
    exec: Executor<W, C>, cmd: C, w: W, others: seq<W -> W>, stop: Option<nat>, k: nat, limit: nat,
    ats: seq<W>, after: W, err: Option<Error>, ats': seq<W>, after': W, err': Option<Error>)
    requires Attempted(exec, cmd, w, others, stop, k, limit, ats, after, err)
    requires Attempted(exec, cmd, w, others, stop, k, limit, ats', after', err')
    ensures ats == ats' && after == after' && err == err'
  {
    var n := if |ats| < |ats'| then |ats| else |ats'|;
    SameAttempts(exec, cmd, w, others, stop, k, limit, ats, after, err, ats', after', err', n);
    NotLonger(exec, cmd, w, others, stop, k, limit, ats, after, err, ats', after', err');
    NotLonger(exec, cmd, w, others, stop, k, limit, ats', after', err', ats, after, err);
  }

  lemma GoesOn<W, C>(
    exec: Executor<W, C>, cmd: C, w: W, others: seq<W -> W>, stop: Option<nat>, k: nat, limit: nat, ats: seq<W>,
    after: W, err: Option<Error>, i: nat)
    requires Attempted(exec, cmd, w, others, stop, k, limit, ats, after, err)
    ensures i < |ats| - 1 ==> Transient(exec(ats[i], cmd).1) && stop != Some(k + i) && k + i + 1 < limit
  {
    if i < |ats| - 1 {
      assert Again(exec, cmd, others, stop, k + i, ats[i], ats[i + 1]);
    }
  }

  /** After a last attempt there is no other. */
  lemma NotLonger<W, C>(
    exec: Executor<W, C>, cmd: C, w: W, others: seq<W -> W>, stop: Option<nat>, k: nat, limit: nat,
    ats: seq<W>, after: W, err: Option<Error>, ats': seq<W>, after': W, err': Option<Error>)
    requires Attempted(exec, cmd, w, others, stop, k, limit, ats, after, err)
    requires Attempted(exec, cmd, w, others, stop, k, limit, ats', after', err')
    requires forall i :: 0 <= i < |ats| && i < |ats'| ==> ats[i] == ats'[i]
    ensures |ats'| <= |ats|
  {
    GoesOn(exec, cmd, w, others, stop, k, limit, ats', after', err', |ats| - 1);
  }

  lemma {:induction false} SameAttempts<W, C>(
    exec: Executor<W, C>, cmd: C, w: W, others: seq<W -> W>, stop: Option<nat>, k: nat, limit: nat,
    ats: seq<W>, after: W, err: Option<Error>, ats': seq<W>, after': W, err': Option<Error>, n: nat)
    requires Attempted(exec, cmd, w, others, stop, k, limit, ats, after, err)
    requires Attempted(exec, cmd, w, others, stop, k, limit, ats', after', err')
    requires 1 <= n <= |ats| && n <= |ats'|
    ensures forall i :: 0 <= i < n ==> ats[i] == ats'[i]
  {
    if n > 1 {
      SameAttempts(exec, cmd, w, others, stop, k, limit, ats, after, err, ats', after', err', n - 1);
      assert ats[n - 2] == ats'[n - 2];
      assert Again(exec, cmd, others, stop, k + (n - 2), ats[n - 2], ats[n - 1]);
      assert Again(exec, cmd, others, stop, k + (n - 2), ats'[n - 2], ats'[n - 1]);
    }
  }

  class MemoryDeduplicator {
    var seen: set<string>

    constructor ()
      ensures seen == {}
    {
      seen := {};
    }

    method Processed(id: string) returns (yes: bool)
      ensures yes <==> id in seen
    {
      yes := id in seen;
    }

    method MarkProcessed(id: string)
      modifies this
      ensures seen == old(seen) + {id}
    {
      seen := seen + {id};
    }
  }

  /** The service's state, as the handlers see it. */
  class World<W> {
    var state: W

    constructor (w: W)
      ensures state == w
    {
      state := w;
    }
  }

  const DEFAULT_ATTEMPTS := 3

  class Bus<!W, !C> {
    const world: World<W>
    const nameOf: C -> string
    const attempts: Positive
    var handlers: map<string, Executor<W, C>>

    constructor (world: World<W>, nameOf: C -> string, attempts: int)
      ensures this.world == world && this.nameOf == nameOf && handlers == map[]
      ensures this.attempts == if attempts <= 0 then DEFAULT_ATTEMPTS else attempts
    {
      this.world, this.nameOf := world, nameOf;
      this.attempts := if attempts <= 0 then DEFAULT_ATTEMPTS else attempts;
      handlers := map[];
    }

    /** False stands for the panic on an empty name or a second handler. */
    method Handle(name: string, fn: Executor<W, C>) returns (ok: bool)
      modifies this
      ensures ok <==> name != "" && name !in old(handlers)
      ensures handlers == if ok then old(handlers)[name := fn] else old(handlers)
    {
      ok := name != "" && name !in handlers;
      if ok {
        handlers := handlers[name := fn];
      }
    }

    method Dispatch(cmd: C, others: seq<W -> W>, stop: Option<nat>) returns (err: Option<Error>)
      modifies world
      ensures if nameOf(cmd) in handlers
        then (world.state, err) == Tries(handlers[nameOf(cmd)], cmd, old(world.state), others, stop, 0, attempts)
        else world.state == old(world.state) && err == Some(Failure("no handler for command"))
      ensures nameOf(cmd) in handlers ==>
        exists ats ::
          Attempted(handlers[nameOf(cmd)], cmd, old(world.state), others, stop, 0, attempts, ats, world.state, err)
    {
      var name := nameOf(cmd);
      if name !in handlers {
        return Some(Failure("no handler for command"));
      }
      ghost var ended := Tries(handlers[name], cmd, world.state, others, stop, 0, attempts);
      TriesAttempt(handlers[name], cmd, world.state, others, stop, attempts, ended.0, ended.1);
      var attempt := 0;
      err := None;
      while true
        invariant attempt < attempts
        invariant Tries(handlers[name], cmd, world.state, others, stop, attempt, attempts)
          == Tries(handlers[name], cmd, old(world.state), others, stop, 0, attempts)
        decreases attempts - attempt
      {
        var (after, e) := handlers[name](Disturb(others, attempt, world.state), cmd);
        world.state, err := after, e;
        if !Transient(err) || attempt + 1 >= attempts {
          return;
        }
        if stop == Some(attempt) {
          return;
        }
        attempt := attempt + 1;
      }
    }
  }

  /** What one delivery leads to. */
  datatype Verdict = Duplicate | Undecodable | Executed(err: Option<Error>)

  /** A definitive answer: the message is never executed again. */
  predicate Definitive(v: Verdict) {
    v.Executed? ==> !Transient(v.err)
  }

  class Consumer<!W, !C, !B> {
    const bus: Bus<W, C>
    const dedup: MemoryDeduplicator
    const decoders: map<string, B -> Option<C>>

    constructor (bus: Bus<W, C>, dedup: MemoryDeduplicator, decoders: map<string, B -> Option<C>>)
      ensures this.bus == bus && this.dedup == dedup && this.decoders == decoders
    {
      this.bus, this.dedup, this.decoders := bus, dedup, decoders;
    }

    function Decode(msg: Message<B>): Option<C> {
      if msg.name in decoders then decoders[msg.name](msg.body) else None
    }

    /**
     * One delivery; `crash` is the process dying between executing and marking.
     * A marked message touches nothing. An undecodable one is rejected without
     * touching the state. Otherwise the command is dispatched, and only a
     * definitive answer, success or rejection, is marked and acknowledged.
     */
    method Handle(msg: Message<B>, others: seq<W -> W>, stop: Option<nat>, crash: bool)
      returns (err: Option<Error>, rejected: bool, ghost v: Verdict)
      modifies bus.world, dedup
      ensures v == Duplicate <==> msg.id in old(dedup.seen)
      ensures v == Undecodable <==> msg.id !in old(dedup.seen) && Decode(msg).None?
      ensures !v.Executed? ==> bus.world.state == old(bus.world.state)
      ensures v.Executed? ==>
        var cmd := Decode(msg).value;
        if bus.nameOf(cmd) in bus.handlers
        then (bus.world.state, v.err)
          == Tries(bus.handlers[bus.nameOf(cmd)], cmd, old(bus.world.state), others, stop, 0, bus.attempts)
        else bus.world.state == old(bus.world.state) && Transient(v.err)
      ensures rejected <==> v == Undecodable || (v.Executed? && v.err.Some? && Definitive(v))
      ensures dedup.seen ==
        if v.Duplicate? || crash || !Definitive(v) then old(dedup.seen) else old(dedup.seen) + {msg.id}
      ensures err.None? <==> v.Duplicate? || (Definitive(v) && !crash)
      ensures v.Executed? && v.err.Some? && !v.err.value.DomainError? ==>
        err == v.err && !rejected && dedup.seen == old(dedup.seen)
      ensures v.Executed? && v.err.Some? && v.err.value.DomainError? && !crash ==>
        err.None? && rejected && dedup.seen == old(dedup.seen) + {msg.id}
      ensures v.Executed? && v.err.None? && !crash ==>
        err.None? && !rejected && dedup.seen == old(dedup.seen) + {msg.id}
    {
      var seen := dedup.Processed(msg.id);
      if seen {
        return None, false, Duplicate;
      }
      var cmd := Decode(msg);
      rejected, v := cmd.None?, Undecodable;
      if cmd.Some? {
        err := bus.Dispatch(cmd.value, others, stop);
        v := Executed(err);
        if Transient(err) {
          return err, false, v;
        }
        rejected := err.Some?;
      }
      if crash {
        return Some(Failure("crash")), rejected, v;
      }
      dedup.MarkProcessed(msg.id);
      return None, rejected, v;
    }
  }

  // ---- Any number of consumers, redeliveries and crashes ----------------

  /** Workers that found their message unmarked, and workers that got a definitive answer and have not marked it yet. */
  datatype Consuming<W> = Consuming(
    world: W, marked: set<string>, rejected: set<string>, checked: map<nat, string>, executed: map<nat, string>)

  datatype Step<W> =
    | Check(worker: nat, id: string)
    | Attempt(worker: nat)
    | Mark(worker: nat)
    | Crash(worker: nat)
    | Change(world: W)

  /** Once a command has taken effect, nothing the service does undoes that. */
  ghost predicate Lasting<W(!new), C(!new)>(exec: Executor<W, C>, effect: (W, C) -> bool) {
    && (forall w, c {:trigger exec(w, c)} :: exec(w, c).1.None? ==> effect(exec(w, c).0, c))
    && (forall w, c, d {:trigger exec(w, c), effect(w, d)} :: effect(w, d) ==> effect(exec(w, c).0, d))
  }

  /** What a message is met with: one that cannot be decoded is rejected without an attempt. */
  function Answer<W, C>(exec: Executor<W, C>, cmd: Option<C>, w: W): (W, Option<Error>) {
    if cmd.None? then (w, Some(DomainError("undecodable"))) else exec(w, cmd.value)
  }

  /**
   * One atomic step: looking the mark up, one attempt at the command, marking.
   * Any worker may be delivered any message at any time, so others may mark the
   * message between a worker's look and its attempts. A step that is not enabled
   * does nothing.
   */
  ghost function Next<W, C(!new)>(
    exec: Executor<W, C>, effect: (W, C) -> bool, commandOf: string -> Option<C>, s: Consuming<W>,
    step: Step<W>): Consuming<W>
  {
    match step
    case Check(w, id) => if id in s.marked then s else s.(checked := s.checked[w := id], executed := s.executed - {w})
    case Attempt(w) =>
      if w !in s.checked then s
      else
        var id := s.checked[w];
        var (after, err) := Answer(exec, commandOf(id), s.world);
        if Transient(err) then s.(world := after)
        else
          s.(world := after, checked := s.checked - {w}, executed := s.executed[w := id],
             rejected := if err.Some? then s.rejected + {id} else s.rejected)
    case Mark(w) =>
      if w in s.executed then s.(marked := s.marked + {s.executed[w]}, executed := s.executed - {w}) else s
    case Crash(w) => s.(checked := s.checked - {w}, executed := s.executed - {w})
    case Change(w') =>
      if forall c {:trigger effect(w', c)} :: effect(s.world, c) ==> effect(w', c) then s.(world := w') else s
  }

  ghost function Run<W, C(!new)>(
    exec: Executor<W, C>, effect: (W, C) -> bool, commandOf: string -> Option<C>, start: W,
    steps: seq<Step<W>>): Consuming<W>
  {
    if steps == [] then Consuming(start, {}, {}, map[], map[])
    else Next(exec, effect, commandOf, Run(exec, effect, commandOf, start, steps[..|steps| - 1]), steps[|steps| - 1])
  }

  /**
   * A worker alone gets its message done: it looks the mark up, executes once,
   * and marks exactly this ID.
   */
  lemma DeliveredAlone<W, C(!new)>(
    exec: Executor<W, C>, effect: (W, C) -> bool, commandOf: string -> Option<C>, start: W, steps: seq<Step<W>>,
    w: nat, id: string)
    requires id !in Run(exec, effect, commandOf, start, steps).marked
    requires commandOf(id).Some? ==>
      var err := exec(Run(exec, effect, commandOf, start, steps).world, commandOf(id).value).1;
      err.None? || err.value.DomainError?
    ensures var s := Run(exec, effect, commandOf, start, steps);
      var s' := Run(exec, effect, commandOf, start, steps + [Check(w, id)] + [Attempt(w)] + [Mark(w)]);
      && s'.marked == s.marked + {id}
      && s'.world == (if commandOf(id).Some? then exec(s.world, commandOf(id).value).0 else s.world)
      && (id in s'.rejected <==>
            id in s.rejected || commandOf(id).None? || exec(s.world, commandOf(id).value).1.Some?)
  {
    RunSnoc(exec, effect, commandOf, start, steps, Check(w, id));
    RunSnoc(exec, effect, commandOf, start, steps + [Check(w, id)], Attempt(w));
    RunSnoc(exec, effect, commandOf, start, steps + [Check(w, id)] + [Attempt(w)], Mark(w));
  }

  lemma RunSnoc<W, C(!new)>(
    exec: Executor<W, C>, effect: (W, C) -> bool, commandOf: string -> Option<C>, start: W, steps: seq<Step<W>>,
    step: Step<W>)
    ensures Run(exec, effect, commandOf, start, steps + [step]) ==
      Next(exec, effect, commandOf, Run(exec, effect, commandOf, start, steps), step)
  {
    assert (steps + [step])[..|steps|] == steps;
  }

  ghost predicate Settled<W, C>(effect: (W, C) -> bool, commandOf: string -> Option<C>, s: Consuming<W>, id: string) {
    id in s.rejected || (commandOf(id).Some? && effect(s.world, commandOf(id).value))
  }

  /** Whoever is marked, or about to be, is settled. */
  ghost predicate AllSettled<W, C>(effect: (W, C) -> bool, commandOf: string -> Option<C>, s: Consuming<W>) {
    && (forall id :: id in s.marked ==> Settled(effect, commandOf, s, id))
    && (forall w :: w in s.executed ==> Settled(effect, commandOf, s, s.executed[w]))
  }

  lemma StaysSettled<W(!new), C(!new)>(
    exec: Executor<W, C>, effect: (W, C) -> bool, commandOf: string -> Option<C>, s: Consuming<W>, step: Step<W>,
    id: string)
    requires Lasting(exec, effect) && Settled(effect, commandOf, s, id)
    ensures Settled(effect, commandOf, Next(exec, effect, commandOf, s, step), id)
  {
    if id !in s.rejected && step.Attempt? && step.worker in s.checked {
      var tried := commandOf(s.checked[step.worker]);
      if tried.Some? {
        assert effect(exec(s.world, tried.value).0, commandOf(id).value);
      }
    }
  }

  lemma AttemptSettles<W(!new), C(!new)>(
    exec: Executor<W, C>, effect: (W, C) -> bool, commandOf: string -> Option<C>, s: Consuming<W>, w: nat)
    requires Lasting(exec, effect) && w in s.checked && !Transient(Answer(exec, commandOf(s.checked[w]), s.world).1)
    ensures var s' := Next(exec, effect, commandOf, s, Attempt(w));
      w in s'.executed && s'.executed[w] == s.checked[w] && Settled(effect, commandOf, s', s.checked[w])
  {
  }

  lemma NextSettled<W(!new), C(!new)>(
    exec: Executor<W, C>, effect: (W, C) -> bool, commandOf: string -> Option<C>, s: Consuming<W>, step: Step<W>)
    requires Lasting(exec, effect) && AllSettled(effect, commandOf, s)
    ensures AllSettled(effect, commandOf, Next(exec, effect, commandOf, s, step))
  {
    var s' := Next(exec, effect, commandOf, s, step);
    if step.Attempt? && step.worker in s.checked
      && !Transient(Answer(exec, commandOf(s.checked[step.worker]), s.world).1) {
      AttemptSettles(exec, effect, commandOf, s, step.worker);
    }
    forall id | id in s'.marked ensures Settled(effect, commandOf, s', id) {
      StaysSettled(exec, effect, commandOf, s, step, id);
    }
    forall w | w in s'.executed ensures Settled(effect, commandOf, s', s'.executed[w]) {
      if w in s.executed && s'.executed[w] == s.executed[w] {
        StaysSettled(exec, effect, commandOf, s, step, s.executed[w]);
      }
    }
  }

  /**
   * An ID is marked as processed only if its command took effect or the message
   * was rejected, definitively or because it cannot be decoded, whatever the
   * interleaving of concurrent duplicates, retries, crashes between executing and
   * marking, and other changes.
   */
  lemma {:induction false} MarkedMeansSettled<W(!new), C(!new)>(
    exec: Executor<W, C>, effect: (W, C) -> bool, commandOf: string -> Option<C>, start: W, steps: seq<Step<W>>)
    requires Lasting(exec, effect)
    ensures AllSettled(effect, commandOf, Run(exec, effect, commandOf, start, steps))
  {
    if steps != [] {
      MarkedMeansSettled(exec, effect, commandOf, start, steps[..|steps| - 1]);
      NextSettled(exec, effect, commandOf, Run(exec, effect, commandOf, start, steps[..|steps| - 1]),
        steps[|steps| - 1]);
    }
  }
}
