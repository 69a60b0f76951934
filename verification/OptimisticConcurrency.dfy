/**
 * Why load, decide, append-at-version needs no lock. Any number of workers load
 * a stream, decide on what they saw, and append at the version they saw
 * (eventstore/memory.go, eventstore/repository.go). Whatever the interleaving,
 * each stream is what running the committed commands one after the other would
 * have produced.
 */
module OptimisticConcurrency {
  import opened EventStore

  datatype Decision<+E> = Skip | Write(events: seq<E>)

  /** What a command does to stream `id`, given the events the worker saw. */
  type Decider<!C, !P> = (string, seq<EventData<P>>, C) -> Decision<EventData<P>>

  /** A worker between its load and its append. */
  datatype Open<C, P> = Open(id: string, cmd: C, version: nat, events: seq<EventData<P>>)

  datatype System<C, P> = System(log: Log<P>, open: map<nat, Open<C, P>>)

  datatype Step<C, P> =
    | Begin(worker: nat, id: string, cmd: C)
    | Commit(worker: nat)
    | Abandon(worker: nat)
    | Elsewhere(stream: StreamID, expected: int, events: seq<EventData<P>>)

  /** One atomic step on the streams of one category; appends elsewhere are arbitrary. */
  function Next<C, P>(category: string, decide: Decider<C, P>, s: System<C, P>, step: Step<C, P>): System<C, P> {
    match step
    case Begin(w, id, cmd) =>
      var seen := Events(s.log, StreamID(category, id));
      var d := decide(id, seen, cmd);
      if d.Write? && d.events != [] then s.(open := s.open[w := Open(id, cmd, |seen|, d.events)])
      else s.(open := s.open - {w})
    case Commit(w) =>
      if w !in s.open then s
      else
        var o := s.open[w];
        System(TryAppend(s.log, StreamID(category, o.id), o.version, o.events).0, s.open - {w})
    case Abandon(w) => s.(open := s.open - {w})
    case Elsewhere(stream, expected, events) =>
      if stream.category == category then s
      else s.(log := TryAppend(s.log, stream, expected, events).0)
  }

  function Run<C, P>(category: string, decide: Decider<C, P>, steps: seq<Step<C, P>>): System<C, P> {
    if steps == [] then System([], map[])
    else Next(category, decide, Run(category, decide, steps[..|steps| - 1]), steps[|steps| - 1])
  }

  /** The commands whose append succeeded on stream `id`, in the order of their appends. */
  function Committed<C, P>(category: string, decide: Decider<C, P>, steps: seq<Step<C, P>>, id: string): seq<C> {
    if steps == [] then []
    else
      var before := Committed(category, decide, steps[..|steps| - 1], id);
      var s, step := Run(category, decide, steps[..|steps| - 1]), steps[|steps| - 1];
      if step.Commit? && step.worker in s.open && s.open[step.worker].id == id
         && s.open[step.worker].version == |Events(s.log, StreamID(category, id))|
      then before + [s.open[step.worker].cmd] else before
  }

  /** The reference: commands run one after the other, each seeing all before it. */
  function Serial<C, P>(decide: Decider<C, P>, id: string, cmds: seq<C>): seq<EventData<P>> {
    if cmds == [] then []
    else
      var before := Serial(decide, id, cmds[..|cmds| - 1]);
      match decide(id, before, cmds[|cmds| - 1])
      case Skip => before
      case Write(es) => before + es
  }

  /** Every command of the list writes something when run in turn. */
  ghost predicate AllWrite<C, P>(decide: Decider<C, P>, id: string, cmds: seq<C>) {
    cmds == [] ||
    (var init := cmds[..|cmds| - 1];
     var d := decide(id, Serial(decide, id, init), cmds[|cmds| - 1]);
     AllWrite(decide, id, init) && d.Write? && d.events != [])
  }

  /** An open worker's decision was made on a prefix of the stream as it is now. */
  ghost predicate HonestOpen<C, P>(category: string, decide: Decider<C, P>, log: Log<P>, o: Open<C, P>) {
    var now := Events(log, StreamID(category, o.id));
    o.version <= |now| && o.events != [] && decide(o.id, now[..o.version], o.cmd) == Write(o.events)
  }

  ghost predicate Honest<C, P>(category: string, decide: Decider<C, P>, s: System<C, P>) {
    forall w :: w in s.open ==> HonestOpen(category, decide, s.log, s.open[w])
  }

  lemma HonestGrows<C, P>(category: string, decide: Decider<C, P>, log: Log<P>, after: Log<P>, o: Open<C, P>)
    requires log <= after && HonestOpen(category, decide, log, o)
    ensures HonestOpen(category, decide, after, o)
  {
    var sid := StreamID(category, o.id);
    StreamGrows(log, after, sid);
    assert Events(after, sid)[..o.version] == Events(log, sid)[..o.version];
  }

  lemma NextGrows<C, P>(category: string, decide: Decider<C, P>, s: System<C, P>, step: Step<C, P>)
    ensures s.log <= Next(category, decide, s, step).log
  {
    match step {
      case Commit(w) =>
        if w in s.open {
          TryAppendLaw(s.log, StreamID(category, s.open[w].id), s.open[w].version, s.open[w].events);
        }
      case Elsewhere(stream, expected, events) =>
        TryAppendLaw(s.log, stream, expected, events);
      case _ =>
    }
  }

  /** A run's log only grows. */
  lemma {:induction false} RunGrows<C, P>(
    category: string, decide: Decider<C, P>, steps: seq<Step<C, P>>, more: seq<Step<C, P>>)
    ensures Run(category, decide, steps).log <= Run(category, decide, steps + more).log
  {
    if more == [] {
      assert steps + more == steps;
    } else {
      var init := more[..|more| - 1];
      assert (steps + more)[..|steps + more| - 1] == steps + init;
      RunGrows(category, decide, steps, init);
      NextGrows(category, decide, Run(category, decide, steps + init), more[|more| - 1]);
    }
  }

  lemma NextHonest<C, P>(category: string, decide: Decider<C, P>, s: System<C, P>, step: Step<C, P>)
    requires Honest(category, decide, s)
    ensures Honest(category, decide, Next(category, decide, s, step))
  {
    var s' := Next(category, decide, s, step);
    NextGrows(category, decide, s, step);
    forall w | w in s'.open ensures HonestOpen(category, decide, s'.log, s'.open[w]) {
      if w in s.open && s'.open[w] == s.open[w] {
        HonestGrows(category, decide, s.log, s'.log, s.open[w]);
      } else {
        var seen := Events(s.log, StreamID(category, step.id));
        assert seen[..|seen|] == seen;
      }
    }
  }

  /** What one step does to stream `id`: nothing, or the decision of one command on the stream as it is. */
  lemma NextSerial<C, P>(category: string, decide: Decider<C, P>, s: System<C, P>, step: Step<C, P>, id: string)
    requires Honest(category, decide, s)
    ensures var sid := StreamID(category, id);
      var now, after := Events(s.log, sid), Events(Next(category, decide, s, step).log, sid);
      if step.Commit? && step.worker in s.open && s.open[step.worker].id == id && s.open[step.worker].version == |now|
      then
        var o := s.open[step.worker];
        decide(id, now, o.cmd) == Write(o.events) && o.events != [] && after == now + o.events
      else after == now
  {
    var sid := StreamID(category, id);
    match step {
      case Commit(w) =>
        if w in s.open {
          var o := s.open[w];
          TryAppendLaw(s.log, StreamID(category, o.id), o.version, o.events);
          var now := Events(s.log, StreamID(category, o.id));
          assert now[..|now|] == now;
        }
      case Elsewhere(stream, expected, events) =>
        TryAppendLaw(s.log, stream, expected, events);
      case _ =>
    }
  }

  /**
   * Serializability. For every interleaving of any number of workers, crashes
   * and appends to other streams, each stream equals the serial run of its
   * committed commands, and each of them wrote its decision on exactly the
   * events before it.
   */
  lemma {:induction false} Serializable<C, P>(
    category: string, decide: Decider<C, P>, steps: seq<Step<C, P>>, id: string)
    ensures var s := Run(category, decide, steps);
      var cmds := Committed(category, decide, steps, id);
      && Honest(category, decide, s)
      && Events(s.log, StreamID(category, id)) == Serial(decide, id, cmds)
      && AllWrite(decide, id, cmds)
  {
    if steps != [] {
      var init, step := steps[..|steps| - 1], steps[|steps| - 1];
      Serializable(category, decide, init, id);
      var s := Run(category, decide, init);
      NextHonest(category, decide, s, step);
      NextSerial(category, decide, s, step, id);
      var before, cmds := Committed(category, decide, init, id), Committed(category, decide, steps, id);
      if cmds != before {
        assert cmds[..|cmds| - 1] == before;
      }
    }
  }
  lemma RunSnoc<C, P>(category: string, decide: Decider<C, P>, steps: seq<Step<C, P>>, step: Step<C, P>)
    ensures Run(category, decide, steps + [step]) == Next(category, decide, Run(category, decide, steps), step)
  {
    assert (steps + [step])[..|steps|] == steps;
  }

  /** A worker that nobody interferes with appends exactly what it decided, whatever others are holding meanwhile. */
  lemma AloneCommits<C, P>(
    category: string, decide: Decider<C, P>, steps: seq<Step<C, P>>, w: nat, id: string, cmd: C)
    ensures var stream := StreamID(category, id);
      var now := Events(Run(category, decide, steps).log, stream);
      var s' := Run(category, decide, steps + [Begin(w, id, cmd)] + [Commit(w)]);
      && Events(s'.log, stream) == (match decide(id, now, cmd) case Skip => now case Write(es) => now + es)
      && w !in s'.open
  {
    var begun := steps + [Begin(w, id, cmd)];
    RunSnoc(category, decide, steps, Begin(w, id, cmd));
    RunSnoc(category, decide, begun, Commit(w));
    var s := Run(category, decide, begun);
    if w in s.open {
      TryAppendLaw(s.log, StreamID(category, id), s.open[w].version, s.open[w].events);
    }
  }
}
