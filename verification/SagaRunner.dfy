/**
 * Defining and driving a saga (saga/saga.go, saga/runner.go): one delivery loads
 * or starts the instance, decides, and saves the envelope, the commands and the
 * end marker in one append, retrying a version conflict a bounded number of
 * times. Whatever other writers append between load and save is a parameter.
 */
module SagaRunner {
  import opened Wrappers
  import opened EventStore
  import opened Registry
  import opened Kernel
  import opened Messaging
  import opened Keys
  import opened Repository
  import opened Saga

  const CONFLICT_RETRIES := 3

  class SagaDefinition<!S, !B> {
    const name: string
    const zero: S
    const describe: B -> (string, int)
    var handlers: map<string, Handler<S, B>>

    constructor (name: string, zero: S, describe: B -> (string, int))
      requires name != ""
      ensures this.name == name && this.zero == zero && this.describe == describe && handlers == map[]
    {
      this.name, this.zero, this.describe := name, zero, describe;
      handlers := map[];
    }

    function Lookup(event: string, version: int): Option<Handler<S, B>>
      reads this
    {
      if EventKey(event, version) in handlers then Some(handlers[EventKey(event, version)]) else None
    }

    /**
     * Registers a reaction for one contract name and version, and for no other.
     * False stands for the panic on a duplicate.
     */
    method OnEvent(event: string, version: int, handler: Handler<S, B>) returns (ok: bool)
      modifies this
      ensures ok <==> old(Lookup(event, version)) == None
      ensures Lookup(event, version) == if ok then Some(handler) else old(Lookup(event, version))
      ensures forall e, v :: e != event || v != version ==> Lookup(e, v) == old(Lookup(e, v))
    {
      var key := EventKey(event, version);
      ok := key !in handlers;
      if ok {
        handlers := handlers[key := handler];
      }
      forall e, v | e != event || v != version ensures Lookup(e, v) == old(Lookup(e, v)) {
        EventKeyInjective(e, v, event, version);
      }
    }
  }

  /** The instance a delivery works on, with its version: as stored, or new when none is found. */
  function StoredInstance<S, B(==), P>(
    entries: Entries<SagaEvent<B>, P>, def: Definition<S, B>, ds: seq<EventData<P>>): Result<(Instance<S, B>, int)>
  {
    var loaded := Loaded(entries, Applier(def), NewInstance(def), ds);
    if loaded == Err(ErrNotFound) then Ok((NewInstance(def), 0)) else loaded
  }

  /**
   * A saga nobody has heard of starts from the zero state, at version 0; a stored
   * one is its events decoded and replayed, at their number; what cannot be read
   * is an error, and then the saga is not started over.
   */
  lemma StoredInstanceLaw<S, B, P>(
    entries: Entries<SagaEvent<B>, P>, def: Definition<S, B>, ds: seq<EventData<P>>, es: seq<SagaEvent<B>>,
    states: seq<Instance<S, B>>, i: Instance<S, B>, version: int)
    ensures StoredInstance(entries, def, []) == Ok((Instance(def.zero, false, {}, Decisions([], false)), 0))
    ensures LoadedBy(entries, Applier(def), NewInstance(def), ds, es, states, i, version) ==>
      StoredInstance(entries, def, ds) == Ok((i, version))
    ensures DecodeAll(entries, ds).Err? ==> StoredInstance(entries, def, ds) == Err(DecodeAll(entries, ds).error)
  {
    LoadedLaw(entries, Applier(def), NewInstance(def), ds, i, version);
    DecodeAllFails(entries, ds);
  }

  function OpsAt<P>(schedule: seq<seq<Op<P>>>, k: nat): seq<Op<P>> {
    if k < |schedule| then schedule[k] else []
  }

  class Runner<!S, !B(==, !new), !P> {
    const def: Definition<S, B>
    const repo: Repository<Instance<S, B>, SagaEvent<B>, P>

    ghost predicate Ready()
      reads this, repo, repo.store
    {
      && repo.store.Valid()
      && repo.category == Category(def)
      && repo.zero == NewInstance(def)
      && repo.apply == Applier(def)
    }

    constructor (def: Definition<S, B>, store: MemoryStore<P>, registry: EventRegistry<SagaEvent<B>, P>)
      requires store.Valid()
      ensures Ready() && this.def == def && repo.store == store && repo.registry == registry
    {
      this.def := def;
      this.repo := new Repository(store, registry, Category(def), NewInstance(def), Applier(def));
    }

    ghost function StreamFor(id: string): StreamID { StreamID(Category(def), id) }

    ghost function InstanceOn(log: Log<P>, id: string): Result<(Instance<S, B>, int)>
      reads repo.registry
    {
      StoredInstance(repo.registry.entries, def, Events(log, StreamFor(id)))
    }

    /** What deciding about a message on instance i leads to, when the store has meanwhile become `before`. */
    ghost predicate Outcome(
      id: string, msg: Message<B>, i: Instance<S, B>, version: int, before: Log<P>, done: bool, err: Option<Error>)
      reads repo.registry, repo.store
    {
      match Decide(def, id, i, msg)
      case Ignore => done && err == None && repo.store.all == before
      case Refuse(x) => done && err == Some(x) && repo.store.all == before
      case Record(es) =>
        match EncodeAll(repo.registry.entries, repo.registry.codec, es)
        case Err(x) => done && err == Some(x) && repo.store.all == before
        case Ok(data) =>
          var (after, r) := TryAppend(before, StreamFor(id), version, data);
          repo.store.all == after && done == r.Ok? && err == ErrorOf(r)
    }

    /**
     * Loads the instance, decides on the message, saves. Other writers append
     * `ops` between the load and the save. Not done means a version conflict.
     */
    method Process(id: string, msg: Message<B>, ops: seq<Op<P>>) returns (done: bool, err: Option<Error>)
      requires Ready()
      modifies repo.store
      ensures Ready()
      ensures var before := ApplyOps(old(repo.store.all), ops);
        match InstanceOn(old(repo.store.all), id)
        case Err(x) => done && err == Some(x) && repo.store.all == before
        case Ok((i, version)) => Outcome(id, msg, i, version, before, done, err)
    {
      var loaded := repo.Load(id);
      repo.store.Others(ops);
      var inst: Root<Instance<S, B>, SagaEvent<B>>;
      if loaded.Ok? {
        inst := loaded.value;
      } else if loaded.error == ErrNotFound {
        inst := new Root(NewInstance(def), Applier(def));
      } else {
        return true, Some(loaded.error);
      }
      var verdict := React(inst, id, msg);
      if verdict.Ignore? {
        return true, None;
      }
      if verdict.Refuse? {
        return true, Some(verdict.error);
      }
      EncodeAllFails(repo.registry.entries, repo.registry.codec, verdict.events);
      var failed := repo.Save(id, inst, null);
      return failed != Some(VersionConflict), failed;
    }

    /** The last append was this message's block, decided on exactly the stream it was appended to. */
    ghost predicate RecordedOn(before: Log<P>, id: string, msg: Message<B>)
      reads repo.registry, repo.store
    {
      && Recordable(before, id, msg)
      && var es := Decide(def, id, InstanceOn(before, id).value.0, msg).events;
        repo.store.all == AppendAll(before, StreamFor(id),
                     EncodeAll(repo.registry.entries, repo.registry.codec, es).value)
    }

    ghost predicate Recordable(log: Log<P>, id: string, msg: Message<B>)
      reads repo.registry
    {
      && InstanceOn(log, id).Ok?
      && var v := Decide(def, id, InstanceOn(log, id).value.0, msg);
        v.Record? && EncodeAll(repo.registry.entries, repo.registry.codec, v.events).Ok?
    }

    /**
     * The broker handler. Messages that are not this saga's are acknowledged
     * untouched. For the others, let `others` be what other writers appended
     * before the last attempt. Either that attempt appended this message's
     * block, atomically, decided on exactly the stream it extends; or nothing
     * was appended and the message is acknowledged because the instance had
     * ended or had seen it, or an error hands it back to the broker, a conflict
     * only after all retries.
     */
    method Handle(msg: Message<B>, schedule: seq<seq<Op<P>>>)
      returns (err: Option<Error>, ghost last: nat, ghost others: seq<Op<P>>, ghost own: bool)
      requires Ready()
      modifies repo.store
      ensures Ready() && last <= CONFLICT_RETRIES
      ensures Correlated(def, msg).None? ==> err == None && repo.store.all == old(repo.store.all)
      ensures Correlated(def, msg).Some? ==>
        var id, at := Correlated(def, msg).value, ApplyOps(old(repo.store.all), others);
        && Handled(id, msg, at, OpsAt(schedule, last), err, own)
        && (err.Some? && Recordable(at, id, msg) ==> last == CONFLICT_RETRIES)
        && (!Recordable(old(repo.store.all), id, msg) ==> last == 0)
    {
      last, others, own, err := 0, [], false, None;
      var key := EventKey(msg.name, msg.version);
      if key !in def.handlers {
        return;
      }
      var correlated := def.handlers[key].correlate(msg);
      if correlated.None? || correlated.value == "" {
        return;
      }
      var id := correlated.value;
      ghost var start, before: seq<Op<P>> := repo.store.all, [];
      for attempt := 0 to CONFLICT_RETRIES + 1
        invariant Ready() && repo.store.all == ApplyOps(start, before)
        invariant if attempt == 0 then before == [] && last == 0 else last == attempt - 1 && Recordable(start, id, msg)
        invariant attempt > 0 ==>
          err.Some? && Handled(id, msg, ApplyOps(start, others), OpsAt(schedule, last), err, own)
      {
        others, last := before, attempt;
        var done: bool;
        done, err, own := Attempt(id, msg, OpsAt(schedule, attempt));
        before := others + OpsAt(schedule, attempt);
        ApplyOpsConcat(start, others, OpsAt(schedule, attempt));
        if err.None? || done {
          return;
        }
      }
    }

    /**
     * What one last attempt from the store `at` amounts to, while others append
     * `ops`: the message's block is appended, or nothing is, and then because the
     * saga ignores the message or for an error, a conflict included.
     */
    ghost predicate Handled(
      id: string, msg: Message<B>, at: Log<P>, ops: seq<Op<P>>, err: Option<Error>, own: bool)
      reads repo.registry, repo.store
    {
      if own then err == None && RecordedOn(ApplyOps(at, ops), id, msg)
      else repo.store.all == ApplyOps(at, ops) && Reports(at, id, msg, err)
    }

    /** The error of an attempt that appended nothing. */
    ghost predicate Reports(at: Log<P>, id: string, msg: Message<B>, err: Option<Error>)
      reads repo.registry
    {
      match InstanceOn(at, id)
      case Err(x) => err == Some(x)
      case Ok((i, _)) =>
        match Decide(def, id, i, msg)
        case Ignore => err == None
        case Refuse(x) => err == Some(x)
        case Record(es) =>
          match EncodeAll(repo.registry.entries, repo.registry.codec, es)
          case Err(x) => err == Some(x)
          case Ok(_) => err == Some(VersionConflict)
    }

    /** Process, seen from the handler: one atomic append decided on the current stream, or none. */
    method Attempt(id: string, msg: Message<B>, ops: seq<Op<P>>)
      returns (done: bool, err: Option<Error>, ghost own: bool)
      requires Ready()
      modifies repo.store
      ensures Ready()
      ensures Handled(id, msg, old(repo.store.all), ops, err, own)
      ensures !done ==> Recordable(old(repo.store.all), id, msg)
      ensures done && err.Some? ==> !Recordable(old(repo.store.all), id, msg)
    {
      ghost var at := repo.store.all;
      done, err := Process(id, msg, ops);
      own := repo.store.all != ApplyOps(at, ops);
      AttemptOutcome(at, ops, id, msg, done, err);
      AttemptErr(at, ops, id, msg, done, err);
    }

    /** An attempt that appended nothing reports why. */
    lemma AttemptErr(at: Log<P>, ops: seq<Op<P>>, id: string, msg: Message<B>, done: bool, err: Option<Error>)
      requires match InstanceOn(at, id)
        case Err(x) => done && err == Some(x) && repo.store.all == ApplyOps(at, ops)
        case Ok((i, version)) => Outcome(id, msg, i, version, ApplyOps(at, ops), done, err)
      requires repo.store.all == ApplyOps(at, ops) && err == None ==>
        InstanceOn(at, id).Ok? && Decide(def, id, InstanceOn(at, id).value.0, msg) == Ignore
      ensures !done ==> Recordable(at, id, msg)
      ensures repo.store.all == ApplyOps(at, ops) ==> Reports(at, id, msg, err)
    {
      if InstanceOn(at, id).Ok? {
        var (i, version) := InstanceOn(at, id).value;
        AppendErr(ApplyOps(at, ops), id, version);
      }
    }

    /** The only error of an append is a conflict. */
    lemma AppendErr(before: Log<P>, id: string, version: int)
      ensures forall data :: TryAppend(before, StreamFor(id), version, data).1.Err? ==>
        TryAppend(before, StreamFor(id), version, data).1.error == VersionConflict
    {
    }

    /** An append that succeeded was decided on the stream as it is at that moment. */
    lemma AttemptOutcome(at: Log<P>, ops: seq<Op<P>>, id: string, msg: Message<B>, done: bool, err: Option<Error>)
      requires Ready()
      requires match InstanceOn(at, id)
        case Err(x) => done && err == Some(x) && repo.store.all == ApplyOps(at, ops)
        case Ok((i, version)) => Outcome(id, msg, i, version, ApplyOps(at, ops), done, err)
      ensures var before := ApplyOps(at, ops);
        && (repo.store.all != before ==> done && err == None && RecordedOn(before, id, msg))
        && (repo.store.all == before && err == None ==>
              InstanceOn(at, id).Ok? && Decide(def, id, InstanceOn(at, id).value.0, msg) == Ignore)
        && (err.Some? && done ==> !Recordable(at, id, msg))
    {
      var before := ApplyOps(at, ops);
      var sid := StreamFor(id);
      ApplyOpsGrows(at, ops);
      StreamGrows(at, before, sid);
      if Recordable(at, id, msg) {
        var (i, version) := InstanceOn(at, id).value;
        var es := Decide(def, id, i, msg).events;
        var data := EncodeAll(repo.registry.entries, repo.registry.codec, es).value;
        EncodeAllLength(repo.registry.entries, repo.registry.codec, es);
        TryAppendLaw(before, sid, version, data);
        if |Events(before, sid)| == version {
          assert Events(before, sid) == Events(at, sid);
        }
      }
    }

    /** Raises the envelope, one request per decided command, and the end marker onto the instance. */
    method React(inst: Root<Instance<S, B>, SagaEvent<B>>, id: string, msg: Message<B>) returns (v: Verdict<B>)
      requires inst.pending == [] && inst.apply == Applier(def)
      modifies inst`state, inst`pending
      ensures v == Decide(def, id, old(inst.state), msg)
      ensures v.Record? ==> inst.pending == v.events
    {
      ghost var given := inst.state;
      if inst.state.ended || msg.id in inst.state.seen {
        return Ignore;
      }
      var refused := inst.Raise(EventReceived(msg));
      assert Applied(inst.state, refused) == Apply(def, given, EventReceived(msg));
      if refused.Some? {
        return Refuse(refused.value);
      }
      var ok := RaiseDecisions(inst, id, inst.state.last, msg);
      return if ok then Record(inst.pending) else Refuse(Failure("command has no topic"));
    }

    method RaiseDecisions(inst: Root<Instance<S, B>, SagaEvent<B>>, id: string, d: Decisions<B>, ghost msg: Message<B>)
      returns (ok: bool)
      requires inst.apply == Applier(def) && inst.pending == [EventReceived(msg)]
      modifies inst`state, inst`pending
      ensures ok <==> AllAddressed(d.commands)
      ensures ok ==> inst.pending == Block(def, id, msg, d)
    {
      ok := RequestAll(inst, id, d.commands);
      if ok && d.end {
        var _ := inst.Raise(Ended);
      }
      BlockParts(def, id, msg, d);
    }

    method RequestAll(inst: Root<Instance<S, B>, SagaEvent<B>>, id: string, outs: seq<OutCommand<B>>) returns (ok: bool)
      requires inst.apply == Applier(def)
      modifies inst`state, inst`pending
      ensures inst.state == old(inst.state)
      ensures ok <==> AllAddressed(outs)
      ensures ok ==> inst.pending == old(inst.pending) + AllRequested(def, id, outs)
    {
      for k := 0 to |outs|
        invariant inst.state == old(inst.state)
        invariant inst.pending == old(inst.pending) + AllRequested(def, id, outs[..k])
        invariant AllAddressed(outs[..k])
      {
        var out := outs[k];
        if out.topic == "" {
          assert out in outs;
          return false;
        }
        var (name, version) := def.describe(out.cmd);
        var key := if out.key == "" then id else out.key;
        var _ := inst.Raise(CommandRequested(out.topic, key, name, version, out.cmd));
        assert AllRequested(def, id, outs[..k + 1]) == AllRequested(def, id, outs[..k]) + [Requested(def, id, out)];
      }
      assert outs[..|outs|] == outs;
      return true;
    }
  }
}
