/**
 * The relay itself (relay/relay.go): it tails the event store from a
 * checkpoint, translates records, groups each batch by destination topic,
 * publishes the groups with retries, and only then advances the checkpoint.
 */
module Relay {
  import opened Wrappers
  import opened EventStore
  import opened Registry
  import opened Messaging
  import opened Broker
  import opened Keys
  import opened RelayFeed

  type Translator<!E, B> = E -> Option<B>
  type Route<!E, !P, B> = (RecordedEvent<P>, E) -> Result<Option<Routed<B>>>

  /** Everything translating a record depends on. */
  datatype Wiring<!E, !P, !B> = Wiring(
    entries: Entries<E, P>,
    routes: map<string, Route<E, P, B>>,
    translators: map<string, Translator<E, B>>,
    topic: string,
    describe: B -> (string, int))

  /** A route decides everything; a translator fills the relay's topic; all else stays private. */
  function Translate<E, P, B>(w: Wiring<E, P, B>, rec: RecordedEvent<P>): Result<Option<Routed<B>>> {
    var name := rec.data.eventName;
    if name !in w.routes && name !in w.translators then Ok(None)
    else
      match DecodeData(w.entries, rec.data)
      case Err(x) => Err(x)
      case Ok(e) =>
        if name in w.routes then w.routes[name](rec, e)
        else
          match w.translators[name](e)
          case None => Ok(None)
          case Some(b) =>
            var (contract, version) := w.describe(b);
            Ok(Some(Routed(w.topic, Message(MessageID(rec), rec.stream.id, contract, version, b))))
  }

  function TranslationOf<E, P, B>(w: Wiring<E, P, B>): Translation<P, B> {
    rec => Translate(w, rec)
  }

  /**
   * What becomes of a record. An event with neither a route nor a translator is
   * private, and is not even decoded. One that is listed must decode; then a route
   * decides everything, and otherwise the translator gives the body of a message on
   * the relay's topic, which carries the record's ID, its stream's key, and the
   * contract's name and version.
   */
  lemma TranslateLaw<E, P, B>(w: Wiring<E, P, B>, rec: RecordedEvent<P>)
    ensures var name := rec.data.eventName;
      if name !in w.routes && name !in w.translators then Translate(w, rec) == Ok(None)
      else
        match DecodeData(w.entries, rec.data)
        case Err(x) => Translate(w, rec) == Err(x)
        case Ok(e) =>
          if name in w.routes then Translate(w, rec) == w.routes[name](rec, e)
          else if w.translators[name](e).None? then Translate(w, rec) == Ok(None)
          else
            && Translate(w, rec).Ok? && Translate(w, rec).value.Some?
            && Carries(w, rec, w.translators[name](e).value, Translate(w, rec).value.value)
  {
  }

  predicate Carries<E, P, B(==)>(w: Wiring<E, P, B>, rec: RecordedEvent<P>, body: B, out: Routed<B>) {
    && out.topic == w.topic && out.msg.id == MessageID(rec) && out.msg.key == rec.stream.id
    && (out.msg.name, out.msg.version) == w.describe(body) && out.msg.body == body
  }

  /** Routes are asked to use the deterministic ID; then every message carries its record's ID. */
  lemma TranslatedByPosition<E, P(!new), B>(w: Wiring<E, P, B>)
    requires forall name, rec, e {:trigger w.routes[name](rec, e)} :: name in w.routes ==>
      var out := w.routes[name](rec, e); out.Ok? && out.value.Some? ==> out.value.value.msg.id == MessageID(rec)
    ensures IdentifiedByPosition(TranslationOf(w))
  {
  }

  /** The relay's durable promise: every topic covers the store at least up to the checkpoint. */
  ghost predicate Published<P, B>(tr: Translation<P, B>, log: Log<P>, topics: Topics<B>, cp: int) {
    0 <= cp <= |log| && forall t :: Covers(tr, log, t, LogOf(topics, t), cp)
  }

  /**
   * A batch's messages by topic: the topics in first-encounter order, each with
   * its part of the feed in store order.
   */
  ghost predicate Grouped<P, B>(
    tr: Translation<P, B>, recs: Log<P>, topics: seq<string>, byTopic: map<string, seq<Message<B>>>)
  {
    && topics == Destinations(tr, recs)
    && byTopic.Keys == (set t | t in topics)
    && (forall t :: t in topics ==> byTopic[t] == Feed(tr, recs, t))
  }

  lemma GroupedSnoc<P, B>(
    tr: Translation<P, B>, recs: Log<P>, rec: RecordedEvent<P>, topics: seq<string>,
    byTopic: map<string, seq<Message<B>>>)
    requires Grouped(tr, recs, topics, byTopic) && tr(rec).Ok?
    ensures match tr(rec).value
      case None => Grouped(tr, recs + [rec], topics, byTopic)
      case Some(out) =>
        Grouped(tr, recs + [rec], if out.topic in byTopic then topics else topics + [out.topic],
                byTopic[out.topic := LogOf(byTopic, out.topic) + [out.msg]])
  {
    DestinationsLaw(tr, recs);
    assert (recs + [rec])[..|recs|] == recs;
  }

  /**
   * Failed publish attempts, each of which may still have delivered a first
   * part, and whether the relay was stopped.
   */
  datatype Attempts = Attempts(failed: seq<nat>, stopped: bool)

  /** One pass of the loop: what others append before the read, and how publishing goes. */
  datatype Turn<P> = Turn(ops: seq<Op<P>>, attempts: seq<Attempts>)

  ghost predicate PlainTurn<P>(turn: Turn<P>) {
    forall op :: op in turn.ops ==> '/' !in op.stream.category
  }

  /** The record at this position of the store cannot be translated. */
  ghost predicate Fails<P, B>(tr: Translation<P, B>, log: Log<P>, k: int, x: Error) {
    0 <= k < |log| && tr(log[k]) == Err(x)
  }

  /** One of the next records, at most a batch of them, fails with this error. */
  ghost predicate BlockedBy<P, B>(tr: Translation<P, B>, log: Log<P>, from: int, batchSize: int, x: Error) {
    exists k :: from <= k < from + batchSize && Fails(tr, log, k, x)
  }

  /** No record in this stretch of the store fails. */
  ghost predicate TranslatedTo<P, B>(tr: Translation<P, B>, log: Log<P>, from: int, to: int) {
    0 <= from <= to <= |log| && forall k, x :: from <= k < to ==> !Fails(tr, log, k, x)
  }

  lemma BatchBlocked<P, B>(tr: Translation<P, B>, log: Log<P>, from: int, end: int, batchSize: int, x: Error)
    requires 0 <= from <= end <= |log| && end <= from + batchSize
    requires exists i :: Fails(tr, log[from..end], i, x)
    ensures BlockedBy(tr, log, from, batchSize, x)
  {
    var i :| Fails(tr, log[from..end], i, x);
    assert Fails(tr, log, from + i, x);
  }

  lemma BatchTranslated<P, B>(tr: Translation<P, B>, log: Log<P>, from: int, end: int)
    requires 0 <= from <= end <= |log| && Translatable(tr, log[from..end])
    ensures TranslatedTo(tr, log, from, end)
  {
    forall k | from <= k < end ensures tr(log[k]).Ok? {
      assert log[k] in log[from..end];
    }
  }

  lemma TranslatedOn<P, B>(tr: Translation<P, B>, log: Log<P>, longer: Log<P>, from: int, mid: int, to: int)
    requires log <= longer && TranslatedTo(tr, log, from, mid) && TranslatedTo(tr, longer, mid, to)
    ensures TranslatedTo(tr, longer, from, to)
  {
    forall k, x | from <= k < to ensures !Fails(tr, longer, k, x) {
      if k < mid {
        assert !Fails(tr, log, k, x);
      }
    }
  }

  class Relay<!E, !P(!new), !B> {
    const store: MemoryStore<P>
    const registry: EventRegistry<E, P>
    const broker: MemoryBroker<B>
    const checkpoints: MemoryCheckpointStore
    const name: string
    const topic: string
    const batchSize: Positive
    const describe: B -> (string, int)
    var translators: map<string, Translator<E, B>>
    var routes: map<string, Route<E, P, B>>

    constructor (store: MemoryStore<P>, registry: EventRegistry<E, P>, broker: MemoryBroker<B>,
                 checkpoints: MemoryCheckpointStore, name: string, topic: string, batchSize: int,
                 describe: B -> (string, int))
      requires name != "" && topic != ""
      ensures this.store == store && this.registry == registry && this.broker == broker
      ensures this.checkpoints == checkpoints && this.name == name && this.topic == topic
      ensures this.batchSize == (if batchSize <= 0 then 100 else batchSize) && this.describe == describe
      ensures translators == map[] && routes == map[]
    {
      this.store, this.registry, this.broker, this.checkpoints := store, registry, broker, checkpoints;
      this.name, this.topic, this.describe := name, topic, describe;
      this.batchSize := if batchSize <= 0 then 100 else batchSize;
      translators, routes := map[], map[];
    }

    function Wired(): Wiring<E, P, B>
      reads this, registry
    {
      Wiring(registry.entries, routes, translators, topic, describe)
    }

    /** False stands for the panic on an event that already has a translator or a route. */
    method AddTranslator(event: string, fn: Translator<E, B>) returns (ok: bool)
      modifies this`translators
      ensures ok <==> event !in old(translators) && event !in routes
      ensures translators == if ok then old(translators)[event := fn] else old(translators)
    {
      ok := event !in translators && event !in routes;
      if ok {
        translators := translators[event := fn];
      }
    }

    method AddRoute(event: string, fn: Route<E, P, B>) returns (ok: bool)
      modifies this`routes
      ensures ok <==> event !in old(routes) && event !in translators
      ensures routes == if ok then old(routes)[event := fn] else old(routes)
    {
      ok := event !in routes && event !in translators;
      if ok {
        routes := routes[event := fn];
      }
    }

    method TranslateRecord(rec: RecordedEvent<P>) returns (r: Result<Option<Routed<B>>>)
      ensures r == Translate(Wired(), rec)
    {
      var event := rec.data.eventName;
      if event in routes {
        var decoded := registry.Decode(rec.data);
        if decoded.Err? {
          return Err(decoded.error);
        }
        return routes[event](rec, decoded.value);
      }
      if event !in translators {
        return Ok(None);
      }
      var decoded := registry.Decode(rec.data);
      if decoded.Err? {
        return Err(decoded.error);
      }
      var integration := translators[event](decoded.value);
      if integration.None? {
        return Ok(None);
      }
      var (contract, version) := describe(integration.value);
      return Ok(Some(Routed(topic, Message(MessageID(rec), rec.stream.id, contract, version, integration.value))));
    }

    /**
     * Grouping preserves meaning: the topics come in first-encounter order, and
     * each gets exactly its part of the batch's translation in store order.
     */
    method GroupBatch(recs: Log<P>)
      returns (topics: seq<string>, byTopic: map<string, seq<Message<B>>>, err: Option<Error>)
      ensures err.None? <==> Translatable(TranslationOf(Wired()), recs)
      ensures err.None? ==> Grouped(TranslationOf(Wired()), recs, topics, byTopic)
      ensures err.Some? ==> exists i :: Fails(TranslationOf(Wired()), recs, i, err.value)
    {
      ghost var tr := TranslationOf(Wired());
      topics, byTopic, err := [], map[], None;
      for i := 0 to |recs|
        invariant Translatable(tr, recs[..i])
        invariant Grouped(tr, recs[..i], topics, byTopic)
      {
        assert recs[..i + 1] == recs[..i] + [recs[i]];
        var out := TranslateRecord(recs[i]);
        assert tr(recs[i]) == out;
        if out.Err? {
          assert recs[i] in recs && Fails(tr, recs, i, out.error);
          return topics, byTopic, Some(out.error);
        }
        GroupedSnoc(tr, recs[..i], recs[i], topics, byTopic);
        if out.value.None? {
          continue;
        }
        var t := out.value.value.topic;
        if t !in byTopic {
          topics := topics + [t];
        }
        byTopic := byTopic[t := LogOf(byTopic, t) + [out.value.value.msg]];
      }
      assert recs[..|recs|] == recs;
    }

    /** One publish of a group, of which the first k messages are delivered. */
    method PublishFirst(t: string, msgs: seq<Message<B>>, k: nat,
                        ghost tr: Translation<P, B>, ghost log: Log<P>, ghost from: nat, ghost end: nat)
      requires broker.Valid() && WellFormed(log) && PlainCategories(log) && IdentifiedByPosition(tr)
      requires from <= end <= |log| && msgs == Feed(tr, log[from..end], t) && k <= |msgs|
      requires Covers(tr, log, t, LogOf(broker.topics, t), from)
      modifies broker`topics
      ensures broker.Valid()
      ensures broker.topics == old(broker.topics)[t := LogOf(old(broker.topics), t) + msgs[..k]]
      ensures Covers(tr, log, t, LogOf(broker.topics, t), from)
      ensures k == |msgs| ==> Covers(tr, log, t, LogOf(broker.topics, t), end)
    {
      PublishCovers(tr, log, t, LogOf(broker.topics, t), from, end, k);
      assert k == |msgs| ==> msgs[..k] == msgs;
      broker.Publish(t, msgs[..k]);
    }

    /** Retries until the broker accepts everything; a failed attempt may have delivered a first part. */
    method PublishWithRetry(t: string, msgs: seq<Message<B>>, attempts: Attempts,
                            ghost tr: Translation<P, B>, ghost log: Log<P>, ghost from: nat, ghost end: nat)
      returns (ok: bool)
      requires broker.Valid() && WellFormed(log) && PlainCategories(log) && IdentifiedByPosition(tr)
      requires from <= end <= |log| && msgs == Feed(tr, log[from..end], t)
      requires Covers(tr, log, t, LogOf(broker.topics, t), from)
      modifies broker`topics
      ensures broker.Valid()
      ensures ok <==> !attempts.stopped
      ensures forall u :: u != t ==> LogOf(broker.topics, u) == LogOf(old(broker.topics), u)
      ensures Covers(tr, log, t, LogOf(broker.topics, t), from)
      ensures ok ==> Covers(tr, log, t, LogOf(broker.topics, t), end)
      ensures LogOf(old(broker.topics), t) <= LogOf(broker.topics, t)
    {
      for i := 0 to |attempts.failed|
        invariant broker.Valid()
        invariant forall u :: u != t ==> LogOf(broker.topics, u) == LogOf(old(broker.topics), u)
        invariant Covers(tr, log, t, LogOf(broker.topics, t), from)
        invariant LogOf(old(broker.topics), t) <= LogOf(broker.topics, t)
      {
        PublishFirst(t, msgs, if attempts.failed[i] < |msgs| then attempts.failed[i] else |msgs|, tr, log, from, end);
      }
      ok := !attempts.stopped;
      if ok {
        PublishFirst(t, msgs, |msgs|, tr, log, from, end);
      }
    }

    /** Publishes the groups of log[from..end] in order; false when the relay was stopped between two effects. */
    method PublishBatch(topics: seq<string>, byTopic: map<string, seq<Message<B>>>, turn: Turn<P>,
                        ghost tr: Translation<P, B>, ghost log: Log<P>, ghost from: nat, ghost end: nat)
      returns (ok: bool)
      requires broker.Valid() && WellFormed(log) && PlainCategories(log) && IdentifiedByPosition(tr)
      requires Published(tr, log, broker.topics, from) && from <= end <= |log|
      requires topics == Destinations(tr, log[from..end]) && byTopic.Keys == (set t | t in topics)
      requires forall t :: t in topics ==> byTopic[t] == Feed(tr, log[from..end], t)
      modifies broker`topics
      ensures broker.Valid()
      ensures Unstopped(turn) ==> ok
      ensures Published(tr, log, broker.topics, if ok then end else from)
      ensures forall t :: LogOf(old(broker.topics), t) <= LogOf(broker.topics, t)
    {
      DestinationsLaw(tr, log[from..end]);
      for k := 0 to |topics|
        invariant broker.Valid()
        invariant Published(tr, log, broker.topics, from)
        invariant AllCovered(tr, log, broker.topics, topics[..k], end)
        invariant forall t :: LogOf(old(broker.topics), t) <= LogOf(broker.topics, t)
      {
        ghost var before := broker.topics;
        ok := PublishWithRetry(topics[k], byTopic[topics[k]], AttemptsFor(turn, k), tr, log, from, end);
        OthersCovered(tr, log, before, broker.topics, topics[k], from);
        if !ok {
          return false;
        }
        AllCoveredSnoc(tr, log, before, broker.topics, topics, k, end);
      }
      assert topics[..|topics|] == topics;
      BatchCovered(tr, log, broker.topics, from, end);
      return true;
    }

    /** One pass of the polling loop from the cursor `seqNo`. */
    method Pass(seqNo: int, turn: Turn<P>, ghost tr: Translation<P, B>)
      returns (next: int, stopped: bool, err: Option<Error>)
      requires store.Valid() && broker.Valid() && PlainCategories(store.all)
      requires tr == TranslationOf(Wired()) && IdentifiedByPosition(tr)
      requires seqNo == checkpoints.At(name)
      requires Published(tr, store.all, broker.topics, seqNo)
      modifies broker`topics, checkpoints
      ensures broker.Valid()
      ensures forall t :: LogOf(old(broker.topics), t) <= LogOf(broker.topics, t)
      ensures Published(tr, store.all, broker.topics, next) && next == checkpoints.At(name)
      ensures forall other :: other != name ==> checkpoints.At(other) == old(checkpoints.At(other))
      ensures err.Some? ==> BlockedBy(tr, store.all, seqNo, batchSize, err.value)
      ensures Unstopped(turn) ==> !stopped
      ensures next == if stopped || err.Some? then seqNo else Min(seqNo + batchSize, |store.all|)
      ensures TranslatedTo(tr, store.all, seqNo, next)
    {
      next, stopped, err := seqNo, false, None;
      var recs := store.ReadAll(seqNo, batchSize);
      if |recs| == 0 {
        return;
      }
      ghost var end := seqNo + |recs|;
      assert recs == store.all[seqNo..end];
      assert recs[|recs| - 1] == store.all[end - 1];
      var topics, byTopic, failure := GroupBatch(recs);
      if failure.Some? {
        BatchBlocked(tr, store.all, seqNo, end, batchSize, failure.value);
        return seqNo, false, failure;
      }
      BatchTranslated(tr, store.all, seqNo, end);
      var last := recs[|recs| - 1].globalSeq;
      assert last == end && store.all[seqNo..last] == recs;
      next, stopped := Deliver(seqNo, topics, byTopic, last, turn, tr);
    }

    /** Publishes the groups of a batch and then moves the checkpoint to its end, unless the relay is stopped before. */
    method Deliver(seqNo: int, topics: seq<string>, byTopic: map<string, seq<Message<B>>>, end: int, turn: Turn<P>,
                   ghost tr: Translation<P, B>)
      returns (next: int, stopped: bool)
      requires broker.Valid() && WellFormed(store.all) && PlainCategories(store.all)
      requires IdentifiedByPosition(tr) && Published(tr, store.all, broker.topics, seqNo)
      requires seqNo == checkpoints.At(name) && seqNo <= end <= |store.all|
      requires Grouped(tr, store.all[seqNo..end], topics, byTopic)
      modifies broker`topics, checkpoints
      ensures broker.Valid()
      ensures forall t :: LogOf(old(broker.topics), t) <= LogOf(broker.topics, t)
      ensures Published(tr, store.all, broker.topics, next) && next == checkpoints.At(name)
      ensures forall other :: other != name ==> checkpoints.At(other) == old(checkpoints.At(other))
      ensures Unstopped(turn) ==> !stopped
      ensures next == if stopped then seqNo else end
    {
      var ok := PublishBatch(topics, byTopic, turn, tr, store.all, seqNo, end);
      if !ok {
        return seqNo, true;
      }
      next, stopped := end, false;
      checkpoints.Set(name, end);
    }

    /** Others append to the store before a pass. */
    method Interference(turn: Turn<P>, ghost seqNo: nat)
      requires store.Valid() && broker.Valid() && PlainCategories(store.all) && PlainTurn(turn)
      requires Published(TranslationOf(Wired()), store.all, broker.topics, seqNo)
      modifies store
      ensures store.Valid() && PlainCategories(store.all) && old(store.all) <= store.all
      ensures Published(TranslationOf(Wired()), store.all, broker.topics, seqNo)
    {
      ghost var given := store.all;
      OthersPlain(store.all, turn.ops);
      store.Others(turn.ops);
      PublishedGrows(TranslationOf(Wired()), given, store.all, broker.topics, seqNo);
    }

    /**
     * Runs any number of passes. However the run ends (shut down between two
     * publishes, a record that cannot be translated, or simply the end of the
     * script), the topics cover the store up to the checkpoint, so a restart
     * from there loses nothing. An error is that of a record in the batch behind the
     * checkpoint, and the checkpoint never passes a record that cannot be
     * translated. If no publish was given up, every pass moves the checkpoint on
     * until the store's end is reached or such a record ends the run.
     */
    method Run(turns: seq<Turn<P>>) returns (err: Option<Error>)
      requires store.Valid() && broker.Valid() && PlainCategories(store.all)
      requires forall turn :: turn in turns ==> PlainTurn(turn)
      requires IdentifiedByPosition(TranslationOf(Wired()))
      requires Published(TranslationOf(Wired()), store.all, broker.topics, checkpoints.At(name))
      modifies store, broker`topics, checkpoints
      ensures store.Valid() && broker.Valid() && PlainCategories(store.all) && old(store.all) <= store.all
      ensures forall t :: LogOf(old(broker.topics), t) <= LogOf(broker.topics, t)
      ensures Published(TranslationOf(Wired()), store.all, broker.topics, checkpoints.At(name))
      ensures forall other :: other != name ==> checkpoints.At(other) == old(checkpoints.At(other))
      ensures old(checkpoints.At(name)) <= checkpoints.At(name)
      ensures TranslatedTo(TranslationOf(Wired()), store.all, old(checkpoints.At(name)), checkpoints.At(name))
      ensures err.Some? ==> BlockedBy(TranslationOf(Wired()), store.all, checkpoints.At(name), batchSize, err.value)
      ensures err.None? && (forall turn :: turn in turns ==> Unstopped(turn)) ==>
        checkpoints.At(name) >= Min(old(checkpoints.At(name)) + |turns|, |old(store.all)|)
    {
      var seqNo := checkpoints.Get(name);
      ghost var tr, start := TranslationOf(Wired()), seqNo;
      for i := 0 to |turns|
        invariant store.Valid() && broker.Valid() && PlainCategories(store.all) && old(store.all) <= store.all
        invariant forall t :: LogOf(old(broker.topics), t) <= LogOf(broker.topics, t)
        invariant Published(tr, store.all, broker.topics, seqNo) && seqNo == checkpoints.At(name)
        invariant forall other :: other != name ==> checkpoints.At(other) == old(checkpoints.At(other))
        invariant start <= seqNo && TranslatedTo(tr, store.all, start, seqNo)
        invariant (forall turn :: turn in turns ==> Unstopped(turn)) ==> seqNo >= Min(start + i, |old(store.all)|)
      {
        assert turns[i] in turns;
        ghost var given := store.all;
        Interference(turns[i], seqNo);
        var next, stopped, failure := Pass(seqNo, turns[i], tr);
        TranslatedOn(tr, given, store.all, start, seqNo, next);
        if failure.Some? {
          return failure;
        }
        if stopped {
          return None;
        }
        seqNo := next;
      }
      return None;
    }
  }

  function AttemptsFor<P>(turn: Turn<P>, k: nat): Attempts {
    if k < |turn.attempts| then turn.attempts[k] else Attempts([], false)
  }

  predicate Unstopped<P>(turn: Turn<P>) {
    forall a :: a in turn.attempts ==> !a.stopped
  }

  ghost predicate AllCovered<P, B>(tr: Translation<P, B>, log: Log<P>, topics: Topics<B>, ts: seq<string>, end: nat)
    requires end <= |log|
  {
    forall t :: t in ts ==> Covers(tr, log, t, LogOf(topics, t), end)
  }

  lemma AllCoveredSnoc<P, B>(
    tr: Translation<P, B>, log: Log<P>, before: Topics<B>, after: Topics<B>, ts: seq<string>, k: nat, end: nat)
    requires k < |ts| && end <= |log| && AllCovered(tr, log, before, ts[..k], end)
    requires forall u :: u != ts[k] ==> LogOf(after, u) == LogOf(before, u)
    requires Covers(tr, log, ts[k], LogOf(after, ts[k]), end)
    ensures AllCovered(tr, log, after, ts[..k + 1], end)
  {
    forall t | t in ts[..k + 1] ensures Covers(tr, log, t, LogOf(after, t), end) {
      if t != ts[k] {
        assert t in ts[..k];
      }
    }
  }

  /** A batch whose groups are all published covers the store up to its end. */
  lemma BatchCovered<P, B>(tr: Translation<P, B>, log: Log<P>, topics: Topics<B>, cp: nat, end: nat)
    requires cp <= end <= |log| && Published(tr, log, topics, cp)
    requires AllCovered(tr, log, topics, Destinations(tr, log[cp..end]), end)
    ensures Published(tr, log, topics, end)
  {
    DestinationsLaw(tr, log[cp..end]);
    forall t ensures Covers(tr, log, t, LogOf(topics, t), end) {
      if t !in Destinations(tr, log[cp..end]) {
        CoversSilent(tr, log, t, LogOf(topics, t), cp, end);
      }
    }
  }

  lemma OthersCovered<P, B>(tr: Translation<P, B>, log: Log<P>, before: Topics<B>, after: Topics<B>, t: string, cp: nat)
    requires Published(tr, log, before, cp)
    requires forall u :: u != t ==> LogOf(after, u) == LogOf(before, u)
    requires Covers(tr, log, t, LogOf(after, t), cp)
    ensures Published(tr, log, after, cp)
  {
    forall u ensures Covers(tr, log, u, LogOf(after, u), cp) {
      if u != t {
        assert Covers(tr, log, u, LogOf(before, u), cp);
      }
    }
  }

  lemma PublishedGrows<P, B>(tr: Translation<P, B>, log: Log<P>, after: Log<P>, topics: Topics<B>, cp: int)
    requires log <= after && Published(tr, log, topics, cp)
    ensures Published(tr, after, topics, cp)
  {
    forall t ensures Covers(tr, after, t, LogOf(topics, t), cp) {
      CoversGrows(tr, log, after, t, LogOf(topics, t), cp);
    }
  }

  lemma {:induction false} OthersPlain<P>(log: Log<P>, ops: seq<Op<P>>)
    requires PlainCategories(log) && forall op :: op in ops ==> '/' !in op.stream.category
    ensures log <= ApplyOps(log, ops) && PlainCategories(ApplyOps(log, ops))
  {
    ApplyOpsGrows(log, ops);
    if ops != [] {
      OthersPlain(log, ops[..|ops| - 1]);
      AppendPlain(ApplyOps(log, ops[..|ops| - 1]), ops[|ops| - 1]);
    }
  }
}
