/**
 * Stores, topics and the inbox only grow, so whatever counts as handled, and
 * whatever a worker decided on, stays valid while others take steps.
 */
module FulfillmentGrowth {
  import opened EventStore
  import opened Messaging
  import opened Broker
  import opened Pipeline
  import opened Contracts
  import opened CommandHandling
  import opened Topology
  import opened Script
  import opened OrderSummary
  import opened FulfillmentSystem
  import opened FulfillmentInvariant
  import Projection
  import Billing
  import Inventory
  import Shipping

  ghost predicate NodeGrows(n: Node<Event, Contract>, n': Node<Event, Contract>) {
    n.log <= n'.log && forall t :: LogOf(n.topics, t) <= LogOf(n'.topics, t)
  }

  ghost predicate Grows(s: State, s': State) {
    && (forall svc :: NodeGrows(NodeOf(s, svc), NodeOf(s', svc)))
    && s.inbox <= s'.inbox
  }

  lemma HistoryGrows(s: State, s': State, svc: Service, stream: StreamID)
    requires Grows(s, s')
    ensures History(s, svc, stream) <= History(s', svc, stream)
  {
    assert NodeGrows(NodeOf(s, svc), NodeOf(s', svc));
    StreamGrows(StoreOf(s, svc), StoreOf(s', svc), stream);
  }

  lemma PhaseGrows(s: State, s': State, id: string)
    requires Grows(s, s')
    ensures Phase(s, id) <= Phase(s', id)
  {
    HistoryGrows(s, s', OrderService, StreamID(SAGA_CATEGORY, id));
    HistoryGrows(s, s', PaymentService, StreamID(Billing.CATEGORY, id));
    HistoryGrows(s, s', StockService, StreamID(Inventory.CATEGORY, id));
    HistoryGrows(s, s', ShippingService, StreamID(Shipping.CATEGORY, id));
  }

  lemma HandledGrows(s: State, s': State, mid: string)
    requires Grows(s, s') && Handled(s, mid)
    ensures Handled(s', mid)
  {
    forall id, j: nat {:trigger TriggerID(id, j)} | j < 7 && TriggerID(id, j) == mid ensures Phase(s', id) > j {
      PhaseGrows(s, s', id);
    }
  }

  lemma DoneGrows(s: State, s': State, link: Link, m: Message<Contract>)
    requires Grows(s, s') && Done(s, link, m)
    ensures Done(s', link, m)
  {
    if !link.ToInbox? {
      HandledGrows(s, s', m.id);
    }
  }

  lemma TopicGrows(s: State, s': State, link: Link)
    requires Grows(s, s')
    ensures TopicLog(s, link) <= TopicLog(s', link)
  {
    assert NodeGrows(NodeOf(s, SenderOf(link)), NodeOf(s', SenderOf(link)));
  }

  lemma SubGrows(s: State, s': State, link: Link)
    requires Grows(s, s') && SubInv(s, link) && SubOf(s', link) == SubOf(s, link)
    ensures SubInv(s', link)
  {
    TopicGrows(s, s', link);
    var sub, log := SubOf(s, link), TopicLog(s, link);
    forall i | 0 <= i < sub.offset ensures Done(s', link, TopicLog(s', link)[i]) {
      DoneGrows(s, s', link, log[i]);
    }
    if sub.done {
      DoneGrows(s, s', link, log[sub.offset]);
    }
  }

  lemma WorkGrows(s: State, s': State, work: Work)
    requires Grows(s, s') && WorkInv(s, work)
    ensures WorkInv(s', work)
  {
    TopicGrows(s, s', work.link);
    if work.effected {
      DoneGrows(s, s', work.link, work.msg);
    } else {
      var stream := TargetOf(work.link, work.msg).value;
      HistoryGrows(s, s', HomeOf(work.link), stream);
      assert History(s', HomeOf(work.link), stream)[..work.version] ==
        History(s, HomeOf(work.link), stream)[..work.version];
    }
  }

  lemma InboxGrows(s: State, s': State)
    requires Grows(s, s') && InboxInv(s) && s'.inbox == s.inbox
    ensures InboxInv(s')
  {
    forall m | m in s'.inbox ensures exists svc :: svc != OrderService && m in TopicLog(s', ToInbox(svc)) {
      var svc :| svc != OrderService && m in TopicLog(s, ToInbox(svc));
      TopicGrows(s, s', ToInbox(svc));
      assert m in TopicLog(s', ToInbox(svc));
    }
  }

  lemma ViewGrows(s: State, s': State)
    requires Grows(s, s') && ViewInv(s) && s'.view == s.view
    ensures ViewInv(s')
  {
    assert NodeGrows(NodeOf(s, OrderService), NodeOf(s', OrderService));
    Projection.ViewGrows(Summarize, FirstWrite, EMPTY, OwnItems(StoreOf(s, OrderService)), ForeignItems(s.inbox),
                         OwnItems(StoreOf(s', OrderService)), ForeignItems(s'.inbox), s.view);
  }

  lemma SubsKeep(s: State, s': State)
    requires Grows(s, s') && SubsInv(s)
    requires forall link :: Wired(link) ==> SubOf(s', link) == SubOf(s, link) || SubInv(s', link)
    ensures SubsInv(s')
  {
    forall link | Wired(link) ensures SubInv(s', link) {
      if SubOf(s', link) == SubOf(s, link) {
        SubGrows(s, s', link);
      }
    }
  }

  lemma MarksKeep(s: State, s': State)
    requires Grows(s, s') && MarksInv(s)
    requires forall svc, mid :: mid in MarkedOf(s', svc) ==> mid in MarkedOf(s, svc) || Handled(s, mid)
    ensures MarksInv(s')
  {
    forall svc, mid | mid in MarkedOf(s', svc) ensures Handled(s', mid) {
      HandledGrows(s, s', mid);
    }
  }

  lemma WorksKeep(s: State, s': State)
    requires Grows(s, s') && WorksInv(s)
    requires forall w :: w in s'.work ==> (w in s.work && s'.work[w] == s.work[w]) || WorkInv(s', s'.work[w])
    ensures WorksInv(s')
  {
    forall w | w in s'.work ensures WorkInv(s', s'.work[w]) {
      if w in s.work && s'.work[w] == s.work[w] {
        WorkGrows(s, s', s.work[w]);
      }
    }
  }

  lemma SubsSame(s: State, s': State)
    requires Grows(s, s') && SubsInv(s) && s'.subs == s.subs
    ensures SubsInv(s')
  {
    SubsKeep(s, s');
  }

  lemma MarksSame(s: State, s': State)
    requires Grows(s, s') && MarksInv(s) && s'.marked == s.marked
    ensures MarksInv(s')
  {
    MarksKeep(s, s');
  }

  lemma WorksSame(s: State, s': State)
    requires Grows(s, s') && WorksInv(s) && s'.work == s.work
    ensures WorksInv(s')
  {
    WorksKeep(s, s');
  }

  /** Growth alone keeps what is known about groups, marks and workers. */
  lemma SameBooks(s: State, s': State)
    requires Grows(s, s') && SubsInv(s) && MarksInv(s) && WorksInv(s)
    requires s'.subs == s.subs && s'.marked == s.marked && s'.work == s.work
    ensures SubsInv(s') && MarksInv(s') && WorksInv(s')
  {
    SubsSame(s, s');
    MarksSame(s, s');
    WorksSame(s, s');
  }

  /** A step that only adds to stores and topics keeps everything that was known about them. */
  lemma NodesGrow(s: State, s': State)
    requires Grows(s, s') && Inv(s) && StoresInv(s') && s' == s.(nodes := s'.nodes)
    ensures Inv(s')
  {
    SameBooks(s, s');
    InboxGrows(s, s');
    ViewGrows(s, s');
  }

  // ---- What an append does to the stores -------------------------------

  lemma AppendedRecords(svc: Service, log: Log<Event>, stream: StreamID, version: nat, es: seq<Event>)
    requires RecordsInv(svc, log) && Home(svc, stream.category)
    ensures RecordsInv(svc, TryAppend(log, stream, version, Stored(es)).0)
  {
    AppendAllLaw(log, stream, Stored(es));
    var after := AppendAll(log, stream, Stored(es));
    forall r | r in after
      ensures Home(svc, r.stream.category) && r.data == EventData(EventNameOf(r.data.payload), 1, r.data.payload)
    {
      var i :| 0 <= i < |after| && after[i] == r;
      if i < |log| {
        assert log[i] == r;
        assert r in log;
      }
    }
  }

  lemma AppendedHistory(log: Log<Event>, stream: StreamID, version: nat, es: seq<Event>, x: StreamID)
    ensures var after := TryAppend(log, stream, version, Stored(es)).0;
      Payloads(Events(after, x)) ==
        Payloads(Events(log, x)) + (if x == stream && |Events(log, stream)| == version then es else [])
  {
    TryAppendLaw(log, stream, version, Stored(es));
  }

  lemma HomePlain(svc: Service, category: string)
    requires Home(svc, category)
    ensures '/' !in category
  {
  }

  /** A stream's events after an append to `stream` at `version`. */
  function AfterAppend(log: Log<Event>, stream: StreamID, version: nat, es: seq<Event>, x: StreamID): seq<Event> {
    Payloads(Events(log, x)) + (if x == stream && |Events(log, stream)| == version then es else [])
  }

  lemma NodeAppends(svc: Service, n: Node<Event, Contract>, stream: StreamID, version: nat, es: seq<Event>)
    returns (n': Node<Event, Contract>)
    requires NodeInv(RelayOf(svc), n) && RecordsInv(svc, n.log) && Home(svc, stream.category)
    ensures n' == NodeNext(RelayOf(svc), n, Appending(stream, version, es))
    ensures NodeInv(RelayOf(svc), n') && RecordsInv(svc, n'.log) && NodeGrows(n, n')
    ensures forall x :: Payloads(Events(n'.log, x)) == AfterAppend(n.log, stream, version, es, x)
  {
    var step := Appending(stream, version, es);
    n' := NodeNext(RelayOf(svc), n, step);
    HomePlain(svc, stream.category);
    ByPosition(svc);
    NodeNextKeeps(RelayOf(svc), n, step);
    NodeNextGrows(RelayOf(svc), n, step);
    AppendedRecords(svc, n.log, stream, version, es);
    forall x ensures Payloads(Events(n'.log, x)) == AfterAppend(n.log, stream, version, es, x) {
      AppendedHistory(n.log, stream, version, es, x);
    }
  }

  /** Replacing one node by a sound one that only grew. */
  lemma Replaced(s: State, s': State, svc: Service)
    requires StoresInv(s) && s'.inbox == s.inbox && forall t :: t != svc ==> NodeOf(s', t) == NodeOf(s, t)
    requires NodeInv(RelayOf(svc), NodeOf(s', svc)) && RecordsInv(svc, StoreOf(s', svc))
    requires NodeGrows(NodeOf(s, svc), NodeOf(s', svc))
    ensures Grows(s, s')
    ensures forall t :: NodeInv(RelayOf(t), NodeOf(s', t)) && RecordsInv(t, StoreOf(s', t))
  {
    forall t
      ensures NodeInv(RelayOf(t), NodeOf(s', t)) && RecordsInv(t, StoreOf(s', t))
        && NodeGrows(NodeOf(s, t), NodeOf(s', t))
    {
      assert NodeInv(RelayOf(t), NodeOf(s, t)) && RecordsInv(t, StoreOf(s, t));
    }
  }

  lemma OneNode(s: State, svc: Service, step: NodeStep<Event>)
    ensures var s' := WithNode(s, svc, step);
      && NodeOf(s', svc) == NodeNext(RelayOf(svc), NodeOf(s, svc), step)
      && (forall t :: t != svc ==> NodeOf(s', t) == NodeOf(s, t))
      && s' == s.(nodes := s'.nodes)
  {
  }

  /** An append at the version a stream has adds the events to that stream; any other append adds nothing. */
  ghost predicate AppendedTo(s: State, s': State, svc: Service, stream: StreamID, version: nat, es: seq<Event>) {
    forall t, x {:trigger History(s', t, x)} ::
      History(s', t, x) == if t == svc then AfterAppend(StoreOf(s, svc), stream, version, es, x) else History(s, t, x)
  }

  lemma AppendEffect(s: State, svc: Service, stream: StreamID, version: nat, es: seq<Event>)
    requires StoresInv(s) && Home(svc, stream.category)
    ensures var s' := WithNode(s, svc, Appending(stream, version, es));
      && Grows(s, s')
      && (forall t :: NodeInv(RelayOf(t), NodeOf(s', t)) && RecordsInv(t, StoreOf(s', t)))
      && AppendedTo(s, s', svc, stream, version, es)
  {
    var s' := WithNode(s, svc, Appending(stream, version, es));
    OneNode(s, svc, Appending(stream, version, es));
    assert NodeInv(RelayOf(svc), NodeOf(s, svc)) && RecordsInv(svc, StoreOf(s, svc));
    var n' := NodeAppends(svc, NodeOf(s, svc), stream, version, es);
    Replaced(s, s', svc);
    forall t, x ensures
      History(s', t, x) == if t == svc then AfterAppend(StoreOf(s, svc), stream, version, es, x) else History(s, t, x)
    {
      if t == svc {
        assert History(s', svc, x) == Payloads(Events(n'.log, x));
      }
    }
  }

  lemma NodeRelays(svc: Service, n: Node<Event, Contract>, step: NodeStep<Event>) returns (n': Node<Event, Contract>)
    requires NodeInv(RelayOf(svc), n) && !step.Append?
    ensures n' == NodeNext(RelayOf(svc), n, step)
    ensures NodeInv(RelayOf(svc), n') && NodeGrows(n, n') && n'.log == n.log
  {
    n' := NodeNext(RelayOf(svc), n, step);
    ByPosition(svc);
    NodeNextKeeps(RelayOf(svc), n, step);
    NodeNextGrows(RelayOf(svc), n, step);
  }

  /** Relaying changes topics and checkpoints only. */
  lemma RelayEffect(s: State, svc: Service, step: NodeStep<Event>)
    requires StoresInv(s) && !step.Append?
    ensures var s' := WithNode(s, svc, step);
      && Grows(s, s')
      && (forall t :: NodeInv(RelayOf(t), NodeOf(s', t)) && RecordsInv(t, StoreOf(s', t)))
      && (forall t :: StoreOf(s', t) == StoreOf(s, t))
  {
    var s' := WithNode(s, svc, step);
    OneNode(s, svc, step);
    assert NodeInv(RelayOf(svc), NodeOf(s, svc)) && RecordsInv(svc, StoreOf(s, svc));
    var n' := NodeRelays(svc, NodeOf(s, svc), step);
    Replaced(s, s', svc);
  }
}
