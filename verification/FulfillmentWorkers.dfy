/**
 * What the workers' steps keep: being handed a message, committing the append
 * it leads to, finishing, crashing, and moving the group's offset.
 */
module FulfillmentWorkers {
  import opened Wrappers
  import opened EventStore
  import opened Messaging
  import opened Inbox
  import opened Pipeline
  import opened Contracts
  import opened CommandHandling
  import opened Topology
  import opened Script
  import opened OrderSummary
  import opened FulfillmentSystem
  import opened FulfillmentInvariant
  import opened FulfillmentGrowth
  import opened FulfillmentSteps
  import Projection

  /** Once its beat has been played, a message counts as handled; the refund's fact always does. */
  lemma HandledTrigger(s: State, id: string, j: nat)
    requires Numbered(j) && (j == EPILOGUE || Phase(s, id) > j)
    ensures Handled(s, TriggerID(id, j))
  {
    forall id', j': nat {:trigger TriggerID(id', j')} | j' < 7 && TriggerID(id', j') == TriggerID(id, j)
      ensures Phase(s, id') > j'
    {
      TriggerIDInjective(id', j', id, j);
    }
  }

  /** The parts of the invariant that only speak of stores, topics, inbox and view. */
  lemma SameStores(s: State, s': State)
    requires StoresInv(s) && s'.nodes == s.nodes
    ensures StoresInv(s')
  {
    forall id ensures OnScript(s', id) {
      assert OnScript(s, id);
      StaysOnScript(s, s', id);
    }
    forall svc ensures NodeInv(RelayOf(svc), NodeOf(s', svc)) && RecordsInv(svc, StoreOf(s', svc)) {
      assert NodeInv(RelayOf(svc), NodeOf(s, svc)) && RecordsInv(svc, StoreOf(s, svc));
    }
  }

  /** A step that leaves stores, topics, inbox and view alone. */
  lemma BooksOnly(s: State, s': State)
    requires Inv(s) && s'.nodes == s.nodes && s'.inbox == s.inbox && s'.view == s.view
    requires SubsInv(s') && MarksInv(s') && WorksInv(s')
    ensures Inv(s')
  {
    SameStores(s, s');
    SameGrows(s, s');
    InboxGrows(s, s');
    ViewGrows(s, s');
  }

  lemma SameGrows(s: State, s': State)
    requires s'.nodes == s.nodes && s'.inbox == s.inbox
    ensures Grows(s, s')
  {
  }

  // ---- Being handed a message ------------------------------------------

  /** The reaction to a message is never a fault, and nothing happens only when its beat was played before. */
  lemma Reacted(s: State, link: Link, m: Message<Contract>)
    requires StoresInv(s) && Wired(link) && !link.ToInbox? && m in TopicLog(s, link)
    ensures TargetOf(link, m).None? ==> Handled(s, m.id)
    ensures TargetOf(link, m).Some? ==>
      var stream := TargetOf(link, m).value;
      var r := ReactionOf(link, stream, History(s, HomeOf(link), stream), m);
      !r.Fault? && (r == NoChange ==> Handled(s, m.id))
  {
    var o, j := DeliveredAsScripted(s, link, m);
    assert OnScript(s, o.id);
    if j == EPILOGUE {
      HandledTrigger(s, o.id, j);
    } else {
      Beat(o, Phase(s, o.id), j);
      if j < Phase(s, o.id) {
        HandledTrigger(s, o.id, j);
      }
    }
  }

  lemma HandedOver(s: State, link: Link, at: nat)
    requires StoresInv(s) && Wired(link) && !link.ToInbox? && at < |TopicLog(s, link)|
    requires MarksInv(s)
    ensures Handed(s, link, at, TopicLog(s, link)[at]).Some?
    ensures WorkInv(s, Handed(s, link, at, TopicLog(s, link)[at]).value)
  {
    var m := TopicLog(s, link)[at];
    Reacted(s, link, m);
    if TargetOf(link, m).Some? {
      var history := History(s, HomeOf(link), TargetOf(link, m).value);
      assert history[..|history|] == history;
    }
  }

  /** Only the workers changed: some stopped, some hold new work. */
  lemma WorkersChanged(s: State, s': State)
    requires Inv(s) && s' == s.(work := s'.work)
    requires forall w :: w in s'.work ==> (w in s.work && s'.work[w] == s.work[w]) || WorkInv(s', s'.work[w])
    ensures Inv(s')
  {
    SameGrows(s, s');
    SubsSame(s, s');
    MarksSame(s, s');
    WorksKeep(s, s');
    BooksOnly(s, s');
  }

  lemma WorkAdded(s: State, s': State, w: nat, work: Work)
    requires Inv(s) && WorkInv(s, work) && s' == s.(work := s.work[w := work])
    ensures Inv(s')
  {
    SameGrows(s, s');
    WorkGrows(s, s', work);
    WorkersChanged(s, s');
  }

  lemma WorkDropped(s: State, s': State, w: nat)
    requires Inv(s) && s' == s.(work := s.work - {w})
    ensures Inv(s')
  {
    WorkersChanged(s, s');
  }

  lemma BeginKeeps(s: State, w: nat, link: Link, at: nat)
    requires Inv(s) && !link.ToInbox?
    ensures Inv(BeginNext(s, w, link, at))
  {
    if Wired(link) && at < |TopicLog(s, link)| {
      HandedOver(s, link, at);
      WorkAdded(s, BeginNext(s, w, link, at), w, Handed(s, link, at, TopicLog(s, link)[at]).value);
    }
  }

  // ---- The inbox -------------------------------------------------------

  /** Two foreign facts with one ID are one message. */
  lemma SameFact(s: State, svc: Service, m: Message<Contract>, svc': Service, m': Message<Contract>)
    requires StoresInv(s) && m in TopicLog(s, ToInbox(svc)) && m' in TopicLog(s, ToInbox(svc')) && m.id == m'.id
    ensures m == m'
  {
    var o, j := FactSaid(s, ToInbox(svc), m);
    var o', j' := FactSaid(s, ToInbox(svc'), m');
    TriggerIDInjective(o.id, j, o'.id, j');
  }

  lemma StoredOnce(s: State, svc: Service, m: Message<Contract>)
    requires StoresInv(s) && InboxInv(s) && m in TopicLog(s, ToInbox(svc))
    ensures m in Received(s.inbox, m) && s.inbox <= Received(s.inbox, m)
    ensures forall x :: x in Received(s.inbox, m) ==> x in s.inbox || x == m
  {
    if Known(s.inbox, m.id) {
      var m' :| m' in s.inbox && m'.id == m.id;
      var svc' :| svc' != OrderService && m' in TopicLog(s, ToInbox(svc'));
      SameFact(s, svc, m, svc', m');
    }
  }

  /** The inbox takes a message. */
  lemma InboxTakes(s: State, s': State, svc: Service, m: Message<Contract>)
    requires Inv(s) && svc != OrderService && m in TopicLog(s, ToInbox(svc))
    requires s' == s.(inbox := Received(s.inbox, m))
    ensures Inv(s') && m in s'.inbox
  {
    StoredOnce(s, svc, m);
    InboxOnlyGrows(s, s');
    SameStores(s, s');
    SameBooks(s, s');
    ViewGrows(s, s');
    InboxKept(s, s', svc, m);
  }

  lemma InboxOnlyGrows(s: State, s': State)
    requires s' == s.(inbox := s'.inbox) && s.inbox <= s'.inbox
    ensures Grows(s, s')
  {
  }

  lemma InboxKept(s: State, s': State, svc: Service, m: Message<Contract>)
    requires InboxInv(s) && svc != OrderService && m in TopicLog(s, ToInbox(svc))
    requires s' == s.(inbox := s'.inbox) && forall x :: x in s'.inbox ==> x in s.inbox || x == m
    ensures InboxInv(s')
  {
    forall x | x in s'.inbox ensures exists t :: t != OrderService && x in TopicLog(s', ToInbox(t)) {
      if x in s.inbox {
        var t :| t != OrderService && x in TopicLog(s, ToInbox(t));
        assert x in TopicLog(s', ToInbox(t));
      } else {
        assert x in TopicLog(s', ToInbox(svc));
      }
    }
  }

  lemma StoreKeeps(s: State, w: nat, link: Link, at: nat)
    requires Inv(s) && link.ToInbox?
    ensures Inv(BeginNext(s, w, link, at))
  {
    if Wired(link) && at < |TopicLog(s, link)| {
      var m := TopicLog(s, link)[at];
      var s' := s.(inbox := Received(s.inbox, m));
      InboxTakes(s, s', link.from, m);
      WorkAdded(s', BeginNext(s, w, link, at), w, Work(link, at, m, 0, [], true));
    }
  }

  // ---- Committing ------------------------------------------------------

  /** The message, order and beat behind a worker whose append succeeds: it is exactly the order's next beat. */
  lemma NextBeat(s: State, work: Work) returns (o: Order, k: nat)
    requires StoresInv(s) && WorkInv(s, work) && !work.effected && !work.link.ToInbox?
    requires |History(s, HomeOf(work.link), TargetOf(work.link, work.msg).value)| == work.version
    ensures IsPlaced(s, o.id) && o == OrderOf(s, o.id) && k == Phase(s, o.id) && k < Length(o) && k < 7
    ensures work.msg == Trigger(o, k) && ReactsAt(o, k, k) == Emit(work.events)
    ensures HomeOf(work.link) == Actor(o, k)
    ensures TargetOf(work.link, work.msg) == Some(StreamID(ActorCategory(Actor(o, k)), o.id))
  {
    var history := History(s, HomeOf(work.link), TargetOf(work.link, work.msg).value);
    assert history[..work.version] == history;
    var j;
    o, j := DeliveredAsScripted(s, work.link, work.msg);
    assert OnScript(s, o.id);
    k := Phase(s, o.id);
    Beat(o, k, j);
  }

  lemma ActorsPlayed(s: State, s': State, o: Order, k: nat, version: nat, es: seq<Event>, svc: Service)
    requires Placeable(o) && k < Length(o) && ReactsAt(o, k, k) == Emit(es)
    requires ActorHistory(s, svc, o.id) == ActorAt(o, k, svc)
    requires var stream := StreamID(ActorCategory(Actor(o, k)), o.id);
      AppendedTo(s, s', Actor(o, k), stream, version, es) && |History(s, Actor(o, k), stream)| == version
    ensures ActorHistory(s', svc, o.id) == ActorAt(o, k + 1, svc)
  {
    Beat(o, k, k);
    assert ActorHistory(s', svc, o.id) == ActorHistory(s, svc, o.id) + (if svc == Actor(o, k) then es else []);
  }

  /** An order after its next beat was appended. */
  lemma Played(s: State, s': State, o: Order, k: nat, version: nat, es: seq<Event>)
    requires IsPlaced(s, o.id) && o == OrderOf(s, o.id) && At(s, o.id, o, k) && k < Length(o)
      && ReactsAt(o, k, k) == Emit(es)
    requires var stream := StreamID(ActorCategory(Actor(o, k)), o.id);
      AppendedTo(s, s', Actor(o, k), stream, version, es) && |History(s, Actor(o, k), stream)| == version
    ensures OnScript(s', o.id) && Phase(s', o.id) == k + 1
  {
    AtActors(s, o.id, o, k);
    forall svc ensures ActorHistory(s', svc, o.id) == ActorAt(o, k + 1, svc) {
      ActorsPlayed(s, s', o, k, version, es, svc);
    }
    AtActors(s', o.id, o, k + 1);
    OrdersRest(s, s', Actor(o, k), o.id, version, es, o.id);
    NowAt(s', o, k + 1);
  }

  lemma NowAt(s: State, o: Order, k: nat)
    requires IsPlaced(s, o.id) && o == OrderOf(s, o.id) && At(s, o.id, o, k)
    ensures OnScript(s, o.id) && Phase(s, o.id) == k
  {
    PhaseOfScript(s, o.id, o, k);
  }

  /** An actor's append leaves the orders' own streams alone. */
  lemma OrdersRest(s: State, s': State, svc: Service, id: string, version: nat, es: seq<Event>, x: string)
    requires AppendedTo(s, s', svc, StreamID(ActorCategory(svc), id), version, es)
    ensures OrderHistory(s', x) == OrderHistory(s, x)
  {
    CategoriesDiffer();
  }

  lemma Unplayed(s: State, s': State, svc: Service, id: string, version: nat, es: seq<Event>, x: string)
    requires OnScript(s, x) && x != id && AppendedTo(s, s', svc, StreamID(ActorCategory(svc), id), version, es)
    ensures OnScript(s', x)
  {
    OrdersRest(s, s', svc, id, version, es, x);
    forall t ensures ActorHistory(s', t, x) == ActorHistory(s, t, x) {
      OtherOrderRests(s, s', svc, id, version, es, x, t);
    }
    StaysOnScript(s, s', x);
  }

  lemma OtherOrderRests(
    s: State, s': State, svc: Service, id: string, version: nat, es: seq<Event>, x: string, t: Service)
    requires x != id && AppendedTo(s, s', svc, StreamID(ActorCategory(svc), id), version, es)
    ensures ActorHistory(s', t, x) == ActorHistory(s, t, x)
  {
    assert StreamID(ActorCategory(t), x) != StreamID(ActorCategory(svc), id);
  }

  /** Committing the next beat keeps the invariant, and the message is handled. */
  lemma BeatCommitted(s: State, work: Work)
    requires Inv(s) && WorkInv(s, work) && !work.effected && !work.link.ToInbox?
    requires |History(s, HomeOf(work.link), TargetOf(work.link, work.msg).value)| == work.version
    ensures var s' := FulfillmentSystem.Appended(s, work);
      Inv(s') && WorkInv(s', work.(effected := true)) && s'.work == s.work
  {
    var stream, home := TargetOf(work.link, work.msg).value, HomeOf(work.link);
    var s' := WithNode(s, home, Appending(stream, work.version, work.events));
    var o, k := NextBeat(s, work);
    CategoriesDiffer();
    AppendEffect(s, home, stream, work.version, work.events);
    assert OnScript(s, o.id);
    Played(s, s', o, k, work.version, work.events);
    forall x ensures OnScript(s', x) {
      assert OnScript(s, x);
      if x != o.id {
        Unplayed(s, s', home, o.id, work.version, work.events, x);
      }
    }
    OneNode(s, home, Appending(stream, work.version, work.events));
    NodesGrow(s, s');
    WorkGrows(s, s', work);
    HandledTrigger(s', o.id, k);
  }

  lemma CommitSucceeds(s: State, s': State, w: nat, work: Work)
    requires Inv(s) && WorkInv(s, work) && !work.effected && !work.link.ToInbox?
    requires |History(s, HomeOf(work.link), TargetOf(work.link, work.msg).value)| == work.version
    requires s' == FulfillmentSystem.Appended(s, work).(work := s.work[w := work.(effected := true)])
    ensures Inv(s')
  {
    BeatCommitted(s, work);
    WorkAdded(FulfillmentSystem.Appended(s, work), s', w, work.(effected := true));
  }

  /** What a commit amounts to. */
  lemma CommitCases(s: State, w: nat)
    requires w in s.work && !s.work[w].effected && TargetOf(s.work[w].link, s.work[w].msg).Some?
    ensures var work := s.work[w];
      CommitNext(s, w) ==
        if |History(s, HomeOf(work.link), TargetOf(work.link, work.msg).value)| != work.version
          then s.(work := s.work - {w})
        else FulfillmentSystem.Appended(s, work).(work := s.work[w := work.(effected := true)])
  {
  }

  lemma CommitKeeps(s: State, s': State, w: nat)
    requires Inv(s) && s' == CommitNext(s, w)
    ensures Inv(s')
  {
    if w in s.work && !s.work[w].effected && TargetOf(s.work[w].link, s.work[w].msg).Some? {
      var work := s.work[w];
      assert WorkInv(s, work);
      CommitCases(s, w);
      if |History(s, HomeOf(work.link), TargetOf(work.link, work.msg).value)| != work.version {
        WorkDropped(s, s', w);
      } else {
        CommitSucceeds(s, s', w, work);
      }
    }
  }

  // ---- Finishing, crashing, acknowledging ------------------------------

  lemma FinishKeeps(s: State, w: nat)
    requires Inv(s)
    ensures Inv(FinishNext(s, w))
  {
    if w in s.work && s.work[w].effected {
      var s' := FinishNext(s, w);
      var work := s.work[w];
      assert WorkInv(s, work);
      SameGrows(s, s');
      Finished(s, s', w);
      SubsKeep(s, s');
      MarksKeep(s, s');
      WorksKeep(s, s');
      BooksOnly(s, s');
    }
  }

  lemma Finished(s: State, s': State, w: nat)
    requires w in s.work && s.work[w].effected && s' == FinishNext(s, w) && Grows(s, s')
    requires WorkInv(s, s.work[w]) && SubInv(s, s.work[w].link)
    ensures forall link :: SubOf(s', link) == SubOf(s, link) || SubInv(s', link)
    ensures forall svc, mid :: mid in MarkedOf(s', svc) ==> mid in MarkedOf(s, svc) || Handled(s, mid)
  {
    var work := s.work[w];
    var sub := SubOf(s, work.link);
    if work.at == sub.offset {
      TopicGrows(s, s', work.link);
      SubGrows(s, s.(nodes := s'.nodes, inbox := s'.inbox), work.link);
      DoneGrows(s, s', work.link, work.msg);
      forall i | 0 <= i < sub.offset ensures Done(s', work.link, TopicLog(s', work.link)[i]) {
        DoneGrows(s, s', work.link, TopicLog(s, work.link)[i]);
      }
      assert SubInv(s', work.link);
    }
  }

  /** A group's offset moves over a handled message, or its consumer starts over. */
  lemma OffsetKeeps(s: State, s': State, link: Link, sub: Sub)
    requires Inv(s) && Wired(link) && s' == s.(subs := s.subs[link := sub])
    requires sub == Sub(SubOf(s, link).offset, false)
      || (SubOf(s, link).done && sub == Sub(SubOf(s, link).offset + 1, false))
    ensures Inv(s')
  {
    SameGrows(s, s');
    assert SubInv(s, link);
    OffsetMoved(s, s', link, sub.offset);
    SubsKeep(s, s');
    MarksSame(s, s');
    WorksSame(s, s');
    BooksOnly(s, s');
  }

  lemma OffsetMoved(s: State, s': State, link: Link, offset: nat)
    requires SubInv(s, link) && Grows(s, s') && s'.nodes == s.nodes && SubOf(s', link) == Sub(offset, false)
    requires offset == SubOf(s, link).offset || (SubOf(s, link).done && offset == SubOf(s, link).offset + 1)
    ensures SubInv(s', link)
  {
    var log := TopicLog(s, link);
    assert TopicLog(s', link) == log && offset <= |log|;
    assert forall i :: 0 <= i < offset ==> Done(s, link, log[i]);
    forall i | 0 <= i < offset ensures Done(s', link, log[i]) {
      DoneGrows(s, s', link, log[i]);
    }
  }

  ghost predicate ViewStepped(s: State, s': State, step: Projection.ViewStep) {
    var own, foreign := OwnItems(StoreOf(s, OrderService)), ForeignItems(s.inbox);
    s' == s.(view := Projection.ViewNext(Summarize, FirstWrite, EMPTY, own, foreign, s.view, step))
  }

  lemma ViewStepKeeps(s: State, s': State, step: Projection.ViewStep)
    requires ViewInv(s) && ViewStepped(s, s', step)
    ensures ViewInv(s')
  {
    var own, foreign := OwnItems(StoreOf(s, OrderService)), ForeignItems(s.inbox);
    Projection.ViewNextKeeps(Summarize, FirstWrite, EMPTY, own, foreign, s.view, step);
    assert StoreOf(s', OrderService) == StoreOf(s, OrderService) && s'.inbox == s.inbox;
  }

  lemma ProjectKeeps(s: State, s': State, step: Projection.ViewStep)
    requires Inv(s) && s' == Next(s, Project(step))
    ensures Inv(s')
  {
    assert ViewStepped(s, s', step);
    ViewStepKeeps(s, s', step);
    SameGrows(s, s');
    SameStores(s, s');
    InboxGrows(s, s');
    SameBooks(s, s');
  }
}
