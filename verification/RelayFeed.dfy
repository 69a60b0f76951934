/**
 * What a relay owes its topics (relay/relay.go): the feed of a topic is the
 * translation of the store's records in order, and a topic's log covers a
 * prefix of it. The laws here hold for every translation.
 */
module RelayFeed {
  import opened Wrappers
  import opened EventStore
  import opened Messaging
  import opened Keys

  /** Where a translated record goes. */
  datatype Routed<B> = Routed(topic: string, msg: Message<B>)

  /** A record's fate: an error, kept private, or a message for a topic. */
  type Translation<!P, B> = RecordedEvent<P> -> Result<Option<Routed<B>>>

  predicate GoesTo<P, B>(tr: Translation<P, B>, rec: RecordedEvent<P>, topic: string) {
    tr(rec).Ok? && tr(rec).value.Some? && tr(rec).value.value.topic == topic
  }

  /** What the records of a log, taken in order, say to one topic. */
  function Feed<P, B>(tr: Translation<P, B>, log: Log<P>, topic: string): seq<Message<B>> {
    if log == [] then []
    else
      var before := Feed(tr, log[..|log| - 1], topic);
      var last := log[|log| - 1];
      if GoesTo(tr, last, topic) then before + [tr(last).value.value.msg] else before
  }

  /** The topics of a batch, in the order of their first message. */
  function Destinations<P, B>(tr: Translation<P, B>, log: Log<P>): seq<string> {
    if log == [] then []
    else
      var before := Destinations(tr, log[..|log| - 1]);
      var out := tr(log[|log| - 1]);
      if out.Ok? && out.value.Some? && out.value.value.topic !in before
      then before + [out.value.value.topic] else before
  }

  ghost predicate Translatable<P, B>(tr: Translation<P, B>, log: Log<P>) {
    forall r :: r in log ==> tr(r).Ok?
  }

  /** Messages carry the deterministic ID of their record. */
  ghost predicate IdentifiedByPosition<P(!new), B>(tr: Translation<P, B>) {
    forall rec {:trigger tr(rec)} :: tr(rec).Ok? && tr(rec).value.Some? ==> tr(rec).value.value.msg.id == MessageID(rec)
  }

  ghost predicate PlainCategories<P>(log: Log<P>) {
    forall r :: r in log ==> '/' !in r.stream.category
  }

  /**
   * A topic's log, later duplicates removed, is exactly a prefix of what the
   * store says to that topic, and includes everything the first `from` records say.
   */
  ghost predicate Covers<P, B>(tr: Translation<P, B>, log: Log<P>, topic: string, published: seq<Message<B>>, from: nat)
    requires from <= |log|
  {
    exists k :: |Feed(tr, log[..from], topic)| <= k && SaysFirst(published, Feed(tr, log, topic), k)
  }

  // ---- Laws of the feed ------------------------------------------------

  lemma {:induction false} FeedConcat<P, B>(tr: Translation<P, B>, a: Log<P>, b: Log<P>, topic: string)
    ensures Feed(tr, a + b, topic) == Feed(tr, a, topic) + Feed(tr, b, topic)
  {
    if b == [] {
      assert a + b == a;
    } else {
      FeedConcat(tr, a, b[..|b| - 1], topic);
      assert (a + b)[..|a + b| - 1] == a + b[..|b| - 1];
    }
  }

  /** The groups of a batch: every topic that gets a message, once, in first-encounter order. */
  lemma {:induction false} DestinationsLaw<P, B>(tr: Translation<P, B>, log: Log<P>)
    ensures forall t :: t in Destinations(tr, log) <==> Feed(tr, log, t) != []
    ensures forall i, j :: 0 <= i < j < |Destinations(tr, log)| ==> Destinations(tr, log)[i] != Destinations(tr, log)[j]
  {
    if log != [] {
      DestinationsLaw(tr, log[..|log| - 1]);
    }
  }

  /** A batch's feed is the stretch of the whole feed between the two prefixes. */
  lemma FeedStretch<P, B>(tr: Translation<P, B>, log: Log<P>, topic: string, from: nat, upTo: nat)
    requires from <= upTo <= |log|
    ensures var feed := Feed(tr, log, topic);
      var a, b := |Feed(tr, log[..from], topic)|, |Feed(tr, log[..upTo], topic)|;
      && a <= b <= |feed|
      && Feed(tr, log[..from], topic) == feed[..a] && Feed(tr, log[..upTo], topic) == feed[..b]
      && Feed(tr, log[from..upTo], topic) == feed[a..b]
  {
    assert log == log[..upTo] + log[upTo..];
    assert log[..upTo] == log[..from] + log[from..upTo];
    FeedConcat(tr, log[..upTo], log[upTo..], topic);
    FeedConcat(tr, log[..from], log[from..upTo], topic);
  }

  lemma {:induction false} FeedMembers<P, B>(tr: Translation<P, B>, log: Log<P>, topic: string)
    ensures forall m :: m in Feed(tr, log, topic) ==>
      exists r :: r in log && GoesTo(tr, r, topic) && tr(r).value.value.msg == m
    ensures forall r :: r in log && GoesTo(tr, r, topic) ==> tr(r).value.value.msg in Feed(tr, log, topic)
  {
    if log != [] {
      var init, last := log[..|log| - 1], log[|log| - 1];
      FeedMembers(tr, init, topic);
      assert log == init + [last];
      forall m | m in Feed(tr, log, topic)
        ensures exists r :: r in log && GoesTo(tr, r, topic) && tr(r).value.value.msg == m
      {
        if m in Feed(tr, init, topic) {
          var r :| r in init && GoesTo(tr, r, topic) && tr(r).value.value.msg == m;
          assert r in log;
        } else {
          assert last in log && GoesTo(tr, last, topic);
        }
      }
    }
  }

  lemma FeedSpeaksOnce<P(!new), B>(
    tr: Translation<P, B>, log: Log<P>, rec: RecordedEvent<P>, topic: string, m: Message<B>)
    requires WellFormed(log + [rec]) && IdentifiedByPosition(tr) && PlainCategories(log + [rec])
    requires GoesTo(tr, rec, topic) && m in Feed(tr, log, topic)
    ensures m.id != tr(rec).value.value.msg.id
  {
    FeedMembers(tr, log, topic);
    var r :| r in log && GoesTo(tr, r, topic) && tr(r).value.value.msg == m;
    var i :| 0 <= i < |log| && log[i] == r;
    assert (log + [rec])[i] == r && (log + [rec])[|log|] == rec;
    RecordKeyUnique(log + [rec], i, |log|);
    assert r in log + [rec] && rec in log + [rec];
    MessageIDInjective(r, rec);
  }

  lemma {:induction false} FeedDistinct<P(!new), B>(tr: Translation<P, B>, log: Log<P>, topic: string)
    requires WellFormed(log) && IdentifiedByPosition(tr) && PlainCategories(log)
    ensures DistinctIDs(Feed(tr, log, topic))
  {
    if log != [] {
      var init, last := log[..|log| - 1], log[|log| - 1];
      assert log == init + [last];
      WellFormedPrefix(log, |log| - 1);
      FeedDistinct(tr, init, topic);
      if GoesTo(tr, last, topic) {
        var before := Feed(tr, init, topic);
        forall k | 0 <= k < |before| ensures before[k].id != tr(last).value.value.msg.id {
          FeedSpeaksOnce(tr, init, last, topic, before[k]);
        }
      }
    }
  }

  /** Coverage extends over a batch that is silent on a topic. */
  lemma CoversSilent<P, B>(
    tr: Translation<P, B>, log: Log<P>, topic: string, published: seq<Message<B>>, from: nat, end: nat)
    requires from <= end <= |log| && Covers(tr, log, topic, published, from)
    requires Feed(tr, log[from..end], topic) == []
    ensures Covers(tr, log, topic, published, end)
  {
    FeedStretch(tr, log, topic, from, end);
  }

  /** Publishing all or the first part of a batch, again or for the first time, keeps coverage. */
  lemma PublishCovers<P(!new), B>(
    tr: Translation<P, B>, log: Log<P>, topic: string, published: seq<Message<B>>, from: nat, end: nat, sent: nat)
    requires WellFormed(log) && IdentifiedByPosition(tr) && PlainCategories(log)
    requires from <= end <= |log| && sent <= |Feed(tr, log[from..end], topic)|
    requires Covers(tr, log, topic, published, from)
    ensures var group := Feed(tr, log[from..end], topic);
      && Covers(tr, log, topic, published + group[..sent], from)
      && (sent == |group| ==> Covers(tr, log, topic, published + group, end))
  {
    var feed, group := Feed(tr, log, topic), Feed(tr, log[from..end], topic);
    var k :| |Feed(tr, log[..from], topic)| <= k && SaysFirst(published, feed, k);
    FeedDistinct(tr, log, topic);
    FeedStretch(tr, log, topic, from, end);
    var a := |Feed(tr, log[..from], topic)|;
    RepublishPart(published, feed, k, a, group, sent);
    if sent == |group| {
      assert group[..sent] == group;
    }
  }

  lemma CoversGrows<P, B>(
    tr: Translation<P, B>, log: Log<P>, after: Log<P>, topic: string, published: seq<Message<B>>, from: nat)
    requires log <= after && from <= |log| && Covers(tr, log, topic, published, from)
    ensures Covers(tr, after, topic, published, from)
  {
    var k :| |Feed(tr, log[..from], topic)| <= k && SaysFirst(published, Feed(tr, log, topic), k);
    assert after == log + after[|log|..];
    FeedConcat(tr, log, after[|log|..], topic);
    assert after[..from] == log[..from];
    assert Feed(tr, after, topic)[..k] == Feed(tr, log, topic)[..k];
    assert SaysFirst(published, Feed(tr, after, topic), k);
  }

  /** What coverage means message by message: all are translations, and none up to `from` is missing. */
  lemma CoversMembers<P, B>(tr: Translation<P, B>, log: Log<P>, topic: string, published: seq<Message<B>>, from: nat)
    requires from <= |log| && Covers(tr, log, topic, published, from)
    ensures forall m :: m in published ==>
      exists r :: r in log && GoesTo(tr, r, topic) && tr(r).value.value.msg == m
    ensures forall i :: 0 <= i < from && GoesTo(tr, log[i], topic) ==> tr(log[i]).value.value.msg in published
  {
    var feed := Feed(tr, log, topic);
    var k :| |Feed(tr, log[..from], topic)| <= k && SaysFirst(published, feed, k);
    FeedMembers(tr, log, topic);
    DedupDistinct(published);
    forall m | m in published
      ensures exists r :: r in log && GoesTo(tr, r, topic) && tr(r).value.value.msg == m
    {
      assert m in feed[..k];
      assert m in feed;
    }
    forall i | 0 <= i < from && GoesTo(tr, log[i], topic) ensures tr(log[i]).value.value.msg in published {
      FeedMembers(tr, log[..from], topic);
      assert log[i] == log[..from][i];
      assert log[i] in log[..from];
      FeedStretch(tr, log, topic, from, |log|);
      var m := tr(log[i]).value.value.msg;
      assert m in Feed(tr, log[..from], topic);
      assert m in feed[..k];
    }
  }

  lemma AppendPlain<P>(log: Log<P>, op: Op<P>)
    requires PlainCategories(log) && '/' !in op.stream.category
    ensures PlainCategories(TryAppend(log, op.stream, op.expected, op.events).0)
  {
    AppendAllLaw(log, op.stream, op.events);
    var after := AppendAll(log, op.stream, op.events);
    forall r | r in after ensures '/' !in r.stream.category {
      var i :| 0 <= i < |after| && after[i] == r;
      if i < |log| {
        assert log[i] == r;
        assert r in log;
      }
    }
  }
}
