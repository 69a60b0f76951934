/**
 * The message envelope (broker/broker.go) and deduplication by message ID, the
 * common ground of the relay, the inbox and the consumers. Occurrence time and
 * metadata are carried but never read by what is modelled, so they are left out.
 */
module Messaging {

  /** The body B stands for the contract's payload. */
  datatype Message<B> = Message(id: string, key: string, name: string, version: int, body: B)

  ghost predicate Known<B>(ms: seq<Message<B>>, id: string) {
    exists m :: m in ms && m.id == id
  }

  /** Later messages with an already seen ID removed. */
  ghost function Dedup<B>(ms: seq<Message<B>>): seq<Message<B>> {
    if ms == [] then []
    else
      var before := Dedup(ms[..|ms| - 1]);
      if Known(before, ms[|ms| - 1].id) then before else before + [ms[|ms| - 1]]
  }

  ghost predicate DistinctIDs<B>(ms: seq<Message<B>>) {
    forall i, j :: 0 <= i < j < |ms| ==> ms[i].id != ms[j].id
  }

  lemma DedupSnoc<B>(ms: seq<Message<B>>, m: Message<B>)
    ensures Dedup(ms + [m]) == if Known(Dedup(ms), m.id) then Dedup(ms) else Dedup(ms) + [m]
  {
    assert (ms + [m])[..|ms|] == ms;
  }

  lemma {:induction false} DedupKnows<B>(ms: seq<Message<B>>, id: string)
    ensures Known(Dedup(ms), id) <==> Known(ms, id)
  {
    if ms != [] {
      var init, last := ms[..|ms| - 1], ms[|ms| - 1];
      assert ms == init + [last];
      DedupSnoc(init, last);
      DedupKnows(init, id);
      assert forall m :: m in ms <==> m in init || m == last;
      assert last in Dedup(init) + [last];
    }
  }

  lemma {:induction false} DedupDistinct<B>(ms: seq<Message<B>>)
    ensures DistinctIDs(Dedup(ms))
    ensures forall m :: m in Dedup(ms) ==> m in ms
  {
    if ms != [] {
      DedupDistinct(ms[..|ms| - 1]);
    }
  }

  /** Deduplicating a longer log only adds at the end. */
  lemma {:induction false} DedupGrows<B>(ms: seq<Message<B>>, more: seq<Message<B>>)
    ensures Dedup(ms) <= Dedup(ms + more)
  {
    if more == [] {
      assert ms + more == ms;
    } else {
      var init := more[..|more| - 1];
      DedupGrows(ms, init);
      assert ms + more == (ms + init) + [more[|more| - 1]];
      DedupSnoc(ms + init, more[|more| - 1]);
    }
  }

  /** A log says exactly the first k messages of a feed: nothing else, no gap, no reordering. */
  ghost predicate SaysFirst<B>(log: seq<Message<B>>, feed: seq<Message<B>>, k: nat) {
    && k <= |feed|
    && Dedup(log) == feed[..k]
    && (forall m :: m in log ==> m in feed[..k])
  }

  lemma SaysFirstSnoc<B>(log: seq<Message<B>>, feed: seq<Message<B>>, k: nat, i: nat)
    requires DistinctIDs(feed) && SaysFirst(log, feed, k) && i <= k && i < |feed|
    ensures SaysFirst(log + [feed[i]], feed, if i == k then k + 1 else k)
  {
    var m := feed[i];
    DedupSnoc(log, m);
    if i < k {
      assert m == feed[..k][i];
    } else {
      assert !Known(feed[..k], m.id);
      assert feed[..k + 1] == feed[..k] + [m];
    }
  }

  /**
   * The heart of at-least-once publishing. If a log says the first k messages
   * of a feed of distinct messages, then publishing any stretch of the feed
   * that starts no later than k leaves it saying a prefix: the old one, or up
   * to the end of the stretch if that is further.
   */
  lemma {:induction false} RepublishStretch<B>(log: seq<Message<B>>, feed: seq<Message<B>>, k: nat, from: nat, end: nat)
    requires DistinctIDs(feed) && SaysFirst(log, feed, k) && from <= k && from <= end <= |feed|
    ensures SaysFirst(log + feed[from..end], feed, if end > k then end else k)
    decreases end
  {
    if end == from {
      assert log + feed[from..end] == log;
    } else {
      var mid := log + feed[from..end - 1];
      assert log + feed[from..end] == mid + [feed[end - 1]];
      RepublishStretch(log, feed, k, from, end - 1);
      if end > k {
        SaysFirstSnoc(mid, feed, end - 1, end - 1);
      } else {
        SaysFirstSnoc(mid, feed, k, end - 1);
      }
    }
  }

  /** The same for the first part of a group of messages that starts at position `from` of the feed. */
  lemma RepublishPart<B>(
    log: seq<Message<B>>, feed: seq<Message<B>>, k: nat, from: nat, group: seq<Message<B>>, sent: nat)
    requires DistinctIDs(feed) && SaysFirst(log, feed, k) && from <= k
    requires from + |group| <= |feed| && group == feed[from..from + |group|] && sent <= |group|
    ensures SaysFirst(log + group[..sent], feed, if from + sent > k then from + sent else k)
  {
    RepublishStretch(log, feed, k, from, from + sent);
    assert group[..sent] == feed[from..from + sent];
  }

  /** What a reader that consumed the first h messages of such a log has seen is a prefix of the feed. */
  lemma ReadPrefix<B>(log: seq<Message<B>>, feed: seq<Message<B>>, k: nat, h: nat)
    requires SaysFirst(log, feed, k) && h <= |log|
    ensures Dedup(log[..h]) <= feed && DistinctIDs(Dedup(log[..h]))
    ensures h == |log| && k == |feed| ==> Dedup(log[..h]) == feed
  {
    assert log == log[..h] + log[h..];
    DedupGrows(log[..h], log[h..]);
    DedupDistinct(log[..h]);
    assert feed[..k] <= feed;
    if h == |log| {
      assert log[..h] == log;
    }
  }
}
