/**
 * The inbox (projection/inbox.go): consumed foreign messages in arrival order,
 * each ID once.
 */
module Inbox {
  import opened Messaging

  datatype InboxMessage<B> = InboxMessage(seqNo: int, message: Message<B>)

  /** A message whose ID is there already leaves the inbox alone. */
  ghost function Received<B>(stored: seq<Message<B>>, m: Message<B>): seq<Message<B>> {
    if Known(stored, m.id) then stored else stored + [m]
  }

  lemma ReceivedKnows<B>(stored: seq<Message<B>>, m: Message<B>)
    ensures Known(Received(stored, m), m.id)
    ensures forall id :: Known(stored, id) ==> Known(Received(stored, m), id)
  {
    if !Known(stored, m.id) {
      assert m in stored + [m];
      assert forall x :: x in stored ==> x in stored + [m];
    }
  }

  /** What is stored after the first k arrivals. */
  ghost function AllReceived<B>(stored: seq<Message<B>>, arrivals: seq<Message<B>>, k: nat): seq<Message<B>>
    requires k <= |arrivals|
  {
    if k == 0 then stored else Received(AllReceived(stored, arrivals, k - 1), arrivals[k - 1])
  }

  /** Every arrival is in the inbox afterwards, and whatever was there still is. */
  lemma {:induction false} AllReceivedKnows<B>(stored: seq<Message<B>>, arrivals: seq<Message<B>>, k: nat)
    requires k <= |arrivals|
    ensures forall id :: Known(stored, id) ==> Known(AllReceived(stored, arrivals, k), id)
    ensures forall i :: 0 <= i < k ==> Known(AllReceived(stored, arrivals, k), arrivals[i].id)
  {
    if k > 0 {
      AllReceivedKnows(stored, arrivals, k - 1);
      ReceivedKnows(AllReceived(stored, arrivals, k - 1), arrivals[k - 1]);
    }
  }

  /** Receiving the message at position o of a log, for the first time or again. */
  lemma ReceivedAgain<B>(log: seq<Message<B>>, o: nat, h: nat)
    requires o < |log| && o <= h <= o + 1
    ensures Received(Dedup(log[..h]), log[o]) == Dedup(log[..o + 1])
  {
    assert log[..o + 1] == log[..o] + [log[o]];
    DedupSnoc(log[..o], log[o]);
    if h == o + 1 {
      assert log[o] in log[..h];
      DedupKnows(log[..h], log[o].id);
    }
  }

  function Contents<B>(msgs: seq<InboxMessage<B>>): (ms: seq<Message<B>>)
    ensures |ms| == |msgs|
  {
    seq(|msgs|, i requires 0 <= i < |msgs| => msgs[i].message)
  }

  function Unread<B>(msgs: seq<InboxMessage<B>>, after: int, limit: int): seq<InboxMessage<B>> {
    var from := if after < 0 then 0 else if after > |msgs| then |msgs| else after;
    var rest := msgs[from..];
    if 0 < limit < |rest| then rest[..limit] else rest
  }

  lemma UnreadSnoc<B>(msgs: seq<InboxMessage<B>>, k: nat, after: int)
    requires k < |msgs|
    ensures Unread(msgs[..k + 1], after, 0) == Unread(msgs[..k], after, 0) + (if k < after then [] else [msgs[k]])
  {
    assert msgs[..k + 1] == msgs[..k] + [msgs[k]];
  }

  lemma UnreadPrefix<B>(msgs: seq<InboxMessage<B>>, k: nat, after: int, limit: int)
    requires k <= |msgs| && limit > 0 && |Unread(msgs[..k], after, 0)| == limit
    ensures Unread(msgs, after, limit) == Unread(msgs[..k], after, 0)
  {
  }

  lemma UnreadWhole<B>(msgs: seq<InboxMessage<B>>, after: int, limit: int)
    requires limit > 0 ==> |Unread(msgs, after, 0)| < limit
    ensures Unread(msgs, after, limit) == Unread(msgs, after, 0)
  {
  }

  class MemoryInbox<B> {
    var msgs: seq<InboxMessage<B>>
    var byID: set<string>

    ghost predicate Valid()
      reads this
    {
      && (forall i :: 0 <= i < |msgs| ==> msgs[i].seqNo == i + 1)
      && (forall id :: id in byID <==> Known(Contents(msgs), id))
      && DistinctIDs(Contents(msgs))
    }

    constructor ()
      ensures Valid() && msgs == []
    {
      msgs, byID := [], {};
    }

    method Append(msg: Message<B>)
      requires Valid()
      modifies this
      ensures Valid()
      ensures Contents(msgs) == Received(Contents(old(msgs)), msg)
      ensures old(msgs) <= msgs
    {
      if msg.id in byID {
        return;
      }
      ghost var before := Contents(msgs);
      byID := byID + {msg.id};
      msgs := msgs + [InboxMessage(|msgs| + 1, msg)];
      assert Contents(msgs) == before + [msg];
      assert msg in Contents(msgs);
      forall id ensures Known(Contents(msgs), id) <==> Known(before, id) || id == msg.id {
        assert forall m :: m in Contents(msgs) <==> m in before || m == msg;
      }
      assert forall i :: 0 <= i < |before| ==> before[i] in before;
    }

    method ReadAll(afterSeq: int, limit: int) returns (out: seq<InboxMessage<B>>)
      requires Valid()
      ensures out == Unread(msgs, afterSeq, limit)
    {
      out := [];
      for k := 0 to |msgs|
        invariant out == Unread(msgs[..k], afterSeq, 0)
        invariant limit > 0 ==> |out| < limit
      {
        UnreadSnoc(msgs, k, afterSeq);
        if msgs[k].seqNo <= afterSeq {
          continue;
        }
        out := out + [msgs[k]];
        assert out == Unread(msgs[..k + 1], afterSeq, 0);
        if limit > 0 && |out| == limit {
          UnreadPrefix(msgs, k + 1, afterSeq, limit);
          return;
        }
      }
      assert msgs[..|msgs|] == msgs;
      UnreadWhole(msgs, afterSeq, limit);
    }

    method Head() returns (seqNo: int)
      requires Valid()
      ensures seqNo == |msgs|
    {
      if |msgs| == 0 {
        return 0;
      }
      seqNo := msgs[|msgs| - 1].seqNo;
    }
  }
}
