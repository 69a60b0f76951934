/**
 * The event-sourced aggregate base (kernel/aggregate.go). An aggregate's state
 * is the replay of its events; Raise applies an event and records it only if
 * Apply accepted it.
 */
module Kernel {
  import opened Wrappers

  /** Apply mutates in place, so a refused event may still have changed the state. */
  datatype Applied<+S> = Applied(state: S, err: Option<Error>)

  type Transition<!S, !E> = (S, E) -> Applied<S>

  /** Replays events in order and stops at the first one that is refused. */
  function Replay<S, E>(apply: Transition<S, E>, s: S, es: seq<E>): Applied<S> {
    if es == [] then Applied(s, None)
    else
      var a := apply(s, es[0]);
      if a.err.Some? then a else Replay(apply, a.state, es[1..])
  }

  /**
   * A replay, state by state: it starts at s, every event but a refused one moves
   * on to the next state, and it ends after the last event or at the first refusal.
   */
  ghost predicate Replayed<S, E>(
    apply: Transition<S, E>, s: S, es: seq<E>, states: seq<S>, after: S, err: Option<Error>)
  {
    && 1 <= |states| <= |es| + 1 && states[0] == s
    && (forall i :: 0 <= i < |states| - 1 ==> apply(states[i], es[i]) == Applied(states[i + 1], None))
    && (err.None? ==> |states| == |es| + 1 && after == states[|es|])
    && (err.Some? ==> |states| <= |es| && apply(states[|states| - 1], es[|states| - 1]) == Applied(after, err))
  }

  lemma {:induction false} ReplayStates<S, E>(apply: Transition<S, E>, s: S, es: seq<E>) returns (states: seq<S>)
    ensures Replayed(apply, s, es, states, Replay(apply, s, es).state, Replay(apply, s, es).err)
  {
    states := [s];
    if es != [] {
      var a := apply(s, es[0]);
      if a.err.None? {
        var rest := ReplayStates(apply, a.state, es[1..]);
        states := [s] + rest;
        ReplayedCons(apply, s, es, rest, Replay(apply, s, es).state, Replay(apply, s, es).err);
      }
    }
  }

  lemma ReplayedCons<S, E>(
    apply: Transition<S, E>, s: S, es: seq<E>, rest: seq<S>, after: S, err: Option<Error>)
    requires es != [] && apply(s, es[0]).err.None?
    requires Replayed(apply, apply(s, es[0]).state, es[1..], rest, after, err)
    ensures Replayed(apply, s, es, [s] + rest, after, err)
  {
    var states := [s] + rest;
    forall i | 0 <= i < |states| - 1 ensures apply(states[i], es[i]) == Applied(states[i + 1], None) {
      if i > 0 {
        assert states[i] == rest[i - 1] && states[i + 1] == rest[i] && es[i] == es[1..][i - 1];
      }
    }
  }

  lemma {:induction false} ReplayedIs<S, E>(
    apply: Transition<S, E>, s: S, es: seq<E>, states: seq<S>, after: S, err: Option<Error>)
    requires Replayed(apply, s, es, states, after, err)
    ensures Replay(apply, s, es) == Applied(after, err)
    decreases |es|
  {
    if |states| > 1 {
      assert apply(states[0], es[0]) == Applied(states[1], None);
      var rest := states[1..];
      forall i | 0 <= i < |rest| - 1 ensures apply(rest[i], es[1..][i]) == Applied(rest[i + 1], None) {
        assert apply(states[i + 1], es[i + 1]) == Applied(states[i + 2], None);
      }
      ReplayedIs(apply, states[1], es[1..], rest, after, err);
    }
  }

  /** Replaying is going through such states, and through no others. */
  lemma ReplayLaw<S, E>(apply: Transition<S, E>, s: S, es: seq<E>, after: S, err: Option<Error>)
    ensures Replay(apply, s, es) == Applied(after, err) <==>
      exists states :: Replayed(apply, s, es, states, after, err)
  {
    var states := ReplayStates(apply, s, es);
    if states' :| Replayed(apply, s, es, states', after, err) {
      ReplayedIs(apply, s, es, states', after, err);
    }
  }

  lemma {:induction false} ReplayConcat<S, E>(apply: Transition<S, E>, s: S, a: seq<E>, b: seq<E>)
    ensures Replay(apply, s, a + b) ==
      var first := Replay(apply, s, a);
      if first.err.Some? then first else Replay(apply, first.state, b)
  {
    if a == [] {
      assert a + b == b;
    } else {
      assert (a + b)[1..] == a[1..] + b;
      ReplayConcat(apply, apply(s, a[0]).state, a[1..], b);
    }
  }

  lemma ReplaySnoc<S, E>(apply: Transition<S, E>, s: S, es: seq<E>, e: E)
    ensures Replay(apply, s, es + [e]) ==
      var first := Replay(apply, s, es);
      if first.err.Some? then first else apply(first.state, e)
  {
    ReplayConcat(apply, s, es, [e]);
  }

  /** An aggregate whose Apply leaves the state alone whenever it refuses an event. */
  ghost predicate RefusesCleanly<S(!new), E(!new)>(apply: Transition<S, E>) {
    forall s, e {:trigger apply(s, e)} :: apply(s, e).err.Some? ==> apply(s, e).state == s
  }

  /** Such an aggregate stays the replay of its events whatever is raised on it, accepted or refused. */
  lemma CleanRefusalStaysLive<S(!new), E(!new)>(apply: Transition<S, E>, zero: S, hist: seq<E>, s: S, e: E)
    requires RefusesCleanly(apply) && Replay(apply, zero, hist) == Applied(s, None)
    ensures var a := apply(s, e);
      Replay(apply, zero, hist + (if a.err.None? then [e] else [])) == Applied(a.state, None)
  {
    if apply(s, e).err.None? {
      ReplaySnoc(apply, zero, hist, e);
    } else {
      assert hist + [] == hist;
    }
  }

  class Root<S, !E(!new)> {
    const zero: S
    const apply: Transition<S, E>
    var state: S
    var version: int
    var pending: seq<E>

    /** The state is the replay of the committed history followed by the pending events. */
    ghost predicate Live(hist: seq<E>)
      reads this
    {
      Replay(apply, zero, hist + pending) == Applied(state, None) && version == |hist|
    }

    /** Weaker: the recorded events can be replayed, whatever the state is. */
    ghost predicate Replayable(hist: seq<E>)
      reads this
    {
      Replay(apply, zero, hist + pending).err.None?
    }

    constructor (zero: S, apply: Transition<S, E>)
      ensures this.zero == zero && this.apply == apply
      ensures state == zero && version == 0 && pending == []
      ensures Live([])
    {
      this.zero, this.apply := zero, apply;
      state, version, pending := zero, 0, [];
    }

    /**
     * A refused event is not recorded, so the recorded events stay replayable,
     * but Apply works in place and may have changed the state before it refused.
     */
    method Raise(e: E) returns (err: Option<Error>)
      modifies this`state, this`pending
      ensures Applied(state, err) == apply(old(state), e)
      ensures pending == if err.None? then old(pending) + [e] else old(pending)
      ensures err.None? ==> forall hist :: old(Live(hist)) ==> Live(hist)
      ensures err.Some? ==> forall hist :: old(Live(hist)) ==> (Live(hist) <==> state == old(state))
      ensures forall hist :: old(Live(hist)) ==> Replayable(hist)
    {
      var a := apply(state, e);
      state, err := a.state, a.err;
      if err.Some? {
        return;
      }
      pending := pending + [e];
      forall hist | old(Live(hist)) ensures Live(hist) {
        ReplaySnoc(apply, zero, hist + old(pending), e);
        assert hist + pending == hist + old(pending) + [e];
      }
    }

    method Rehydrate(history: seq<E>) returns (err: Option<Error>)
      modifies this`state, this`version
      ensures Applied(state, err) == Replay(apply, old(state), history)
      ensures exists states :: Replayed(apply, old(state), history, states, state, err)
      ensures version == if err.None? then old(version) + |history| else old(version)
      ensures err.None? && old(Live([])) && pending == [] ==> Live(history)
    {
      ghost var s0 := state;
      for i := 0 to |history|
        invariant version == old(version)
        invariant Replay(apply, s0, history[..i]) == Applied(state, None)
      {
        ReplayConcat(apply, s0, history[..i], history[i..]);
        assert history == history[..i] + history[i..];
        var a := apply(state, history[i]);
        state := a.state;
        if a.err.Some? {
          ReplayLaw(apply, s0, history, state, a.err);
          return a.err;
        }
        ReplaySnoc(apply, s0, history[..i], history[i]);
        assert history[..i + 1] == history[..i] + [history[i]];
      }
      assert history[..|history|] == history;
      version := version + |history|;
      err := None;
      assert history + [] == history;
      ReplayLaw(apply, s0, history, state, None);
    }

    method TakeUncommitted() returns (events: seq<E>)
      modifies this`version, this`pending
      ensures events == old(pending) && pending == [] && version == old(version) + |events|
      ensures forall hist :: old(Live(hist)) ==> Live(hist + events)
    {
      events := pending;
      pending := [];
      version := version + |events|;
      assert forall hist :: hist + events + [] == hist + events;
    }
  }
}
