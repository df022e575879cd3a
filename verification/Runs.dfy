/** Runs of a state machine and the ways to reason about all of them. */
module Runs {

  /** The state after the events, in order. */
  function Run<S, E>(step: (S, E) -> S, s: S, events: seq<E>): S {
    if events == [] then s else step(Run(step, s, events[..|events| - 1]), events[|events| - 1])
  }

  /** Every event of the run is allowed in the state in which it happens. */
  predicate Allowed<S, E>(step: (S, E) -> S, allow: (S, E) -> bool, s: S, events: seq<E>) {
    forall i {:trigger AllowedAt(step, allow, s, events, i)} ::
      0 <= i < |events| ==> AllowedAt(step, allow, s, events, i)
  }

  predicate AllowedAt<S, E>(step: (S, E) -> S, allow: (S, E) -> bool, s: S, events: seq<E>, i: nat)
    requires i < |events|
  {
    allow(Run(step, s, events[..i]), events[i])
  }

  /** What holds at the start and is kept by every step holds after every run. */
  lemma {:induction false} Invariant<S(!new), E(!new)>(step: (S, E) -> S, inv: S -> bool, s: S, events: seq<E>)
    requires inv(s) && forall t, e :: inv(t) ==> inv(step(t, e))
    ensures inv(Run(step, s, events))
  {
    if events == [] {
      assert Run(step, s, events) == s;
    } else {
      Invariant(step, inv, s, events[..|events| - 1]);
    }
  }

  /** The same when only allowed steps keep it. */
  lemma {:induction false} InvariantWhile<S(!new), E(!new)>(
    step: (S, E) -> S, allow: (S, E) -> bool, inv: S -> bool, s: S, events: seq<E>)
    requires inv(s) && forall t, e :: inv(t) && allow(t, e) ==> inv(step(t, e))
    requires Allowed(step, allow, s, events)
    ensures inv(Run(step, s, events))
  {
    if events == [] {
      assert Run(step, s, events) == s;
    } else {
      AllowedPrefix(step, allow, s, events);
      InvariantWhile(step, allow, inv, s, events[..|events| - 1]);
      assert AllowedAt(step, allow, s, events, |events| - 1);
    }
  }

  lemma AllowedPrefix<S, E>(step: (S, E) -> S, allow: (S, E) -> bool, s: S, events: seq<E>)
    requires events != [] && Allowed(step, allow, s, events)
    ensures Allowed(step, allow, s, events[..|events| - 1])
  {
    var shorter := events[..|events| - 1];
    forall i | 0 <= i < |shorter| ensures AllowedAt(step, allow, s, shorter, i) {
      assert AllowedAt(step, allow, s, events, i);
      assert shorter[..i] == events[..i] && shorter[i] == events[i];
    }
  }

  lemma RunThen<S, E>(step: (S, E) -> S, s: S, before: seq<E>, e: E)
    ensures Run(step, s, before + [e]) == step(Run(step, s, before), e)
  {
    assert (before + [e])[..|before + [e]| - 1] == before;
  }

  /** A continued run is a run from where the first part ended. */
  lemma {:induction false} RunConcat<S, E>(step: (S, E) -> S, s: S, before: seq<E>, after: seq<E>)
    ensures Run(step, s, before + after) == Run(step, Run(step, s, before), after)
    decreases |after|
  {
    if after == [] {
      assert before + after == before;
    } else {
      RunConcat(step, s, before, after[..|after| - 1]);
      assert (before + after)[..|before + after| - 1] == before + after[..|after| - 1];
    }
  }

  /** Some run leads from one state to the other. */
  ghost predicate Reaches<S, E(!new)>(step: (S, E) -> S, s: S, t: S) {
    exists events :: Run(step, s, events) == t
  }

  lemma ReachesStart<S, E(!new)>(step: (S, E) -> S, s: S)
    ensures Reaches(step, s, s)
  {
    assert Run(step, s, []) == s;
  }

  lemma ReachesThen<S, E(!new)>(step: (S, E) -> S, s: S, t: S, e: E)
    requires Reaches(step, s, t)
    ensures Reaches(step, s, step(t, e))
  {
    var events :| Run(step, s, events) == t;
    RunThen(step, s, events, e);
  }

  /** One more allowed event leaves a run allowed. */
  lemma AllowedThen<S, E>(step: (S, E) -> S, allow: (S, E) -> bool, s: S, events: seq<E>, e: E)
    requires Allowed(step, allow, s, events) && allow(Run(step, s, events), e)
    ensures Allowed(step, allow, s, events + [e])
    ensures Run(step, s, events + [e]) == step(Run(step, s, events), e)
  {
    RunThen(step, s, events, e);
    var longer := events + [e];
    forall i | 0 <= i < |longer| ensures AllowedAt(step, allow, s, longer, i) {
      if i < |events| {
        assert AllowedAt(step, allow, s, events, i);
        assert longer[..i] == events[..i] && longer[i] == events[i];
      } else {
        assert longer[..i] == events;
      }
    }
  }
}
