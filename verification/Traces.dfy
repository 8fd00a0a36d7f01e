/** Runs of a state machine: the states that a sequence of steps leads through. */
module Traces {
  ghost predicate IsRun<S(!new), E>(step: (S, E) -> S, first: S, steps: seq<E>, states: seq<S>) {
    && |states| == |steps| + 1 && states[0] == first
    && forall i {:trigger steps[i]} :: 0 <= i < |steps| ==> states[i + 1] == step(states[i], steps[i])
  }

  lemma {:induction false} RunExists<S(!new), E>(step: (S, E) -> S, first: S, steps: seq<E>)
    ensures exists states :: IsRun(step, first, steps, states)
  {
    if steps == [] {
      assert IsRun(step, first, steps, [first]);
    } else {
      var n := |steps| - 1;
      RunExists(step, first, steps[..n]);
      var before :| IsRun(step, first, steps[..n], before);
      var states := before + [step(before[n], steps[n])];
      forall i | 0 <= i < |steps| ensures states[i + 1] == step(states[i], steps[i]) {
        if i < n { assert steps[..n][i] == steps[i]; }
      }
      assert IsRun(step, first, steps, states);
    }
  }

  lemma {:induction false} RunIsUnique<S(!new), E>(step: (S, E) -> S, first: S, steps: seq<E>, states: seq<S>, others: seq<S>, n: nat)
    requires IsRun(step, first, steps, states) && n <= |steps|
    requires |others| > n && others[0] == first && forall i {:trigger steps[i]} :: 0 <= i < n ==> others[i + 1] == step(others[i], steps[i])
    ensures states[n] == others[n]
  {
    if n > 0 {
      RunIsUnique(step, first, steps, states, others, n - 1);
      assert states[n - 1 + 1] == step(states[n - 1], steps[n - 1]);
    }
  }

  /** The state that the steps end in. */
  ghost function EndOf<S(!new), E>(step: (S, E) -> S, first: S, steps: seq<E>): S {
    RunExists(step, first, steps);
    var states :| IsRun(step, first, steps, states);
    states[|steps|]
  }

  lemma EndOfNone<S(!new), E>(step: (S, E) -> S, first: S)
    ensures EndOf(step, first, []) == first
  {
    RunExists(step, first, []);
  }

  lemma EndOfLast<S(!new), E>(step: (S, E) -> S, first: S, steps: seq<E>)
    requires steps != []
    ensures EndOf(step, first, steps) == step(EndOf(step, first, steps[..|steps| - 1]), steps[|steps| - 1])
  {
    var n := |steps| - 1;
    RunExists(step, first, steps);
    RunExists(step, first, steps[..n]);
    var states :| IsRun(step, first, steps, states) && EndOf(step, first, steps) == states[|steps|];
    var before :| IsRun(step, first, steps[..n], before) && EndOf(step, first, steps[..n]) == before[n];
    forall i | 0 <= i < n ensures states[i + 1] == step(states[i], steps[..n][i]) { assert steps[..n][i] == steps[i]; }
    RunIsUnique(step, first, steps[..n], before, states, n);
    assert states[n + 1] == step(states[n], steps[n]);
  }

  /** A longer run ends one step after the run without its last step. */
  lemma EndOfMore<S(!new), E>(step: (S, E) -> S, first: S, a: seq<E>, b: seq<E>)
    requires b != []
    ensures EndOf(step, first, a + b) == step(EndOf(step, first, a + b[..|b| - 1]), b[|b| - 1])
  {
    EndOfLast(step, first, a + b);
    assert (a + b)[..|a + b| - 1] == a + b[..|b| - 1];
  }

  lemma EndOfNext<S(!new), E>(step: (S, E) -> S, first: S, steps: seq<E>, e: E)
    ensures EndOf(step, first, steps + [e]) == step(EndOf(step, first, steps), e)
  {
    EndOfMore(step, first, steps, [e]);
    assert steps + [e][..0] == steps;
  }

  /** What holds at first and is kept by every step holds in the end of every run. */
  lemma {:induction false} Always<S(!new), E(!new)>(step: (S, E) -> S, first: S, inv: S -> bool, steps: seq<E>)
    requires inv(first) && forall s, e :: inv(s) ==> inv(step(s, e))
    ensures inv(EndOf(step, first, steps))
  {
    if steps == [] {
      EndOfNone(step, first);
    } else {
      Always(step, first, inv, steps[..|steps| - 1]);
      EndOfLast(step, first, steps);
    }
  }

  /** A relation that every step keeps, from states of the invariant, holds between a run and its continuations. */
  lemma {:induction false} Onward<S(!new), E(!new)>(step: (S, E) -> S, first: S, inv: S -> bool, rel: (S, S) -> bool, a: seq<E>, b: seq<E>)
    requires inv(first) && forall s, e :: inv(s) ==> inv(step(s, e))
    requires forall s :: rel(s, s)
    requires forall s, t, e :: rel(s, t) && inv(t) ==> rel(s, step(t, e))
    ensures rel(EndOf(step, first, a), EndOf(step, first, a + b))
    decreases |b|
  {
    if b == [] {
      assert a + b == a;
    } else {
      var before := a + b[..|b| - 1];
      Onward(step, first, inv, rel, a, b[..|b| - 1]);
      Always(step, first, inv, before);
      EndOfMore(step, first, a, b);
    }
  }
}
