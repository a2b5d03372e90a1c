/**
 * Runs of a step system. A step relation says which move leads from which state to which; a run
 * is any finite sequence of steps, so a statement about all runs covers every interleaving.
 */
module Runs {
  ghost predicate IsRun<S, M>(step: (S, M, S) -> bool, states: seq<S>, moves: seq<M>) {
    && |states| == |moves| + 1
    && (forall i :: 0 <= i < |moves| ==> step(states[i], moves[i], states[i + 1]))
  }

  ghost predicate Preserved<S(!new), M(!new)>(step: (S, M, S) -> bool, inv: S -> bool) {
    forall y, m, y' :: inv(y) && step(y, m, y') ==> inv(y')
  }

  /** What every step keeps holds all along a run that starts with it. */
  lemma {:induction false} RunKeepsInv<S(!new), M(!new)>(step: (S, M, S) -> bool, inv: S -> bool, states: seq<S>, moves: seq<M>, n: nat)
    requires IsRun(step, states, moves) && n <= |moves|
    requires inv(states[0]) && Preserved(step, inv)
    ensures inv(states[n])
  {
    if n > 0 {
      RunKeepsInv(step, inv, states, moves, n - 1);
      assert step(states[n - 1], moves[n - 1], states[n]);
    }
  }

  ghost predicate Reaches<S(!new), M(!new)>(step: (S, M, S) -> bool, a: S, b: S) {
    exists states: seq<S>, moves: seq<M> :: IsRun(step, states, moves) && states[0] == a && states[|moves|] == b
  }

  lemma ReachesByStep<S(!new), M(!new)>(step: (S, M, S) -> bool, a: S, m: M, b: S)
    requires step(a, m, b)
    ensures Reaches(step, a, b)
  {
    var states, moves := [a, b], [m];
    assert IsRun(step, states, moves) && states[|moves|] == b;
  }

  lemma ReachesOn<S(!new), M(!new)>(step: (S, M, S) -> bool, a: S, b: S, c: S)
    requires Reaches(step, a, b) && Reaches(step, b, c)
    ensures Reaches(step, a, c)
  {
    var s1, m1 :| IsRun(step, s1, m1) && s1[0] == a && s1[|m1|] == b;
    var s2, m2 :| IsRun(step, s2, m2) && s2[0] == b && s2[|m2|] == c;
    var states, moves := s1 + s2[1..], m1 + m2;
    forall i | 0 <= i < |moves| ensures step(states[i], moves[i], states[i + 1]) {
      if i < |m1| {
        assert step(s1[i], m1[i], s1[i + 1]);
      } else {
        assert step(s2[i - |m1|], m2[i - |m1|], s2[i - |m1| + 1]);
      }
    }
    assert IsRun(step, states, moves) && states[0] == a && states[|moves|] == c;
  }

  /** A relation kept by every step from a good state, and closed under composition, spans runs. */
  lemma {:induction false} RunRelates<S(!new), M(!new)>(
      step: (S, M, S) -> bool, inv: S -> bool, keeps: (S, S) -> bool, states: seq<S>, moves: seq<M>, a: nat, b: nat)
    requires IsRun(step, states, moves) && a <= b <= |moves|
    requires inv(states[0]) && Preserved(step, inv)
    requires forall y, m, y' :: inv(y) && step(y, m, y') ==> keeps(y, y')
    requires forall y :: keeps(y, y)
    requires forall x, y, z :: keeps(x, y) && keeps(y, z) ==> keeps(x, z)
    ensures keeps(states[a], states[b])
    decreases b - a
  {
    if a < b {
      RunRelates(step, inv, keeps, states, moves, a, b - 1);
      RunKeepsInv(step, inv, states, moves, b - 1);
      assert step(states[b - 1], moves[b - 1], states[b]);
    }
  }
}
