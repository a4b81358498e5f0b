/**
Runs of a step-by-step model: `step` says what one action does in a state, or None where it cannot happen.
Every protocol of this project is such a step function, and every safety result goes through `Invariant`.
 */
module Runs {
  import opened Wrappers

  // The state after acts, or None if some action could not happen where it stands.
  function Run<S, A>(step: (S, A) -> Option<S>, s: S, acts: seq<A>): Option<S> {
    if acts == [] then Some(s)
    else match Run(step, s, acts[..|acts| - 1])
      case None => None
      case Some(t) => step(t, acts[|acts| - 1])
  }

  ghost predicate Kept<S(!new), A(!new)>(step: (S, A) -> Option<S>, inv: S -> bool) {
    forall s, a :: inv(s) && step(s, a).Some? ==> inv(step(s, a).value)
  }

  // What every step keeps holds at the end of every run.
  lemma {:induction false} Invariant<S(!new), A(!new)>(step: (S, A) -> Option<S>, inv: S -> bool, s: S, acts: seq<A>)
    requires inv(s) && Kept(step, inv)
    ensures Run(step, s, acts).Some? ==> inv(Run(step, s, acts).value)
  {
    if acts != [] {
      Invariant(step, inv, s, acts[..|acts| - 1]);
    }
  }

  // A run continued by a run is a run.
  lemma {:induction false} Continued<S, A>(step: (S, A) -> Option<S>, s: S, first: seq<A>, more: seq<A>)
    requires Run(step, s, first).Some?
    ensures Run(step, s, first + more) == Run(step, Run(step, s, first).value, more)
  {
    if more == [] {
      assert first + more == first;
    } else {
      var n := |more| - 1;
      Continued(step, s, first, more[..n]);
      assert (first + more)[..|first + more| - 1] == first + more[..n];
    }
  }

  // What a run begins with is a run.
  lemma {:induction false} Begins<S, A>(step: (S, A) -> Option<S>, s: S, first: seq<A>, more: seq<A>)
    requires Run(step, s, first + more).Some?
    ensures Run(step, s, first).Some?
  {
    if more == [] {
      assert first + more == first;
    } else {
      assert (first + more)[..|first + more| - 1] == first + more[..|more| - 1];
      Begins(step, s, first, more[..|more| - 1]);
    }
  }

  // One more action.
  lemma Then<S, A>(step: (S, A) -> Option<S>, s: S, acts: seq<A>, a: A)
    requires Run(step, s, acts).Some?
    ensures Run(step, s, acts + [a]) == step(Run(step, s, acts).value, a)
  {
    assert (acts + [a])[..|acts + [a]| - 1] == acts;
  }
}
