// Runs of a state machine: one step after another.
module Runs {

  function Fold<S, E>(next: (S, E) -> S, s: S, es: seq<E>): S {
    if es == [] then s
    else next(Fold(next, s, es[..|es| - 1]), es[|es| - 1])
  }

  lemma FoldSnoc<S, E>(next: (S, E) -> S, s: S, es: seq<E>, e: E)
    ensures Fold(next, s, es + [e]) == next(Fold(next, s, es), e)
  {
    assert (es + [e])[..|es|] == es;
  }

  lemma {:induction false} FoldConcat<S, E>(next: (S, E) -> S, s: S, es: seq<E>, more: seq<E>)
    ensures Fold(next, s, es + more) == Fold(next, Fold(next, s, es), more)
    decreases |more|
  {
    if more == [] {
      assert es + more == es;
    } else {
      var n := |more| - 1;
      FoldConcat(next, s, es, more[..n]);
      assert es + more == (es + more[..n]) + [more[n]];
      FoldSnoc(next, s, es + more[..n], more[n]);
    }
  }
}
