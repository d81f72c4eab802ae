/**
 * A loop over a sequence inside a Java `try` block: each element updates a state, and
 * the first exception ends the loop with the state reached so far.
 */
module Scans {

  /** The state of a scan and whether an exception ended it. */
  datatype Scan<S> = Scan(state: S, failed: bool)

  /**
   * The state after the elements `es` have been processed in order by `step`, starting
   * from `init`; once a step raises, later elements are not processed and the state is kept.
   */
  function Fold<S, E>(step: (S, E) -> Scan<S>, init: S, es: seq<E>): Scan<S>
    decreases |es|
  {
    if |es| == 0 then Scan(init, false)
    else
      var p := Fold(step, init, es[..|es| - 1]);
      if p.failed then p else step(p.state, es[|es| - 1])
  }

  /** One more element extends a fold by one step. */
  lemma FoldSnoc<S, E>(step: (S, E) -> Scan<S>, init: S, es: seq<E>, i: nat)
    requires i < |es|
    ensures Fold(step, init, es[..i + 1]) ==
      (var p := Fold(step, init, es[..i]); if p.failed then p else step(p.state, es[i]))
  {
    assert es[..i + 1][..i] == es[..i];
  }

  /** After an exception the remaining elements change nothing. */
  lemma {:induction false} FoldFailedSticky<S, E>(step: (S, E) -> Scan<S>, init: S, es: seq<E>, i: nat)
    requires i <= |es|
    requires Fold(step, init, es[..i]).failed
    ensures Fold(step, init, es) == Fold(step, init, es[..i])
    decreases |es| - i
  {
    if i < |es| {
      FoldSnoc(step, init, es, i);
      FoldFailedSticky(step, init, es, i + 1);
    } else {
      assert es[..i] == es;
    }
  }

  /**
   * A step that raises exactly on the elements `raises` accepts, whatever the state, and
   * leaves the state as it was when it raises.
   */
  ghost predicate RaisesOn<S(!new), E(!new)>(step: (S, E) -> Scan<S>, raises: E -> bool)
  {
    forall s: S, e: E {:trigger step(s, e)} :: step(s, e).failed == raises(e) && (raises(e) ==> step(s, e).state == s)
  }

  /** The index of the first element that raises, or |es|. */
  function FirstRaise<E>(raises: E -> bool, es: seq<E>): (f: nat)
    ensures f <= |es|
    ensures forall i :: 0 <= i < f ==> !raises(es[i])
    ensures f < |es| ==> raises(es[f])
  {
    if |es| == 0 then 0
    else if raises(es[0]) then 0
    else 1 + FirstRaise(raises, es[1..])
  }

  /**
   * With such a step, the fold fails exactly when some element raises, and its state is
   * the state reached on the elements before the first one that raises.
   */
  lemma {:induction false} FoldUpToFirstRaise<S(!new), E(!new)>(step: (S, E) -> Scan<S>, raises: E -> bool, init: S, es: seq<E>)
    requires RaisesOn(step, raises)
    ensures var f := FirstRaise(raises, es);
      !Fold(step, init, es[..f]).failed &&
      Fold(step, init, es) == Scan(Fold(step, init, es[..f]).state, f < |es|)
  {
    var f := FirstRaise(raises, es);
    NoRaiseNoFailure(step, raises, init, es, f);
    if f < |es| {
      FoldSnoc(step, init, es, f);
      FoldFailedSticky(step, init, es, f + 1);
    } else {
      assert es[..f] == es;
    }
  }

  lemma {:induction false} NoRaiseNoFailure<S(!new), E(!new)>(step: (S, E) -> Scan<S>, raises: E -> bool, init: S, es: seq<E>, n: nat)
    requires RaisesOn(step, raises)
    requires n <= |es|
    requires forall i :: 0 <= i < n ==> !raises(es[i])
    ensures !Fold(step, init, es[..n]).failed
  {
    if n > 0 {
      NoRaiseNoFailure(step, raises, init, es, n - 1);
      FoldSnoc(step, init, es, n - 1);
      var p := Fold(step, init, es[..n - 1]);
      assert step(p.state, es[n - 1]).failed == raises(es[n - 1]);
    }
  }
}
