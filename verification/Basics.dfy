/** Failure-carrying datatypes and the small arithmetic helpers shared by every module. */
module Basics {

  datatype Option<+T> = None | Some(value: T)

  datatype Result<+T, +E> = Ok(value: T) | Err(error: E)

  function Min(a: int, b: int): int {
    if a <= b then a else b
  }

  function Max(a: int, b: int): int {
    if a >= b then a else b
  }

  /** `max(f(x) for x in xs)`, or nothing when there is nothing to compare. */
  function MaxOf<T>(xs: seq<T>, f: T -> int): Option<int> {
    if xs == [] then None
    else
      match MaxOf(xs[..|xs| - 1], f)
      case None => Some(f(xs[|xs| - 1]))
      case Some(m) => Some(Max(m, f(xs[|xs| - 1])))
  }

  lemma {:induction false} MaxOfBounds<T>(xs: seq<T>, f: T -> int)
    ensures MaxOf(xs, f).None? <==> xs == []
    ensures MaxOf(xs, f).Some? ==> forall i :: 0 <= i < |xs| ==> f(xs[i]) <= MaxOf(xs, f).value
    ensures MaxOf(xs, f).Some? ==> exists i :: 0 <= i < |xs| && f(xs[i]) == MaxOf(xs, f).value
  {
    if xs == [] {
    } else {
      var n := |xs| - 1;
      MaxOfBounds(xs[..n], f);
      if n > 0 {
        var i :| 0 <= i < n && f(xs[..n][i]) == MaxOf(xs[..n], f).value;
        assert f(xs[i]) == MaxOf(xs[..n], f).value;
      }
      assert f(xs[n]) <= MaxOf(xs, f).value;
    }
  }

  ghost predicate Reached<T>(v: int, xs: seq<T>, f: T -> int) {
    exists i :: 0 <= i < |xs| && v <= f(xs[i])
  }

  lemma ReachedIsBelowMax<T>(v: int, xs: seq<T>, f: T -> int)
    ensures Reached(v, xs, f) <==> MaxOf(xs, f).Some? && v <= MaxOf(xs, f).value
  {
    MaxOfBounds(xs, f);
  }

  /** Two collections whose values reach each other have the same maximum. */
  lemma MaxOfAgrees<T, U>(xs: seq<T>, f: T -> int, ys: seq<U>, g: U -> int)
    requires forall i :: 0 <= i < |xs| ==> Reached(f(xs[i]), ys, g)
    requires forall j :: 0 <= j < |ys| ==> Reached(g(ys[j]), xs, f)
    ensures MaxOf(xs, f) == MaxOf(ys, g)
  {
    hide Reached;
    MaxOfBounds(xs, f);
    MaxOfBounds(ys, g);
    if xs != [] {
      var i :| 0 <= i < |xs| && f(xs[i]) == MaxOf(xs, f).value;
      ReachedIsBelowMax(f(xs[i]), ys, g);
    }
    if ys != [] {
      var j :| 0 <= j < |ys| && g(ys[j]) == MaxOf(ys, g).value;
      ReachedIsBelowMax(g(ys[j]), xs, f);
    }
  }
}
