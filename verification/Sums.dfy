/** Sums of a natural-valued function over a sequence. */
module Sums {
  /** The sum over the first `n` elements. */
  function SumTo<T>(xs: seq<T>, n: nat, f: T -> nat): nat
    requires n <= |xs|
  {
    if n == 0 then 0 else SumTo(xs, n - 1, f) + f(xs[n - 1])
  }

  function Sum<T>(xs: seq<T>, f: T -> nat): nat {
    SumTo(xs, |xs|, f)
  }

  lemma {:induction false} SumToAgrees<T>(xs: seq<T>, ys: seq<T>, n: nat, f: T -> nat)
    requires n <= |xs| && n <= |ys| && forall i :: 0 <= i < n ==> f(xs[i]) == f(ys[i])
    ensures SumTo(xs, n, f) == SumTo(ys, n, f)
  {
    if n > 0 {
      SumToAgrees(xs, ys, n - 1, f);
    }
  }

  lemma SumOfNone<T>(f: T -> nat)
    ensures Sum([], f) == 0
  {
  }

  lemma SumOne<T>(xs: seq<T>, x: T, f: T -> nat)
    ensures Sum(xs + [x], f) == Sum(xs, f) + f(x)
  {
    SumToAgrees(xs, xs + [x], |xs|, f);
  }

  lemma SumOfOne<T>(x: T, f: T -> nat)
    ensures Sum([x], f) == f(x)
  {
    assert SumTo([x], 0, f) == 0;
  }

  lemma {:induction false} SumAppend<T>(xs: seq<T>, ys: seq<T>, f: T -> nat)
    ensures Sum(xs + ys, f) == Sum(xs, f) + Sum(ys, f)
    decreases |ys|
  {
    if ys == [] {
      assert xs + ys == xs;
      SumOfNone(f);
    } else {
      var front, y := ys[..|ys| - 1], ys[|ys| - 1];
      SumAppend(xs, front, f);
      assert xs + ys == (xs + front) + [y] && ys == front + [y];
      SumOne(xs + front, y, f);
      SumOne(front, y, f);
    }
  }

  /** Replacing one element changes the sum by the difference of their values. */
  lemma {:induction false} SumToUpdate<T>(xs: seq<T>, n: nat, i: nat, x: T, f: T -> nat)
    requires i < n <= |xs|
    ensures SumTo(xs[i := x], n, f) + f(xs[i]) == SumTo(xs, n, f) + f(x)
  {
    if i == n - 1 {
      SumToAgrees(xs, xs[i := x], n - 1, f);
    } else {
      SumToUpdate(xs, n - 1, i, x, f);
    }
  }

  lemma SumUpdate<T>(xs: seq<T>, i: nat, x: T, f: T -> nat)
    requires i < |xs|
    ensures Sum(xs[i := x], f) + f(xs[i]) == Sum(xs, f) + f(x)
  {
    SumToUpdate(xs, |xs|, i, x, f);
  }

  lemma {:induction false} SumToOfSums<T>(xs: seq<T>, n: nat, f: T -> nat, g: T -> nat, h: T -> nat)
    requires n <= |xs| && forall i :: 0 <= i < n ==> h(xs[i]) == f(xs[i]) + g(xs[i])
    ensures SumTo(xs, n, h) == SumTo(xs, n, f) + SumTo(xs, n, g)
  {
    if n > 0 {
      SumToOfSums(xs, n - 1, f, g, h);
    }
  }

  lemma {:induction false} SumToPointwise<T>(xs: seq<T>, n: nat, f: T -> nat, g: T -> nat)
    requires n <= |xs| && forall i :: 0 <= i < n ==> f(xs[i]) == g(xs[i])
    ensures SumTo(xs, n, f) == SumTo(xs, n, g)
  {
    if n > 0 {
      SumToPointwise(xs, n - 1, f, g);
    }
  }

  lemma {:induction false} SumToAlike<S, T>(xs: seq<S>, ys: seq<T>, n: nat, f: S -> nat, g: T -> nat)
    requires n <= |xs| && n <= |ys| && forall i :: 0 <= i < n ==> f(xs[i]) == g(ys[i])
    ensures SumTo(xs, n, f) == SumTo(ys, n, g)
  {
    if n > 0 {
      SumToAlike(xs, ys, n - 1, f, g);
    }
  }

  lemma {:induction false} SumToOfOnes<T>(xs: seq<T>, n: nat, f: T -> nat)
    requires n <= |xs| && forall i :: 0 <= i < n ==> f(xs[i]) == 1
    ensures SumTo(xs, n, f) == n
  {
    if n > 0 {
      SumToOfOnes(xs, n - 1, f);
    }
  }

  lemma {:induction false} SumToIsZero<T>(xs: seq<T>, n: nat, f: T -> nat)
    requires n <= |xs| && forall i :: 0 <= i < n ==> f(xs[i]) == 0
    ensures SumTo(xs, n, f) == 0
  {
    if n > 0 {
      SumToIsZero(xs, n - 1, f);
    }
  }
}
