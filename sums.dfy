/** Counting over sequences: the worker pool's bookkeeping counts workers
    and queue entries of a given kind, and these are the facts it needs. */
module Sums {

  /** The sum of `f` over the elements of `s`. */
  function Sum<T>(s: seq<T>, f: T -> nat): nat
  {
    if |s| == 0 then 0 else Sum(s[..|s| - 1], f) + f(s[|s| - 1])
  }

  lemma {:induction false} SumConcat<T>(a: seq<T>, b: seq<T>, f: T -> nat)
    ensures Sum(a + b, f) == Sum(a, f) + Sum(b, f)
  {
    if |b| == 0 {
      assert a + b == a;
    } else {
      SumConcat(a, b[..|b| - 1], f);
      assert (a + b)[..|a + b| - 1] == a + b[..|b| - 1];
    }
  }

  /** Replacing one element changes the sum by the difference of the two weights. */
  lemma {:induction false} SumUpdate<T>(s: seq<T>, i: nat, x: T, f: T -> nat)
    requires i < |s|
    ensures Sum(s[i := x], f) + f(s[i]) == Sum(s, f) + f(x)
  {
    var last := |s| - 1;
    if i == last {
      assert s[i := x][..last] == s[..last];
    } else {
      SumUpdate(s[..last], i, x, f);
      assert s[i := x][..last] == s[..last][i := x];
    }
  }

  lemma {:induction false} SumAtLeast<T>(s: seq<T>, i: nat, f: T -> nat)
    requires i < |s|
    ensures f(s[i]) <= Sum(s, f)
  {
    if i < |s| - 1 {
      SumAtLeast(s[..|s| - 1], i, f);
    }
  }

  lemma {:induction false} SumOfZeros<T>(s: seq<T>, f: T -> nat)
    requires forall k :: 0 <= k < |s| ==> f(s[k]) == 0
    ensures Sum(s, f) == 0
  {
    if |s| > 0 {
      SumOfZeros(s[..|s| - 1], f);
    }
  }

  /** Two kinds that never hold of the same element together number at most |s|. */
  lemma {:induction false} SumPairBound<T>(s: seq<T>, f: T -> nat, g: T -> nat)
    requires forall k :: 0 <= k < |s| ==> f(s[k]) + g(s[k]) <= 1
    ensures Sum(s, f) + Sum(s, g) <= |s|
  {
    if |s| > 0 {
      SumPairBound(s[..|s| - 1], f, g);
    }
  }

  /** Sequences of the same length whose elements weigh the same pairwise
      have the same sum. */
  lemma {:induction false} SumPointwise<T>(a: seq<T>, b: seq<T>, f: T -> nat)
    requires |a| == |b| && forall k :: 0 <= k < |a| ==> f(a[k]) == f(b[k])
    ensures Sum(a, f) == Sum(b, f)
  {
    if |a| > 0 {
      SumPointwise(a[..|a| - 1], b[..|b| - 1], f);
    }
  }
}
