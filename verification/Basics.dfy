/** Values shared by every model: optional values, points on the clock, and sums over rows. */
module Basics {

  datatype Option<+T> = None | Some(value: T)

  function Get<K, V>(m: map<K, V>, k: K): Option<V> {
    if k in m then Some(m[k]) else None
  }

  function Max(a: int, b: int): int {
    if a < b then b else a
  }

  function Min(a: int, b: int): int {
    if a < b then a else b
  }

  /** A point on the server clock: milliseconds, and the index of the UTC calendar month it lies in. */
  datatype Instant = Instant(ms: int, month: int) {
    predicate NotAfter(later: Instant) {
      ms <= later.ms && month <= later.month
    }
  }

  function Sum<T>(xs: seq<T>, f: T -> int): int {
    if xs == [] then 0 else Sum(xs[..|xs| - 1], f) + f(xs[|xs| - 1])
  }

  lemma SumSnoc<T>(xs: seq<T>, x: T, f: T -> int)
    ensures Sum(xs + [x], f) == Sum(xs, f) + f(x)
  {
    assert (xs + [x])[..|xs|] == xs;
  }

  lemma {:induction false} SumUpdate<T>(xs: seq<T>, j: nat, x: T, f: T -> int)
    requires j < |xs|
    ensures Sum(xs[j := x], f) == Sum(xs, f) - f(xs[j]) + f(x)
  {
    var n := |xs| - 1;
    if j == n {
      assert xs[j := x][..n] == xs[..n];
    } else {
      assert xs[j := x][..n] == xs[..n][j := x];
      SumUpdate(xs[..n], j, x, f);
    }
  }

  lemma {:induction false} SumConcat<T>(xs: seq<T>, ys: seq<T>, f: T -> int)
    ensures Sum(xs + ys, f) == Sum(xs, f) + Sum(ys, f)
  {
    if ys == [] {
      assert xs + ys == xs;
    } else {
      var n := |ys| - 1;
      assert (xs + ys)[..|xs| + n] == xs + ys[..n];
      SumConcat(xs, ys[..n], f);
    }
  }

  lemma {:induction false} SumAgree<T>(xs: seq<T>, f: T -> int, g: T -> int)
    requires forall k :: 0 <= k < |xs| ==> f(xs[k]) == g(xs[k])
    ensures Sum(xs, f) == Sum(xs, g)
  {
    if xs == [] {
    } else {
      SumAgree(xs[..|xs| - 1], f, g);
    }
  }

  lemma {:induction false} SumOfTwo<T>(xs: seq<T>, f: T -> int, g: T -> int, h: T -> int)
    requires forall k :: 0 <= k < |xs| ==> f(xs[k]) == g(xs[k]) + h(xs[k])
    ensures Sum(xs, f) == Sum(xs, g) + Sum(xs, h)
  {
    if xs == [] {
    } else {
      SumOfTwo(xs[..|xs| - 1], f, g, h);
    }
  }

  lemma {:induction false} SumAtMost<T>(xs: seq<T>, f: T -> int, g: T -> int)
    requires forall k :: 0 <= k < |xs| ==> f(xs[k]) <= g(xs[k])
    ensures Sum(xs, f) <= Sum(xs, g)
  {
    if xs == [] {
    } else {
      SumAtMost(xs[..|xs| - 1], f, g);
    }
  }

  lemma {:induction false} SumNonNegative<T>(xs: seq<T>, f: T -> int)
    requires forall k :: 0 <= k < |xs| ==> f(xs[k]) >= 0
    ensures Sum(xs, f) >= 0
  {
    if xs == [] {
    } else {
      SumNonNegative(xs[..|xs| - 1], f);
    }
  }
}
