/**
 * Means and variances of integer amounts in exact arithmetic. A mean is Total/n and a population
 * variance is Spread/n^2, so every comparison is made on integers scaled by n.
 */
module Statistics {
  import opened Basics

  /** An exact quotient num / den, den positive. */
  datatype Fraction = Fraction(num: int, den: int)

  function Id(): int -> int {
    (a: int) => a
  }

  function Square(): int -> int {
    (a: int) => a * a
  }

  /** (k * a - m)^2: with k == 1 the squared distance from m. */
  function SquaredFrom(k: int, m: int): int -> int {
    (a: int) => (k * a - m) * (k * a - m)
  }

  function Total(xs: seq<int>): int {
    Sum(xs, Id())
  }

  function Squares(xs: seq<int>): int {
    Sum(xs, Square())
  }

  /** n^2 times the population variance. */
  function Spread(xs: seq<int>): int {
    |xs| * Squares(xs) - Total(xs) * Total(xs)
  }

  /** n times the distance of an amount from the mean. */
  function Deviation(xs: seq<int>, a: int): int {
    |xs| * a - Total(xs)
  }

  lemma OneMore(q: int, s: int, n: int, k: int, m: int, a: int)
    ensures k * k * (q + a * a) - 2 * k * m * (s + a) + (n + 1) * m * m
         == (k * k * q - 2 * k * m * s + n * m * m) + (k * a - m) * (k * a - m)
  {
    var ka, km := k * a, k * m;
    assert (ka - m) * (ka - m) == ka * ka - 2 * ka * m + m * m;
    assert k * k * (a * a) == ka * ka;
    assert 2 * k * m * a == 2 * ka * m;
  }

  /** Squared distances from any point, expanded. */
  lemma {:induction false} SquaresExpand(xs: seq<int>, k: int, m: int)
    ensures Sum(xs, SquaredFrom(k, m)) == k * k * Squares(xs) - 2 * k * m * Total(xs) + |xs| * m * m
  {
    if xs == [] {
    } else {
      var n := |xs| - 1;
      SquaresExpand(xs[..n], k, m);
      OneMore(Squares(xs[..n]), Total(xs[..n]), n, k, m, xs[n]);
    }
  }

  lemma AtTheMean(n: int, q: int, s: int)
    ensures n * n * q - 2 * n * s * s + n * s * s == n * (n * q - s * s)
  {
  }

  /** Spread / n^2 is the population variance: the mean squared distance from Total / n. */
  lemma SpreadIsVariance(xs: seq<int>)
    ensures Sum(xs, SquaredFrom(|xs|, Total(xs))) == |xs| * Spread(xs)
  {
    SquaresExpand(xs, |xs|, Total(xs));
    AtTheMean(|xs|, Squares(xs), Total(xs));
  }

  lemma ShiftAlgebra(n: int, m: int, s: int, q: int)
    ensures n * (q - 2 * m * s + n * m * m) == (n * q - s * s) + (n * m - s) * (n * m - s)
  {
    var p := n * m;
    assert (p - s) * (p - s) == p * p - 2 * p * s + s * s;
    assert n * (2 * m * s) == 2 * p * s;
    assert n * (n * m * m) == p * p;
  }

  /** n times the squares around m is the spread plus the squared error of m as a mean. */
  lemma ShiftedCentre(xs: seq<int>, m: int)
    ensures |xs| * Sum(xs, SquaredFrom(1, m)) == Spread(xs) + Deviation(xs, m) * Deviation(xs, m)
  {
    SquaresExpand(xs, 1, m);
    ShiftAlgebra(|xs|, m, Total(xs), Squares(xs));
  }
}
