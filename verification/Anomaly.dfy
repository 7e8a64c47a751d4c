/** Anomaly scoring of executed payments; the z-score thresholds are compared on squares, without roots. */
module Anomaly {
  import opened Basics
  import opened Spine
  import opened Statistics

  /** Scores in halves: 0 for 0.0, 1 for 0.5, 2 for 1.0. */
  const NONE: int := 0
  const UNUSUAL: int := 1
  const EXTREME: int := 2

  /** |a - mean| > 3 deviations is D^2 > 9 * Spread; 1.96 deviations is 49/25 of one. */
  function AmountScore(previous: seq<int>, amount: int): int {
    if |previous| < 3 then NONE
    else
      var d2 := Deviation(previous, amount) * Deviation(previous, amount);
      if Spread(previous) == 0 then (if d2 != 0 then EXTREME else NONE)
      else if d2 > 9 * Spread(previous) then EXTREME
      else if 625 * d2 > 2401 * Spread(previous) then UNUSUAL
      else NONE
  }

  lemma SpreadRatio(n: int, d2: int, spread: int, num: int, den: int)
    requires n > 0 && den > 0
    ensures den * (n * d2) > num * (n * spread) <==> den * d2 > num * spread
  {
    assert den * (n * d2) == n * (den * d2) && num * (n * spread) == n * (num * spread);
    if den * d2 > num * spread {
      assert n * (den * d2) > n * (num * spread);
    } else {
      assert n * (den * d2) <= n * (num * spread);
    }
  }

  /** The amount part of the handler: mean, variance, and the branches on z. */
  method ScoreAmount(previous: seq<int>, amount: int) returns (score: int)
    ensures score == AmountScore(previous, amount)
  {
    score := NONE;
    if |previous| >= 3 {
      var n, sum := |previous|, Total(previous);
      var diffs := Sum(previous, SquaredFrom(n, sum));   // n^3 times the variance
      ghost var spread := Spread(previous);
      SpreadIsVariance(previous);
      var d := n * amount - sum;                         // n times amount - mean
      var d2 := d * d;
      ZeroFactor(n, spread);
      ZeroFactor(d, d);
      if diffs == 0 {
        if d != 0 { score := EXTREME; }
      } else {
        SpreadRatio(n, d2, spread, 9, 1);
        SpreadRatio(n, d2, spread, 2401, 625);
        if n * d2 > 9 * diffs {
          score := EXTREME;
        } else if 625 * (n * d2) > 2401 * diffs {
          score := UNUSUAL;
        }
      }
    }
  }

  lemma ZeroFactor(a: int, b: int)
    ensures a * b == 0 <==> a == 0 || b == 0
  {
  }

  // ---- what the score depends on ----------------------------------------------------------------------------

  lemma {:induction false} ZeroSum(xs: seq<int>, f: int -> int)
    requires forall x :: f(x) >= 0
    ensures Sum(xs, f) >= 0
    ensures Sum(xs, f) == 0 <==> forall k :: 0 <= k < |xs| ==> f(xs[k]) == 0
  {
    if xs == [] {
    } else {
      var n := |xs| - 1;
      ZeroSum(xs[..n], f);
      assert forall k :: 0 <= k < n ==> xs[..n][k] == xs[k];
    }
  }

  lemma SquaredDeviation(xs: seq<int>)
    ensures forall x :: SquaredFrom(|xs|, Total(xs))(x) >= 0
    ensures forall x :: SquaredFrom(|xs|, Total(xs))(x) == 0 <==> |xs| * x == Total(xs)
  {
    forall x ensures SquaredFrom(|xs|, Total(xs))(x) >= 0
      ensures SquaredFrom(|xs|, Total(xs))(x) == 0 <==> |xs| * x == Total(xs)
    {
      ZeroFactor(|xs| * x - Total(xs), |xs| * x - Total(xs));
      NonNegativeSquare(|xs| * x - Total(xs));
    }
  }

  lemma NonNegativeSquare(d: int)
    ensures d * d >= 0
  {
  }

  predicate AllEqual(xs: seq<int>) {
    forall k :: 0 <= k < |xs| ==> xs[k] == xs[0]
  }

  lemma {:induction false} EqualTotal(xs: seq<int>, x: int)
    requires forall k :: 0 <= k < |xs| ==> xs[k] == x
    ensures Total(xs) == |xs| * x
  {
    if xs == [] {
    } else {
      EqualTotal(xs[..|xs| - 1], x);
      assert (|xs| - 1) * x + x == |xs| * x;
    }
  }

  lemma NonNegativeFactor(n: int, s: int)
    requires n > 0 && n * s >= 0
    ensures s >= 0
  {
  }

  /** The zero-deviation branch is taken exactly for constant histories (equality in Cauchy-Schwarz). */
  lemma ConstantIffNoSpread(xs: seq<int>)
    requires xs != []
    ensures Spread(xs) >= 0
    ensures Spread(xs) == 0 <==> AllEqual(xs)
  {
    var f := SquaredFrom(|xs|, Total(xs));
    SpreadIsVariance(xs);
    SquaredDeviation(xs);
    ZeroSum(xs, f);
    ZeroFactor(|xs|, Spread(xs));
    NonNegativeFactor(|xs|, Spread(xs));
    if AllEqual(xs) {
      EqualTotal(xs, xs[0]);
    }
    if Spread(xs) == 0 {
      forall k | 0 <= k < |xs| ensures xs[k] == xs[0] {
        assert f(xs[k]) == 0 && f(xs[0]) == 0;
        SameFactor(|xs|, xs[k], xs[0]);
      }
    }
  }

  lemma SameFactor(n: int, a: int, b: int)
    requires n > 0 && n * a == n * b
    ensures a == b
  {
  }

  lemma {:induction false} SumOfMultiset(xs: seq<int>, ys: seq<int>, f: int -> int)
    requires multiset(xs) == multiset(ys)
    ensures Sum(xs, f) == Sum(ys, f)
  {
    if xs == [] {
      assert |ys| == |multiset(ys)| == 0;
    } else {
      var n, x := |xs| - 1, xs[|xs| - 1];
      assert xs == xs[..n] + [x];
      assert x in multiset(ys);
      var j :| 0 <= j < |ys| && ys[j] == x;
      assert ys == ys[..j] + [x] + ys[j + 1..];
      assert multiset(xs) == multiset(xs[..n]) + multiset{x};
      assert multiset(ys) == multiset(ys[..j] + ys[j + 1..]) + multiset{x};
      assert multiset(xs[..n]) == multiset(xs) - multiset{x};
      assert multiset(ys[..j] + ys[j + 1..]) == multiset(ys) - multiset{x};
      SumOfMultiset(xs[..n], ys[..j] + ys[j + 1..], f);
      SumConcat(ys[..j], ys[j + 1..], f);
      SumConcat(ys[..j] + [x], ys[j + 1..], f);
      SumSnoc(ys[..j], x, f);
    }
  }

  /** The score looks only at the multiset of earlier amounts. */
  lemma OrderIsIrrelevant(xs: seq<int>, ys: seq<int>, amount: int)
    requires multiset(xs) == multiset(ys)
    ensures AmountScore(xs, amount) == AmountScore(ys, amount)
  {
    assert |xs| == |multiset(xs)| == |multiset(ys)| == |ys|;
    SumOfMultiset(xs, ys, Id());
    SumOfMultiset(xs, ys, Square());
  }

  function Shifted(xs: seq<int>, c: int): seq<int> {
    seq(|xs|, i requires 0 <= i < |xs| => xs[i] + c)
  }

  lemma ShiftOne(q: int, s: int, n: int, a: int, c: int)
    ensures (q + 2 * c * s + n * c * c) + (a + c) * (a + c) == (q + a * a) + 2 * c * (s + a) + (n + 1) * c * c
  {
    assert (a + c) * (a + c) == a * a + 2 * c * a + c * c;
  }

  lemma {:induction false} ShiftedSums(xs: seq<int>, c: int)
    ensures Total(Shifted(xs, c)) == Total(xs) + |xs| * c
    ensures Squares(Shifted(xs, c)) == Squares(xs) + 2 * c * Total(xs) + |xs| * c * c
  {
    if xs == [] {
    } else {
      var n := |xs| - 1;
      ShiftedSums(xs[..n], c);
      assert Shifted(xs, c)[..n] == Shifted(xs[..n], c);
      ShiftOne(Squares(xs[..n]), Total(xs[..n]), n, xs[n], c);
      assert n * c + c == (n + 1) * c;
    }
  }

  lemma ShiftedSpread(n: int, q: int, s: int, c: int)
    ensures n * (q + 2 * c * s + n * c * c) - (s + n * c) * (s + n * c) == n * q - s * s
  {
    var p := n * c;
    assert (s + p) * (s + p) == s * s + 2 * s * p + p * p;
    assert n * (2 * c * s) == 2 * s * p;
    assert n * (n * c * c) == p * p;
  }

  /** Adding the same sum to every amount changes no score. */
  lemma ShiftIsIrrelevant(xs: seq<int>, amount: int, c: int)
    ensures AmountScore(Shifted(xs, c), amount + c) == AmountScore(xs, amount)
  {
    ShiftedSums(xs, c);
    ShiftedSpread(|xs|, Squares(xs), Total(xs), c);
    assert |xs| * (amount + c) == |xs| * amount + |xs| * c;
  }

  /**
   * In the source's own terms, scaled by the number n of earlier amounts: far is n times the distance from their mean,
   * spread the sum of these squared for the earlier amounts, so n * far^2 > c^2 * spread says that the amount is more
   * than c deviations from the mean. Beyond 3 of them the score is 1.0, beyond 1.96 it is 0.5; where there is no
   * deviation, any other amount than the mean scores 1.0; and fewer than three earlier amounts say nothing.
   */
  lemma ScoreIsByDeviations(previous: seq<int>, amount: int)
    ensures |previous| < 3 ==> AmountScore(previous, amount) == NONE
    ensures |previous| >= 3 ==>
      var n, total := |previous|, Total(previous);
      var far, spread := n * amount - total, Sum(previous, SquaredFrom(n, total));
      AmountScore(previous, amount)
        == if spread == 0 then if far != 0 then EXTREME else NONE
           else if n * (far * far) > (3 * 3) * spread then EXTREME
           else if (100 * 100) * (n * (far * far)) > (196 * 196) * spread then UNUSUAL
           else NONE
  {
    if |previous| >= 3 {
      var n, far := |previous|, |previous| * amount - Total(previous);
      SpreadIsVariance(previous);
      ZeroFactor(n, Spread(previous));
      ZeroFactor(far, far);
      SpreadRatio(n, far * far, Spread(previous), 9, 1);
      SpreadRatio(n, far * far, Spread(previous), 2401, 625);
    }
  }

  /** After three or more equal amounts any other amount is flagged in full, and the same one is not. */
  lemma ConstantHistory(previous: seq<int>, usual: int, amount: int)
    requires |previous| >= 3 && forall k :: 0 <= k < |previous| ==> previous[k] == usual
    ensures AmountScore(previous, amount) == if amount != usual then EXTREME else NONE
  {
    ConstantIffNoSpread(previous);
    EqualTotal(previous, usual);
    var d := Deviation(previous, amount);
    ZeroFactor(d, d);
    if amount != usual {
      SameFactorOnly(|previous|, amount, usual);
    }
  }

  lemma SameFactorOnly(n: int, a: int, b: int)
    requires n > 0 && a != b
    ensures n * a != n * b
  {
  }

  // ---- how many can be extreme --------------------------------------------------------------------------------

  function IsExtreme(xs: seq<int>): int -> int {
    (a: int) => if AmountScore(xs, a) == EXTREME then 1 else 0
  }

  function Scaled(f: int -> int, c: int): int -> int {
    (a: int) => c * f(a)
  }

  lemma {:induction false} SumScaled(xs: seq<int>, f: int -> int, c: int)
    ensures Sum(xs, Scaled(f, c)) == c * Sum(xs, f)
  {
    if xs == [] {
    } else {
      SumScaled(xs[..|xs| - 1], f, c);
      assert c * (Sum(xs[..|xs| - 1], f) + f(xs[|xs| - 1])) == c * Sum(xs[..|xs| - 1], f) + c * f(xs[|xs| - 1]);
    }
  }

  lemma FewerThanNinth(n: int, k: int, spread: int)
    requires k > 0 && spread > 0 && (9 * spread + 1) * k <= n * spread
    ensures 9 * k < n
  {
    assert (9 * spread + 1) * k == 9 * k * spread + k;
    CancelFactor(9 * k, n, spread);
  }

  lemma CancelFactor(a: int, b: int, c: int)
    requires c > 0 && a * c < b * c
    ensures a < b
  {
  }

  /** Chebyshev: of n payments measured against their own history, fewer than n/9 are extreme, or none is. */
  lemma ExtremesAreRare(xs: seq<int>)
    ensures var k := Sum(xs, IsExtreme(xs)); k == 0 || 0 < 9 * k < |xs|
  {
    var k, s, f := Sum(xs, IsExtreme(xs)), Spread(xs), SquaredFrom(|xs|, Total(xs));
    SumNonNegative(xs, IsExtreme(xs));
    if k > 0 {
      ConstantIffNoSpread(xs);
      SpreadIsVariance(xs);
      if s == 0 {
        ConstantHasNoExtremes(xs);
      } else {
        forall i | 0 <= i < |xs| ensures Scaled(IsExtreme(xs), 9 * s + 1)(xs[i]) <= f(xs[i]) {
          NonNegativeSquare(Deviation(xs, xs[i]));
        }
        SumAtMost(xs, Scaled(IsExtreme(xs), 9 * s + 1), f);
        SumScaled(xs, IsExtreme(xs), 9 * s + 1);
        FewerThanNinth(|xs|, k, s);
      }
    }
  }

  lemma ConstantHasNoExtremes(xs: seq<int>)
    requires xs != [] && AllEqual(xs) && Spread(xs) == 0
    ensures Sum(xs, IsExtreme(xs)) == 0
  {
    EqualTotal(xs, xs[0]);
    SumAgree(xs, IsExtreme(xs), Nothing());
    SumOfNothing(xs);
  }

  function Nothing(): int -> int {
    (a: int) => 0
  }

  lemma SumOfNothing(xs: seq<int>)
    ensures Sum(xs, Nothing()) == 0
  {
  }

  // ---- the handler ----------------------------------------------------------------------------------------------

  /** An executed intent of the account other than the one just paid. */
  predicate IsEarlier(w: World, i: nat, intentId: nat, accountId: string)
    requires i < |w.intents|
  {
    i != intentId && w.intents[i].status == Executed && AccountOf(w, i) == accountId
  }

  predicate PaidTo(w: World, i: nat, intentId: nat, accountId: string, recipient: string)
    requires i < |w.intents|
  {
    IsEarlier(w, i, intentId, accountId) && w.intents[i].recipient == Some(recipient)
  }

  /** Some earlier payment of the account, among the first n rows, went to the recipient. */
  ghost predicate IsKnown(w: World, n: nat, intentId: nat, accountId: string, recipient: string)
    requires n <= |w.intents|
  {
    exists i :: 0 <= i < n && PaidTo(w, i, intentId, accountId, recipient)
  }

  /** The amounts of the account's earlier payments to the biller, among the first n rows. */
  function EarlierAmounts(w: World, n: nat, intentId: nat, accountId: string, biller: string): seq<int>
    requires n <= |w.intents|
  {
    if n == 0 then []
    else
      EarlierAmounts(w, n - 1, intentId, accountId, biller)
      + if IsEarlier(w, n - 1, intentId, accountId) && w.intents[n - 1].billerId == Some(biller)
        then [w.intents[n - 1].amount] else []
  }

  ghost function RecipientScore(w: World, intentId: nat, accountId: string): int {
    if intentId < |w.intents| && NonEmpty(w.intents[intentId].recipient).Some?
      && !IsKnown(w, |w.intents|, intentId, accountId, w.intents[intentId].recipient.value)
    then EXTREME else NONE
  }

  function BillerScore(w: World, intentId: nat, accountId: string, billerId: Option<string>, amount: int): int {
    if NonEmpty(billerId).Some?
    then AmountScore(EarlierAmounts(w, |w.intents|, intentId, accountId, billerId.value), amount) else NONE
  }

  method FindRecipient(w: World, intentId: nat, accountId: string, recipient: string) returns (known: bool)
    ensures known <==> IsKnown(w, |w.intents|, intentId, accountId, recipient)
  {
    known := false;
    for i := 0 to |w.intents|
      invariant known <==> IsKnown(w, i, intentId, accountId, recipient)
    {
      if PaidTo(w, i, intentId, accountId, recipient) {
        known := true;
      }
    }
  }

  method FindAmounts(w: World, intentId: nat, accountId: string, biller: string) returns (amounts: seq<int>)
    ensures amounts == EarlierAmounts(w, |w.intents|, intentId, accountId, biller)
  {
    amounts := [];
    for i := 0 to |w.intents|
      invariant amounts == EarlierAmounts(w, i, intentId, accountId, biller)
    {
      if IsEarlier(w, i, intentId, accountId) && w.intents[i].billerId == Some(biller) {
        amounts := amounts + [w.intents[i].amount];
      }
    }
  }

  datatype Flag = Flag(
    accountId: string, intentId: nat, score: int, recipientScore: int, amountScore: int, timeScore: int)

  /** The flag of an executed payment with any suspicious factor; hour is None where the date cannot be formatted. */
  ghost function Raised(w: World, intentId: nat, accountId: string, billerId: Option<string>, amount: int,
                        hour: Option<int>): seq<Flag>
  {
    var r, a := RecipientScore(w, intentId, accountId), BillerScore(w, intentId, accountId, billerId, amount);
    var t := if hour.Some? && (hour.value >= 23 || hour.value < 5) then EXTREME else NONE;
    if r + a + t > 0 then [Flag(accountId, intentId, Max(r, Max(a, t)), r, a, t)] else []
  }

  class AnomalyService {
    var flags: seq<Flag>

    constructor ()
      ensures flags == []
    {
      flags := [];
    }

    /** handleIntentExecuted on the rows of w; hour is the Lagos hour. */
    method HandleIntentExecuted(w: World, intentId: nat, accountId: string, billerId: Option<string>, amount: int,
                                hour: Option<int>)
      modifies this
      ensures flags == old(flags) + Raised(w, intentId, accountId, billerId, amount, hour)
    {
      var recipientScore := NONE;
      var recipient := if intentId < |w.intents| then w.intents[intentId].recipient else None;
      if recipient.Some? && recipient.value != "" {
        var known := FindRecipient(w, intentId, accountId, recipient.value);
        if !known {
          recipientScore := EXTREME;
        }
      }
      var amountScore := NONE;
      if billerId.Some? && billerId.value != "" {
        var amounts := FindAmounts(w, intentId, accountId, billerId.value);
        amountScore := ScoreAmount(amounts, amount);
      }
      var timeScore := NONE;
      if hour.Some? {
        if hour.value >= 23 || hour.value < 5 {
          timeScore := EXTREME;
        }
      }
      var score := Max(recipientScore, Max(amountScore, timeScore));
      if score >= UNUSUAL {
        flags := flags + [Flag(accountId, intentId, score, recipientScore, amountScore, timeScore)];
      }
    }
  }
}
