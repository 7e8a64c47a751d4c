/**
 * The read models of context-query.service.ts: the habit row recomputed on every executed payment, and
 * the month summary.
 */
module ContextQuery {
  import opened Basics
  import opened Statistics

  const DAY_MS: int := 1000 * 60 * 60 * 24

  /** An executed payment as the habit query returns it, in creation order. */
  datatype Paid = Paid(amount: int, at: int)

  datatype Habit = Habit(
    typicalAmountMean: int, amountVar: Fraction, typicalIntervalDays: Option<Fraction>, lastPaidAt: int)

  function Amounts(paid: seq<Paid>): seq<int> {
    seq(|paid|, i requires 0 <= i < |paid| => paid[i].amount)
  }

  /** Math.round(sum / n): the nearest integer, halves upwards. */
  function RoundedMean(xs: seq<int>): int
    requires xs != []
  {
    (2 * Total(xs) + |xs|) / (2 * |xs|)
  }

  /** The mean squared distance from the rounded mean, 0 for a single payment. */
  function StoredVariance(xs: seq<int>): Fraction
    requires xs != []
  {
    if |xs| > 1 then Fraction(Sum(xs, SquaredFrom(1, RoundedMean(xs))), |xs|) else Fraction(0, 1)
  }

  function IntervalDays(paid: seq<Paid>): Fraction
    requires |paid| > 1
  {
    Fraction(paid[|paid| - 1].at - paid[0].at, DAY_MS * (|paid| - 1))
  }

  function HabitOf(paid: seq<Paid>): Habit
    requires paid != []
  {
    Habit(RoundedMean(Amounts(paid)), StoredVariance(Amounts(paid)),
          if |paid| > 1 then Some(IntervalDays(paid)) else None, paid[|paid| - 1].at)
  }

  // ---- what the statistics mean -------------------------------------------------------------------------

  lemma RoundingAlgebra(n: int, s: int)
    requires n > 0
    ensures var e := n * ((2 * s + n) / (2 * n)) - s; -n <= 2 * e <= n
  {
    var m := (2 * s + n) / (2 * n);
    assert 2 * n * m == 2 * s + n - (2 * s + n) % (2 * n);
    assert 2 * (n * m) == 2 * n * m;
  }

  /** The stored mean is the nearest integer to the true one: it is off by at most a half. */
  lemma MeanIsNearest(xs: seq<int>)
    requires xs != []
    ensures -|xs| <= 2 * Deviation(xs, RoundedMean(xs)) <= |xs|
  {
    RoundingAlgebra(|xs|, Total(xs));
  }

  lemma SmallSquare(n: int, e: int)
    requires n > 0 && -n <= 2 * e <= n
    ensures 0 <= 4 * (e * e) <= n * n
  {
    var a := if e < 0 then -e else e;
    assert e * e == a * a;
    assert (2 * a) * (2 * a) <= (2 * a) * n <= n * n;
  }

  /** The stored variance lies between the population variance and that plus a quarter. */
  lemma VarianceWithinQuarter(xs: seq<int>)
    requires xs != []
    ensures StoredVariance(xs).den == |xs|
    ensures 4 * Spread(xs) <= 4 * (|xs| * StoredVariance(xs).num) <= 4 * Spread(xs) + |xs| * |xs|
  {
    MeanIsNearest(xs);
    SmallSquare(|xs|, Deviation(xs, RoundedMean(xs)));
    ShiftedCentre(xs, RoundedMean(xs));
    if |xs| == 1 {
      SingleSpread(xs);
    }
  }

  lemma SingleSpread(xs: seq<int>)
    requires |xs| == 1
    ensures Spread(xs) == 0
  {
    assert xs == [] + [xs[0]];
    SumSnoc([], xs[0], Id());
    SumSnoc([], xs[0], Square());
  }

  function Gaps(paid: seq<Paid>): int {
    if |paid| <= 1 then 0
    else Gaps(paid[..|paid| - 1]) + (paid[|paid| - 1].at - paid[|paid| - 2].at)
  }

  lemma {:induction false} GapsTelescope(paid: seq<Paid>)
    requires paid != []
    ensures Gaps(paid) == paid[|paid| - 1].at - paid[0].at
  {
    if |paid| > 1 {
      GapsTelescope(paid[..|paid| - 1]);
    }
  }

  /** The stored interval is the mean gap between consecutive payments, in days. */
  lemma IntervalIsMeanGap(paid: seq<Paid>)
    requires |paid| > 1
    ensures IntervalDays(paid) == Fraction(Gaps(paid), DAY_MS * (|paid| - 1))
  {
    GapsTelescope(paid);
  }

  /**
   * A habit row, field by field: the mean is off from the true one by at most a half, the variance from the true one
   * by at most a quarter, the interval is there from the second payment on and times the gaps is the time from the
   * first to the last, and the last date is that of the payment created last.
   */
  lemma HabitSays(paid: seq<Paid>)
    requires paid != []
    ensures var h, n, xs := HabitOf(paid), |paid|, Amounts(paid);
      && (forall i :: 0 <= i < n ==> xs[i] == paid[i].amount) && |xs| == n
      && -n <= 2 * (n * h.typicalAmountMean - Total(xs)) <= n
      && h.amountVar.den == n && 4 * Spread(xs) <= 4 * (n * h.amountVar.num) <= 4 * Spread(xs) + n * n
      && h.lastPaidAt == paid[n - 1].at
      && (h.typicalIntervalDays.Some? <==> n > 1)
      && (n > 1 ==>
            h.typicalIntervalDays.value == Fraction(paid[n - 1].at - paid[0].at, (24 * 60 * 60 * 1000) * (n - 1)))
  {
    MeanIsNearest(Amounts(paid));
    VarianceWithinQuarter(Amounts(paid));
  }

  // ---- the month summary ----------------------------------------------------------------------------------

  datatype Row = Row(billerName: Option<string>, amount: int)

  datatype Group = Group(name: string, count: int, total: int)

  function AmountOf(): Row -> int {
    (r: Row) => r.amount
  }

  function AmountFor(name: Option<string>): Row -> int {
    (r: Row) => if r.billerName == name then r.amount else 0
  }

  function CountFor(name: Option<string>): Row -> int {
    (r: Row) => if r.billerName == name then 1 else 0
  }

  function TotalOf(): Group -> int {
    (g: Group) => g.total
  }

  function CountOf(): Group -> int {
    (g: Group) => g.count
  }

  function FindGroup(groups: seq<Group>, name: string): (found: Option<nat>)
    ensures found.Some? ==> found.value < |groups| && groups[found.value].name == name
    ensures found.None? ==> forall g :: 0 <= g < |groups| ==> groups[g].name != name
  {
    if groups == [] then None
    else if groups[|groups| - 1].name == name then Some(|groups| - 1)
    else FindGroup(groups[..|groups| - 1], name)
  }

  /** The groups are exactly the billers seen, each once, with its own count and total. */
  ghost predicate Grouped(groups: seq<Group>, rows: seq<Row>) {
    && (forall g, h :: 0 <= g < h < |groups| ==> groups[g].name != groups[h].name)
    && (forall g :: 0 <= g < |groups| ==>
          groups[g].count > 0
          && groups[g].count == Sum(rows, CountFor(Some(groups[g].name)))
          && groups[g].total == Sum(rows, AmountFor(Some(groups[g].name))))
    && (forall k :: 0 <= k < |rows| ==> rows[k].billerName.Some? ==> FindGroup(groups, rows[k].billerName.value).Some?)
  }

  lemma {:induction false} UnseenBiller(rows: seq<Row>, name: string)
    requires forall k :: 0 <= k < |rows| ==> rows[k].billerName != Some(name)
    ensures Sum(rows, CountFor(Some(name))) == 0 && Sum(rows, AmountFor(Some(name))) == 0
  {
    if rows == [] {
    } else {
      UnseenBiller(rows[..|rows| - 1], name);
    }
  }

  /** One more row: its biller's group grows, or is opened, and every other group stays. */
  lemma GroupedOnward(groups: seq<Group>, grown: seq<Group>, at: nat, rows: seq<Row>, row: Row)
    requires Grouped(groups, rows) && row.billerName.Some? && at < |grown| && grown[at].name == row.billerName.value
    requires if at < |groups| then groups[at].name == row.billerName.value && |grown| == |groups|
             else at == |groups| && |grown| == at + 1 && FindGroup(groups, row.billerName.value).None?
    requires forall h :: 0 <= h < |groups| && h != at ==> grown[h] == groups[h]
    requires grown[at].count == (if at < |groups| then groups[at].count else 0) + 1
    requires grown[at].total == (if at < |groups| then groups[at].total else 0) + row.amount
    ensures Grouped(grown, rows + [row])
  {
    var name := row.billerName.value;
    if at == |groups| {
      forall k | 0 <= k < |rows| ensures rows[k].billerName != Some(name) { }
      UnseenBiller(rows, name);
    }
    forall h | 0 <= h < |grown|
      ensures grown[h].count == Sum(rows + [row], CountFor(Some(grown[h].name)))
      ensures grown[h].total == Sum(rows + [row], AmountFor(Some(grown[h].name)))
    {
      SumSnoc(rows, row, CountFor(Some(grown[h].name)));
      SumSnoc(rows, row, AmountFor(Some(grown[h].name)));
    }
    forall k | 0 <= k < |rows + [row]| && (rows + [row])[k].billerName.Some?
      ensures FindGroup(grown, (rows + [row])[k].billerName.value).Some?
    {
      var n := (rows + [row])[k].billerName.value;
      var h := if n == name then at else FindGroup(groups, n).value;
      assert grown[h].name == n;
    }
  }

  method AddToGroup(groups: seq<Group>, name: string, amount: int, ghost rows: seq<Row>) returns (grown: seq<Group>)
    requires Grouped(groups, rows)
    ensures Grouped(grown, rows + [Row(Some(name), amount)])
    ensures Sum(grown, TotalOf()) == Sum(groups, TotalOf()) + amount
    ensures Sum(grown, CountOf()) == Sum(groups, CountOf()) + 1
  {
    var found := FindGroup(groups, name);
    if found.Some? {
      var g := found.value;
      var bigger := Group(name, groups[g].count + 1, groups[g].total + amount);
      grown := groups[g := bigger];
      SumUpdate(groups, g, bigger, TotalOf());
      SumUpdate(groups, g, bigger, CountOf());
      GroupedOnward(groups, grown, g, rows, Row(Some(name), amount));
    } else {
      grown := groups + [Group(name, 1, amount)];
      SumSnoc(groups, Group(name, 1, amount), TotalOf());
      SumSnoc(groups, Group(name, 1, amount), CountOf());
      GroupedOnward(groups, grown, |groups|, rows, Row(Some(name), amount));
    }
  }

  /** summarizeMonth's loop: every kobo and every payment lands in exactly one biller group or in transfers. */
  method SummarizeMonth(rows: seq<Row>) returns (total: int, groups: seq<Group>, transferCount: int, transferTotal: int)
    ensures Grouped(groups, rows)
    ensures total == Sum(rows, AmountOf()) == Sum(groups, TotalOf()) + transferTotal
    ensures |rows| == Sum(groups, CountOf()) + transferCount
    ensures transferTotal == Sum(rows, AmountFor(None)) && transferCount == Sum(rows, CountFor(None))
  {
    total := Sum(rows, AmountOf());
    groups, transferCount, transferTotal := [], 0, 0;
    assert rows[..0] == [];
    for i := 0 to |rows|
      invariant Grouped(groups, rows[..i])
      invariant Sum(rows[..i], AmountOf()) == Sum(groups, TotalOf()) + transferTotal
      invariant i == Sum(groups, CountOf()) + transferCount
      invariant transferTotal == Sum(rows[..i], AmountFor(None)) && transferCount == Sum(rows[..i], CountFor(None))
    {
      var row := rows[i];
      assert rows[..i + 1] == rows[..i] + [row];
      SumSnoc(rows[..i], row, AmountOf());
      SumSnoc(rows[..i], row, AmountFor(None));
      SumSnoc(rows[..i], row, CountFor(None));
      if row.billerName.Some? {
        assert row == Row(Some(row.billerName.value), row.amount);
        groups := AddToGroup(groups, row.billerName.value, row.amount, rows[..i]);
      } else {
        TransferKeepsGroups(groups, rows[..i], row);
        transferCount := transferCount + 1;
        transferTotal := transferTotal + row.amount;
      }
    }
    assert rows[..|rows|] == rows;
  }

  lemma TransferKeepsGroups(groups: seq<Group>, rows: seq<Row>, row: Row)
    requires Grouped(groups, rows) && row.billerName.None?
    ensures Grouped(groups, rows + [row])
  {
    forall g | 0 <= g < |groups|
      ensures groups[g].count == Sum(rows + [row], CountFor(Some(groups[g].name)))
      ensures groups[g].total == Sum(rows + [row], AmountFor(Some(groups[g].name)))
    {
      SumSnoc(rows, row, CountFor(Some(groups[g].name)));
      SumSnoc(rows, row, AmountFor(Some(groups[g].name)));
    }
  }

  // ---- the habit handler ------------------------------------------------------------------------------------

  /** The habit table after an executed event. */
  function Handled(habits: map<(string, string), Habit>, accountId: string, billerId: Option<string>, paid: seq<Paid>)
    : map<(string, string), Habit>
  {
    if billerId.None? || billerId.value == "" || paid == [] then habits
    else habits[(accountId, billerId.value) := HabitOf(paid)]
  }

  class ContextQueryService {
    var habits: map<(string, string), Habit>

    constructor ()
      ensures habits == map[]
    {
      habits := map[];
    }

    /** handleIntentExecuted; paid is the query for the executed payments of the account and biller. */
    method HandleIntentExecuted(accountId: string, billerId: Option<string>, paid: seq<Paid>)
      modifies this
      ensures habits == Handled(old(habits), accountId, billerId, paid)
    {
      if billerId.None? || billerId.value == "" {
        return;
      }
      if paid == [] {
        return;
      }
      var amounts := Amounts(paid);
      var n := |amounts|;
      var mean := RoundedMean(amounts);
      var amountVar := Fraction(0, 1);
      if n > 1 {
        var diffsSum := Sum(amounts, SquaredFrom(1, mean));
        amountVar := Fraction(diffsSum, n);
      }
      var interval: Option<Fraction> := None;
      if n > 1 {
        var totalDurationMs := paid[n - 1].at - paid[0].at;
        interval := Some(Fraction(totalDurationMs, DAY_MS * (n - 1)));
      }
      habits := habits[(accountId, billerId.value) := Habit(mean, amountVar, interval, paid[n - 1].at)];
    }
  }
}
