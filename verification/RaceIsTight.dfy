/** The bound of Race.dfy cannot be improved: for every number of payments in flight some run reaches it. */
module RaceIsTight {
  import opened Basics
  import opened Policy
  import opened Spine
  import opened Race
  import SessionKeys

  const C: string := "credential"

  const ANY_HOUR: Hours := (tz: string) => None

  /** The monthly cap, and a per-payment cap if there is one. */
  function RulesOf(cap: int, perTx: Option<int>): seq<Rule> {
    if perTx.Some? then [SpendCapMonthly(cap), SpendCapPerTx(perTx.value)] else [SpendCapMonthly(cap)]
  }

  function Largest(cap: int, perTx: Option<int>): int {
    Min(MAX_AMOUNT, if perTx.Some? then Min(perTx.value, cap) else cap)
  }

  function Start(now: Instant, cap: int, perTx: Option<int>): State {
    State(now, map[C := Credential("account", false, RulesOf(cap, perTx))], [])
  }

  /** Every payment has a key of its own, the number of its attempt. */
  function RowAt(now: Instant, i: nat, amount: int, status: Status): Intent {
    Intent(C, Voice, None, None, amount, status, SessionKeys.Decimal(i), now)
  }

  function Passing(now: Instant, i: nat, amount: int): Attempt {
    Attempt(RowAt(now, i, amount, Pending), Decided(Allow), now.month)
  }

  function Paying(now: Instant, i: nat, amount: int): Attempt {
    Attempt(RowAt(now, i, amount, Executed), Over, now.month)
  }

  /** Amounts xs are paid, amounts ys have passed their check and are not written yet. */
  function Attempts(now: Instant, xs: seq<int>, ys: seq<int>): seq<Attempt> {
    seq(|xs|, i requires 0 <= i < |xs| => Paying(now, i, xs[i]))
    + seq(|ys|, i requires 0 <= i < |ys| => Passing(now, |xs| + i, ys[i]))
  }

  function StateWith(s: State, xs: seq<int>, ys: seq<int>): State {
    s.(attempts := Attempts(s.now, xs, ys))
  }

  function Amount(): int -> int {
    (x: int) => x
  }

  predicate IsStart(s: State, cap: int, perTx: Option<int>) {
    s == Start(s.now, cap, perTx) && cap <= MAX_SAFE_INTEGER
  }

  lemma AppendPaid(now: Instant, xs: seq<int>, x: int)
    ensures Attempts(now, xs + [x], []) == Attempts(now, xs, []) + [Paying(now, |xs|, x)]
  {
  }

  lemma AppendPassing(now: Instant, xs: seq<int>, ys: seq<int>, y: int)
    ensures Attempts(now, xs, ys + [y]) == Attempts(now, xs, ys) + [Passing(now, |xs| + |ys|, y)]
  {
  }

  lemma AttemptCounts(now: Instant, i: nat, amount: int)
    ensures ReadBy(C, now.month)(Passing(now, i, amount)) == 0
    ensures Outstanding(C, now.month)(Passing(now, i, amount)) == if Storable(amount) then 1 else 0
    ensures Exposure(C, now.month)(Passing(now, i, amount)) == if Storable(amount) then amount else 0
    ensures ReadBy(C, now.month)(Paying(now, i, amount)) == Exposure(C, now.month)(Paying(now, i, amount)) == amount
    ensures Outstanding(C, now.month)(Paying(now, i, amount)) == 0
  {
    assert ReadBy(C, now.month)(Passing(now, i, amount)) == SpendSince(C, now.month)(Passing(now, i, amount).row);
    assert ReadBy(C, now.month)(Paying(now, i, amount)) == SpendSince(C, now.month)(Paying(now, i, amount).row);
  }

  ghost predicate AllStorable(ys: seq<int>) {
    forall j :: 0 <= j < |ys| ==> Storable(ys[j])
  }

  lemma PassingAdds(now: Instant, xs: seq<int>, ys: seq<int>, y: int, f: Attempt -> int)
    ensures Sum(Attempts(now, xs, ys + [y]), f) == Sum(Attempts(now, xs, ys), f) + f(Passing(now, |xs| + |ys|, y))
  {
    AppendPassing(now, xs, ys, y);
    SumSnoc(Attempts(now, xs, ys), Passing(now, |xs| + |ys|, y), f);
  }

  lemma PaidAdds(now: Instant, xs: seq<int>, x: int, f: Attempt -> int)
    ensures Sum(Attempts(now, xs + [x], []), f) == Sum(Attempts(now, xs, []), f) + f(Paying(now, |xs|, x))
  {
    AppendPaid(now, xs, x);
    SumSnoc(Attempts(now, xs, []), Paying(now, |xs|, x), f);
  }

  /** What the policy reads is what is paid, and what passed is in flight. */
  ghost predicate Counted(now: Instant, xs: seq<int>, ys: seq<int>) {
    && Sum(Attempts(now, xs, ys), ReadBy(C, now.month)) == Sum(xs, Amount())
    && Sum(Attempts(now, xs, ys), Outstanding(C, now.month)) == |ys|
    && Sum(Attempts(now, xs, ys), Exposure(C, now.month)) == Sum(xs, Amount()) + Sum(ys, Amount())
  }

  lemma PassingIsCounted(now: Instant, xs: seq<int>, ys: seq<int>, y: int)
    requires Counted(now, xs, ys) && Storable(y)
    ensures Counted(now, xs, ys + [y])
  {
    AttemptCounts(now, |xs| + |ys|, y);
    PassingAdds(now, xs, ys, y, ReadBy(C, now.month));
    PassingAdds(now, xs, ys, y, Outstanding(C, now.month));
    PassingAdds(now, xs, ys, y, Exposure(C, now.month));
    SumSnoc(ys, y, Amount());
  }

  lemma PaidIsCounted(now: Instant, xs: seq<int>, x: int)
    requires Counted(now, xs, [])
    ensures Counted(now, xs + [x], [])
  {
    AttemptCounts(now, |xs|, x);
    PaidAdds(now, xs, x, ReadBy(C, now.month));
    PaidAdds(now, xs, x, Outstanding(C, now.month));
    PaidAdds(now, xs, x, Exposure(C, now.month));
    SumSnoc(xs, x, Amount());
  }

  lemma {:induction false} ReadOf(now: Instant, xs: seq<int>, ys: seq<int>)
    requires AllStorable(ys)
    ensures Counted(now, xs, ys)
    decreases |xs| + |ys|
  {
    if xs == [] && ys == [] {
    } else if ys != [] {
      var zs, y := ys[..|ys| - 1], ys[|ys| - 1];
      assert ys == zs + [y];
      ReadOf(now, xs, zs);
      PassingIsCounted(now, xs, zs, y);
    } else {
      var zs, x := xs[..|xs| - 1], xs[|xs| - 1];
      assert xs == zs + [x];
      ReadOf(now, zs, []);
      PaidIsCounted(now, zs, x);
    }
  }

  lemma RulesFindNothing(cap: int, perTx: Option<int>, req: Policy.Request, ctx: Context)
    requires ctx.spent + req.amount <= cap && (perTx.Some? ==> req.amount <= perTx.value)
    ensures CheckAll(RulesOf(cap, perTx), req, ctx) == []
  {
    var rules := RulesOf(cap, perTx);
    assert CheckAll([], req, ctx) == [];
    if perTx.Some? {
      assert rules[1..] == [SpendCapPerTx(perTx.value)] && rules[1..][1..] == [];
      assert CheckAll(rules[1..], req, ctx) == [];
    } else {
      assert rules[1..] == [];
    }
  }

  /** The caps let a payment pass when they should. */
  lemma JudgeAllows(s: State, cap: int, perTx: Option<int>, xs: seq<int>, ys: seq<int>, i: nat, y: int)
    requires IsStart(s, cap, perTx) && 0 < y <= Largest(cap, perTx) && AllStorable(ys)
    requires 0 <= Sum(xs, Amount()) && Sum(xs, Amount()) + y <= cap
    ensures Judge(StateWith(s, xs, ys), RowAt(s.now, i, y, Pending), ANY_HOUR) == Allow
  {
    ReadOf(s.now, xs, ys);
    var cred := Credential("account", false, RulesOf(cap, perTx));
    var req := RequestOf(RowAt(s.now, i, y, Pending));
    var ctx := Context(Sum(xs, Amount()), ANY_HOUR);
    DecideSplits(req, cred, ctx);
    GuardVerdict(false, req, ctx);
    RulesFindNothing(cap, perTx, req, ctx);
  }

  function Request(i: nat, y: int): Input {
    Input(C, Voice, None, None, y, SessionKeys.Decimal(i))
  }

  ghost predicate Numbered(u: State) {
    forall j :: 0 <= j < |u.attempts| ==> u.attempts[j].row.key == SessionKeys.Decimal(j)
  }

  /** No other attempt carries the key of the i-th. */
  lemma KeyIsFree(u: State, i: nat)
    requires Numbered(u)
    requires i < |u.attempts| ==> !HasRow(u.attempts[i])
    ensures !KeyTaken(u, SessionKeys.Decimal(i))
  {
    forall j | 0 <= j < |u.attempts| && j != i ensures u.attempts[j].row.key != SessionKeys.Decimal(i) {
      SessionKeys.DecimalReads(i);
      SessionKeys.DecimalReads(j);
    }
  }

  lemma KeysAreNumbers(s: State, xs: seq<int>, ys: seq<int>)
    ensures Numbered(StateWith(s, xs, ys)) && |StateWith(s, xs, ys).attempts| == |xs| + |ys|
  {
  }

  lemma InterleaveSnoc(s: State, ms: seq<Move>, m: Move)
    ensures Interleave(s, ms + [m]) == Advance(Interleave(s, ms), m)
  {
    assert (ms + [m])[..|ms|] == ms;
  }

  lemma StillInFlight(s: State, ms: seq<Move>, m: Move, month: int, n: int)
    requires AtMostInFlight(s, ms, C, month, n) && InFlightCount(Interleave(s, ms + [m]), C, month) <= n
    ensures AtMostInFlight(s, ms + [m], C, month, n)
  {
    assert (ms + [m])[..|ms|] == ms;
  }

  /** The run has paid xs, has ys in flight, and never had more than n in flight. */
  ghost predicate Reached(s: State, ms: seq<Move>, xs: seq<int>, ys: seq<int>, n: int) {
    Interleave(s, ms) == StateWith(s, xs, ys) && AtMostInFlight(s, ms, C, s.now.month, n) && AllStorable(ys)
  }

  lemma AllowedIsAdded(u: State, i: nat, y: int)
    requires C in u.credentials && Numbered(u) && |u.attempts| == i
    requires Judge(u, RowAt(u.now, i, y, Pending), ANY_HOUR) == Allow
    ensures Advance(u, Check(Request(i, y), ANY_HOUR)) == u.(attempts := u.attempts + [Passing(u.now, i, y)])
  {
    KeyIsFree(u, i);
  }

  lemma CheckPasses(s: State, cap: int, perTx: Option<int>, xs: seq<int>, ys: seq<int>, y: int, u: State, i: nat)
    requires IsStart(s, cap, perTx) && 0 < y <= Largest(cap, perTx) && AllStorable(ys)
    requires 0 <= Sum(xs, Amount()) && Sum(xs, Amount()) + y <= cap
    requires u == StateWith(s, xs, ys) && i == |xs| + |ys|
    ensures Advance(u, Check(Request(i, y), ANY_HOUR)) == u.(attempts := u.attempts + [Passing(u.now, i, y)])
  {
    KeysAreNumbers(s, xs, ys);
    JudgeAllows(s, cap, perTx, xs, ys, i, y);
    AllowedIsAdded(u, i, y);
  }

  /** A move that adds a passing payment. */
  lemma PassingReaches(s: State, ms: seq<Move>, m: Move, xs: seq<int>, ys: seq<int>, y: int, n: int)
    requires Reached(s, ms, xs, ys, n) && |ys| < n && Storable(y)
    requires var u, i := StateWith(s, xs, ys), |xs| + |ys|;
      Advance(u, m) == u.(attempts := u.attempts + [Passing(u.now, i, y)])
    ensures Reached(s, ms + [m], xs, ys + [y], n)
  {
    InterleaveSnoc(s, ms, m);
    AppendPassing(s.now, xs, ys, y);
    ReadOf(s.now, xs, ys + [y]);
    StillInFlight(s, ms, m, s.now.month, n);
  }

  /** One more payment passes its check while others are in flight. */
  lemma CheckOne(s: State, cap: int, perTx: Option<int>, ms: seq<Move>, xs: seq<int>, ys: seq<int>, y: int, n: int)
    returns (ms': seq<Move>)
    requires IsStart(s, cap, perTx) && 0 < y <= Largest(cap, perTx)
    requires 0 <= Sum(xs, Amount()) && Sum(xs, Amount()) + y <= cap
    requires Reached(s, ms, xs, ys, n) && |ys| < n
    ensures Reached(s, ms', xs, ys + [y], n)
  {
    var m := Check(Request(|xs| + |ys|, y), ANY_HOUR);
    CheckPasses(s, cap, perTx, xs, ys, y, StateWith(s, xs, ys), |xs| + |ys|);
    PassingReaches(s, ms, m, xs, ys, y, n);
    ms' := ms + [m];
  }

  /** The first payment in flight is written and paid. */
  lemma SettleOne(s: State, ms: seq<Move>, xs: seq<int>, ys: seq<int>, n: int) returns (ms': seq<Move>)
    requires 0 < |ys| <= n && Reached(s, ms, xs, ys, n)
    ensures Reached(s, ms', xs + [ys[0]], ys[1..], n)
  {
    var k, y, u := |xs|, ys[0], StateWith(s, xs, ys);
    assert u.attempts[k] == Passing(s.now, k, y);
    KeysAreNumbers(s, xs, ys);
    var commit, pay := CommitRow(k), Answered(k, Settled("", None));
    ReadOf(s.now, xs, ys);
    CommitFirst(u, k, y);
    InterleaveSnoc(s, ms, commit);
    StillInFlight(s, ms, commit, s.now.month, n);
    PayFirst(Advance(u, commit), k, y);
    InterleaveSnoc(s, ms + [commit], pay);
    ms' := ms + [commit] + [pay];
    FirstIsPaid(s, xs, ys);
    ReadOf(s.now, xs + [y], ys[1..]);
    StillInFlight(s, ms + [commit], pay, s.now.month, n);
  }

  function CallingFor(now: Instant, i: nat, y: int): Attempt {
    Attempt(RowAt(now, i, y, Allowed), Calling, now.month)
  }

  lemma CommitFirst(u: State, k: nat, y: int)
    requires k < |u.attempts| && u.attempts[k] == Passing(u.now, k, y) && Storable(y)
    requires Numbered(u)
    ensures Advance(u, CommitRow(k)) == Put(u, k, CallingFor(u.now, k, y))
    ensures InFlightCount(Put(u, k, CallingFor(u.now, k, y)), C, u.now.month) == InFlightCount(u, C, u.now.month)
  {
    KeyIsFree(u, k);
    SumUpdate(u.attempts, k, CallingFor(u.now, k, y), Outstanding(C, u.now.month));
  }

  lemma PayFirst(u: State, k: nat, y: int)
    requires k < |u.attempts| && u.attempts[k] == CallingFor(u.now, k, y)
    ensures Advance(u, Answered(k, Settled("", None))) == Put(u, k, Paying(u.now, k, y))
  {
  }

  lemma FirstIsPaid(s: State, xs: seq<int>, ys: seq<int>)
    requires ys != []
    ensures var u, k := StateWith(s, xs, ys), |xs|;
      Put(Put(u, k, CallingFor(s.now, k, ys[0])), k, Paying(s.now, k, ys[0])) == StateWith(s, xs + [ys[0]], ys[1..])
  {
    assert Attempts(s.now, xs, ys)[|xs| := Paying(s.now, |xs|, ys[0])] == Attempts(s.now, xs + [ys[0]], ys[1..]);
  }

  lemma {:induction false} SpendInTurn(s: State, cap: int, perTx: Option<int>, total: int, n: int)
    returns (ms: seq<Move>, xs: seq<int>)
    requires IsStart(s, cap, perTx) && 0 < Largest(cap, perTx) && 0 <= total <= cap && n >= 1
    ensures Reached(s, ms, xs, [], n) && Sum(xs, Amount()) == total
    decreases total
  {
    if total == 0 {
      ms, xs := [], [];
    } else {
      var last := Min(total, Largest(cap, perTx));
      ms, xs := SpendInTurn(s, cap, perTx, total - last, n);
      ms := CheckOne(s, cap, perTx, ms, xs, [], last, n);
      assert [] + [last] == [last] && [last][1..] == [];
      ms := SettleOne(s, ms, xs, [last], n);
      SumSnoc(xs, last, Amount());
      xs := xs + [last];
    }
  }

  function Copies(y: int, j: nat): seq<int> {
    seq(j, _ => y)
  }

  lemma {:induction false} CheckMany(s: State, cap: int, perTx: Option<int>, ms: seq<Move>, xs: seq<int>, y: int,
                                     j: nat, n: int) returns (ms': seq<Move>)
    requires IsStart(s, cap, perTx) && 0 < y <= Largest(cap, perTx) && j <= n
    requires 0 <= Sum(xs, Amount()) && Sum(xs, Amount()) + y <= cap
    requires Reached(s, ms, xs, [], n)
    ensures Reached(s, ms', xs, Copies(y, j), n)
  {
    if j == 0 {
      ms' := ms;
      assert Copies(y, j) == [];
    } else {
      ms' := CheckMany(s, cap, perTx, ms, xs, y, j - 1, n);
      ms' := CheckOne(s, cap, perTx, ms', xs, Copies(y, j - 1), y, n);
      assert Copies(y, j) == Copies(y, j - 1) + [y];
    }
  }

  lemma {:induction false} SettleAll(s: State, ms: seq<Move>, xs: seq<int>, ys: seq<int>, n: int)
    returns (ms': seq<Move>)
    requires |ys| <= n && Reached(s, ms, xs, ys, n)
    ensures Reached(s, ms', xs + ys, [], n)
    decreases |ys|
  {
    if ys == [] {
      ms' := ms;
      assert xs + ys == xs;
    } else {
      ms' := SettleOne(s, ms, xs, ys, n);
      ms' := SettleAll(s, ms', xs + [ys[0]], ys[1..], n);
      HeadAndTail(xs, ys);
    }
  }

  lemma HeadAndTail(xs: seq<int>, ys: seq<int>)
    requires ys != []
    ensures (xs + [ys[0]]) + ys[1..] == xs + ys
  {
  }

  lemma OneMoreTime(y: int, j: int)
    ensures (j - 1) * y + y == j * y
  {
  }

  lemma {:induction false} SumOfCopies(y: int, j: nat)
    ensures Sum(Copies(y, j), Amount()) == j * y
  {
    if j == 0 {
    } else {
      SumOfCopies(y, j - 1);
      assert Copies(y, j) == Copies(y, j - 1) + [y];
      SumSnoc(Copies(y, j - 1), y, Amount());
      OneMoreTime(y, j);
    }
  }

  lemma ReachedTotals(s: State, ms: seq<Move>, xs: seq<int>, n: int)
    requires Reached(s, ms, xs, [], n)
    ensures InFlightCount(Interleave(s, ms), C, s.now.month) == 0
    ensures TotalExposure(Interleave(s, ms), C, s.now.month) == Sum(xs, Amount())
  {
    ReadOf(s.now, xs, []);
  }

  lemma KeysDiffer(s: State, ms: seq<Move>, xs: seq<int>, n: int)
    requires Reached(s, ms, xs, [], n)
    ensures var v := Interleave(s, ms);
      forall i, j :: 0 <= i < j < |v.attempts| ==> v.attempts[i].row.key != v.attempts[j].row.key
  {
    var v := Interleave(s, ms);
    KeysAreNumbers(s, xs, []);
    forall i, j | 0 <= i < j < |v.attempts| ensures v.attempts[i].row.key != v.attempts[j].row.key {
      SessionKeys.DecimalReads(i);
      SessionKeys.DecimalReads(j);
    }
  }

  /** Pay in turn up to the cap less one payment, let n payments pass their checks together, and settle them all. */
  lemma OvershootRun(s: State, cap: int, perTx: Option<int>, n: int) returns (ms: seq<Move>, xs: seq<int>)
    requires IsStart(s, cap, perTx) && 0 < Largest(cap, perTx) && n >= 1
    ensures Reached(s, ms, xs, [], n) && Sum(xs, Amount()) == cap - Largest(cap, perTx) + n * Largest(cap, perTx)
  {
    var y := Largest(cap, perTx);
    ms, xs := SpendInTurn(s, cap, perTx, cap - y, n);
    ms := CheckMany(s, cap, perTx, ms, xs, y, n, n);
    ms := SettleAll(s, ms, xs, Copies(y, n), n);
    SumConcat(xs, Copies(y, n), Amount());
    SumOfCopies(y, n);
    xs := xs + Copies(y, n);
  }

  /**
   * For any monthly cap, with or without a per-payment cap, and any number n of payments in flight, some
   * interleaving with at most n in flight executes exactly the cap plus n - 1 payments of the largest size the caps
   * and the column admit, every payment under a key of its own.
   */
  lemma BoundIsReached(now: Instant, cap: int, perTx: Option<int>, n: int) returns (ms: seq<Move>)
    requires 0 < cap <= MAX_SAFE_INTEGER && (perTx.Some? ==> perTx.value > 0) && n >= 1
    ensures var s := Start(now, cap, perTx);
      && Capped(s, C, cap, Largest(cap, perTx))
      && AtMostInFlight(s, ms, C, now.month, n)
      && InFlightCount(Interleave(s, ms), C, now.month) == 0
      && TotalExposure(Interleave(s, ms), C, now.month) == cap + (n - 1) * Largest(cap, perTx)
      && forall i, j :: 0 <= i < j < |Interleave(s, ms).attempts| ==>
           Interleave(s, ms).attempts[i].row.key != Interleave(s, ms).attempts[j].row.key
  {
    var s, y := Start(now, cap, perTx), Largest(cap, perTx);
    var xs;
    ms, xs := OvershootRun(s, cap, perTx, n);
    ReachedTotals(s, ms, xs, n);
    KeysDiffer(s, ms, xs, n);
    assert cap - y + n * y == cap + (n - 1) * y;
  }
}
