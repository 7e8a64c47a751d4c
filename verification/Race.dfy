/**
 * The spending cap when payments interleave. initiatePayment and resumeIntent are split at their
 * awaits: the policy check, the row commit, and the provider's answer are separate steps, and other
 * payments of the same credential run in between. One operation at a time works on an intent. A key already in
 * the table is answered by replay, and a row whose key has come in since its check is rolled back.
 */
module Race {
  import opened Basics
  import opened Policy
  import opened Spine

  datatype Phase =
    | Decided(verdict: Verdict)   // initiatePayment has its verdict, the row is not written yet
    | Calling                     // row ALLOWED, the provider has not answered
    | Held                        // row ESCALATED, waiting for the trusted contact
    | Resuming                    // row ESCALATED, the recheck passed, the provider has not answered
    | Awaiting                    // row ALLOWED, the provider answered "pending"
    | Over                        // EXECUTED, FAILED, VOIDED or DENIED

  /** A payment on its way: its row, what it waits for, and the month of the clock at its last policy check. */
  datatype Attempt = Attempt(row: Intent, phase: Phase, checkedIn: int)

  datatype State = State(now: Instant, credentials: map<string, Credential>, attempts: seq<Attempt>)

  datatype Move =
    | Check(input: Input, hours: Hours)
    | CommitRow(k: nat)
    | RollBack(k: nat)            // the row transaction failed for another reason: nothing of the payment is left
    | Recheck(k: nat, hours: Hours)
    | Answered(k: nat, reply: Reply)
    | RequeryAnswered(k: nat, reply: Reply)
    | Declined(k: nat)
    | RevokeCredential(credentialId: string)
    | Tick(to: Instant)

  /** The aggregate the policy check reads; a row not yet written is PENDING here and adds nothing. */
  function ReadBy(c: string, month: int): Attempt -> int {
    (a: Attempt) => SpendSince(c, month)(a.row)
  }

  function Judge(s: State, row: Intent, hours: Hours): Verdict
    requires row.credentialId in s.credentials
  {
    Decide(RequestOf(row), s.credentials[row.credentialId],
           Context(Sum(s.attempts, ReadBy(row.credentialId, s.now.month)), hours)).verdict
  }

  function Put(s: State, k: nat, a: Attempt): State
    requires k < |s.attempts|
  {
    s.(attempts := s.attempts[k := a])
  }

  /** Its row is in the table: not before the commit, and not after a rollback. */
  predicate HasRow(a: Attempt) {
    a.row.status != Pending
  }

  predicate KeyTaken(s: State, key: string) {
    exists k :: 0 <= k < |s.attempts| && HasRow(s.attempts[k]) && s.attempts[k].row.key == key
  }

  /** Status and phase once the provider answered a call. */
  function AfterCall(a: Attempt, reply: Reply): Attempt {
    match reply
    case Settled(_, _) => a.(row := a.row.(status := Executed), phase := Over)
    case InFlight(_) => a.(row := a.row.(status := Allowed), phase := Awaiting)
    case Refused => a.(row := a.row.(status := Failed), phase := Over)
    case Threw => a.(row := a.row.(status := Failed), phase := Over)
  }

  function AfterRequery(a: Attempt, reply: Reply): Attempt {
    match reply
    case Settled(_, _) => a.(row := a.row.(status := Executed), phase := Over)
    case Refused => a.(row := a.row.(status := Failed), phase := Over)
    case InFlight(_) => a
    case Threw => a
  }

  function AfterCommit(a: Attempt, now: Instant): Attempt
    requires a.phase.Decided?
  {
    var row := a.row.(createdAt := now, status := InitialStatus(a.phase.verdict));
    a.(row := row, phase := match a.phase.verdict case Allow => Calling case Escalate => Held case Deny => Over)
  }

  /** A second row of a key, or an amount past the column, is rolled back like any other failing row transaction. */
  function CommitOrRollBack(s: State, a: Attempt): Attempt
    requires a.phase.Decided?
  {
    if KeyTaken(s, a.row.key) || !Storable(a.row.amount) then a.(phase := Over) else AfterCommit(a, s.now)
  }

  /** A recheck voids the intent on a denial, which a revoked credential always draws. */
  function AfterRecheck(s: State, a: Attempt, hours: Hours): Attempt {
    if a.row.credentialId in s.credentials && Judge(s, a.row, hours) != Deny
    then a.(phase := Resuming, checkedIn := s.now.month)
    else a.(row := a.row.(status := Voided), phase := Over)
  }

  function Advance(s: State, m: Move): State {
    match m
    case Check(input, hours) =>
      if KeyTaken(s, input.key) || input.credentialId !in s.credentials then s
      else
        var row := Intent(input.credentialId, input.channel, NonEmpty(input.billerId), NonEmpty(input.recipient),
                          input.amount, Pending, input.key, s.now);
        s.(attempts := s.attempts + [Attempt(row, Decided(Judge(s, row, hours)), s.now.month)])
    case CommitRow(k) =>
      if k < |s.attempts| && s.attempts[k].phase.Decided? then Put(s, k, CommitOrRollBack(s, s.attempts[k])) else s
    case RollBack(k) =>
      if k < |s.attempts| && s.attempts[k].phase.Decided? then Put(s, k, s.attempts[k].(phase := Over)) else s
    case Recheck(k, hours) =>
      if k < |s.attempts| && s.attempts[k].phase == Held then Put(s, k, AfterRecheck(s, s.attempts[k], hours)) else s
    case Answered(k, reply) =>
      if k < |s.attempts| && (s.attempts[k].phase == Calling || s.attempts[k].phase == Resuming)
      then Put(s, k, AfterCall(s.attempts[k], reply)) else s
    case RequeryAnswered(k, reply) =>
      if k < |s.attempts| && s.attempts[k].phase == Awaiting then Put(s, k, AfterRequery(s.attempts[k], reply)) else s
    case Declined(k) =>
      if k < |s.attempts| && s.attempts[k].phase == Held
      then Put(s, k, s.attempts[k].(row := s.attempts[k].row.(status := Voided), phase := Over)) else s
    case RevokeCredential(c) =>
      if c in s.credentials then s.(credentials := s.credentials[c := s.credentials[c].(revoked := true)]) else s
    case Tick(to) => if s.now.NotAfter(to) then s.(now := to) else s
  }

  function Interleave(s: State, ms: seq<Move>): State {
    if ms == [] then s else Advance(Interleave(s, ms[..|ms| - 1]), ms[|ms| - 1])
  }

  /** A key that has a row is answered by replay, and an unknown credential is refused: neither makes a payment. */
  lemma ReplayIsNoAttempt(s: State, input: Input, hours: Hours, k: nat)
    requires input.credentialId !in s.credentials
      || (k < |s.attempts| && s.attempts[k].row.status != Pending && s.attempts[k].row.key == input.key)
    ensures Advance(s, Check(input, hours)) == s
  {
    if input.credentialId in s.credentials {
      assert HasRow(s.attempts[k]);
    }
  }

  /** A commit dates the row by the clock of that moment; where key or amount do not fit, the payment is over. */
  lemma CommitDatesTheRow(s: State, k: nat)
    requires k < |s.attempts| && s.attempts[k].phase.Decided?
    ensures var a, b := s.attempts[k], Advance(s, CommitRow(k)).attempts[k];
      if -0x8000_0000 <= a.row.amount <= 0x7FFF_FFFF
         && forall j :: 0 <= j < |s.attempts| && s.attempts[j].row.key == a.row.key ==> !HasRow(s.attempts[j])
      then
        && b.row == a.row.(createdAt := s.now, status := b.row.status)
        && b.row.status == (match a.phase.verdict case Allow => Allowed case Escalate => Escalated case Deny => Denied)
        && b.phase == (match a.phase.verdict case Allow => Calling case Escalate => Held case Deny => Over)
      else b.row == a.row && b.phase == Over
  {
    var key := s.attempts[k].row.key;
    if j :| 0 <= j < |s.attempts| && s.attempts[j].row.status != Pending && s.attempts[j].row.key == key {
      assert HasRow(s.attempts[j]);
    }
  }

  lemma OverStaysOver(s: State, k: nat, m: Move)
    requires k < |s.attempts| && s.attempts[k].phase == Over
    ensures var v := Advance(s, m); k < |v.attempts| && v.attempts[k] == s.attempts[k]
  {
  }

  /** A payment whose row was rolled back never has a row, and never asks for money again. */
  lemma {:induction false} RolledBackIsGone(s: State, k: nat, ms: seq<Move>)
    requires k < |s.attempts| && s.attempts[k].phase.Decided? && !HasRow(s.attempts[k])
    ensures var v := Interleave(Advance(s, RollBack(k)), ms);
      k < |v.attempts| && v.attempts[k] == Attempt(s.attempts[k].row, Over, s.attempts[k].checkedIn)
  {
    if ms == [] {
    } else {
      RolledBackIsGone(s, k, ms[..|ms| - 1]);
      OverStaysOver(Interleave(Advance(s, RollBack(k)), ms[..|ms| - 1]), k, ms[|ms| - 1]);
    }
  }

  // ---- what is at stake -----------------------------------------------------------------------------------

  /** It passed its check, its row can be written, and no final answer is in: the money may still move. */
  predicate Unsettled(a: Attempt) {
    || (a.phase == Decided(Allow) && Storable(a.row.amount))
    || a.phase == Calling || a.phase == Resuming || a.phase == Awaiting
  }

  /** Checked while the clock was in the month, and created in it (or not created yet). */
  predicate Within(a: Attempt, c: string, month: int) {
    a.row.credentialId == c && a.checkedIn == month && (a.phase.Decided? || a.row.createdAt.month == month)
  }

  predicate Exposed(a: Attempt) {
    Unsettled(a) || a.row.status == Executed
  }

  function Exposure(c: string, month: int): Attempt -> int {
    (a: Attempt) => if Within(a, c, month) && Exposed(a) then a.row.amount else 0
  }

  function Outstanding(c: string, month: int): Attempt -> int {
    (a: Attempt) => if Within(a, c, month) && Unsettled(a) then 1 else 0
  }

  /** EXECUTED total plus unsettled total. */
  function TotalExposure(s: State, c: string, month: int): int {
    Sum(s.attempts, Exposure(c, month))
  }

  function InFlightCount(s: State, c: string, month: int): int {
    Sum(s.attempts, Outstanding(c, month))
  }

  /** In every state of the run at most n payments of the credential and month are unsettled. */
  predicate AtMostInFlight(s: State, ms: seq<Move>, c: string, month: int, n: int) {
    InFlightCount(Interleave(s, ms), c, month) <= n
    && (ms == [] || AtMostInFlight(s, ms[..|ms| - 1], c, month, n))
  }

  /** The credential has a monthly cap, and no payment is above largest: by the cap, by a rule, or by the column. */
  predicate Capped(s: State, c: string, cap: int, largest: int) {
    && c in s.credentials
    && SpendCapMonthly(cap) in s.credentials[c].rules
    && (largest == cap || largest == MAX_AMOUNT || SpendCapPerTx(largest) in s.credentials[c].rules)
  }

  /** Whatever is exposed passed its checks, a row fits its column, and says EXECUTED only when its payment is over. */
  ghost predicate Sound(s: State, c: string, largest: int) {
    forall k :: 0 <= k < |s.attempts| ==> SoundAttempt(s.attempts[k], c, largest)
  }

  /** Whatever is between check and commit has no row, whatever is waited for has one. */
  predicate Placed(a: Attempt) {
    (a.phase.Decided? ==> !HasRow(a)) && (!HasRow(a) ==> a.phase.Decided? || a.phase == Over)
  }

  predicate SoundAttempt(a: Attempt, c: string, largest: int) {
    && (a.row.status == Executed ==> a.phase == Over)
    && Placed(a) && (HasRow(a) ==> Storable(a.row.amount))
    && (Exposed(a) ==> a.row.amount > 0)
    && (Exposed(a) && a.row.credentialId == c ==> a.row.amount <= largest)
  }

  /** What was already paid never counts against the spend. */
  lemma ReadIsNatural(s: State, c: string, largest: int, month: int)
    requires Sound(s, c, largest)
    ensures Sum(s.attempts, ReadBy(c, month)) >= 0
  {
    forall k | 0 <= k < |s.attempts| ensures ReadBy(c, month)(s.attempts[k]) >= 0 {
      assert SoundAttempt(s.attempts[k], c, largest);
      assert ReadBy(c, month)(s.attempts[k]) == SpendSince(c, month)(s.attempts[k].row);
    }
    SumNonNegative(s.attempts, ReadBy(c, month));
  }

  lemma JudgePasses(s: State, row: Intent, hours: Hours, c: string, cap: int, largest: int)
    requires Sound(s, c, largest) && row.credentialId in s.credentials && Judge(s, row, hours) != Deny
    ensures row.amount > 0
    ensures Capped(s, c, cap, largest) && row.credentialId == c ==>
      && (Storable(row.amount) ==> row.amount <= largest)
      && Sum(s.attempts, ReadBy(c, s.now.month)) + row.amount <= cap
  {
    PassedIsSafe(RequestOf(row), s.credentials[row.credentialId],
                 Context(Sum(s.attempts, ReadBy(row.credentialId, s.now.month)), hours));
    ReadIsNatural(s, c, largest, s.now.month);
  }

  lemma CheckIsSound(s: State, input: Input, hours: Hours, c: string, cap: int, largest: int)
    requires Sound(s, c, largest) && Capped(s, c, cap, largest)
    ensures Sound(Advance(s, Check(input, hours)), c, largest)
  {
    if Advance(s, Check(input, hours)) != s {
      var row := Advance(s, Check(input, hours)).attempts[|s.attempts|].row;
      if Judge(s, row, hours) != Deny { JudgePasses(s, row, hours, c, cap, largest); }
    }
  }

  lemma RecheckIsSound(s: State, k: nat, hours: Hours, c: string, cap: int, largest: int)
    requires Sound(s, c, largest) && Capped(s, c, cap, largest)
    ensures Sound(Advance(s, Recheck(k, hours)), c, largest)
  {
    if k < |s.attempts| && s.attempts[k].phase == Held && s.attempts[k].row.credentialId in s.credentials {
      if Judge(s, s.attempts[k].row, hours) != Deny { JudgePasses(s, s.attempts[k].row, hours, c, cap, largest); }
    }
  }

  lemma PutIsSound(s: State, m: Move, c: string, cap: int, largest: int)
    requires Sound(s, c, largest) && Capped(s, c, cap, largest)
    requires m.CommitRow? || m.RollBack? || m.Answered? || m.RequeryAnswered? || m.Declined?
    ensures Sound(Advance(s, m), c, largest) && Capped(Advance(s, m), c, cap, largest)
  {
  }

  lemma StepIsSound(s: State, m: Move, c: string, cap: int, largest: int)
    requires Sound(s, c, largest) && Capped(s, c, cap, largest)
    ensures Sound(Advance(s, m), c, largest) && Capped(Advance(s, m), c, cap, largest)
  {
    match m
    case Check(input, hours) => CheckIsSound(s, input, hours, c, cap, largest);
    case Recheck(k, hours) => RecheckIsSound(s, k, hours, c, cap, largest);
    case RevokeCredential(credentialId) =>
    case Tick(to) =>
    case _ => PutIsSound(s, m, c, cap, largest);
  }

  // ---- the bound --------------------------------------------------------------------------------------------

  function Paid(c: string, month: int): Attempt -> int {
    (a: Attempt) => if Within(a, c, month) && a.row.status == Executed then a.row.amount else 0
  }

  function OpenAmount(c: string, month: int): Attempt -> int {
    (a: Attempt) => if Within(a, c, month) && Unsettled(a) then a.row.amount else 0
  }

  lemma {:induction false} ExposureSplits(xs: seq<Attempt>, c: string, month: int, largest: int)
    requires forall k :: 0 <= k < |xs| ==> SoundAttempt(xs[k], c, largest)
    ensures Sum(xs, Exposure(c, month)) == Sum(xs, Paid(c, month)) + Sum(xs, OpenAmount(c, month))
    ensures Sum(xs, OpenAmount(c, month)) <= largest * Sum(xs, Outstanding(c, month))
    ensures Sum(xs, Outstanding(c, month)) >= 0
  {
    if xs == [] {
    } else {
      var n := |xs| - 1;
      ExposureSplits(xs[..n], c, month, largest);
      var before, now := Sum(xs[..n], Outstanding(c, month)), Outstanding(c, month)(xs[n]);
      assert OpenAmount(c, month)(xs[n]) <= largest * now;
      assert largest * (before + now) == largest * before + largest * now;
    }
  }

  /** The spend a check reads covers everything already paid of the current month. */
  lemma ReadCoversPaid(s: State, c: string, largest: int)
    requires Sound(s, c, largest)
    ensures Sum(s.attempts, Paid(c, s.now.month)) <= Sum(s.attempts, ReadBy(c, s.now.month))
  {
    forall k | 0 <= k < |s.attempts|
      ensures Paid(c, s.now.month)(s.attempts[k]) <= ReadBy(c, s.now.month)(s.attempts[k])
    {
      var a := s.attempts[k];
      assert SoundAttempt(a, c, largest);
      assert ReadBy(c, s.now.month)(a) == SpendSince(c, s.now.month)(a.row);
    }
    SumAtMost(s.attempts, Paid(c, s.now.month), ReadBy(c, s.now.month));
  }

  lemma Product(largest: int, others: int, n: int)
    requires 0 <= others <= n && (others > 0 ==> largest > 0) && largest >= 0
    ensures largest * others <= largest * n
  {
  }

  /** A payment that just passed its check, on top of at most n - 1 others in flight. */
  lemma PassedWithinBound(s: State, c: string, cap: int, largest: int, amount: int, others: int, n: int)
    requires Sound(s, c, largest)
    requires Sum(s.attempts, ReadBy(c, s.now.month)) + amount <= cap && 0 < amount <= largest
    requires InFlightCount(s, c, s.now.month) == others && others + 1 <= n
    ensures TotalExposure(s, c, s.now.month) + amount <= cap + (n - 1) * largest
  {
    var month := s.now.month;
    ExposureSplits(s.attempts, c, month, largest);
    ReadCoversPaid(s, c, largest);
    Product(largest, others, n - 1);
  }

  /** A move that changes one attempt without letting a payment pass: nothing new is exposed. */
  lemma PutExposesNothing(s: State, k: nat, a: Attempt, c: string, month: int)
    requires k < |s.attempts|
    requires Exposure(c, month)(a) <= Exposure(c, month)(s.attempts[k])
    ensures TotalExposure(Put(s, k, a), c, month) <= TotalExposure(s, c, month)
  {
    SumUpdate(s.attempts, k, a, Exposure(c, month));
  }

  lemma CheckWithinBound(s: State, input: Input, hours: Hours, c: string, month: int, cap: int, largest: int, n: int)
    requires Sound(s, c, largest) && Capped(s, c, cap, largest)
    requires InFlightCount(Advance(s, Check(input, hours)), c, month) <= n
    ensures var v := Advance(s, Check(input, hours));
      TotalExposure(v, c, month) <= TotalExposure(s, c, month) || TotalExposure(v, c, month) <= cap + (n - 1) * largest
  {
    var v := Advance(s, Check(input, hours));
    if v != s {
      var a := v.attempts[|s.attempts|];
      SumSnoc(s.attempts, a, Exposure(c, month));
      SumSnoc(s.attempts, a, Outstanding(c, month));
      if Within(a, c, month) && Unsettled(a) {
        JudgePasses(s, a.row, hours, c, cap, largest);
        PassedWithinBound(s, c, cap, largest, a.row.amount, InFlightCount(s, c, month), n);
      }
    }
  }

  lemma RecheckWithinBound(s: State, k: nat, hours: Hours, c: string, month: int, cap: int, largest: int, n: int)
    requires Sound(s, c, largest) && Capped(s, c, cap, largest)
    requires k < |s.attempts| && s.attempts[k].phase == Held
    requires InFlightCount(Advance(s, Recheck(k, hours)), c, month) <= n
    ensures var v := Advance(s, Recheck(k, hours));
      TotalExposure(v, c, month) <= TotalExposure(s, c, month) || TotalExposure(v, c, month) <= cap + (n - 1) * largest
  {
    var v := Advance(s, Recheck(k, hours));
    var before, a := s.attempts[k], v.attempts[k];
    assert SoundAttempt(before, c, largest);
    SumUpdate(s.attempts, k, a, Exposure(c, month));
    SumUpdate(s.attempts, k, a, Outstanding(c, month));
    if Within(a, c, month) && Unsettled(a) {
      JudgePasses(s, before.row, hours, c, cap, largest);
      PassedWithinBound(s, c, cap, largest, a.row.amount, InFlightCount(s, c, month), n);
    }
  }

  /** Only a passed check raises the exposure, and then within the bound. */
  lemma StepWithinBound(s: State, m: Move, c: string, month: int, cap: int, largest: int, n: int)
    requires Sound(s, c, largest) && Capped(s, c, cap, largest)
    requires InFlightCount(Advance(s, m), c, month) <= n
    ensures var v := Advance(s, m);
      TotalExposure(v, c, month) <= TotalExposure(s, c, month) || TotalExposure(v, c, month) <= cap + (n - 1) * largest
  {
    match m
    case Check(input, hours) => CheckWithinBound(s, input, hours, c, month, cap, largest, n);
    case Recheck(k, hours) =>
      if k < |s.attempts| && s.attempts[k].phase == Held { RecheckWithinBound(s, k, hours, c, month, cap, largest, n); }
    case CommitRow(k) => QuietMove(s, m, k, c, month, largest);
    case RollBack(k) => QuietMove(s, m, k, c, month, largest);
    case Answered(k, reply) => QuietMove(s, m, k, c, month, largest);
    case RequeryAnswered(k, reply) => QuietMove(s, m, k, c, month, largest);
    case Declined(k) => QuietMove(s, m, k, c, month, largest);
    case RevokeCredential(credentialId) =>
    case Tick(to) =>
  }

  lemma QuietMove(s: State, m: Move, k: nat, c: string, month: int, largest: int)
    requires Sound(s, c, largest)
    requires m.CommitRow? || m.RollBack? || m.Answered? || m.RequeryAnswered? || m.Declined?
    requires m.k == k
    ensures TotalExposure(Advance(s, m), c, month) <= TotalExposure(s, c, month)
  {
    var v := Advance(s, m);
    if v != s {
      assert SoundAttempt(s.attempts[k], c, largest);
      PutExposesNothing(s, k, v.attempts[k], c, month);
    }
  }

  /**
   * The race the project accepts, bounded: if at most n payments of a credential's month are ever unsettled at
   * once, then paid plus unsettled stays within the cap plus n - 1 payments of the largest size, in every state
   * of every interleaving.
   */
  lemma {:induction false} OvershootIsBounded(s: State, ms: seq<Move>, c: string, month: int,
                                              cap: int, largest: int, n: int)
    requires s.attempts == [] && Capped(s, c, cap, largest)
    requires AtMostInFlight(s, ms, c, month, n)
    ensures Sound(Interleave(s, ms), c, largest) && Capped(Interleave(s, ms), c, cap, largest)
    ensures TotalExposure(Interleave(s, ms), c, month) <= Max(0, cap + (n - 1) * largest)
  {
    if ms == [] {
    } else {
      var past := ms[..|ms| - 1];
      OvershootIsBounded(s, past, c, month, cap, largest, n);
      StepIsSound(Interleave(s, past), ms[|ms| - 1], c, cap, largest);
      StepWithinBound(Interleave(s, past), ms[|ms| - 1], c, month, cap, largest, n);
    }
  }

  /** With a per-payment cap as well, the largest payment is the smaller of the two caps, and fits the column. */
  lemma OvershootUnderBothCaps(s: State, ms: seq<Move>, c: string, month: int, cap: int, perTx: int, n: int)
    requires s.attempts == [] && c in s.credentials
    requires SpendCapMonthly(cap) in s.credentials[c].rules && SpendCapPerTx(perTx) in s.credentials[c].rules
    requires AtMostInFlight(s, ms, c, month, n)
    ensures TotalExposure(Interleave(s, ms), c, month) <= Max(0, cap + (n - 1) * Min(MAX_AMOUNT, Min(perTx, cap)))
  {
    OvershootIsBounded(s, ms, c, month, cap, Min(MAX_AMOUNT, Min(perTx, cap)), n);
  }

  /** Without one, each of the n payments can be as large as the cap, as far as the column holds it. */
  lemma OvershootUnderMonthlyCap(s: State, ms: seq<Move>, c: string, month: int, cap: int, n: int)
    requires s.attempts == [] && c in s.credentials && SpendCapMonthly(cap) in s.credentials[c].rules
    requires AtMostInFlight(s, ms, c, month, n)
    ensures TotalExposure(Interleave(s, ms), c, month) <= Max(0, n * cap)
    ensures TotalExposure(Interleave(s, ms), c, month) <= Max(0, cap + (n - 1) * MAX_AMOUNT)
  {
    OvershootIsBounded(s, ms, c, month, cap, cap, n);
    OvershootIsBounded(s, ms, c, month, cap, MAX_AMOUNT, n);
    assert cap + (n - 1) * cap == n * cap;
  }

  /** One payment at a time keeps the cap exactly. */
  lemma OneAtATimeIsExact(s: State, ms: seq<Move>, c: string, month: int, cap: int)
    requires s.attempts == [] && c in s.credentials && SpendCapMonthly(cap) in s.credentials[c].rules && cap >= 0
    requires AtMostInFlight(s, ms, c, month, 1)
    ensures TotalExposure(Interleave(s, ms), c, month) <= cap
  {
    OvershootIsBounded(s, ms, c, month, cap, cap, 1);
  }

  // ---- one row for each key -----------------------------------------------------------------------------------

  ghost predicate UniqueKeys(s: State) {
    forall i, j :: 0 <= i < j < |s.attempts| && HasRow(s.attempts[i]) && HasRow(s.attempts[j]) ==>
      s.attempts[i].row.key != s.attempts[j].row.key
  }

  ghost predicate AllPlaced(s: State) {
    forall k :: 0 <= k < |s.attempts| ==> Placed(s.attempts[k])
  }

  lemma CommitKeepsKeysUnique(s: State, k: nat)
    requires UniqueKeys(s) && AllPlaced(s) && k < |s.attempts| && s.attempts[k].phase.Decided?
    ensures UniqueKeys(Advance(s, CommitRow(k))) && AllPlaced(Advance(s, CommitRow(k)))
  {
    var v := Advance(s, CommitRow(k));
    forall i, j | 0 <= i < j < |v.attempts| && HasRow(v.attempts[i]) && HasRow(v.attempts[j])
      ensures v.attempts[i].row.key != v.attempts[j].row.key
    {
      assert v.attempts[i].row.key == s.attempts[i].row.key && v.attempts[j].row.key == s.attempts[j].row.key;
      if i == k { assert HasRow(s.attempts[j]); }
      if j == k { assert HasRow(s.attempts[i]); }
    }
  }

  /** A move that leaves the attempt's key alone, and a row where there was one. */
  lemma PutKeepsKeysUnique(s: State, k: nat, a: Attempt)
    requires UniqueKeys(s) && AllPlaced(s) && k < |s.attempts| && Placed(a)
    requires a.row.key == s.attempts[k].row.key && HasRow(a) == HasRow(s.attempts[k])
    ensures UniqueKeys(Put(s, k, a)) && AllPlaced(Put(s, k, a))
  {
  }

  lemma CheckKeepsKeysUnique(s: State, input: Input, hours: Hours)
    requires UniqueKeys(s) && AllPlaced(s)
    ensures UniqueKeys(Advance(s, Check(input, hours))) && AllPlaced(Advance(s, Check(input, hours)))
  {
  }

  lemma MoveKeepsKeysUnique(s: State, m: Move)
    requires UniqueKeys(s) && AllPlaced(s)
    ensures UniqueKeys(Advance(s, m)) && AllPlaced(Advance(s, m))
  {
    match m
    case Check(input, hours) => CheckKeepsKeysUnique(s, input, hours);
    case CommitRow(k) => if k < |s.attempts| && s.attempts[k].phase.Decided? { CommitKeepsKeysUnique(s, k); }
    case RevokeCredential(_) =>
    case Tick(_) =>
    case _ => if Advance(s, m) != s { PutKeepsKeysUnique(s, m.k, Advance(s, m).attempts[m.k]); }
  }

  /** However replays overlap, a key has at most one row, so at most one payment is made for it. */
  lemma {:induction false} KeysAreUnique(s: State, ms: seq<Move>)
    requires s.attempts == []
    ensures UniqueKeys(Interleave(s, ms)) && AllPlaced(Interleave(s, ms))
  {
    if ms == [] {
    } else {
      KeysAreUnique(s, ms[..|ms| - 1]);
      MoveKeepsKeysUnique(Interleave(s, ms[..|ms| - 1]), ms[|ms| - 1]);
    }
  }

  // ---- payments checked in one month and created in the next --------------------------------------------------

  /** What is exposed of the intents created in the month, or not created yet but checked in it. */
  function CreatedExposure(c: string, month: int): Attempt -> int {
    (a: Attempt) =>
      if a.row.credentialId == c && Exposed(a)
        && (if a.phase.Decided? then a.checkedIn else a.row.createdAt.month) == month
      then a.row.amount else 0
  }

  /** Of these, what passed its last check in another month. */
  function Carried(c: string, month: int): Attempt -> int {
    (a: Attempt) =>
      if a.row.credentialId == c && Exposed(a)
        && !a.phase.Decided? && a.row.createdAt.month == month && a.checkedIn != month
      then a.row.amount else 0
  }

  lemma CreatedSplits(xs: seq<Attempt>, c: string, month: int, largest: int)
    requires forall k :: 0 <= k < |xs| ==> SoundAttempt(xs[k], c, largest)
    ensures Sum(xs, Carried(c, month)) >= 0
    ensures Sum(xs, CreatedExposure(c, month)) == Sum(xs, Exposure(c, month)) + Sum(xs, Carried(c, month))
  {
    SumNonNegative(xs, Carried(c, month));
    SumOfTwo(xs, CreatedExposure(c, month), Exposure(c, month), Carried(c, month));
  }

  /** Paid plus unsettled of any month stays within the bound plus what was checked against another month. */
  lemma MonthIsBounded(s: State, ms: seq<Move>, c: string, month: int, cap: int, largest: int, n: int)
    requires s.attempts == [] && Capped(s, c, cap, largest)
    requires AtMostInFlight(s, ms, c, month, n)
    ensures var xs := Interleave(s, ms).attempts;
      && Sum(xs, Carried(c, month)) >= 0
      && Sum(xs, CreatedExposure(c, month)) <= Max(0, cap + (n - 1) * largest) + Sum(xs, Carried(c, month))
  {
    OvershootIsBounded(s, ms, c, month, cap, largest, n);
    CreatedSplits(Interleave(s, ms).attempts, c, month, largest);
  }

  // ---- revocation between check and payment ----------------------------------------------------------------------

  /** Nothing of the credential is exposed that was not exposed in s. */
  ghost predicate NothingNew(s: State, v: State, c: string) {
    && c in v.credentials && v.credentials[c].revoked && |s.attempts| <= |v.attempts|
    && forall k :: 0 <= k < |v.attempts| && v.attempts[k].row.credentialId == c && Exposed(v.attempts[k]) ==>
         k < |s.attempts| && s.attempts[k].row.credentialId == c && Exposed(s.attempts[k])
  }

  lemma RevokedFailsCheck(s: State, row: Intent, hours: Hours)
    requires row.credentialId in s.credentials && s.credentials[row.credentialId].revoked
    ensures Judge(s, row, hours) == Deny
  {
    RevokedIsDenied(RequestOf(row), s.credentials[row.credentialId],
                    Context(Sum(s.attempts, ReadBy(row.credentialId, s.now.month)), hours));
  }

  lemma CheckExposesNothingNew(s: State, v: State, input: Input, hours: Hours, c: string)
    requires NothingNew(s, v, c)
    ensures NothingNew(s, Advance(v, Check(input, hours)), c)
  {
    var v' := Advance(v, Check(input, hours));
    if v' != v && input.credentialId == c {
      RevokedFailsCheck(v, v'.attempts[|v.attempts|].row, hours);
    }
  }

  lemma RecheckExposesNothingNew(s: State, v: State, k: nat, hours: Hours, c: string)
    requires NothingNew(s, v, c)
    ensures NothingNew(s, Advance(v, Recheck(k, hours)), c)
  {
    if k < |v.attempts| && v.attempts[k].row.credentialId == c {
      RevokedFailsCheck(v, v.attempts[k].row, hours);
    }
  }

  lemma PutExposesNothingNew(s: State, v: State, m: Move, c: string)
    requires NothingNew(s, v, c) && (m.CommitRow? || m.RollBack? || m.Answered? || m.RequeryAnswered? || m.Declined?)
    ensures NothingNew(s, Advance(v, m), c)
  {
  }

  lemma MoveExposesNothingNew(s: State, v: State, m: Move, c: string)
    requires NothingNew(s, v, c)
    ensures NothingNew(s, Advance(v, m), c)
  {
    match m
    case Check(input, hours) => CheckExposesNothingNew(s, v, input, hours, c);
    case Recheck(k, hours) => RecheckExposesNothingNew(s, v, k, hours, c);
    case RevokeCredential(_) =>
    case Tick(_) =>
    case _ => PutExposesNothingNew(s, v, m, c);
  }

  /** After a revocation only payments already past their check, or already paid, can be or become EXECUTED. */
  lemma {:induction false} RevocationStopsAllButChecked(s: State, c: string, ms: seq<Move>)
    requires c in s.credentials
    ensures NothingNew(s, Interleave(Advance(s, RevokeCredential(c)), ms), c)
  {
    if ms == [] {
    } else {
      var u := Advance(s, RevokeCredential(c));
      RevocationStopsAllButChecked(s, c, ms[..|ms| - 1]);
      MoveExposesNothingNew(s, Interleave(u, ms[..|ms| - 1]), ms[|ms| - 1], c);
    }
  }

  // ---- while the clock stays in one month, nothing is left out of the exposure ------------------------------

  function ExposureAnyMonth(c: string): Attempt -> int {
    (a: Attempt) => if a.row.credentialId == c && Exposed(a) then a.row.amount else 0
  }

  ghost predicate StaysIn(ms: seq<Move>, month: int) {
    forall m :: m in ms && m.Tick? ==> m.to.month == month
  }

  predicate AllIn(s: State, month: int) {
    && s.now.month == month
    && forall k :: 0 <= k < |s.attempts| ==>
         s.attempts[k].checkedIn == month && s.attempts[k].row.createdAt.month == month
  }

  lemma {:induction false} StayingIn(s: State, ms: seq<Move>, month: int)
    requires AllIn(s, month) && StaysIn(ms, month)
    ensures AllIn(Interleave(s, ms), month)
  {
    if ms == [] {
    } else {
      StayingIn(s, ms[..|ms| - 1], month);
      assert ms[|ms| - 1] in ms;
    }
  }

  lemma AllCounted(s: State, c: string, month: int)
    requires AllIn(s, month)
    ensures Sum(s.attempts, ExposureAnyMonth(c)) == TotalExposure(s, c, month)
  {
    SumAgree(s.attempts, ExposureAnyMonth(c), Exposure(c, month));
  }

  /** Within one month: everything the credential ever paid or still may pay is bounded. */
  lemma OneMonthIsBounded(s: State, ms: seq<Move>, c: string, cap: int, largest: int, n: int)
    requires s.attempts == [] && Capped(s, c, cap, largest)
    requires StaysIn(ms, s.now.month) && AtMostInFlight(s, ms, c, s.now.month, n)
    ensures Sum(Interleave(s, ms).attempts, ExposureAnyMonth(c)) <= Max(0, cap + (n - 1) * largest)
  {
    OvershootIsBounded(s, ms, c, s.now.month, cap, largest, n);
    StayingIn(s, ms, s.now.month);
    var v := Interleave(s, ms);
    AllCounted(v, c, s.now.month);
  }
}
