/** Money over whole runs: the audit log adds up to the executed intents, and the monthly cap holds. */
module SpineSums {
  import opened Basics
  import opened Policy
  import opened Spine
  import opened SpineInvariant
  import opened SpineSteps

  // ---- the log equals the state -------------------------------------------------------------------------

  function LoggedFor(account: string): AuditEvent -> int {
    (e: AuditEvent) => if e.accountId == account && e.entry.PaymentExecuted? then e.entry.amount else 0
  }

  function Accounts(w: World): map<string, string> {
    map c | c in w.credentials :: w.credentials[c].accountId
  }

  function ExecutedFor(accounts: map<string, string>, account: string): Intent -> int {
    (r: Intent) =>
      if r.credentialId in accounts && accounts[r.credentialId] == account && r.status == Executed then r.amount else 0
  }

  /** Per account, the payment.executed lines add up to the executed intents. */
  predicate Balanced(w: World, account: string) {
    Sum(w.audit, LoggedFor(account)) == Sum(w.intents, ExecutedFor(Accounts(w), account))
  }

  lemma BalancedPasses(w: World, v: World, account: string, e: AuditEvent, id: nat, row: Intent)
    requires Balanced(w, account) && Accounts(v) == Accounts(w)
    requires v.audit == w.audit + [e] && Tells(v, e, id, row)
    requires Sum(v.intents, ExecutedFor(Accounts(w), account))
          == Sum(w.intents, ExecutedFor(Accounts(w), account)) + ExecutedFor(Accounts(w), account)(row)
    ensures Balanced(v, account)
  {
    SumSnoc(w.audit, e, LoggedFor(account));
  }

  lemma OpenBalances(w: World, v: World, e: Event, account: string)
    requires Balanced(w, account) && Accounts(v) == Accounts(w) && Ages(w, v) && Opens(w, v, e)
    ensures Balanced(v, account)
  {
    var row := v.intents[|w.intents|];
    SumSnoc(w.intents, row, ExecutedFor(Accounts(w), account));
    BalancedPasses(w, v, account, v.audit[|w.audit|], |w.intents|, row);
  }

  lemma MoveBalances(w: World, v: World, e: Event, id: nat, account: string)
    requires Balanced(w, account) && Accounts(v) == Accounts(w) && Ages(w, v) && Moves(w, v, e, id)
    ensures Balanced(v, account)
  {
    SumUpdate(w.intents, id, v.intents[id], ExecutedFor(Accounts(w), account));
    BalancedPasses(w, v, account, v.audit[|w.audit|], id, v.intents[id]);
  }

  lemma QuietBalances(w: World, v: World, account: string)
    requires Balanced(w, account) && Accounts(v) == Accounts(w) && Quiet(w, v)
    ensures Balanced(v, account)
  {
    if x :| v.audit == w.audit + [x] && !x.entry.PaymentExecuted? {
      SumSnoc(w.audit, x, LoggedFor(account));
    }
  }

  lemma SameAccounts(w: World, v: World)
    requires Ages(w, v)
    ensures Accounts(v) == Accounts(w)
  {
  }

  lemma ShapeBalances(w: World, v: World, e: Event, account: string)
    requires Balanced(w, account) && Ages(w, v)
    requires Quiet(w, v) || Opens(w, v, e) || exists id: nat :: Moves(w, v, e, id)
    ensures Balanced(v, account)
  {
    SameAccounts(w, v);
    if Opens(w, v, e) {
      OpenBalances(w, v, e, account);
    } else if id: nat :| Moves(w, v, e, id) {
      MoveBalances(w, v, e, id, account);
    } else {
      QuietBalances(w, v, account);
    }
  }

  lemma {:induction false} LogEqualsState(w: World, es: seq<Event>, account: string)
    requires Fresh(w)
    ensures Balanced(Run(w, es), account)
  {
    if es == [] {
    } else {
      var past := es[..|es| - 1];
      LogEqualsState(w, past, account);
      FreshHolds(w);
      RunKeeps(w, past);
      var last := es[|es| - 1];
      StepShape(Run(w, past), last);
      ShapeBalances(Run(w, past), Step(Run(w, past), last), last, account);
    }
  }

  // ---- the monthly cap ------------------------------------------------------------------------------------

  function ExecutedIn(credentialId: string, month: int): Intent -> int {
    (r: Intent) =>
      if r.credentialId == credentialId && r.status == Executed && r.createdAt.month == month then r.amount else 0
  }

  /** The executed total of the credential's intents created in the month. */
  function MonthTotal(w: World, c: string, month: int): int {
    Sum(w.intents, ExecutedIn(c, month))
  }

  /** The intent a step moved to executed without a cap check of its own month: by requery, or resumed later. */
  function Exempt(w: World, e: Event, c: string, month: int): int {
    var id := match e case Requeried(id, _) => id case Resolved(answer, _, _) => answer.id case _ => |w.intents|;
    if id < |w.intents| && w.intents[id].credentialId == c && w.intents[id].createdAt.month == month
      && (e.Requeried? || w.now.month != month)
      && w.intents[id].status != Executed && StatusOfIntent(Step(w, e), id) == Executed
    then w.intents[id].amount else 0
  }

  function StatusOfIntent(w: World, id: nat): Status {
    if id < |w.intents| then w.intents[id].status else Pending
  }

  function Exempted(w: World, es: seq<Event>, c: string, month: int): int {
    if es == [] then 0
    else
      var past := es[..|es| - 1];
      Exempted(w, past, c, month) + Exempt(Run(w, past), es[|es| - 1], c, month)
  }

  /** While the clock is in the month, the spend the policy reads is the month's total. */
  lemma SpentIsMonthTotal(w: World, c: string)
    requires Inv(w)
    ensures SpentSince(w.intents, c, w.now.month) == MonthTotal(w, c, w.now.month)
  {
    SumAgree(w.intents, SpendSince(c, w.now.month), ExecutedIn(c, w.now.month));
  }

  lemma PassedFits(w: World, row: Intent, hours: Hours, cap: int)
    requires Inv(w) && Passed(w, row, hours) && SpendCapMonthly(cap) in w.credentials[row.credentialId].rules
    ensures MonthTotal(w, row.credentialId, w.now.month) + row.amount <= cap
  {
    SpentIsMonthTotal(w, row.credentialId);
    PassedIsSafe(RequestOf(row), w.credentials[row.credentialId],
                 Context(SpentSince(w.intents, row.credentialId, w.now.month), hours));
  }

  predicate Capped(w: World, c: string, cap: int) {
    c in w.credentials && SpendCapMonthly(cap) in w.credentials[c].rules
  }

  /** One step adds to a month's total only within the cap, or by an exempted settlement. */
  lemma StepWithinCap(w: World, e: Event, c: string, month: int, cap: int)
    requires Inv(w) && Capped(w, c, cap)
    ensures Capped(Step(w, e), c, cap)
    ensures Exempt(w, e, c, month) >= 0
    ensures var v := Step(w, e);
      || MonthTotal(v, c, month) <= MonthTotal(w, c, month) + Exempt(w, e, c, month)
      || MonthTotal(v, c, month) <= cap
  {
    var v := Step(w, e);
    StepShape(w, e);
    ExemptIsPositive(w, e, c, month);
    if Opens(w, v, e) {
      OpenWithinCap(w, v, e, c, month, cap);
    } else if id: nat :| Moves(w, v, e, id) {
      MovedIsTarget(w, v, e, id);
      MoveWithinCap(w, v, e, id, c, month, cap);
    }
  }

  lemma OpenWithinCap(w: World, v: World, e: Event, c: string, month: int, cap: int)
    requires Inv(w) && Capped(w, c, cap) && Opens(w, v, e)
    ensures MonthTotal(v, c, month) <= MonthTotal(w, c, month) || MonthTotal(v, c, month) <= cap
  {
    var row := v.intents[|w.intents|];
    SumSnoc(w.intents, row, ExecutedIn(c, month));
    if Charged(row.status) && row.credentialId == c { PassedFits(w, row, e.hours, cap); }
  }

  lemma MoveWithinCap(w: World, v: World, e: Event, id: nat, c: string, month: int, cap: int)
    requires Inv(w) && Capped(w, c, cap) && Moves(w, v, e, id)
    ensures var row := w.intents[id];
      || MonthTotal(v, c, month) <= MonthTotal(w, c, month)
      || MonthTotal(v, c, month) <= cap
      || (row.credentialId == c && row.createdAt.month == month && (e.Requeried? || w.now.month != month)
          && row.status != Executed && v.intents[id].status == Executed
          && MonthTotal(v, c, month) == MonthTotal(w, c, month) + row.amount)
  {
    var row := w.intents[id];
    SumUpdate(w.intents, id, v.intents[id], ExecutedIn(c, month));
    assert Coherent(ViewOf(w, id));
    if e.Resolved? && Charged(v.intents[id].status) && row.credentialId == c { PassedFits(w, row, e.hours, cap); }
  }

  lemma MovedIsTarget(w: World, v: World, e: Event, id: nat)
    requires Inv(w) && v == Step(w, e) && Moves(w, v, e, id)
    ensures e.Requeried? ==> e.id == id
    ensures e.Resolved? ==> e.answer.id == id
  {
    if e.Resolved? {
      if CanResolve(w, e.answer.id) { ResolveCase(w, e.answer, e.hours, e.reply); }
    } else {
      RequeryCase(w, e.id, e.reply);
    }
  }

  lemma ExemptIsPositive(w: World, e: Event, c: string, month: int)
    requires Inv(w)
    ensures Exempt(w, e, c, month) >= 0
  {
    forall i | 0 <= i < |w.intents| && StatusOfIntent(Step(w, e), i) == Executed ensures w.intents[i].amount > 0 {
      StepKeeps(w, e);
      StepShape(w, e);
      assert Coherent(ViewOf(Step(w, e), i));
    }
  }

  /**
   * The cap over every run: what was executed of a month's intents stays within the monthly cap plus the
   * month's amounts settled by requery or resumed after the month ended.
   */
  lemma {:induction false} MonthlyCapHolds(w: World, es: seq<Event>, c: string, month: int, cap: int)
    requires Fresh(w) && Capped(w, c, cap)
    ensures Capped(Run(w, es), c, cap) && Exempted(w, es, c, month) >= 0
    ensures MonthTotal(Run(w, es), c, month) <= Max(cap, 0) + Exempted(w, es, c, month)
  {
    if es == [] {
    } else {
      var past := es[..|es| - 1];
      MonthlyCapHolds(w, past, c, month, cap);
      FreshHolds(w);
      RunKeeps(w, past);
      StepWithinCap(Run(w, past), es[|es| - 1], c, month, cap);
    }
  }
}
