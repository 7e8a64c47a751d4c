/**
 * What the policy engine answers, said of amounts, lists, hours and spend alone: which reasons it gives, which
 * verdict, and at which hours of the day a window lets a payment pass.
 */
module RuleLaws {
  import opened Basics
  import opened Policy
  import opened Mandates

  predicate IsHour(h: int) {
    0 <= h < 24
  }

  // ---- which reasons are given ------------------------------------------------------------------------------

  ghost predicate OverMonthlyCap(rules: seq<Rule>, total: int) {
    exists limit :: SpendCapMonthly(limit) in rules && total > limit
  }

  ghost predicate OverPerTxCap(rules: seq<Rule>, amount: int) {
    exists limit :: SpendCapPerTx(limit) in rules && amount > limit
  }

  ghost predicate OverThreshold(rules: seq<Rule>, amount: int) {
    exists threshold :: CosignThreshold(threshold) in rules && amount > threshold
  }

  ghost predicate OffTheList(rules: seq<Rule>, biller: Option<string>) {
    exists ids :: BillerAllowlist(ids) in rules && biller.Some? && biller.value !in ids
  }

  ghost predicate OffTheLock(rules: seq<Rule>, recipient: Option<string>) {
    exists rs :: RecipientLock(rs) in rules && recipient.Some? && recipient.value !in rs
  }

  ghost predicate OffScope(rules: seq<Rule>, channel: Channel) {
    exists cs :: ChannelScope(cs) in rules && channel !in cs
  }

  ghost predicate Shut(rules: seq<Rule>, hours: Hours) {
    exists s, e, tz :: TimeWindow(s, e, tz) in rules && (hours(tz).None? || !OpenAt(s, e, hours(tz).value))
  }

  /** The amount is not a positive sum that the arithmetic can carry. */
  predicate Unsafe(amount: int, spent: int) {
    amount <= 0 || amount > MAX_SAFE_INTEGER || spent > MAX_SAFE_INTEGER || spent + amount > MAX_SAFE_INTEGER
  }

  lemma {:induction false} ReasonIsOfSomeRule(rules: seq<Rule>, req: Request, ctx: Context, r: Reason)
    ensures r in CheckAll(rules, req, ctx) <==> exists rule :: rule in rules && r in Check(rule, req, ctx)
  {
    if rules == [] {
    } else {
      ReasonIsOfSomeRule(rules[1..], req, ctx, r);
      assert forall rule :: rule in rules <==> rule == rules[0] || rule in rules[1..];
    }
  }

  lemma GuardReasons(revoked: bool, req: Request, ctx: Context, r: Reason)
    ensures r in Guards(revoked, req, ctx)
      <==> (r == PerTxCapExceeded && Unsafe(req.amount, ctx.spent)) || (r == CredentialRevoked && revoked)
  {
  }

  /** A window's condition is the arithmetic one. */
  lemma WindowIsOpenAt(s: int, e: int, hour: int)
    ensures InWindow(s, e, hour) <==> OpenAt(s, e, hour)
  {
  }

  /** Each reason stands in the list exactly if there is cause for it. */
  ghost predicate GivenFor(given: seq<Reason>, cred: Credential, channel: Channel, biller: Option<string>,
                           recipient: Option<string>, amount: int, spent: int, hours: Hours)
  {
    && (MonthlyCapExceeded in given <==> OverMonthlyCap(cred.rules, spent + amount))
    && (PerTxCapExceeded in given <==> Unsafe(amount, spent) || OverPerTxCap(cred.rules, amount))
    && (CredentialRevoked in given <==> cred.revoked)
    && (AmountAboveCosignThreshold in given <==> OverThreshold(cred.rules, amount))
    && (BillerNotAllowlisted in given <==> OffTheList(cred.rules, biller))
    && (RecipientLockMismatch in given <==> OffTheLock(cred.rules, recipient))
    && (RecipientNotAllowlisted in given <==> OffTheLock(cred.rules, recipient))
    && (ChannelScopeExceeded in given <==> OffScope(cred.rules, channel))
    && (OutsideTimeWindow in given <==> Shut(cred.rules, hours))
  }

  /** Every reason, with exactly what it is given for. */
  lemma ReasonsAreGivenFor(req: Request, cred: Credential, ctx: Context)
    ensures GivenFor(Decide(req, cred, ctx).reasons, cred, req.channel, req.billerId, req.recipient, req.amount,
                     ctx.spent, ctx.hours)
  {
    var rules, given := cred.rules, Decide(req, cred, ctx).reasons;
    forall r: Reason
      ensures r in given
        <==> r in Guards(cred.revoked, req, ctx) || exists rule :: rule in rules && r in Check(rule, req, ctx)
      ensures r in Guards(cred.revoked, req, ctx)
        <==> (r == PerTxCapExceeded && Unsafe(req.amount, ctx.spent)) || (r == CredentialRevoked && cred.revoked)
    {
      ReasonIsOfSomeRule(rules, req, ctx, r);
      GuardReasons(cred.revoked, req, ctx, r);
    }
    CapReasons(rules, req, ctx);
    ListReasons(rules, req, ctx);
    WindowReasons(rules, req, ctx);
  }

  ghost predicate SomeRuleSays(rules: seq<Rule>, req: Request, ctx: Context, r: Reason) {
    exists rule :: rule in rules && r in Check(rule, req, ctx)
  }

  lemma CapReasons(rules: seq<Rule>, req: Request, ctx: Context)
    ensures SomeRuleSays(rules, req, ctx, MonthlyCapExceeded) <==> OverMonthlyCap(rules, ctx.spent + req.amount)
    ensures SomeRuleSays(rules, req, ctx, PerTxCapExceeded) <==> OverPerTxCap(rules, req.amount)
    ensures SomeRuleSays(rules, req, ctx, AmountAboveCosignThreshold) <==> OverThreshold(rules, req.amount)
    ensures !SomeRuleSays(rules, req, ctx, CredentialRevoked)
  {
    forall limit | SpendCapMonthly(limit) in rules && ctx.spent + req.amount > limit
      ensures SomeRuleSays(rules, req, ctx, MonthlyCapExceeded)
    {
      assert MonthlyCapExceeded in Check(SpendCapMonthly(limit), req, ctx);
    }
    forall limit | SpendCapPerTx(limit) in rules && req.amount > limit
      ensures SomeRuleSays(rules, req, ctx, PerTxCapExceeded)
    {
      assert PerTxCapExceeded in Check(SpendCapPerTx(limit), req, ctx);
    }
    forall threshold | CosignThreshold(threshold) in rules && req.amount > threshold
      ensures SomeRuleSays(rules, req, ctx, AmountAboveCosignThreshold)
    {
      assert AmountAboveCosignThreshold in Check(CosignThreshold(threshold), req, ctx);
    }
  }

  lemma ListReasons(rules: seq<Rule>, req: Request, ctx: Context)
    ensures SomeRuleSays(rules, req, ctx, BillerNotAllowlisted) <==> OffTheList(rules, req.billerId)
    ensures SomeRuleSays(rules, req, ctx, RecipientLockMismatch) <==> OffTheLock(rules, req.recipient)
    ensures SomeRuleSays(rules, req, ctx, RecipientNotAllowlisted) <==> OffTheLock(rules, req.recipient)
    ensures SomeRuleSays(rules, req, ctx, ChannelScopeExceeded) <==> OffScope(rules, req.channel)
  {
    forall ids | BillerAllowlist(ids) in rules && req.billerId.Some? && req.billerId.value !in ids
      ensures SomeRuleSays(rules, req, ctx, BillerNotAllowlisted)
    {
      assert BillerNotAllowlisted in Check(BillerAllowlist(ids), req, ctx);
    }
    forall rs | RecipientLock(rs) in rules && req.recipient.Some? && req.recipient.value !in rs
      ensures SomeRuleSays(rules, req, ctx, RecipientLockMismatch)
      ensures SomeRuleSays(rules, req, ctx, RecipientNotAllowlisted)
    {
      var found := Check(RecipientLock(rs), req, ctx);
      assert RecipientLockMismatch in found && RecipientNotAllowlisted in found;
    }
    forall cs | ChannelScope(cs) in rules && req.channel !in cs
      ensures SomeRuleSays(rules, req, ctx, ChannelScopeExceeded)
    {
      assert ChannelScopeExceeded in Check(ChannelScope(cs), req, ctx);
    }
  }

  lemma WindowReasons(rules: seq<Rule>, req: Request, ctx: Context)
    ensures SomeRuleSays(rules, req, ctx, OutsideTimeWindow) <==> Shut(rules, ctx.hours)
  {
    forall s, e, h ensures InWindow(s, e, h) <==> OpenAt(s, e, h) { WindowIsOpenAt(s, e, h); }
    if rule :| rule in rules && OutsideTimeWindow in Check(rule, req, ctx) {
      assert rule == TimeWindow(rule.startHour, rule.endHour, rule.tz);
    }
    if s, e, tz :| TimeWindow(s, e, tz) in rules && (ctx.hours(tz).None? || !OpenAt(s, e, ctx.hours(tz).value)) {
      assert OutsideTimeWindow in Check(TimeWindow(s, e, tz), req, ctx);
    }
  }

  /** The guards give one reason each, in order: the sign of the amount, the safe integers, the revocation. */
  lemma GuardsGiveOneEach(req: Request, account: string, revoked: bool, ctx: Context)
    ensures var given := Decide(req, Credential(account, revoked, []), ctx).reasons;
      var beyond := req.amount > MAX_SAFE_INTEGER || ctx.spent > MAX_SAFE_INTEGER
                    || req.amount + ctx.spent > MAX_SAFE_INTEGER;
      var unsafe := (if req.amount <= 0 then 1 else 0) + if beyond then 1 else 0;
      && |given| == unsafe + (if revoked then 1 else 0)
      && forall k :: 0 <= k < |given| ==> given[k] == if k < unsafe then PerTxCapExceeded else CredentialRevoked
  {
    assert CheckAll([], req, ctx) == [];
  }

  // ---- which verdict --------------------------------------------------------------------------------------------

  /** The payment breaks a guard, a cap, a list, the scope or a window. */
  ghost predicate Breaks(cred: Credential, channel: Channel, biller: Option<string>, recipient: Option<string>,
                         amount: int, spent: int, hours: Hours)
  {
    || cred.revoked || Unsafe(amount, spent)
    || OverMonthlyCap(cred.rules, spent + amount) || OverPerTxCap(cred.rules, amount)
    || OffTheList(cred.rules, biller) || OffTheLock(cred.rules, recipient) || OffScope(cred.rules, channel)
    || Shut(cred.rules, hours)
  }

  /** Denied exactly if something is broken, held exactly if nothing is and a cosign threshold is passed. */
  lemma VerdictFollows(req: Request, cred: Credential, ctx: Context)
    ensures Decide(req, cred, ctx).verdict
      == if Breaks(cred, req.channel, req.billerId, req.recipient, req.amount, ctx.spent, ctx.hours) then Deny
         else if OverThreshold(cred.rules, req.amount) then Escalate else Allow
  {
    var given := Decide(req, cred, ctx).reasons;
    ReasonsAreGivenFor(req, cred, ctx);
    if r :| r in given && IsDenyCode(r) {
      match r {
        case MonthlyCapExceeded => case PerTxCapExceeded => case CredentialRevoked => case BillerNotAllowlisted =>
        case RecipientLockMismatch => case RecipientNotAllowlisted => case ChannelScopeExceeded =>
        case OutsideTimeWindow =>
      }
    }
  }

  /** A recipient off the lock is told so first, and then that it is not on the list. */
  lemma LockReasonsInOrder(req: Request, account: string, recipients: seq<string>, ctx: Context)
    requires !Unsafe(req.amount, ctx.spent)
    ensures Decide(req, Credential(account, false, [RecipientLock(recipients)]), ctx).reasons
      == if req.recipient.Some? && req.recipient.value !in recipients
         then [RecipientLockMismatch, RecipientNotAllowlisted] else []
  {
    var rules := [RecipientLock(recipients)];
    assert rules[1..] == [];
    assert CheckAll(rules, req, ctx) == Check(rules[0], req, ctx) + CheckAll(rules[1..], req, ctx);
  }

  /** The guards' reasons come first, then those of the rules, in the order of the rules. */
  lemma ReasonsAreInOrder(req: Request, cred: Credential, xs: seq<Rule>, ys: seq<Rule>, ctx: Context)
    ensures var guards, first, second := Decide(req, cred.(rules := []), ctx).reasons,
                Decide(req, cred.(rules := xs), ctx).reasons, Decide(req, cred.(rules := ys), ctx).reasons;
      && |guards| <= |second| && second[..|guards|] == guards
      && Decide(req, cred.(rules := xs + ys), ctx).reasons == first + second[|guards|..]
  {
    CheckAllConcat(xs, ys, req, ctx);
    Parts(Guards(cred.revoked, req, ctx), CheckAll(xs, req, ctx), CheckAll(ys, req, ctx),
          CheckAll(xs + ys, req, ctx), CheckAll([], req, ctx));
    Given(req, cred, [], ctx);
    Given(req, cred, xs, ctx);
    Given(req, cred, ys, ctx);
    Given(req, cred, xs + ys, ctx);
  }

  lemma Given(req: Request, cred: Credential, rules: seq<Rule>, ctx: Context)
    ensures Decide(req, cred.(rules := rules), ctx).reasons
      == Guards(cred.revoked, req, ctx) + CheckAll(rules, req, ctx)
  {
  }

  lemma Parts(g: seq<Reason>, a: seq<Reason>, b: seq<Reason>, both: seq<Reason>, none: seq<Reason>)
    requires both == a + b && none == []
    ensures |g + none| <= |g + b| && (g + b)[..|g + none|] == g + none
    ensures g + both == (g + a) + (g + b)[|g + none|..]
  {
    assert g + none == g;
    assert (g + b)[|g|..] == b;
    assert g + (a + b) == (g + a) + b;
  }

  // ---- when a window is open ----------------------------------------------------------------------------------------

  /** On the clock: open for the (e - s) % 24 hours that follow s, or always if s is e. */
  lemma OpenAroundTheClock(s: int, e: int, h: int)
    requires IsHour(s) && IsHour(e) && IsHour(h)
    ensures OpenAt(s, e, h) <==> s == e || (h - s) % 24 < (e - s) % 24
  {
  }

  /** A payment that breaks nothing else, under one window. */
  ghost function VerdictIn(req: Request, s: int, e: int, tz: string, ctx: Context): Verdict {
    Decide(req, Credential("", false, [TimeWindow(s, e, tz)]), ctx).verdict
  }

  lemma VerdictAt(req: Request, s: int, e: int, tz: string, ctx: Context)
    requires !Unsafe(req.amount, ctx.spent)
    ensures VerdictIn(req, s, e, tz, ctx)
      == if ctx.hours(tz).None? || !OpenAt(s, e, ctx.hours(tz).value) then Deny else Allow
  {
    var cred, hour := Credential("", false, [TimeWindow(s, e, tz)]), ctx.hours(tz);
    VerdictFollows(req, cred, ctx);
    assert TimeWindow(s, e, tz) in cred.rules;
    assert Shut(cred.rules, ctx.hours) <==> hour.None? || !OpenAt(s, e, hour.value);
  }

  /** One window denies exactly if the hour is unknown or not among the hours from its start up to its end. */
  lemma WindowVerdict(req: Request, s: int, e: int, tz: string, ctx: Context)
    requires !Unsafe(req.amount, ctx.spent) && IsHour(s) && IsHour(e)
    requires ctx.hours(tz).Some? ==> IsHour(ctx.hours(tz).value)
    ensures VerdictIn(req, s, e, tz, ctx)
      == if ctx.hours(tz).None? || (s != e && !((ctx.hours(tz).value - s) % 24 < (e - s) % 24)) then Deny else Allow
  {
    VerdictAt(req, s, e, tz, ctx);
    if ctx.hours(tz).Some? { OpenAroundTheClock(s, e, ctx.hours(tz).value); }
  }

  /** Open at its start, shut at its end; a window and its reverse split the day; one without length is always open. */
  lemma WindowsSplitTheDay(req: Request, s: int, e: int, h: int, tz: string, ctx: Context)
    requires !Unsafe(req.amount, ctx.spent) && IsHour(s) && IsHour(e) && IsHour(h) && ctx.hours(tz) == Some(h)
    ensures s != e && h == s ==> VerdictIn(req, s, e, tz, ctx) == Allow
    ensures s != e && h == e ==> VerdictIn(req, s, e, tz, ctx) == Deny
    ensures s != e ==> (VerdictIn(req, s, e, tz, ctx) == Allow <==> VerdictIn(req, e, s, tz, ctx) == Deny)
    ensures VerdictIn(req, s, s, tz, ctx) == Allow
  {
    VerdictAt(req, s, e, tz, ctx);
    VerdictAt(req, e, s, tz, ctx);
    VerdictAt(req, s, s, tz, ctx);
  }

  /** Whatever else the credential carries, an hour outside one of its windows is denied. */
  lemma ShutWindowDenies(req: Request, cred: Credential, s: int, e: int, tz: string, ctx: Context)
    requires TimeWindow(s, e, tz) in cred.rules && IsHour(s) && IsHour(e) && s != e
    requires ctx.hours(tz).Some? ==>
      IsHour(ctx.hours(tz).value) && !((ctx.hours(tz).value - s) % 24 < (e - s) % 24)
    ensures Decide(req, cred, ctx).verdict == Deny
  {
    VerdictFollows(req, cred, ctx);
    if ctx.hours(tz).Some? { OpenAroundTheClock(s, e, ctx.hours(tz).value); }
  }
}
