/**
 * The policy engine (policy.service.ts): a credential's rules are checked one by one, every failed
 * check leaves a reason, and the reasons decide the verdict.
 */
module Policy {
  import opened Basics

  /** Number.MAX_SAFE_INTEGER */
  const MAX_SAFE_INTEGER: int := 0x1F_FFFF_FFFF_FFFF

  datatype Channel = Voice | WhatsApp | Web

  datatype Verdict = Allow | Escalate | Deny {
    function Rank(): nat {
      match this case Allow => 0 case Escalate => 1 case Deny => 2
    }
    predicate AtMost(other: Verdict) {
      Rank() <= other.Rank()
    }
  }

  function Stricter(v: Verdict, w: Verdict): Verdict {
    if v.AtMost(w) then w else v
  }

  datatype Reason =
    | RecipientNotAllowlisted | BillerNotAllowlisted | MonthlyCapExceeded | PerTxCapExceeded
    | AmountAboveCosignThreshold | ChannelScopeExceeded | OutsideTimeWindow | CredentialRevoked
    | RecipientLockMismatch

  datatype Rule =
    | SpendCapMonthly(limit: int)
    | SpendCapPerTx(limit: int)
    | BillerAllowlist(billerIds: seq<string>)
    | RecipientLock(recipients: seq<string>)
    | CosignThreshold(threshold: int)
    | ChannelScope(channels: seq<Channel>)
    | TimeWindow(startHour: int, endHour: int, tz: string)

  datatype Credential = Credential(accountId: string, revoked: bool, rules: seq<Rule>)

  /** What the evaluator looks at in an intent; an absent or empty biller or recipient is None. */
  datatype Request = Request(channel: Channel, billerId: Option<string>, recipient: Option<string>, amount: int)

  /** The hour of day by time zone, None where the formatter rejects the zone. */
  type Hours = string -> Option<int>

  datatype Context = Context(spent: int, hours: Hours)

  datatype Decision = Decision(verdict: Verdict, reasons: seq<Reason>)

  predicate InWindow(startHour: int, endHour: int, hour: int) {
    if startHour == endHour then true
    else if startHour < endHour then startHour <= hour < endHour
    else startHour <= hour || hour < endHour
  }

  function Check(rule: Rule, req: Request, ctx: Context): seq<Reason> {
    match rule
    case SpendCapMonthly(limit) =>
      if ctx.spent + req.amount > limit then [MonthlyCapExceeded] else []
    case SpendCapPerTx(limit) =>
      if req.amount > limit then [PerTxCapExceeded] else []
    case BillerAllowlist(billerIds) =>
      if req.billerId.Some? && req.billerId.value !in billerIds then [BillerNotAllowlisted] else []
    case RecipientLock(recipients) =>
      if req.recipient.Some? && req.recipient.value !in recipients
      then [RecipientLockMismatch, RecipientNotAllowlisted] else []
    case CosignThreshold(threshold) =>
      if req.amount > threshold then [AmountAboveCosignThreshold] else []
    case ChannelScope(channels) =>
      if req.channel !in channels then [ChannelScopeExceeded] else []
    case TimeWindow(startHour, endHour, tz) =>
      var hour := ctx.hours(tz);
      if hour.Some? && InWindow(startHour, endHour, hour.value) then [] else [OutsideTimeWindow]
  }

  function CheckAll(rules: seq<Rule>, req: Request, ctx: Context): seq<Reason> {
    if rules == [] then [] else Check(rules[0], req, ctx) + CheckAll(rules[1..], req, ctx)
  }

  function Guards(revoked: bool, req: Request, ctx: Context): seq<Reason> {
    (if req.amount <= 0 then [PerTxCapExceeded] else [])
    + (if req.amount > MAX_SAFE_INTEGER || ctx.spent > MAX_SAFE_INTEGER || ctx.spent + req.amount > MAX_SAFE_INTEGER
       then [PerTxCapExceeded] else [])
    + (if revoked then [CredentialRevoked] else [])
  }

  predicate IsDenyCode(r: Reason) {
    r != AmountAboveCosignThreshold
  }

  function VerdictOf(reasons: seq<Reason>): Verdict {
    if exists r :: r in reasons && IsDenyCode(r) then Deny
    else if AmountAboveCosignThreshold in reasons then Escalate
    else Allow
  }

  function Decide(req: Request, cred: Credential, ctx: Context): Decision {
    var reasons := Guards(cred.revoked, req, ctx) + CheckAll(cred.rules, req, ctx);
    Decision(VerdictOf(reasons), reasons)
  }

  method CheckRule(rule: Rule, req: Request, ctx: Context) returns (found: seq<Reason>)
    ensures found == Check(rule, req, ctx)
  {
    found := [];
    match rule {
      case SpendCapMonthly(limit) =>
        if ctx.spent + req.amount > limit { found := [MonthlyCapExceeded]; }
      case SpendCapPerTx(limit) =>
        if req.amount > limit { found := [PerTxCapExceeded]; }
      case BillerAllowlist(billerIds) =>
        if req.billerId.Some? && req.billerId.value !in billerIds { found := [BillerNotAllowlisted]; }
      case RecipientLock(recipients) =>
        if req.recipient.Some? && req.recipient.value !in recipients {
          found := [RecipientLockMismatch];
          found := found + [RecipientNotAllowlisted];
        }
      case CosignThreshold(threshold) =>
        if req.amount > threshold { found := [AmountAboveCosignThreshold]; }
      case ChannelScope(channels) =>
        if req.channel !in channels { found := [ChannelScopeExceeded]; }
      case TimeWindow(startHour, endHour, tz) =>
        var hour := ctx.hours(tz);
        var within := false;
        if hour.Some? {
          if startHour == endHour {
            within := true;
          } else if startHour < endHour {
            within := hour.value >= startHour && hour.value < endHour;
          } else {
            within := hour.value >= startHour || hour.value < endHour;
          }
        }
        if !within { found := [OutsideTimeWindow]; }
    }
  }

  lemma CheckAllSnoc(rules: seq<Rule>, i: nat, req: Request, ctx: Context)
    requires i < |rules|
    ensures CheckAll(rules[..i + 1], req, ctx) == CheckAll(rules[..i], req, ctx) + Check(rules[i], req, ctx)
  {
    CheckAllConcat(rules[..i], [rules[i]], req, ctx);
    assert rules[..i + 1] == rules[..i] + [rules[i]];
    assert CheckAll([rules[i]], req, ctx) == Check(rules[i], req, ctx) + CheckAll([], req, ctx);
  }

  method CheckGuards(revoked: bool, req: Request, ctx: Context) returns (reasons: seq<Reason>)
    ensures reasons == Guards(revoked, req, ctx)
  {
    reasons := [];
    if req.amount <= 0 {
      reasons := reasons + [PerTxCapExceeded];
    }
    if req.amount > MAX_SAFE_INTEGER || ctx.spent > MAX_SAFE_INTEGER || ctx.spent + req.amount > MAX_SAFE_INTEGER {
      reasons := reasons + [PerTxCapExceeded];
    }
    if revoked {
      reasons := reasons + [CredentialRevoked];
    }
  }

  /** PolicyService.evaluate: the loop over the rules collects exactly the reasons of Decide. */
  method Evaluate(req: Request, cred: Credential, ctx: Context) returns (d: Decision)
    ensures d == Decide(req, cred, ctx)
  {
    var reasons := CheckGuards(cred.revoked, req, ctx);
    ghost var guarded := reasons;
    for i := 0 to |cred.rules|
      invariant reasons == guarded + CheckAll(cred.rules[..i], req, ctx)
    {
      var found := CheckRule(cred.rules[i], req, ctx);
      CheckAllSnoc(cred.rules, i, req, ctx);
      reasons := reasons + found;
    }
    assert cred.rules[..|cred.rules|] == cred.rules;
    var verdict := Allow;
    if exists r :: r in reasons && IsDenyCode(r) {
      verdict := Deny;
    } else if AmountAboveCosignThreshold in reasons {
      verdict := Escalate;
    }
    d := Decision(verdict, reasons);
  }

  // ---- what the rule list means -------------------------------------------------------------

  function RuleVerdict(rule: Rule, req: Request, ctx: Context): Verdict {
    VerdictOf(Check(rule, req, ctx))
  }

  lemma VerdictOfConcat(xs: seq<Reason>, ys: seq<Reason>)
    ensures VerdictOf(xs + ys) == Stricter(VerdictOf(xs), VerdictOf(ys))
  {
    forall r ensures r in xs + ys <==> r in xs || r in ys { }
  }

  lemma {:induction false} CheckAllConcat(xs: seq<Rule>, ys: seq<Rule>, req: Request, ctx: Context)
    ensures CheckAll(xs + ys, req, ctx) == CheckAll(xs, req, ctx) + CheckAll(ys, req, ctx)
  {
    if xs == [] {
      assert xs + ys == ys;
    } else {
      assert (xs + ys)[1..] == xs[1..] + ys;
      CheckAllConcat(xs[1..], ys, req, ctx);
    }
  }

  /** The verdict is the stricter of what the guards and what the rules say. */
  lemma DecideSplits(req: Request, cred: Credential, ctx: Context)
    ensures Decide(req, cred, ctx).verdict
         == Stricter(VerdictOf(Guards(cred.revoked, req, ctx)), VerdictOf(CheckAll(cred.rules, req, ctx)))
  {
    VerdictOfConcat(Guards(cred.revoked, req, ctx), CheckAll(cred.rules, req, ctx));
  }

  lemma GuardVerdict(revoked: bool, req: Request, ctx: Context)
    ensures VerdictOf(Guards(revoked, req, ctx))
         == if revoked || req.amount <= 0 || req.amount > MAX_SAFE_INTEGER || ctx.spent > MAX_SAFE_INTEGER
               || ctx.spent + req.amount > MAX_SAFE_INTEGER then Deny else Allow
  {
    var g := Guards(revoked, req, ctx);
    assert g == [] || (g[0] in g && IsDenyCode(g[0]));
  }

  /** Joining two rule lists gives the stricter of their two verdicts. */
  lemma JoinIsStricter(xs: seq<Rule>, ys: seq<Rule>, req: Request, cred: Credential, ctx: Context)
    ensures Decide(req, cred.(rules := xs + ys), ctx).verdict
         == Stricter(Decide(req, cred.(rules := xs), ctx).verdict, Decide(req, cred.(rules := ys), ctx).verdict)
  {
    DecideSplits(req, cred.(rules := xs + ys), ctx);
    DecideSplits(req, cred.(rules := xs), ctx);
    DecideSplits(req, cred.(rules := ys), ctx);
    CheckAllConcat(xs, ys, req, ctx);
    VerdictOfConcat(CheckAll(xs, req, ctx), CheckAll(ys, req, ctx));
  }

  /** A verdict is at least v exactly when a guard or a single rule of the list already demands v. */
  lemma {:induction false} VerdictIsWorstRule(rules: seq<Rule>, req: Request, ctx: Context, v: Verdict)
    requires v != Allow
    ensures v.AtMost(VerdictOf(CheckAll(rules, req, ctx)))
       <==> exists rule :: rule in rules && v.AtMost(RuleVerdict(rule, req, ctx))
  {
    if rules == [] {
      assert VerdictOf([]) == Allow;
    } else {
      var first, rest := rules[0], rules[1..];
      VerdictIsWorstRule(rest, req, ctx, v);
      VerdictOfConcat(Check(first, req, ctx), CheckAll(rest, req, ctx));
      assert forall rule :: rule in rules <==> rule == first || rule in rest;
      assert v.AtMost(VerdictOf(CheckAll(rules, req, ctx)))
        <==> v.AtMost(RuleVerdict(first, req, ctx)) || v.AtMost(VerdictOf(CheckAll(rest, req, ctx)));
    }
  }

  /** Only the set of rules matters: neither order nor repetition, and adding rules never loosens. */
  lemma MoreRulesNeverLoosen(xs: seq<Rule>, ys: seq<Rule>, req: Request, cred: Credential, ctx: Context)
    requires forall rule :: rule in xs ==> rule in ys
    ensures Decide(req, cred.(rules := xs), ctx).verdict.AtMost(Decide(req, cred.(rules := ys), ctx).verdict)
  {
    DecideSplits(req, cred.(rules := xs), ctx);
    DecideSplits(req, cred.(rules := ys), ctx);
    VerdictIsWorstRule(xs, req, ctx, Deny);
    VerdictIsWorstRule(ys, req, ctx, Deny);
    VerdictIsWorstRule(xs, req, ctx, Escalate);
    VerdictIsWorstRule(ys, req, ctx, Escalate);
  }

  lemma RuleOrderIsIrrelevant(xs: seq<Rule>, ys: seq<Rule>, req: Request, cred: Credential, ctx: Context)
    requires multiset(xs) == multiset(ys)
    ensures Decide(req, cred.(rules := xs), ctx).verdict == Decide(req, cred.(rules := ys), ctx).verdict
  {
    forall rule ensures rule in xs <==> rule in ys {
      assert rule in multiset(xs) <==> rule in multiset(ys);
    }
    MoreRulesNeverLoosen(xs, ys, req, cred, ctx);
    MoreRulesNeverLoosen(ys, xs, req, cred, ctx);
  }

  /** A larger positive amount on top of a larger spend is judged at least as strictly. */
  lemma VerdictIsMonotone(req: Request, more: Request, cred: Credential, ctx: Context, later: Context)
    requires more == req.(amount := more.amount) && 0 < req.amount <= more.amount
    requires later == ctx.(spent := later.spent) && ctx.spent <= later.spent
    ensures Decide(req, cred, ctx).verdict.AtMost(Decide(more, cred, later).verdict)
  {
    DecideSplits(req, cred, ctx);
    DecideSplits(more, cred, later);
    MonotoneRules(req, more, cred.rules, ctx, later, Escalate);
    MonotoneRules(req, more, cred.rules, ctx, later, Deny);
  }

  lemma MonotoneRules(req: Request, more: Request, rules: seq<Rule>, ctx: Context, later: Context, v: Verdict)
    requires more == req.(amount := more.amount) && req.amount <= more.amount
    requires later == ctx.(spent := later.spent) && ctx.spent <= later.spent
    requires v != Allow
    ensures v.AtMost(VerdictOf(CheckAll(rules, req, ctx))) ==> v.AtMost(VerdictOf(CheckAll(rules, more, later)))
  {
    VerdictIsWorstRule(rules, req, ctx, v);
    VerdictIsWorstRule(rules, more, later, v);
    forall rule | v.AtMost(RuleVerdict(rule, req, ctx)) ensures v.AtMost(RuleVerdict(rule, more, later)) {
      MonotoneRule(rule, req, more, ctx, later);
    }
  }

  lemma MonotoneRule(rule: Rule, req: Request, more: Request, ctx: Context, later: Context)
    requires more == req.(amount := more.amount) && req.amount <= more.amount
    requires later == ctx.(spent := later.spent) && ctx.spent <= later.spent
    ensures RuleVerdict(rule, req, ctx).AtMost(RuleVerdict(rule, more, later))
  {
    var xs, ys := Check(rule, req, ctx), Check(rule, more, later);
    assert xs == [] || xs == ys;
    assert VerdictOf([]) == Allow;
  }

  /** Anything but a denial means the amount is positive, the credential live, and every sum exact. */
  lemma PassedIsSafe(req: Request, cred: Credential, ctx: Context)
    requires Decide(req, cred, ctx).verdict != Deny
    ensures 0 < req.amount && !cred.revoked && ctx.spent + req.amount <= MAX_SAFE_INTEGER
    ensures forall limit :: SpendCapMonthly(limit) in cred.rules ==> ctx.spent + req.amount <= limit
    ensures forall limit :: SpendCapPerTx(limit) in cred.rules ==> req.amount <= limit
  {
    DecideSplits(req, cred, ctx);
    GuardVerdict(cred.revoked, req, ctx);
    VerdictIsWorstRule(cred.rules, req, ctx, Deny);
    forall rule | rule in cred.rules ensures RuleVerdict(rule, req, ctx) != Deny { }
    forall limit | SpendCapMonthly(limit) in cred.rules ensures ctx.spent + req.amount <= limit {
      assert MonthlyCapExceeded !in Check(SpendCapMonthly(limit), req, ctx);
    }
    forall limit | SpendCapPerTx(limit) in cred.rules ensures req.amount <= limit {
      assert PerTxCapExceeded !in Check(SpendCapPerTx(limit), req, ctx);
    }
  }

  lemma RevokedIsDenied(req: Request, cred: Credential, ctx: Context)
    requires cred.revoked
    ensures Decide(req, cred, ctx).verdict == Deny
  {
    GuardVerdict(cred.revoked, req, ctx);
    DecideSplits(req, cred, ctx);
  }
}
