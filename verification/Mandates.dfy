/**
 * A compact meaning for a rule list: the least caps, the least cosign threshold, the intersection of
 * every list and the conjunction of every time window. The rule loop of the policy engine refines it.
 */
module Mandates {
  import opened Basics
  import opened Policy

  datatype Window = Window(startHour: int, endHour: int, tz: string)

  /** None means "no rule of this kind". */
  datatype Mandate = Mandate(
    monthlyCap: Option<int>, perTxCap: Option<int>, threshold: Option<int>,
    billers: Option<set<string>>, recipients: Option<set<string>>, channels: Option<set<Channel>>,
    windows: set<Window>)

  const ANYTHING := Mandate(None, None, None, None, None, None, {})

  function Least(a: Option<int>, b: Option<int>): Option<int> {
    if a.None? then b else if b.None? || a.value <= b.value then a else b
  }

  function Common<T>(a: Option<set<T>>, b: Option<set<T>>): Option<set<T>> {
    if a.None? then b else if b.None? then a else Some(a.value * b.value)
  }

  function Meet(a: Mandate, b: Mandate): Mandate {
    Mandate(Least(a.monthlyCap, b.monthlyCap), Least(a.perTxCap, b.perTxCap), Least(a.threshold, b.threshold),
            Common(a.billers, b.billers), Common(a.recipients, b.recipients), Common(a.channels, b.channels),
            a.windows + b.windows)
  }

  function Elements<T>(xs: seq<T>): set<T> {
    set x | x in xs
  }

  function FromRule(rule: Rule): Mandate {
    match rule
    case SpendCapMonthly(limit) => ANYTHING.(monthlyCap := Some(limit))
    case SpendCapPerTx(limit) => ANYTHING.(perTxCap := Some(limit))
    case BillerAllowlist(billerIds) => ANYTHING.(billers := Some(Elements(billerIds)))
    case RecipientLock(recipients) => ANYTHING.(recipients := Some(Elements(recipients)))
    case CosignThreshold(threshold) => ANYTHING.(threshold := Some(threshold))
    case ChannelScope(channels) => ANYTHING.(channels := Some(Elements(channels)))
    case TimeWindow(startHour, endHour, tz) => ANYTHING.(windows := {Window(startHour, endHour, tz)})
  }

  function Compile(rules: seq<Rule>): Mandate {
    if rules == [] then ANYTHING else Meet(FromRule(rules[0]), Compile(rules[1..]))
  }

  /** Open from s on, for as many hours as it takes to get to e; where s is after e, shut from e on up to s. */
  predicate OpenAt(s: int, e: int, hour: int) {
    s == e || 0 <= hour - s < e - s || (s > e && !(0 <= hour - e < s - e))
  }

  predicate Open(w: Window, ctx: Context) {
    var hour := ctx.hours(w.tz);
    hour.Some? && OpenAt(w.startHour, w.endHour, hour.value)
  }

  predicate Exceeds(x: int, cap: Option<int>) {
    cap.Some? && x > cap.value
  }

  predicate Outside<T(==)>(x: Option<T>, allowed: Option<set<T>>) {
    x.Some? && allowed.Some? && x.value !in allowed.value
  }

  /** The mandate forbids the request; total is what the evaluator computed for spend plus amount. */
  predicate Forbids(m: Mandate, req: Request, ctx: Context, total: int) {
    || Exceeds(total, m.monthlyCap)
    || Exceeds(req.amount, m.perTxCap)
    || Outside(req.billerId, m.billers)
    || Outside(req.recipient, m.recipients)
    || Outside(Some(req.channel), m.channels)
    || exists w :: w in m.windows && !Open(w, ctx)
  }

  function MandateVerdict(m: Mandate, req: Request, ctx: Context, total: int): Verdict {
    if Forbids(m, req, ctx, total) then Deny else if Exceeds(req.amount, m.threshold) then Escalate else Allow
  }

  /** The verdict of a mandate on a credential, with its amount, safe-integer and revocation guards. */
  function VerdictUnder(m: Mandate, revoked: bool, req: Request, ctx: Context, total: int): Verdict {
    if revoked || req.amount <= 0
      || req.amount > MAX_SAFE_INTEGER || ctx.spent > MAX_SAFE_INTEGER || total > MAX_SAFE_INTEGER
    then Deny
    else MandateVerdict(m, req, ctx, total)
  }

  lemma MeetIsStricter(a: Mandate, b: Mandate, req: Request, ctx: Context, total: int)
    ensures MandateVerdict(Meet(a, b), req, ctx, total)
         == Stricter(MandateVerdict(a, req, ctx, total), MandateVerdict(b, req, ctx, total))
  {
    var m := Meet(a, b);
    assert (exists w :: w in m.windows && !Open(w, ctx))
      <==> (exists w :: w in a.windows && !Open(w, ctx)) || (exists w :: w in b.windows && !Open(w, ctx)) by {
      if w :| w in a.windows && !Open(w, ctx) { assert w in m.windows; }
      if w :| w in b.windows && !Open(w, ctx) { assert w in m.windows; }
    }
    assert Forbids(m, req, ctx, total) <==> Forbids(a, req, ctx, total) || Forbids(b, req, ctx, total);
  }

  lemma OneRule(rule: Rule, req: Request, ctx: Context)
    ensures MandateVerdict(FromRule(rule), req, ctx, ctx.spent + req.amount) == RuleVerdict(rule, req, ctx)
  {
    var m := FromRule(rule);
    if rule.TimeWindow? {
      var w := Window(rule.startHour, rule.endHour, rule.tz);
      assert w in m.windows;
      assert (exists v :: v in m.windows && !Open(v, ctx)) <==> !Open(w, ctx);
    }
    var found := Check(rule, req, ctx);
    assert VerdictOf([]) == Allow;
    assert found != [] && found[0] != AmountAboveCosignThreshold ==> VerdictOf(found) == Deny by {
      if found != [] { assert found[0] in found; }
    }
  }

  lemma {:induction false} CompileAgrees(rules: seq<Rule>, req: Request, ctx: Context)
    ensures MandateVerdict(Compile(rules), req, ctx, ctx.spent + req.amount) == VerdictOf(CheckAll(rules, req, ctx))
  {
    if rules == [] {
      assert VerdictOf([]) == Allow;
    } else {
      CompileAgrees(rules[1..], req, ctx);
      OneRule(rules[0], req, ctx);
      MeetIsStricter(FromRule(rules[0]), Compile(rules[1..]), req, ctx, ctx.spent + req.amount);
      VerdictOfConcat(Check(rules[0], req, ctx), CheckAll(rules[1..], req, ctx));
    }
  }

  /** The rule loop decides exactly what the compact mandate decides, for every rule list and request. */
  lemma EvaluateRefinesMandate(req: Request, cred: Credential, ctx: Context)
    ensures Decide(req, cred, ctx).verdict
         == VerdictUnder(Compile(cred.rules), cred.revoked, req, ctx, ctx.spent + req.amount)
  {
    CompileAgrees(cred.rules, req, ctx);
    DecideSplits(req, cred, ctx);
    GuardVerdict(cred.revoked, req, ctx);
  }

  /** A sum as double arithmetic delivers it: exact up to 2^53, and never rounded back below 2^53. */
  predicate IsDoubleSum(total: int, exact: int) {
    && (0 <= exact <= MAX_SAFE_INTEGER + 1 ==> total == exact)
    && (exact > MAX_SAFE_INTEGER ==> total > MAX_SAFE_INTEGER)
  }

  /** Rounding of spend + amount cannot change a verdict: the safe-integer guard fires first. */
  lemma RoundingIsHarmless(req: Request, cred: Credential, ctx: Context, total: int)
    requires ctx.spent >= 0
    requires IsDoubleSum(total, ctx.spent + req.amount)
    ensures VerdictUnder(Compile(cred.rules), cred.revoked, req, ctx, total) == Decide(req, cred, ctx).verdict
  {
    EvaluateRefinesMandate(req, cred, ctx);
  }
}
