/**
 * What a new payment and an approval are answered, said of the input, the stored rows and the credential's rules
 * alone; and that every payment that was ever charged or held keeps to the lists, the lock, the scope and the caps.
 */
module Verdicts {
  import opened Basics
  import opened Policy
  import opened RuleLaws
  import opened Spine
  import opened SpineInvariant
  import SpineRuns
  import SpineSteps

  // ---- a new payment ----------------------------------------------------------------------------------------

  /** The spend of a credential grows by exactly its executed rows of the month, and starts at nothing. */
  lemma SpendIsCounted(rows: seq<Intent>, row: Intent, c: string, month: int)
    ensures SpentSince([], c, month) == 0
    ensures SpentSince(rows + [row], c, month) == SpentSince(rows, c, month)
      + if row.credentialId == c && row.status == Executed && row.createdAt.month >= month then row.amount else 0
  {
    SumSnoc(rows, row, SpendSince(c, month));
  }

  /** The row can be stored: a biller that exists, an amount the column holds, somebody to ask if it is held. */
  ghost predicate Fits(w: World, biller: Option<string>, amount: int, held: bool) {
    && (biller.Some? ==> biller.value in w.billers)
    && -0x8000_0000 <= amount <= 0x7FFF_FFFF
    && (held ==> w.hasTrustedContact)
  }

  /** Where the provider's reply leaves a payment. */
  function ReplyStatus(reply: Reply): Status {
    match reply case Settled(_, _) => Executed case InFlight(_) => Allowed case Refused => Failed case Threw => Failed
  }

  function FirstStatus(v: Verdict, reply: Reply): Status {
    match v case Allow => ReplyStatus(reply) case Escalate => Escalated case Deny => Denied
  }

  /** What the rules make of an input; biller and recipient are its own, an empty one counting as absent. */
  ghost predicate Asks(w: World, input: Input, hours: Hours, biller: Option<string>, recipient: Option<string>,
                       v: Verdict)
  {
    && input.credentialId in w.credentials
    && biller == (if input.billerId == Some("") then None else input.billerId)
    && recipient == (if input.recipient == Some("") then None else input.recipient)
    && var cred, spent := w.credentials[input.credentialId], SpentSince(w.intents, input.credentialId, w.now.month);
    && v == if Breaks(cred, input.channel, biller, recipient, input.amount, spent, hours) then Deny
            else if OverThreshold(cred.rules, input.amount) then Escalate else Allow
  }

  /** Each reason is given to an input exactly if there is cause for it. */
  ghost predicate Reasoned(w: World, input: Input, hours: Hours, biller: Option<string>, recipient: Option<string>,
                           reasons: seq<Reason>)
  {
    && input.credentialId in w.credentials
    && GivenFor(reasons, w.credentials[input.credentialId], input.channel, biller, recipient, input.amount,
                SpentSince(w.intents, input.credentialId, w.now.month), hours)
  }

  lemma RulesDecide(w: World, input: Input, hours: Hours, biller: Option<string>, recipient: Option<string>, v: Verdict)
    requires Asks(w, input, hours, biller, recipient, v)
    ensures DecisionNow(w, RowOf(w, input, Allow), hours).verdict == v
    ensures Reasoned(w, input, hours, biller, recipient, DecisionNow(w, RowOf(w, input, Allow), hours).reasons)
    ensures CanCommit(w, input, v) <==> Fits(w, biller, input.amount, v == Escalate)
  {
    var row := RowOf(w, input, Allow);
    ReasonsAreGivenFor(RequestOf(row), w.credentials[input.credentialId],
                       Context(SpentSince(w.intents, input.credentialId, w.now.month), hours));
    VerdictFollows(RequestOf(row), w.credentials[input.credentialId],
                   Context(SpentSince(w.intents, input.credentialId, w.now.month), hours));
  }

  /** What an accepted new payment leaves: its row, the calls made for it, its request for a cosign. */
  ghost predicate Opened(w: World, v: World, input: Input, biller: Option<string>, recipient: Option<string>,
                         verdict: Verdict, reply: Reply)
  {
    && v.intents == w.intents + [Intent(input.credentialId, input.channel, biller, recipient, input.amount,
                                        FirstStatus(verdict, reply), input.key, w.now)]
    && v.calls == w.calls + (if verdict == Allow then [input.key] else [])
    && v.cosigns == (if verdict == Escalate then w.cosigns[|w.intents| := CosignPending] else w.cosigns)
    && v.credentials == w.credentials
  }

  /** Its transaction row, and the one line it adds to the log. */
  ghost predicate Recorded(w: World, v: World, input: Input, d: Decision, reply: Reply) {
    var id, amount := |w.intents|, input.amount;
    && input.credentialId in w.credentials
    && v.transactions == (if d.verdict == Allow && reply.Settled? then
         w.transactions[id := Transaction(reply.providerRef,
                                          if reply.token == Some("") then None else reply.token, w.now)]
         else w.transactions)
    && v.audit == w.audit + [AuditEvent(w.credentials[input.credentialId].accountId, AiAgent,
         if d.verdict == Deny then PaymentDenied(id, amount, d.reasons)
         else if d.verdict == Escalate then PaymentEscalated(id, amount, d.reasons)
         else if reply.Settled? then PaymentExecuted(id, amount, reply.providerRef)
         else if reply.InFlight? then PaymentPendingResolution(id, amount, reply.providerRef)
         else PaymentFailed(id, amount))]
  }

  /**
   * A new payment, whole: it is answered as the rules say, its row holds what was asked for, it is charged at once
   * exactly if it is allowed, held with a request to the trusted contact exactly if it needs one, and nothing at all
   * is left of it if its row cannot be stored.
   */
  lemma InitiationFollows(w: World, input: Input, hours: Hours, reply: Reply, biller: Option<string>,
                          recipient: Option<string>, verdict: Verdict)
    requires Asks(w, input, hours, biller, recipient, verdict)
    requires forall i :: 0 <= i < |w.intents| ==> w.intents[i].key != input.key
    ensures var (v, out) := Initiate(w, input, hours, reply);
      if !Fits(w, biller, input.amount, verdict == Escalate) then v == w && out == Rejected(RolledBack)
      else
        && out.Returned? && out.id == |w.intents| && out.decision.verdict == verdict
        && Reasoned(w, input, hours, biller, recipient, out.decision.reasons)
        && Opened(w, v, input, biller, recipient, verdict, reply) && Recorded(w, v, input, out.decision, reply)
  {
    RulesDecide(w, input, hours, biller, recipient, verdict);
    if FindKey(w.intents, input.key).None? && Fits(w, biller, input.amount, verdict == Escalate) {
      OpenFollows(w, input, DecisionNow(w, RowOf(w, input, Allow), hours), reply, biller, recipient);
    }
  }

  /** An unknown credential is refused, and nothing is left of the input. */
  lemma UnknownIsRefused(w: World, input: Input, hours: Hours, reply: Reply)
    requires input.credentialId !in w.credentials
    requires forall i :: 0 <= i < |w.intents| ==> w.intents[i].key != input.key
    ensures Initiate(w, input, hours, reply) == (w, Rejected(CredentialNotFound))
  {
    assert FindKey(w.intents, input.key).None?;
  }

  /** A used key whose decision were missing would be answered by the status: ALLOW if paid, ESCALATE if held. */
  lemma ReplayWithoutDecision(w: World, id: nat, input: Input, hours: Hours, reply: Reply)
    requires id < |w.intents| && w.intents[id].key == input.key && id !in w.decisions
    ensures var (v, out) := Initiate(w, input, hours, reply);
      && v == w && out.Returned? && out.id == id && out.decision.reasons == []
      && (out.decision.verdict == Allow <==> w.intents[id].status == Executed)
      && (out.decision.verdict == Escalate <==> w.intents[id].status == Escalated)
  {
    assert FindKey(w.intents, input.key) == Some(id);
  }

  lemma OpenFollows(w: World, input: Input, d: Decision, reply: Reply, biller: Option<string>,
                    recipient: Option<string>)
    requires input.credentialId in w.credentials && FindKey(w.intents, input.key).None?
    requires biller == (if input.billerId == Some("") then None else input.billerId)
    requires recipient == (if input.recipient == Some("") then None else input.recipient)
    ensures var v := Open(w, input, d, reply);
      Opened(w, v, input, biller, recipient, d.verdict, reply) && Recorded(w, v, input, d, reply)
  {
    if d.verdict == Allow {
      var saved := Commit(w, input, d);
      assert |w.intents| !in w.transactions;
      ChargeWrites(saved, |w.intents|, AiAgent, false, reply);
      ChargeFollows(w, saved, Open(w, input, d, reply), input, d, reply, biller, recipient);
    } else {
      HoldFollows(w, input, d, reply, biller, recipient);
    }
  }

  lemma HoldFollows(w: World, input: Input, d: Decision, reply: Reply, biller: Option<string>,
                    recipient: Option<string>)
    requires input.credentialId in w.credentials && FindKey(w.intents, input.key).None? && d.verdict != Allow
    requires biller == (if input.billerId == Some("") then None else input.billerId)
    requires recipient == (if input.recipient == Some("") then None else input.recipient)
    ensures var v := Open(w, input, d, reply);
      Opened(w, v, input, biller, recipient, d.verdict, reply) && Recorded(w, v, input, d, reply)
  {
  }

  lemma ChargeFollows(w: World, saved: World, v: World, input: Input, d: Decision, reply: Reply,
                      biller: Option<string>, recipient: Option<string>)
    requires input.credentialId in w.credentials && d.verdict == Allow && |w.intents| !in w.transactions
    requires biller == (if input.billerId == Some("") then None else input.billerId)
    requires recipient == (if input.recipient == Some("") then None else input.recipient)
    requires saved.intents == w.intents + [RowOf(w, input, Allow)] && saved.cosigns == w.cosigns
    requires saved.calls == w.calls && saved.transactions == w.transactions && saved.audit == w.audit
    requires saved.credentials == w.credentials && saved.now == w.now
    requires ChargeWrote(saved, v, |w.intents|, AiAgent, false, reply) && v.credentials == w.credentials
    ensures Opened(w, v, input, biller, recipient, Allow, reply) && Recorded(w, v, input, d, reply)
  {
  }

  // ---- an approval ------------------------------------------------------------------------------------------------

  /** A held intent, as its approval finds it: what the rules make of it now. */
  ghost predicate AsksAgain(w: World, id: nat, hours: Hours, broken: bool) {
    && id < |w.intents| && w.intents[id].status == Escalated
    && var row := w.intents[id];
    && broken == Breaks(w.credentials[row.credentialId], row.channel,
                        if row.billerId == Some("") then None else row.billerId,
                        if row.recipient == Some("") then None else row.recipient,
                        row.amount, SpentSince(w.intents, row.credentialId, w.now.month), hours)
  }

  /** Each reason is given to a held intent exactly if there is cause for it now. */
  ghost predicate ReasonedAgain(w: World, id: nat, hours: Hours, reasons: seq<Reason>)
    requires id < |w.intents|
  {
    var row := w.intents[id];
    GivenFor(reasons, w.credentials[row.credentialId], row.channel,
             if row.billerId == Some("") then None else row.billerId,
             if row.recipient == Some("") then None else row.recipient,
             row.amount, SpentSince(w.intents, row.credentialId, w.now.month), hours)
  }

  /** What an answered intent leaves: its row, the calls made for it, its cosign row. */
  ghost predicate Concluded(w: World, v: World, id: nat, paid: bool, reply: Reply)
    requires id < |w.intents|
  {
    var row := w.intents[id];
    && v.intents == w.intents[id := row.(status := if paid then ReplyStatus(reply) else Voided)]
    && v.calls == w.calls + (if paid then [row.key] else [])
    && v.cosigns == w.cosigns[id := if paid && ReplyStatus(reply) != Failed then CosignApproved else CosignDenied]
  }

  /** Its transaction row, and the line added to the log. */
  ghost predicate Booked(w: World, v: World, id: nat, paid: bool, reply: Reply)
    requires id < |w.intents|
  {
    var amount := w.intents[id].amount;
    && v.transactions == (if paid && reply.Settled? then
         w.transactions[id := Transaction(reply.providerRef,
                                          if reply.token == Some("") then None else reply.token, w.now)]
         else w.transactions)
    && v.audit == w.audit + [AuditEvent(w.credentials[w.intents[id].credentialId].accountId, System,
         if !paid then PaymentVoided(id)
         else if reply.Settled? then PaymentExecuted(id, amount, reply.providerRef)
         else if reply.InFlight? then PaymentPendingResolution(id, amount, reply.providerRef)
         else PaymentFailed(id, amount))]
  }

  lemma HandledAs(w: World, heard: World, answer: Answer, hours: Hours, reply: Reply, broken: bool)
    requires AsksAgain(w, answer.id, hours, broken) && heard == w.(answers := heard.answers)
    ensures Handle(heard, answer, hours, reply)
      == if answer.approve && !broken then Charge(heard, answer.id, System, true, reply) else Void(heard, answer.id).0
  {
    var row := w.intents[answer.id];
    VerdictFollows(RequestOf(row), w.credentials[row.credentialId],
                   Context(SpentSince(w.intents, row.credentialId, w.now.month), hours));
  }

  /** An approved intent is charged exactly if nothing is broken by then, and voided otherwise; a denied one voided. */
  lemma ApprovalFollows(w: World, id: nat, approve: bool, hours: Hours, reply: Reply, broken: bool)
    requires Inv(w) && AsksAgain(w, id, hours, broken)
    ensures var v := Resolve(w, Answer(id, approve), hours, reply);
      Concluded(w, v, id, approve && !broken, reply) && Booked(w, v, id, approve && !broken, reply)
  {
    var heard: World := w.(answers := w.answers + {Answer(id, approve)});
    assert Coherent(ViewOf(w, id));
    HandledAs(w, heard, Answer(id, approve), hours, reply, broken);
    if approve && !broken {
      ChargeWrites(heard, id, System, true, reply);
      PaidFollows(w, heard, Charge(heard, id, System, true, reply), id, reply);
    } else {
      VoidWrites(heard, id);
      VoidFollows(w, heard, Void(heard, id).0, id, reply);
    }
  }

  /**
   * What a resume is answered: done exactly if the intent is held and nothing is broken. Otherwise it says why: there
   * is no such intent, it is not held, its credential is revoked, or which of its rules are broken.
   */
  lemma ResumeSays(w: World, id: nat, hours: Hours, reply: Reply, broken: bool)
    requires id < |w.intents| && w.intents[id].status == Escalated ==> AsksAgain(w, id, hours, broken)
    ensures var (v, out) := Resume(w, id, hours, reply);
      if id >= |w.intents| then v == w && out == Error(IntentNotFound)
      else if w.intents[id].status != Escalated then v == w && out == Error(NotEscalated)
      else if !broken then out == Done
      else if w.credentials[w.intents[id].credentialId].revoked then out == Error(RevokedBeforeResume)
      else out.Error? && out.error.DeniedOnResume? && ReasonedAgain(w, id, hours, out.error.reasons)
  {
    if id < |w.intents| {
      var row := w.intents[id];
      var cred, ctx := w.credentials[row.credentialId],
                       Context(SpentSince(w.intents, row.credentialId, w.now.month), hours);
      VerdictFollows(RequestOf(row), cred, ctx);
      ReasonsAreGivenFor(RequestOf(row), cred, ctx);
    }
  }

  lemma PaidFollows(w: World, heard: World, v: World, id: nat, reply: Reply)
    requires id < |w.intents| && heard == w.(answers := heard.answers)
    requires id in w.cosigns && w.cosigns[id] == CosignPending && id !in w.transactions
    requires ChargeWrote(heard, v, id, System, true, reply)
    ensures Concluded(w, v, id, true, reply) && Booked(w, v, id, true, reply)
  {
  }

  lemma VoidFollows(w: World, heard: World, v: World, id: nat, reply: Reply)
    requires id < |w.intents| && heard == w.(answers := heard.answers)
    requires id in w.cosigns && w.cosigns[id] == CosignPending
    requires VoidWrote(heard, v, id)
    ensures Concluded(w, v, id, false, reply) && Booked(w, v, id, false, reply)
  {
  }

  /** A requery of a pending charge: paid and logged as such, failed and logged as such, or nothing at all. */
  lemma RequeryFollows(w: World, id: nat, reply: Reply)
    requires id < |w.intents| && w.intents[id].status == Allowed && id !in w.transactions
    ensures var v, row := Requery(w, id, reply).0, w.intents[id];
      var account := w.credentials[row.credentialId].accountId;
      match reply
      case Settled(ref, token) =>
        && v.intents == w.intents[id := row.(status := Executed)]
        && v.transactions == w.transactions[id := Transaction(ref, if token == Some("") then None else token, w.now)]
        && v.audit == w.audit + [AuditEvent(account, System, PaymentExecuted(id, row.amount, ref))]
      case Refused =>
        && v.intents == w.intents[id := row.(status := Failed)] && v.transactions == w.transactions
        && v.audit == w.audit + [AuditEvent(account, System, PaymentFailed(id, row.amount))]
      case _ => v == w
  {
  }

  /** What a void and a requery are answered, and that neither touches anything where there is nothing for it to do. */
  lemma OthersSay(w: World, id: nat, reply: Reply)
    ensures Void(w, id).1 == (if id < |w.intents| then Done else Error(IntentNotFound))
    ensures Requery(w, id, reply).1 == (if id < |w.intents| then Done else Error(IntentNotFound))
    ensures id >= |w.intents| ==> Void(w, id).0 == w
    ensures id >= |w.intents| || w.intents[id].status != Allowed ==> Requery(w, id, reply).0 == w
  {
  }

  /** A revocation marks its credential, in the owner's name, and changes nothing else; an unknown one does nothing. */
  lemma RevocationFollows(w: World, c: string)
    ensures c !in w.credentials ==> Revoke(w, c) == w
    ensures c in w.credentials ==>
      && Revoke(w, c).credentials.Keys == w.credentials.Keys
      && Revoke(w, c).credentials[c] == Credential(w.credentials[c].accountId, true, w.credentials[c].rules)
      && (forall d :: d in w.credentials && d != c ==> Revoke(w, c).credentials[d] == w.credentials[d])
      && Revoke(w, c).audit == w.audit + [AuditEvent(w.credentials[c].accountId, Owner, CredentialWasRevoked(c))]
      && (var v := Revoke(w, c);
          v == w.(credentials := v.credentials, audit := v.audit))
  {
  }

  // ---- every payment that was charged or held --------------------------------------------------------------------

  /** The row keeps to the per-payment caps, the allowlists, the locks and the scopes of its credential. */
  ghost predicate Keeps(cred: Credential, row: Intent) {
    && row.amount > 0
    && (forall limit :: SpendCapPerTx(limit) in cred.rules ==> row.amount <= limit)
    && (forall ids :: BillerAllowlist(ids) in cred.rules && row.billerId.Some? ==> row.billerId.value in ids)
    && (forall rs :: RecipientLock(rs) in cred.rules && row.recipient.Some? ==> row.recipient.value in rs)
    && (forall cs :: ChannelScope(cs) in cred.rules ==> row.channel in cs)
  }

  ghost predicate Whole(row: Intent) {
    row.billerId != Some("") && row.recipient != Some("")
  }

  /** Whatever is not DENIED keeps to its rules, and went to the trusted contact exactly if a threshold says so. */
  ghost predicate RowIsPermitted(w: World, i: nat)
    requires i < |w.intents|
  {
    var cred, row := w.credentials[w.intents[i].credentialId], w.intents[i];
    && Whole(row)
    && (row.status != Denied ==> Keeps(cred, row) && (i in w.cosigns <==> OverThreshold(cred.rules, row.amount)))
    && (row.status == Denied ==> i !in w.cosigns)
  }

  ghost predicate AllPermitted(w: World) {
    forall i :: 0 <= i < |w.intents| ==> RowIsPermitted(w, i)
  }

  /** Later on the row is the same but for its status, which becomes or leaves DENIED never. */
  lemma StaysPermitted(w: World, v: World, i: nat)
    requires Inv(w) && Inv(v) && SpineRuns.Later(w, v) && i < |w.intents| && RowIsPermitted(w, i)
    ensures i < |v.intents| && RowIsPermitted(v, i)
  {
    assert Coherent(ViewOf(w, i)) && Coherent(ViewOf(v, i));
    assert v.decisions[i] == w.decisions[i];
  }

  lemma NewRowIsPermitted(w: World, v: World, input: Input, hours: Hours, biller: Option<string>,
                          recipient: Option<string>, verdict: Verdict, reply: Reply)
    requires Inv(w) && Asks(w, input, hours, biller, recipient, verdict)
    requires Opened(w, v, input, biller, recipient, verdict, reply)
    ensures RowIsPermitted(v, |w.intents|)
  {
    assert |w.intents| !in w.cosigns;
  }

  lemma StepIsPermitted(w: World, e: Event)
    requires Inv(w) && AllPermitted(w)
    ensures AllPermitted(Step(w, e))
  {
    StepKeeps(w, e);
    SpineRuns.StepIsLater(w, e);
    AllStayPermitted(w, Step(w, e));
    if |Step(w, e).intents| > |w.intents| {
      NewestIsPermitted(w, e);
    }
  }

  lemma AllStayPermitted(w: World, v: World)
    requires Inv(w) && Inv(v) && SpineRuns.Later(w, v) && AllPermitted(w)
    ensures |w.intents| <= |v.intents| && forall i :: 0 <= i < |w.intents| ==> RowIsPermitted(v, i)
  {
    forall i | 0 <= i < |w.intents| ensures i < |v.intents| && RowIsPermitted(v, i) {
      StaysPermitted(w, v, i);
    }
  }

  lemma NewestIsPermitted(w: World, e: Event)
    requires Inv(w) && |Step(w, e).intents| > |w.intents|
    ensures |Step(w, e).intents| == |w.intents| + 1 && RowIsPermitted(Step(w, e), |w.intents|)
  {
    GrowsByInitiating(w, e);
    InitiateIsPermitted(w, e.input, e.hours, e.reply);
  }

  lemma GrowsByInitiating(w: World, e: Event)
    requires Inv(w) && |Step(w, e).intents| > |w.intents|
    ensures e.Initiated? && FindKey(w.intents, e.input.key).None? && e.input.credentialId in w.credentials
    ensures |Step(w, e).intents| == |w.intents| + 1
  {
    SpineSteps.StepShape(w, e);
  }

  lemma InitiateIsPermitted(w: World, input: Input, hours: Hours, reply: Reply)
    requires Inv(w) && FindKey(w.intents, input.key).None? && input.credentialId in w.credentials
    requires |Initiate(w, input, hours, reply).0.intents| == |w.intents| + 1
    ensures RowIsPermitted(Initiate(w, input, hours, reply).0, |w.intents|)
  {
    var biller := if input.billerId == Some("") then None else input.billerId;
    var recipient := if input.recipient == Some("") then None else input.recipient;
    var cred, spent := w.credentials[input.credentialId], SpentSince(w.intents, input.credentialId, w.now.month);
    var verdict := if Breaks(cred, input.channel, biller, recipient, input.amount, spent, hours) then Deny
                   else if OverThreshold(cred.rules, input.amount) then Escalate else Allow;
    var v := Initiate(w, input, hours, reply).0;
    InitiationFollows(w, input, hours, reply, biller, recipient, verdict);
    NewRowIsPermitted(w, v, input, hours, biller, recipient, verdict, reply);
  }

  /**
   * In every state of every run whose steps do not overlap: a payment that was ever charged or held has a positive
   * amount within every per-payment cap, a biller that is absent or on every allowlist, a recipient that is absent
   * or in every lock, and a channel in every scope; and it was held exactly if it is above some cosign threshold.
   */
  lemma {:induction false} RunsArePermitted(w: World, es: seq<Event>)
    requires Fresh(w)
    ensures AllPermitted(Run(w, es))
  {
    if es == [] {
    } else {
      var past := es[..|es| - 1];
      RunsArePermitted(w, past);
      FreshHolds(w);
      RunKeeps(w, past);
      StepIsPermitted(Run(w, past), es[|es| - 1]);
    }
  }
}
