/**
 * The master invariant of the payment spine: what every reachable state says about each intent, its
 * decision, cosign request, transaction, provider calls and audit trail, and how an intent may move.
 */
module SpineInvariant {
  import opened Basics
  import opened Policy
  import opened Spine

  function StatusAfter(entry: Entry): Status {
    match entry
    case PaymentExecuted(_, _, _) => Executed
    case PaymentPendingResolution(_, _, _) => Allowed
    case PaymentFailed(_, _) => Failed
    case PaymentEscalated(_, _, _) => Escalated
    case PaymentDenied(_, _, _) => Denied
    case PaymentVoided(_) => Voided
    case CredentialWasRevoked(_) => Pending
  }

  predicate Concerns(entry: Entry, id: nat) {
    !entry.CredentialWasRevoked? && entry.id == id
  }

  /** The status the last audit event about an intent stands for. */
  function LoggedStatus(audit: seq<AuditEvent>, id: nat): Option<Status> {
    if audit == [] then None
    else
      var last := audit[|audit| - 1].entry;
      if Concerns(last, id) then Some(StatusAfter(last)) else LoggedStatus(audit[..|audit| - 1], id)
  }

  /** Everything the state holds about one intent. */
  datatype View = View(
    row: Intent, decision: Option<Decision>, cosign: Option<CosignStatus>, transaction: Option<Transaction>,
    calls: nat, logged: Option<Status>)

  function ViewOf(w: World, id: nat): View
    requires id < |w.intents|
  {
    View(w.intents[id], Get(w.decisions, id), Get(w.cosigns, id), Get(w.transactions, id),
         multiset(w.calls)[w.intents[id].key], LoggedStatus(w.audit, id))
  }

  predicate Charged(status: Status) {
    status == Allowed || status == Executed || status == Failed
  }

  predicate Coherent(v: View) {
    && v.decision.Some?
    && var verdict, status := v.decision.value.verdict, v.row.status;
    && status != Pending
    && (status == Executed <==> v.transaction.Some?)
    && (status == Escalated <==> v.cosign == Some(CosignPending))
    && (verdict == Deny <==> status == Denied)
    && (verdict == Allow ==> Charged(status))
    && (status == Voided ==> verdict == Escalate && v.cosign == Some(CosignDenied))
    && (verdict == Escalate <==> v.cosign.Some?)
    && (verdict == Escalate && (status == Allowed || status == Executed) ==> v.cosign == Some(CosignApproved))
    && v.cosign != Some(CosignExpired)
    && v.calls == (if Charged(status) then 1 else 0)
    && v.logged == Some(status)
    && (verdict != Deny ==> v.row.amount > 0)
  }

  /** The master invariant; skip names an intent still being written, or -1. */
  ghost predicate InvExcept(w: World, skip: int) {
    && (forall i :: 0 <= i < |w.intents| && i != skip ==> Coherent(ViewOf(w, i)))
    && (forall i :: 0 <= i < |w.intents| ==> w.intents[i].createdAt.NotAfter(w.now))
    && (forall k :: k in w.calls ==> FindKey(w.intents, k).Some?)
    && (forall e :: e in w.audit ==> e.entry.CredentialWasRevoked? || e.entry.id < |w.intents|)
    && (forall a :: a in w.answers && a.id != skip ==> Answered(w, a))
  }

  ghost predicate Inv(w: World) {
    InvExcept(w, -1)
  }

  /** An answer that has been handled left the cosign request closed, and a denial left the intent voided. */
  predicate Answered(w: World, a: Answer) {
    && a.id < |w.intents|
    && w.intents[a.id].status != Escalated
    && (!a.approve ==> w.intents[a.id].status == Voided)
  }

  // ---- how an intent may move -----------------------------------------------------------------------

  function Rank(status: Status): nat {
    match status case Escalated => 2 case Allowed => 1 case _ => 0
  }

  /** The only moves: a held intent is charged or voided, a pending charge settles or fails. */
  predicate MayMove(before: Status, after: Status) {
    || before == after
    || (before == Escalated && (Charged(after) || after == Voided))
    || (before == Allowed && (after == Executed || after == Failed))
  }

  /** Between two states of a run: rows keep all but their status, decisions stay, the log only grows. */
  ghost predicate Evolves(w: World, v: World) {
    && |w.intents| <= |v.intents|
    && (forall i :: 0 <= i < |w.intents| ==> v.intents[i] == w.intents[i].(status := v.intents[i].status))
    && (forall i :: i in w.decisions ==> i in v.decisions && v.decisions[i] == w.decisions[i])
    && w.audit <= v.audit
    && w.answers <= v.answers
    && w.credentials.Keys == v.credentials.Keys
    && (forall c :: c in w.credentials ==>
          v.credentials[c] == w.credentials[c].(revoked := v.credentials[c].revoked)
          && (w.credentials[c].revoked ==> v.credentials[c].revoked))
    && w.now.NotAfter(v.now)
  }

  // ---- frames ---------------------------------------------------------------------------------------

  lemma LogFrame(audit: seq<AuditEvent>, e: AuditEvent, id: nat)
    ensures LoggedStatus(audit + [e], id)
         == if Concerns(e.entry, id) then Some(StatusAfter(e.entry)) else LoggedStatus(audit, id)
  {
    assert (audit + [e])[..|audit|] == audit;
  }

  lemma {:induction false} UnloggedId(audit: seq<AuditEvent>, id: nat)
    requires forall e :: e in audit ==> e.entry.CredentialWasRevoked? || e.entry.id < id
    ensures LoggedStatus(audit, id) == None
  {
    if audit == [] {
    } else {
      UnloggedId(audit[..|audit| - 1], id);
    }
  }

  lemma FindKeyIsUnique(w: World, id: nat)
    requires id < |w.intents|
    ensures FindKey(w.intents, w.intents[id].key) == Some(id)
  {
  }

  /** Two states agree about every intent but one. */
  ghost predicate SameBut(w: World, v: World, id: nat) {
    forall i :: 0 <= i < |w.intents| && i != id && i < |v.intents| ==> ViewOf(v, i) == ViewOf(w, i)
  }

  function ChargedCosign(before: Option<CosignStatus>, resumed: bool, status: Status): Option<CosignStatus> {
    if resumed && before == Some(CosignPending)
    then Some(if status == Failed then CosignDenied else CosignApproved) else before
  }

  lemma ChargeView(w: World, id: nat, actor: Actor, resumed: bool, reply: Reply)
    requires id < |w.intents|
    ensures var v := Charge(w, id, actor, resumed, reply);
      && SameBut(w, v, id)
      && var before, status := ViewOf(w, id), StatusOn(reply, id in w.transactions);
      && ViewOf(v, id) == View(
           before.row.(status := status), before.decision, ChargedCosign(before.cosign, resumed, status),
           if status == Executed then Some(Transaction(reply.providerRef, NonEmpty(reply.token), w.now))
           else before.transaction,
           before.calls + 1, Some(status))
  {
    var v := Charge(w, id, actor, resumed, reply);
    ChargeWrites(w, id, actor, resumed, reply);
    ChargeViewFromWrites(w, v, id, actor, resumed, reply);
  }

  ghost predicate ChargeWrote(w: World, v: World, id: nat, actor: Actor, resumed: bool, reply: Reply)
    requires id < |w.intents|
  {
    var row, status := w.intents[id], StatusOn(reply, id in w.transactions);
    && v.intents == w.intents[id := row.(status := status)]
    && v.decisions == w.decisions
    && v.calls == w.calls + [row.key]
    && v.cosigns == (if resumed && id in w.cosigns && w.cosigns[id] == CosignPending
         then w.cosigns[id := if status == Failed then CosignDenied else CosignApproved] else w.cosigns)
    && v.transactions == (if status == Executed
         then w.transactions[id := Transaction(reply.providerRef, NonEmpty(reply.token), w.now)] else w.transactions)
    && v.audit == w.audit + [AuditEvent(AccountOf(w, id), actor, ChargeEntry(id, row.amount, reply, status))]
  }

  lemma ChargeWrites(w: World, id: nat, actor: Actor, resumed: bool, reply: Reply)
    requires id < |w.intents|
    ensures ChargeWrote(w, Charge(w, id, actor, resumed, reply), id, actor, resumed, reply)
  {
  }

  lemma ChargeViewFromWrites(w: World, v: World, id: nat, actor: Actor, resumed: bool, reply: Reply)
    requires id < |w.intents| && ChargeWrote(w, v, id, actor, resumed, reply)
    ensures SameBut(w, v, id)
    ensures var before, status := ViewOf(w, id), StatusOn(reply, id in w.transactions);
      ViewOf(v, id) == View(
        before.row.(status := status), before.decision, ChargedCosign(before.cosign, resumed, status),
        if status == Executed then Some(Transaction(reply.providerRef, NonEmpty(reply.token), w.now))
        else before.transaction,
        before.calls + 1, Some(status))
  {
    var status := StatusOn(reply, id in w.transactions);
    var e := AuditEvent(AccountOf(w, id), actor, ChargeEntry(id, w.intents[id].amount, reply, status));
    forall i | 0 <= i < |w.intents| && i != id ensures ViewOf(v, i) == ViewOf(w, i) {
      assert w.intents[i].key != w.intents[id].key;
      LogFrame(w.audit, e, i);
    }
    LogFrame(w.audit, e, id);
  }

  lemma VoidView(w: World, id: nat)
    requires id < |w.intents|
    ensures var v := Void(w, id).0;
      && SameBut(w, v, id)
      && var before := ViewOf(w, id);
      && ViewOf(v, id) == before.(row := before.row.(status := Voided), logged := Some(Voided),
           cosign := if before.cosign == Some(CosignPending) then Some(CosignDenied) else before.cosign)
  {
    VoidWrites(w, id);
    VoidViewFromWrites(w, Void(w, id).0, id);
  }

  ghost predicate VoidWrote(w: World, v: World, id: nat)
    requires id < |w.intents|
  {
    && v.intents == w.intents[id := w.intents[id].(status := Voided)]
    && v.decisions == w.decisions && v.transactions == w.transactions && v.calls == w.calls
    && v.cosigns == (if id in w.cosigns && w.cosigns[id] == CosignPending
         then w.cosigns[id := CosignDenied] else w.cosigns)
    && v.audit == w.audit + [AuditEvent(AccountOf(w, id), System, PaymentVoided(id))]
  }

  lemma VoidWrites(w: World, id: nat)
    requires id < |w.intents|
    ensures VoidWrote(w, Void(w, id).0, id)
  {
  }

  lemma VoidViewFromWrites(w: World, v: World, id: nat)
    requires id < |w.intents| && VoidWrote(w, v, id)
    ensures SameBut(w, v, id)
    ensures var before := ViewOf(w, id);
      ViewOf(v, id) == before.(row := before.row.(status := Voided), logged := Some(Voided),
        cosign := if before.cosign == Some(CosignPending) then Some(CosignDenied) else before.cosign)
  {
    var e := AuditEvent(AccountOf(w, id), System, PaymentVoided(id));
    forall i | 0 <= i < |w.intents| && i != id ensures ViewOf(v, i) == ViewOf(w, i) {
      LogFrame(w.audit, e, i);
    }
    LogFrame(w.audit, e, id);
  }

  lemma RequeryView(w: World, id: nat, reply: Reply)
    requires id < |w.intents|
    ensures var v := Requery(w, id, reply).0;
      && SameBut(w, v, id)
      && var before, after := ViewOf(w, id), ViewOf(v, id);
      && if before.row.status == Allowed && before.transaction.None? && reply.Settled? then
           after == before.(row := before.row.(status := Executed), logged := Some(Executed),
                            transaction := Some(Transaction(reply.providerRef, NonEmpty(reply.token), w.now)))
         else if before.row.status == Allowed && before.transaction.None? && reply.Refused? then
           after == before.(row := before.row.(status := Failed), logged := Some(Failed))
         else v == w
  {
    var v := Requery(w, id, reply).0;
    if v != w {
      var e := v.audit[|w.audit|];
      forall i
        ensures LoggedStatus(v.audit, i) == if i == id then Some(v.intents[id].status) else LoggedStatus(w.audit, i)
      {
        LogFrame(w.audit, e, i);
      }
    }
  }

  /** A committed row's view, before anything is logged for it. */
  lemma CommitView(w: World, input: Input, d: Decision)
    requires Inv(w)
    requires input.credentialId in w.credentials && FindKey(w.intents, input.key).None?
    ensures var v := Commit(w, input, d); var id := |w.intents|;
      && SameBut(w, v, id)
      && ViewOf(v, id) == View(RowOf(w, input, d.verdict), Some(d),
           if d.verdict == Escalate then Some(CosignPending) else None, None, 0, None)
  {
    UnloggedId(w.audit, |w.intents|);
    assert input.key !in w.calls;
  }

  // ---- every step keeps the invariant -----------------------------------------------------------------

  /** An intent about to be charged: allowed and never called, or held with its cosign pending. */
  predicate Ready(v: View, resumed: bool) {
    && v.decision.Some? && v.transaction.None? && v.calls == 0 && v.row.amount > 0
    && (if resumed then v.decision.value.verdict == Escalate && v.cosign == Some(CosignPending)
        else v.decision.value.verdict == Allow && v.cosign.None?)
  }

  lemma ChargeKeeps(w: World, id: nat, actor: Actor, resumed: bool, reply: Reply)
    requires id < |w.intents| && InvExcept(w, id) && Ready(ViewOf(w, id), resumed)
    requires forall a :: a in w.answers && a.id == id ==> a.approve
    ensures Inv(Charge(w, id, actor, resumed, reply))
  {
    ChargeWrites(w, id, actor, resumed, reply);
    ChargedHolds(w, Charge(w, id, actor, resumed, reply), id, actor, resumed, reply);
  }

  lemma ChargedHolds(w: World, v: World, id: nat, actor: Actor, resumed: bool, reply: Reply)
    requires id < |w.intents| && InvExcept(w, id) && Ready(ViewOf(w, id), resumed)
    requires forall a :: a in w.answers && a.id == id ==> a.approve
    requires ChargeWrote(w, v, id, actor, resumed, reply) && v.answers == w.answers && v.now == w.now
    ensures Inv(v)
  {
    ChargeViewFromWrites(w, v, id, actor, resumed, reply);
    forall i | 0 <= i < |v.intents| ensures Coherent(ViewOf(v, i)) { }
    forall k | k in v.calls ensures FindKey(v.intents, k).Some? {
      CalledKeyIsFound(w, v, id, k);
    }
  }

  lemma CalledKeyIsFound(w: World, v: World, id: nat, k: string)
    requires id < |w.intents| == |v.intents| && v.calls == w.calls + [w.intents[id].key] && k in v.calls
    requires v.intents == w.intents[id := w.intents[id].(status := v.intents[id].status)]
    requires k in w.calls ==> FindKey(w.intents, k).Some?
    ensures FindKey(v.intents, k).Some?
  {
    var i := if k in w.calls then FindKey(w.intents, k).value else id;
    assert v.intents[i].key == k;
  }

  lemma VoidKeeps(w: World, id: nat)
    requires id < |w.intents| && InvExcept(w, id)
    requires var v := ViewOf(w, id);
      (v.row.status == Escalated || v.row.status == Voided) && Coherent(v)
    ensures Inv(Void(w, id).0)
  {
    VoidView(w, id);
    MoveKeeps(w, Void(w, id).0, id, AuditEvent(AccountOf(w, id), System, PaymentVoided(id)));
  }

  /** A move of one intent that leaves its view coherent, calls nobody and logs one line about it. */
  lemma MoveKeeps(w: World, v: World, id: nat, e: AuditEvent)
    requires id < |w.intents| && InvExcept(w, id) && SameBut(w, v, id)
    requires |v.intents| == |w.intents| && v.intents == w.intents[id := w.intents[id].(status := v.intents[id].status)]
    requires v.calls == w.calls && v.answers == w.answers && v.now == w.now
    requires v.audit == w.audit + [e] && Concerns(e.entry, id)
    requires Coherent(ViewOf(v, id))
    requires forall a :: a in v.answers && a.id == id ==> Answered(v, a)
    ensures Inv(v)
  {
    forall i | 0 <= i < |v.intents| ensures Coherent(ViewOf(v, i)) { }
    forall k | k in v.calls ensures FindKey(v.intents, k).Some? {
      assert v.intents[FindKey(w.intents, k).value].key == k;
    }
  }

  lemma RequeryKeeps(w: World, id: nat, reply: Reply)
    requires Inv(w)
    ensures Inv(Requery(w, id, reply).0)
  {
    var v := Requery(w, id, reply).0;
    if v != w {
      RequeryView(w, id, reply);
      assert Coherent(ViewOf(w, id));
      MoveKeeps(w, v, id, v.audit[|w.audit|]);
    }
  }

  lemma CommitKeeps(w: World, input: Input, d: Decision)
    requires Inv(w) && input.credentialId in w.credentials && FindKey(w.intents, input.key).None?
    ensures InvExcept(Commit(w, input, d), |w.intents|)
    ensures forall a :: a in w.answers ==> a.id < |w.intents|
  {
    var v := Commit(w, input, d);
    CommitView(w, input, d);
    forall i | 0 <= i < |w.intents| ensures Coherent(ViewOf(v, i)) { }
    forall k | k in v.calls ensures FindKey(v.intents, k).Some? {
      assert v.intents[FindKey(w.intents, k).value].key == k;
    }
  }

  /** Logging the outcome of a denied or escalated initiation completes its row. */
  lemma LogKeeps(w: World, id: nat, e: AuditEvent)
    requires id < |w.intents| && InvExcept(w, id)
    requires Concerns(e.entry, id) && Coherent(ViewOf(w, id).(logged := Some(StatusAfter(e.entry))))
    requires forall a :: a in w.answers ==> a.id != id
    ensures Inv(w.(audit := w.audit + [e]))
  {
    var v: World := w.(audit := w.audit + [e]);
    forall i | 0 <= i < |v.intents|
      ensures ViewOf(v, i) == if i == id then ViewOf(w, i).(logged := Some(StatusAfter(e.entry))) else ViewOf(w, i)
    {
      LogFrame(w.audit, e, i);
    }
  }

  lemma OpenKeeps(w: World, input: Input, d: Decision, reply: Reply)
    requires Inv(w) && input.credentialId in w.credentials && FindKey(w.intents, input.key).None?
    requires d.verdict != Deny ==> input.amount > 0
    ensures Inv(Open(w, input, d, reply))
  {
    var id := |w.intents|;
    var saved := Commit(w, input, d);
    CommitView(w, input, d);
    CommitKeeps(w, input, d);
    match d.verdict {
      case Allow => ChargeKeeps(saved, id, AiAgent, false, reply);
      case Escalate =>
        LogKeeps(saved, id, AuditEvent(AccountOf(saved, id), AiAgent, PaymentEscalated(id, input.amount, d.reasons)));
      case Deny =>
        LogKeeps(saved, id, AuditEvent(AccountOf(saved, id), AiAgent, PaymentDenied(id, input.amount, d.reasons)));
    }
  }

  lemma InitiateKeeps(w: World, input: Input, hours: Hours, reply: Reply)
    requires Inv(w)
    ensures Inv(Initiate(w, input, hours, reply).0)
  {
    if FindKey(w.intents, input.key).None? && input.credentialId in w.credentials {
      var row := RowOf(w, input, Allow);
      var d := DecisionNow(w, row, hours);
      if d.verdict != Deny {
        PassedIsSafe(RequestOf(row), w.credentials[row.credentialId],
                     Context(SpentSince(w.intents, row.credentialId, w.now.month), hours));
      }
      OpenKeeps(w, input, d, reply);
    }
  }

  lemma ResolveKeeps(w: World, answer: Answer, hours: Hours, reply: Reply)
    requires Inv(w)
    ensures Inv(Resolve(w, answer, hours, reply))
  {
    if CanResolve(w, answer.id) {
      var heard := w.(answers := w.answers + {answer});
      HearingKeeps(w, heard, answer);
      HandleKeeps(heard, answer, hours, reply);
    }
  }

  /** An answer put on record leaves every intent as it was. */
  lemma HearingKeeps(w: World, heard: World, answer: Answer)
    requires Inv(w) && CanResolve(w, answer.id) && heard == w.(answers := w.answers + {answer})
    ensures InvExcept(heard, answer.id) && Coherent(ViewOf(heard, answer.id))
    ensures heard.intents[answer.id].status == Escalated
    ensures forall a :: a in heard.answers && a.id == answer.id ==> a == answer
  {
    assert Coherent(ViewOf(w, answer.id));
    assert forall i :: 0 <= i < |w.intents| ==> ViewOf(heard, i) == ViewOf(w, i);
  }

  /** The one handler of an answer just put on record. */
  lemma HandleKeeps(heard: World, answer: Answer, hours: Hours, reply: Reply)
    requires answer.id < |heard.intents| && heard.intents[answer.id].status == Escalated
    requires InvExcept(heard, answer.id) && Coherent(ViewOf(heard, answer.id))
    requires forall a :: a in heard.answers && a.id == answer.id ==> a == answer
    ensures Inv(Handle(heard, answer, hours, reply))
  {
    var id := answer.id;
    if !answer.approve || heard.credentials[heard.intents[id].credentialId].revoked
      || DecisionNow(heard, heard.intents[id], hours).verdict == Deny {
      VoidKeeps(heard, id);
    } else {
      ChargeKeeps(heard, id, System, true, reply);
    }
  }

  /**
   * A second delivery that starts after the first has finished finds the intent charged or voided: it only repeats
   * the voided log line of a denial.
   */
  lemma RedeliveryIsInert(w: World, answer: Answer, hours: Hours, reply: Reply)
    requires Inv(w) && answer in w.answers
    ensures var v := Step(w, Redelivered(answer, hours, reply));
      v == if answer.approve then w
           else w.(audit := w.audit + [AuditEvent(AccountOf(w, answer.id), System, PaymentVoided(answer.id))])
  {
    assert Answered(w, answer);
    if !answer.approve {
      var row := w.intents[answer.id];
      assert Coherent(ViewOf(w, answer.id));
      assert w.intents[answer.id := row.(status := Voided)] == w.intents;
    }
  }

  lemma RedeliveryKeeps(w: World, answer: Answer, hours: Hours, reply: Reply)
    requires Inv(w)
    ensures Inv(Step(w, Redelivered(answer, hours, reply)))
  {
    if answer in w.answers {
      RedeliveryIsInert(w, answer, hours, reply);
      if !answer.approve {
        assert Answered(w, answer);
        VoidKeeps(w, answer.id);
      }
    }
  }

  lemma RevokeKeeps(w: World, credentialId: string)
    requires Inv(w)
    ensures Inv(Revoke(w, credentialId))
  {
    if credentialId in w.credentials {
      var v := Revoke(w, credentialId);
      var e := AuditEvent(w.credentials[credentialId].accountId, Owner, CredentialWasRevoked(credentialId));
      forall i | 0 <= i < |v.intents| ensures ViewOf(v, i) == ViewOf(w, i) {
        LogFrame(w.audit, e, i);
      }
    }
  }

  lemma StepKeeps(w: World, e: Event)
    requires Inv(w)
    ensures Inv(Step(w, e))
  {
    match e
    case Initiated(input, hours, reply) => InitiateKeeps(w, input, hours, reply);
    case Resolved(answer, hours, reply) => ResolveKeeps(w, answer, hours, reply);
    case Redelivered(answer, hours, reply) => RedeliveryKeeps(w, answer, hours, reply);
    case Requeried(id, reply) => RequeryKeeps(w, id, reply);
    case Revoked(credentialId) => RevokeKeeps(w, credentialId);
    case Ticked(to) =>
      if w.now.NotAfter(to) {
        var v: World := w.(now := to);
        assert forall i :: 0 <= i < |v.intents| ==> ViewOf(v, i) == ViewOf(w, i);
      }
  }

  /** The master invariant holds in every state of every run whose steps do not overlap. */
  lemma {:induction false} RunKeeps(w: World, es: seq<Event>)
    requires Inv(w)
    ensures Inv(Run(w, es))
  {
    if es == [] {
    } else {
      RunKeeps(w, es[..|es| - 1]);
      StepKeeps(Run(w, es[..|es| - 1]), es[|es| - 1]);
    }
  }

  /** Any credentials, billers and contact, at any time, are a database before its first payment. */
  lemma AnyStartIsFresh(now: Instant, billers: set<string>, contact: bool, credentials: map<string, Credential>)
    ensures var rows := Rows(now, billers, contact, credentials, [], map[], map[], map[], [], [], {});
      rows.Schema() && Fresh(rows)
  {
  }

  lemma FreshHolds(w: World)
    requires Fresh(w)
    ensures Inv(w)
  {
  }

  // ---- voidIntent has no guard of its own ---------------------------------------------------------------

  /** voidIntent checks no status: it keeps the invariant exactly when the intent is held, or voided already. */
  lemma VoidIsSafeOnlyIfHeld(w: World, id: nat)
    requires Inv(w) && id < |w.intents|
    ensures Inv(Void(w, id).0) <==> w.intents[id].status == Escalated || w.intents[id].status == Voided
  {
    assert Coherent(ViewOf(w, id));
    VoidView(w, id);
    var v := Void(w, id).0;
    if w.intents[id].status == Escalated || w.intents[id].status == Voided {
      forall a | a in w.answers && a.id == id ensures Answered(w, a) { }
      VoidKeeps(w, id);
    } else {
      assert ViewOf(v, id).row.status == Voided;
      assert !Coherent(ViewOf(v, id));
    }
  }

  /**
   * A denial that reaches an intent after it was paid marks it voided although the money moved: the
   * transaction row stays, and the amount drops out of the month's spend.
   */
  lemma LateDenialForgetsSpend(w: World, id: nat, hours: Hours, reply: Reply)
    requires Inv(w) && id < |w.intents| && w.intents[id].status == Executed
    ensures var v := Handle(w, Answer(id, false), hours, reply); var row := w.intents[id];
      && id in v.transactions && v.intents[id].status == Voided
      && SpentSince(v.intents, row.credentialId, row.createdAt.month)
           == SpentSince(w.intents, row.credentialId, row.createdAt.month) - row.amount
  {
    assert Coherent(ViewOf(w, id));
    var row := w.intents[id];
    SumUpdate(w.intents, id, row.(status := Voided), SpendSince(row.credentialId, row.createdAt.month));
  }
}
