/**
 * The services as they run: objects over one database whose rows they update in place. Every public
 * method is proved to do exactly what Spine.dfy and Agreement.dfy say it does to rows and cache.
 */
module Services {
  import opened Basics
  import opened Policy
  import opened Spine
  import opened SpineSteps
  import opened Agreement
  import MP = MockProvider

  /** The tables, and a ghost record of the provider calls and cosign answers made so far. */
  class Database {
    var now: Instant
    var billers: set<string>
    var hasTrustedContact: bool
    var credentials: map<string, Credential>
    var intents: seq<Intent>
    var decisions: map<nat, Decision>
    var cosigns: map<nat, CosignStatus>
    var transactions: map<nat, Transaction>
    var audit: seq<AuditEvent>
    ghost var calls: seq<string>
    ghost var answers: set<Answer>

    ghost function Tables(): Rows
      reads this
    {
      Rows(now, billers, hasTrustedContact, credentials, intents, decisions, cosigns, transactions,
           audit, calls, answers)
    }

    ghost predicate Valid()
      reads this
    {
      Tables().Schema()
    }

    ghost function World(): World
      requires Valid()
      reads this
    {
      Tables()
    }

    method UpdateStatus(id: nat, status: Status)
      requires Valid() && id < |intents|
      modifies this`intents
      ensures Valid() && World() == SetStatus(old(World()), id, status)
    {
      intents := intents[id := intents[id].(status := status)];
    }

    /** cosignRequest.updateMany where the row is pending */
    method ClosePendingCosign(id: nat, status: CosignStatus)
      requires Valid() && id < |intents|
      modifies this`cosigns
      ensures Valid() && World() == CloseCosign(old(World()), id, status)
    {
      if id in cosigns && cosigns[id] == CosignPending {
        cosigns := cosigns[id := status];
      }
    }

    method CreateTransaction(id: nat, providerRef: string, token: Option<string>)
      requires Valid() && id < |intents| && id !in transactions
      modifies this`transactions
      ensures Valid() && World() == AddTransaction(old(World()), id, providerRef, token)
    {
      transactions := transactions[id := Transaction(providerRef, NonEmpty(token), now)];
    }
  }

  class AuditService {
    const db: Database

    constructor (db: Database)
      ensures this.db == db
    {
      this.db := db;
    }

    method Log(accountId: string, actor: Actor, entry: Entry)
      requires db.Valid()
      modifies db`audit
      ensures db.Valid() && db.World() == Spine.Log(old(db.World()), accountId, actor, entry)
    {
      db.audit := db.audit + [AuditEvent(accountId, actor, entry)];
    }
  }

  class CredentialsController {
    const db: Database
    const audit: AuditService

    constructor (db: Database, audit: AuditService)
      requires audit.db == db
      ensures this.db == db && this.audit == audit
    {
      this.db, this.audit := db, audit;
    }

    /** False where the source answers 404. */
    method RevokeCredential(id: string) returns (found: bool)
      requires db.Valid() && audit.db == db
      modifies db`credentials, db`audit
      ensures found == (id in old(db.credentials))
      ensures db.Valid() && db.World() == Revoke(old(db.World()), id)
    {
      found := id in db.credentials;
      if found {
        var existing := db.credentials[id];
        db.credentials := db.credentials[id := existing.(revoked := true)];
        audit.Log(existing.accountId, Owner, CredentialWasRevoked(id));
      }
    }
  }

  /** From rig to rig': the intent is charged once, and the reply and cache are those of the mock. */
  ghost predicate Charges(rig: Rig, rig': Rig, id: nat, actor: Actor, resumed: bool, providerRef: string, token: string)
    requires id < |rig.w.intents|
  {
    var (cache, reply) := Ask(rig, rig.w.intents[id], providerRef, token);
    rig' == Rig(Spine.Charge(rig.w, id, actor, resumed, reply), cache)
  }

  /** A charge is one provider call and the record of its reply. */
  lemma CallAndRecord(rig: Rig, called: World, rig': Rig, id: nat, actor: Actor, resumed: bool,
                      providerRef: string, token: string, reply: Reply)
    requires id < |rig.w.intents| && called == rig.w.(calls := rig.w.calls + [rig.w.intents[id].key])
    requires rig'.w == Spine.Record(called, id, actor, resumed, reply)
    requires (rig'.cache, reply) == Ask(rig, rig.w.intents[id], providerRef, token)
    ensures Charges(rig, rig', id, actor, resumed, providerRef, token)
  {
  }

  class PaymentOrchestratorService {
    const db: Database
    const audit: AuditService
    const provider: MP.MockPaymentProvider

    constructor (db: Database, audit: AuditService, provider: MP.MockPaymentProvider)
      requires audit.db == db
      ensures this.db == db && this.audit == audit && this.provider == provider
    {
      this.db, this.audit, this.provider := db, audit, provider;
    }

    ghost predicate Valid()
      reads db, provider
    {
      db.Valid() && audit.db == db && provider.Valid()
    }

    ghost function State(): Rig
      requires Valid()
      reads db, provider, provider.cache.Values
    {
      Rig(db.World(), provider.Contents())
    }

    method RecordPaid(id: nat, actor: Actor, resumed: bool, result: MP.Result)
      requires Valid() && id < |db.intents| && result.status == MP.Success && id !in db.transactions
      modifies db`intents, db`cosigns, db`transactions, db`audit
      ensures Valid() && db.World() == Spine.Record(old(db.World()), id, actor, resumed, ReplyOf(result))
    {
      var row := db.intents[id];
      db.UpdateStatus(id, Executed);
      db.CreateTransaction(id, result.providerRef, result.token);
      if resumed {
        db.ClosePendingCosign(id, CosignApproved);
      }
      audit.Log(db.credentials[row.credentialId].accountId, actor, PaymentExecuted(id, row.amount, result.providerRef));
    }

    method RecordUnpaid(id: nat, actor: Actor, resumed: bool, status: Status, cosign: CosignStatus, entry: Entry)
      requires Valid() && id < |db.intents|
      modifies db`intents, db`cosigns, db`audit
      ensures Valid()
      ensures var moved := SetStatus(old(db.World()), id, status);
        db.World() == Log(if resumed then CloseCosign(moved, id, cosign) else moved,
                          AccountOf(old(db.World()), id), actor, entry)
    {
      var row := db.intents[id];
      db.UpdateStatus(id, status);
      if resumed {
        db.ClosePendingCosign(id, cosign);
      }
      audit.Log(db.credentials[row.credentialId].accountId, actor, entry);
    }

    /** What initiatePayment and resumeIntent write once the provider has answered. */
    method Record(id: nat, actor: Actor, resumed: bool, result: MP.Result)
      requires Valid() && id < |db.intents|
      modifies db`intents, db`cosigns, db`transactions, db`audit
      ensures Valid() && db.World() == Spine.Record(old(db.World()), id, actor, resumed, ReplyOf(result))
    {
      var amount := db.intents[id].amount;
      if result.status == MP.Success && id !in db.transactions {
        RecordPaid(id, actor, resumed, result);
      } else if result.status == MP.InProcess {
        RecordUnpaid(id, actor, resumed, Allowed, CosignApproved,
                     PaymentPendingResolution(id, amount, result.providerRef));
      } else {
        RecordUnpaid(id, actor, resumed, Failed, CosignDenied, PaymentFailed(id, amount));
      }
    }

    /** paymentProvider.execute for an intent; the reply is read off the returned object before it can change. */
    method CallProvider(id: nat, providerRef: string, token: string) returns (result: MP.Result)
      requires Valid() && id < |db.intents|
      modifies db`calls, provider
      ensures Valid() && fresh(provider.cache.Values - old(provider.cache.Values))
      ensures db.World() == old(db.World()).(calls := old(db.calls) + [old(db.intents[id].key)])
      ensures (provider.Contents(), ReplyOf(result)) == Ask(old(State()), old(db.intents[id]), providerRef, token)
    {
      var row := db.intents[id];
      var answer := provider.Execute(row.key, row.amount, row.billerId, providerRef, token);
      result := answer.Value();
      db.calls := db.calls + [row.key];
    }

    /** The block initiatePayment and resumeIntent share: call the provider, then record what it answered. */
    method Charge(id: nat, actor: Actor, resumed: bool, providerRef: string, token: string)
      requires Valid() && id < |db.intents|
      modifies db`intents, db`cosigns, db`transactions, db`audit, db`calls, provider
      ensures Valid() && fresh(provider.cache.Values - old(provider.cache.Values))
      ensures Charges(old(State()), State(), id, actor, resumed, providerRef, token)
    {
      ghost var before := State();
      var result := CallProvider(id, providerRef, token);
      ghost var called := db.World();
      Record(id, actor, resumed, result);
      ghost var after := State();
      CallAndRecord(before, called, after, id, actor, resumed, providerRef, token, ReplyOf(result));
    }

    method VoidIntent(id: nat) returns (out: Outcome)
      requires Valid()
      modifies db`intents, db`cosigns, db`audit
      ensures Valid() && (db.World(), out) == Void(old(db.World()), id)
      ensures provider.cache == old(provider.cache) && provider.Contents() == old(provider.Contents())
    {
      if id >= |db.intents| {
        return Error(IntentNotFound);
      }
      var account := db.credentials[db.intents[id].credentialId].accountId;
      db.UpdateStatus(id, Voided);
      db.ClosePendingCosign(id, CosignDenied);
      audit.Log(account, System, PaymentVoided(id));
      out := Done;
    }

    /** The row transaction: all of its rows, or none where a constraint fails or no contact is configured. */
    method CommitIntent(input: Input, d: Decision) returns (committed: bool)
      requires Valid() && input.credentialId in db.credentials && FindKey(db.intents, input.key).None?
      modifies db`intents, db`decisions, db`cosigns
      ensures Valid() && committed == CanCommit(old(db.World()), input, d.verdict)
      ensures db.World() == if committed then Commit(old(db.World()), input, d) else old(db.World())
    {
      var billerId := NonEmpty(input.billerId);
      if billerId.Some? && billerId.value !in db.billers {
        return false;
      }
      if input.amount < -0x8000_0000 || input.amount >= 0x8000_0000 {
        return false;
      }
      if d.verdict == Escalate && !db.hasTrustedContact {
        return false;
      }
      var id := |db.intents|;
      db.intents := db.intents + [Intent(
        input.credentialId, input.channel, billerId, NonEmpty(input.recipient),
        input.amount, InitialStatus(d.verdict), input.key, db.now)];
      db.decisions := db.decisions[id := d];
      if d.verdict == Escalate {
        db.cosigns := db.cosigns[id := CosignPending];
      }
      committed := true;
    }

    method Judge(row: Intent, hours: Hours) returns (d: Decision)
      requires Valid() && row.credentialId in db.credentials
      ensures d == DecisionNow(db.World(), row, hours)
    {
      var spent := SpentSince(db.intents, row.credentialId, db.now.month);
      d := Evaluate(RequestOf(row), db.credentials[row.credentialId], Context(spent, hours));
    }

    /** The policy check of a new payment, on a temporary row that is never stored. */
    method JudgeNew(input: Input, hours: Hours) returns (d: Decision)
      requires Valid() && input.credentialId in db.credentials
      ensures d == DecisionNow(db.World(), RowOf(db.World(), input, Allow), hours)
    {
      var temporary := Intent(
        input.credentialId, input.channel, NonEmpty(input.billerId), NonEmpty(input.recipient),
        input.amount, Pending, input.key, db.now);
      d := Judge(temporary, hours);
    }

    /** What the verdict of a committed intent sets off. */
    method ActOn(id: nat, d: Decision, providerRef: string, token: string)
      requires Valid() && id < |db.intents|
      modifies db`intents, db`cosigns, db`transactions, db`audit, db`calls, provider
      ensures Valid() && fresh(provider.cache.Values - old(provider.cache.Values))
      ensures var saved, account, amount := old(db.World()), AccountOf(old(db.World()), id), old(db.intents[id].amount);
        var (cache, reply) := Ask(old(State()), old(db.intents[id]), providerRef, token);
        && db.World() == (match d.verdict
             case Allow => Spine.Charge(saved, id, AiAgent, false, reply)
             case Escalate => Log(saved, account, AiAgent, PaymentEscalated(id, amount, d.reasons))
             case Deny => Log(saved, account, AiAgent, PaymentDenied(id, amount, d.reasons)))
        && provider.Contents() == (if d.verdict == Allow then cache else old(provider.Contents()))
    {
      var account := db.credentials[db.intents[id].credentialId].accountId;
      match d.verdict {
        case Allow => Charge(id, AiAgent, false, providerRef, token);
        case Escalate => audit.Log(account, AiAgent, PaymentEscalated(id, db.intents[id].amount, d.reasons));
        case Deny => audit.Log(account, AiAgent, PaymentDenied(id, db.intents[id].amount, d.reasons));
      }
    }

    method OpenIntent(input: Input, d: Decision, providerRef: string, token: string) returns (committed: bool)
      requires Valid() && input.credentialId in db.credentials && FindKey(db.intents, input.key).None?
      modifies db`intents, db`decisions, db`cosigns, db`transactions, db`audit, db`calls, provider
      ensures Valid() && fresh(provider.cache.Values - old(provider.cache.Values))
      ensures Settles(old(State()), State(), input, d, providerRef, token, committed)
    {
      var id := |db.intents|;
      committed := CommitIntent(input, d);
      if committed {
        ActOn(id, d, providerRef, token);
      }
    }

    /** A used key is answered from its rows and an unknown credential is refused; None where the input goes on. */
    method AnswerFirst(input: Input, ghost hours: Hours, ghost providerRef: string, ghost token: string)
      returns (out: Option<Initiation>)
      requires Valid()
      ensures out.None? <==> FindKey(db.intents, input.key).None? && input.credentialId in db.credentials
      ensures out.Some? ==> (State(), out.value) == InitiateWithMock(State(), input, hours, providerRef, token)
    {
      InitiateStops(State(), input, hours, providerRef, token);
      var existing := FindKey(db.intents, input.key);
      if existing.Some? {
        var id := existing.value;
        if id in db.decisions {
          return Some(Returned(id, db.decisions[id]));
        }
        return Some(Returned(id, Decision(DerivedVerdict(db.intents[id].status), [])));
      }
      if input.credentialId !in db.credentials {
        return Some(Rejected(CredentialNotFound));
      }
      out := None;
    }

    /** The check of a new input, and its rows. */
    method InitiateNew(input: Input, hours: Hours, providerRef: string, token: string) returns (out: Initiation)
      requires Valid() && FindKey(db.intents, input.key).None? && input.credentialId in db.credentials
      modifies db`intents, db`decisions, db`cosigns, db`transactions, db`audit, db`calls, provider
      ensures Valid() && fresh(provider.cache.Values - old(provider.cache.Values))
      ensures (State(), out) == InitiateWithMock(old(State()), input, hours, providerRef, token)
    {
      var d := JudgeNew(input, hours);
      var id := |db.intents|;
      var committed := OpenIntent(input, d, providerRef, token);
      SettlesAsInitiated(old(State()), State(), input, d, hours, providerRef, token, committed);
      if committed {
        out := Returned(id, d);
      } else {
        out := Rejected(RolledBack);
      }
    }

    method InitiatePayment(input: Input, hours: Hours, providerRef: string, token: string) returns (out: Initiation)
      requires Valid()
      modifies db`intents, db`decisions, db`cosigns, db`transactions, db`audit, db`calls, provider
      ensures Valid() && fresh(provider.cache.Values - old(provider.cache.Values))
      ensures (State(), out) == InitiateWithMock(old(State()), input, hours, providerRef, token)
    {
      var first := AnswerFirst(input, hours, providerRef, token);
      if first.Some? {
        return first.value;
      }
      out := InitiateNew(input, hours, providerRef, token);
    }

    method ResumeIntent(id: nat, hours: Hours, providerRef: string, token: string) returns (out: Outcome)
      requires Valid()
      modifies db`intents, db`cosigns, db`transactions, db`audit, db`calls, provider
      ensures Valid() && fresh(provider.cache.Values - old(provider.cache.Values))
      ensures (State(), out) == ResumeWithMock(old(State()), id, hours, providerRef, token)
    {
      if id >= |db.intents| {
        return Error(IntentNotFound);
      }
      if db.intents[id].status != Escalated {
        return Error(NotEscalated);
      }
      out := Recheck(id, hours);
      if out == Done {
        ResumeCharges(old(State()), id, hours, providerRef, token);
        Charge(id, System, true, providerRef, token);
      } else {
        ResumeVoids(old(State()), id, hours, providerRef, token);
      }
    }

    /** The recheck of a held intent, which voids it when the credential is revoked or the policy now denies. */
    method Recheck(id: nat, hours: Hours) returns (out: Outcome)
      requires Valid() && id < |db.intents|
      modifies db`intents, db`cosigns, db`audit
      ensures Valid() && provider.cache == old(provider.cache) && provider.Contents() == old(provider.Contents())
      ensures var row, w := old(db.intents[id]), old(db.World());
        if Passed(w, row, hours) then out == Done && db.World() == w
        else
          && out == Error(if w.credentials[row.credentialId].revoked then RevokedBeforeResume
                          else DeniedOnResume(DecisionNow(w, row, hours).reasons))
          && db.World() == Void(w, id).0
    {
      if db.credentials[db.intents[id].credentialId].revoked {
        RevokedFails(db.World(), id, hours);
        var _ := VoidIntent(id);
        return Error(RevokedBeforeResume);
      }
      var d := Judge(db.intents[id], hours);
      if d.verdict == Deny {
        var _ := VoidIntent(id);
        return Error(DeniedOnResume(d.reasons));
      }
      out := Done;
    }

    /** The cosign.resolved handler; what resumeIntent throws is swallowed. */
    method HandleCosignResolved(answer: Answer, hours: Hours, providerRef: string, token: string)
      requires Valid()
      modifies db`intents, db`cosigns, db`transactions, db`audit, db`calls, provider
      ensures Valid() && fresh(provider.cache.Values - old(provider.cache.Values))
      ensures State() == HandleWithMock(old(State()), answer, hours, providerRef, token)
    {
      if answer.approve {
        var _ := ResumeIntent(answer.id, hours, providerRef, token);
      } else {
        var _ := VoidIntent(answer.id);
      }
    }

    method RecordRequery(id: nat, result: MP.Result)
      requires Valid() && id < |db.intents| && db.intents[id].status == Allowed && id !in db.transactions
      modifies db`intents, db`transactions, db`audit
      ensures Valid() && db.World() == Requery(old(db.World()), id, ReplyOf(result)).0
    {
      var row := db.intents[id];
      var account := db.credentials[row.credentialId].accountId;
      if result.status == MP.Success {
        db.UpdateStatus(id, Executed);
        db.CreateTransaction(id, result.providerRef, result.token);
        audit.Log(account, System, PaymentExecuted(id, row.amount, result.providerRef));
      } else if result.status == MP.Failure {
        db.UpdateStatus(id, Failed);
        audit.Log(account, System, PaymentFailed(id, row.amount));
      }
    }

    method RequeryIntent(id: nat, token: string) returns (out: Outcome)
      requires Valid()
      modifies db`intents, db`transactions, db`audit, provider, provider.cache.Values
      ensures Valid() && provider.cache == old(provider.cache)
      ensures (State(), out) == RequeryWithMock(old(State()), id, token)
    {
      if id >= |db.intents| {
        return Error(IntentNotFound);
      }
      if db.intents[id].status == Allowed && id !in db.transactions {
        var answer := provider.RequeryStatus(db.intents[id].key, token);
        assert db.World() == old(db.World());
        RecordRequery(id, answer.Value());
      }
      out := Done;
    }
  }

  datatype ResolveError = CosignNotFound | CosignAlreadyResolved

  class CosignService {
    const db: Database
    const orchestrator: PaymentOrchestratorService

    constructor (db: Database, orchestrator: PaymentOrchestratorService)
      requires orchestrator.db == db
      ensures this.db == db && this.orchestrator == orchestrator
    {
      this.db, this.orchestrator := db, orchestrator;
    }

    /** The emitted event and its first delivery. */
    method EmitResolved(answer: Answer, hours: Hours, providerRef: string, token: string)
      requires orchestrator.Valid() && orchestrator.db == db && CanResolve(db.World(), answer.id)
      modifies db`intents, db`cosigns, db`transactions, db`audit, db`calls, db`answers, orchestrator.provider
      ensures orchestrator.Valid()
      ensures orchestrator.State() == ResolveWithMock(old(orchestrator.State()), answer, hours, providerRef, token)
    {
      ghost var rig := orchestrator.State();
      db.answers := db.answers + {answer};
      ghost var heard := orchestrator.State();
      assert heard.w == rig.w.(answers := rig.w.answers + {answer}) && heard.cache == rig.cache;
      ResolveHandles(rig, heard.w, answer, hours, providerRef, token);
      orchestrator.HandleCosignResolved(answer, hours, providerRef, token);
    }

    /** The guard on the pending row, and what an accepted answer sets off. */
    method ResolveRequest(answer: Answer, hours: Hours, providerRef: string, token: string)
      returns (error: Option<ResolveError>)
      requires orchestrator.Valid() && orchestrator.db == db
      modifies db`intents, db`cosigns, db`transactions, db`audit, db`calls, db`answers, orchestrator.provider
      ensures orchestrator.Valid()
      ensures orchestrator.State() == ResolveWithMock(old(orchestrator.State()), answer, hours, providerRef, token)
      ensures error == if answer.id !in old(db.cosigns) then Some(CosignNotFound)
                       else if old(db.cosigns[answer.id]) != CosignPending then Some(CosignAlreadyResolved) else None
    {
      if answer.id !in db.cosigns {
        return Some(CosignNotFound);
      }
      if db.cosigns[answer.id] != CosignPending {
        return Some(CosignAlreadyResolved);
      }
      EmitResolved(answer, hours, providerRef, token);
      error := None;
    }
  }
}
