/** The shape of one step: it opens one intent, moves one intent, or is quiet. */
module SpineSteps {
  import opened Basics
  import opened Policy
  import opened Spine
  import opened SpineInvariant

  /** The policy let this row pass on the rows, rules and clock of state w. */
  predicate Passed(w: World, row: Intent, hours: Hours) {
    && row.credentialId in w.credentials
    && DecisionNow(w, row, hours).verdict != Deny
  }

  lemma PassedIsLive(w: World, row: Intent, hours: Hours)
    requires Passed(w, row, hours)
    ensures !w.credentials[row.credentialId].revoked
  {
    if w.credentials[row.credentialId].revoked {
      RevokedIsDenied(RequestOf(row), w.credentials[row.credentialId],
                      Context(SpentSince(w.intents, row.credentialId, w.now.month), hours));
    }
  }

  lemma RevokedFails(w: World, id: nat, hours: Hours)
    requires id < |w.intents| && w.credentials[w.intents[id].credentialId].revoked
    ensures !Passed(w, w.intents[id], hours)
  {
    if Passed(w, w.intents[id], hours) {
      PassedIsLive(w, w.intents[id], hours);
    }
  }

  /** The log line for an intent's new status says "executed" exactly when the intent is executed, with its amount. */
  predicate Tells(w: World, e: AuditEvent, id: nat, row: Intent) {
    && row.credentialId in w.credentials
    && e.accountId == w.credentials[row.credentialId].accountId
    && Concerns(e.entry, id)
    && (e.entry.PaymentExecuted? <==> row.status == Executed)
    && (e.entry.PaymentExecuted? ==> e.entry.amount == row.amount)
  }

  /** Nothing moved; at most a log line that is not a payment was added. */
  ghost predicate Quiet(w: World, v: World) {
    && v.intents == w.intents && v.decisions == w.decisions && v.calls == w.calls
    && (v.audit == w.audit || exists e :: v.audit == w.audit + [e] && !e.entry.PaymentExecuted?)
  }

  ghost predicate Opens(w: World, v: World, e: Event) {
    && e.Initiated?
    && var id := |w.intents|;
    && |v.intents| == id + 1
    && var row := v.intents[id];
    && v.intents == w.intents + [row]
    && row.key == e.input.key && row.createdAt == w.now && FindKey(w.intents, row.key).None?
    && row.credentialId in w.credentials
    && v.decisions == w.decisions[id := DecisionNow(w, row, e.hours)]
    && v.calls == (if Charged(row.status) then w.calls + [row.key] else w.calls)
    && (Charged(row.status) ==> Passed(w, row, e.hours))
    && (!Passed(w, row, e.hours) ==> row.status == Denied)
    && |v.audit| == |w.audit| + 1 && v.audit == w.audit + [v.audit[|w.audit|]] && Tells(w, v.audit[|w.audit|], id, row)
  }

  ghost predicate Moves(w: World, v: World, e: Event, id: nat) {
    && id < |w.intents| == |v.intents|
    && var row, moved := w.intents[id], v.intents[id];
    && v.intents == w.intents[id := moved] && moved == row.(status := moved.status)
    && v.decisions == w.decisions
    && (if e.Resolved? then row.status == Escalated && (Charged(moved.status) || moved.status == Voided)
        else e.Requeried? && row.status == Allowed && (moved.status == Executed || moved.status == Failed))
    && v.calls == (if e.Resolved? && Charged(moved.status) then w.calls + [row.key] else w.calls)
    && (e.Resolved? && Charged(moved.status) ==> Passed(w, row, e.hours))
    && |v.audit| == |w.audit| + 1 && v.audit == w.audit + [v.audit[|w.audit|]]
    && Tells(w, v.audit[|w.audit|], id, moved)
  }

  /** Credentials keep their account and rules, revocation and transactions are final, the clock runs forward. */
  ghost predicate Ages(w: World, v: World) {
    && v.credentials.Keys == w.credentials.Keys
    && (forall c :: c in w.credentials ==>
          v.credentials[c] == w.credentials[c].(revoked := v.credentials[c].revoked)
          && (w.credentials[c].revoked ==> v.credentials[c].revoked))
    && w.now.NotAfter(v.now)
    && w.answers <= v.answers
    && (forall i :: i in w.transactions ==> i in v.transactions && v.transactions[i] == w.transactions[i])
  }

  ghost predicate OpenWrote(w: World, v: World, input: Input, d: Decision)
    requires input.credentialId in w.credentials
  {
    var id := |w.intents|;
    && |v.intents| == id + 1
    && v.intents == w.intents + [v.intents[id]]
    && v.intents[id] == RowOf(w, input, d.verdict).(status := v.intents[id].status)
    && (match d.verdict
        case Allow => Charged(v.intents[id].status)
        case Escalate => v.intents[id].status == Escalated
        case Deny => v.intents[id].status == Denied)
    && v.decisions == w.decisions[id := d]
    && v.calls == (if d.verdict == Allow then w.calls + [input.key] else w.calls)
    && |v.audit| == |w.audit| + 1 && v.audit == w.audit + [v.audit[|w.audit|]]
    && Tells(w, v.audit[|w.audit|], id, v.intents[id])
    && v.answers == w.answers && v.credentials == w.credentials && v.now == w.now
    && (forall i :: 0 <= i < id ==> Get(v.transactions, i) == Get(w.transactions, i))
    && (d.verdict != Allow ==> v.transactions == w.transactions)
  }

  lemma OpenWrites(w: World, input: Input, d: Decision, reply: Reply)
    requires input.credentialId in w.credentials && FindKey(w.intents, input.key).None?
    ensures OpenWrote(w, Open(w, input, d, reply), input, d)
  {
    if d.verdict == Allow {
      ChargeWrites(Commit(w, input, d), |w.intents|, AiAgent, false, reply);
    }
  }

  lemma OpenCase(w: World, v: World, input: Input, d: Decision, hours: Hours, reply: Reply)
    requires input.credentialId in w.credentials && FindKey(w.intents, input.key).None?
    requires d == DecisionNow(w, RowOf(w, input, Allow), hours) && OpenWrote(w, v, input, d)
    ensures Opens(w, v, Initiated(input, hours, reply)) && Ages(w, v)
  {
    var row := v.intents[|w.intents|];
    assert RequestOf(row) == RequestOf(RowOf(w, input, Allow));
    assert DecisionNow(w, row, hours) == d;
    forall i | i in w.transactions ensures i in v.transactions && v.transactions[i] == w.transactions[i] {
      assert i < |w.intents|;
      assert Get(v.transactions, i) == Get(w.transactions, i);
    }
  }

  lemma InitiateShape(w: World, input: Input, hours: Hours, reply: Reply)
    ensures var v := Initiate(w, input, hours, reply).0;
      v == w || (Opens(w, v, Initiated(input, hours, reply)) && Ages(w, v))
  {
    if FindKey(w.intents, input.key).None? && input.credentialId in w.credentials {
      var d := DecisionNow(w, RowOf(w, input, Allow), hours);
      OpenWrites(w, input, d, reply);
      OpenCase(w, Open(w, input, d, reply), input, d, hours, reply);
    }
  }

  lemma ChargeMoves(w: World, heard: World, v: World, answer: Answer, hours: Hours, reply: Reply)
    requires heard == w.(answers := w.answers + {answer}) && answer.id < |w.intents| && answer.id !in w.transactions
    requires w.intents[answer.id].status == Escalated && Passed(w, w.intents[answer.id], hours)
    requires ChargeWrote(heard, v, answer.id, System, true, reply) && v.credentials == w.credentials
    requires v.now == w.now && v.answers == heard.answers
    ensures Moves(w, v, Resolved(answer, hours, reply), answer.id) && Ages(w, v)
  {
  }

  lemma VoidMoves(w: World, heard: World, answer: Answer, hours: Hours, reply: Reply)
    requires heard == w.(answers := w.answers + {answer}) && answer.id < |w.intents|
    requires w.intents[answer.id].status == Escalated
    ensures var v := Void(heard, answer.id).0;
      Moves(w, v, Resolved(answer, hours, reply), answer.id) && Ages(w, v)
  {
  }

  lemma ResolveCase(w: World, answer: Answer, hours: Hours, reply: Reply)
    requires Inv(w) && CanResolve(w, answer.id)
    ensures var v := Resolve(w, answer, hours, reply);
      Moves(w, v, Resolved(answer, hours, reply), answer.id) && Ages(w, v)
  {
    var id := answer.id;
    var heard := w.(answers := w.answers + {answer});
    assert Coherent(ViewOf(w, id));
    if answer.approve && !heard.credentials[heard.intents[id].credentialId].revoked
      && DecisionNow(heard, heard.intents[id], hours).verdict != Deny {
      ChargeWrites(heard, id, System, true, reply);
      ChargeMoves(w, heard, Charge(heard, id, System, true, reply), answer, hours, reply);
    } else {
      VoidMoves(w, heard, answer, hours, reply);
    }
  }

  lemma RequeryCase(w: World, id: nat, reply: Reply)
    requires Inv(w)
    ensures var v := Requery(w, id, reply).0;
      (v == w || Moves(w, v, Requeried(id, reply), id)) && Ages(w, v)
  {
    if id < |w.intents| && w.intents[id].status == Allowed && id !in w.transactions {
      match reply
      case Settled(providerRef, token) => SettledMoves(w, id, providerRef, token);
      case Refused => RefusedMoves(w, id);
      case InFlight(_) =>
      case Threw =>
    }
  }

  lemma SettledMoves(w: World, id: nat, providerRef: string, token: Option<string>)
    requires id < |w.intents| && w.intents[id].status == Allowed && id !in w.transactions
    ensures var reply := Settled(providerRef, token); var v := Requery(w, id, reply).0;
      Moves(w, v, Requeried(id, reply), id) && Ages(w, v)
  {
  }

  lemma RefusedMoves(w: World, id: nat)
    requires id < |w.intents| && w.intents[id].status == Allowed && id !in w.transactions
    ensures var v := Requery(w, id, Refused).0;
      Moves(w, v, Requeried(id, Refused), id) && Ages(w, v)
  {
  }

  lemma RevokeCase(w: World, credentialId: string)
    ensures Quiet(w, Revoke(w, credentialId)) && Ages(w, Revoke(w, credentialId))
  {
  }

  lemma RedeliverCase(w: World, answer: Answer, hours: Hours, reply: Reply)
    requires Inv(w)
    ensures var v := Step(w, Redelivered(answer, hours, reply)); Quiet(w, v) && Ages(w, v)
  {
    if answer in w.answers { RedeliveryIsInert(w, answer, hours, reply); }
  }

  /** Every step opens one intent, moves one intent, or is quiet. */
  lemma StepShape(w: World, e: Event)
    requires Inv(w)
    ensures var v := Step(w, e); Quiet(w, v) || Opens(w, v, e) || exists id: nat :: Moves(w, v, e, id)
    ensures Ages(w, Step(w, e))
  {
    match e
    case Initiated(input, hours, reply) => InitiateShape(w, input, hours, reply);
    case Resolved(answer, hours, reply) => if CanResolve(w, answer.id) { ResolveCase(w, answer, hours, reply); }
    case Redelivered(answer, hours, reply) => RedeliverCase(w, answer, hours, reply);
    case Requeried(id, reply) => RequeryCase(w, id, reply);
    case Revoked(credentialId) => RevokeCase(w, credentialId);
    case Ticked(to) =>
  }
}
