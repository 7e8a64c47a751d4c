/**
 * Requeries that overlap initiatePayment's own call, on the database and against the mock, and how the atomic
 * initiation of Spine.dfy is the run of InitiateRaces.dfy in which nothing overlaps.
 */
module EarlyRequeries {
  import opened Basics
  import opened Policy
  import opened Spine
  import opened SpineInvariant
  import opened InitiateRaces
  import DeliveryRuns
  import SpineSums
  import Agreement
  import MP = MockProvider

  /** The database while the call of a new allowed intent is out. */
  function Called(w: World, input: Input, d: Decision): World
    requires input.credentialId in w.credentials && FindKey(w.intents, input.key).None?
  {
    var saved := Commit(w, input, d);
    saved.(calls := saved.calls + [input.key])
  }

  /** What initiatePayment writes on the reply: a pending one only logs. */
  function Return(w: World, id: nat, reply: Reply): World
    requires id < |w.intents|
  {
    if reply.InFlight?
    then Log(w, AccountOf(w, id), AiAgent, PaymentPendingResolution(id, w.intents[id].amount, reply.providerRef))
    else Record(w, id, AiAgent, false, reply)
  }

  ghost predicate NewAllowed(w: World, input: Input, d: Decision) {
    && Inv(w) && input.credentialId in w.credentials && FindKey(w.intents, input.key).None?
    && d.verdict == Allow && input.amount > 0
  }

  lemma CalledView(w: World, input: Input, d: Decision)
    requires NewAllowed(w, input, d)
    ensures var v, id := Called(w, input, d), |w.intents|;
      && ViewOf(v, id) == View(RowOf(w, input, Allow), Some(d), None, None, 1, None)
      && Opened(State(ViewOf(v, id), Out, []))
  {
    CommitView(w, input, d);
  }

  ghost predicate Returned(w: World, v: World, id: nat, reply: Reply)
    requires id < |w.intents|
  {
    var row := w.intents[id];
    && v.intents == (if reply.InFlight? then w.intents
                     else w.intents[id := row.(status := StatusOn(reply, id in w.transactions))])
    && v.decisions == w.decisions && v.cosigns == w.cosigns && v.calls == w.calls && v.credentials == w.credentials
    && v.transactions == (if reply.Settled? && id !in w.transactions
         then w.transactions[id := Transaction(reply.providerRef, NonEmpty(reply.token), w.now)] else w.transactions)
    && v.audit == w.audit + [AuditEvent(AccountOf(w, id), AiAgent,
         ChargeEntry(id, row.amount, reply, StatusOn(reply, id in w.transactions)))]
    && v.now == w.now
  }

  lemma ReturnWrites(w: World, id: nat, reply: Reply)
    requires id < |w.intents|
    ensures Returned(w, Return(w, id, reply), id, reply)
  {
  }

  /** The layer's write is the database's. */
  lemma ReturnView(w: World, v: World, id: nat, reply: Reply)
    requires id < |w.intents| && Returned(w, v, id, reply)
    ensures SameBut(w, v, id)
    ensures var r := if reply.Settled? && id in w.transactions then Threw else reply;
      ViewOf(v, id) == ReturnedView(ViewOf(w, id), r, w.now)
  {
    var e := v.audit[|w.audit|];
    forall i | 0 <= i < |w.intents| && i != id ensures ViewOf(v, i) == ViewOf(w, i) {
      LogFrame(w.audit, e, i);
    }
    LogFrame(w.audit, e, id);
  }

  /** Where nothing overlaps, what is written on the reply is what the atomic initiation writes. */
  lemma OpenIsCallAndReturn(w: World, input: Input, d: Decision, reply: Reply)
    requires NewAllowed(w, input, d)
    ensures Open(w, input, d, reply) == Return(Called(w, input, d), |w.intents|, reply)
  {
    var called, id := Called(w, input, d), |w.intents|;
    if reply.InFlight? {
      assert called.intents[id := called.intents[id].(status := Allowed)] == called.intents;
    }
  }

  lemma OpenedView(w: World, input: Input, d: Decision, reply: Reply)
    requires NewAllowed(w, input, d)
    ensures var v, called, id := Open(w, input, d, reply), Called(w, input, d), |w.intents|;
      id < |called.intents| && id < |v.intents| && ViewOf(v, id) == ReturnedView(ViewOf(called, id), reply, w.now)
  {
    var called, id := Called(w, input, d), |w.intents|;
    OpenIsCallAndReturn(w, input, d, reply);
    ReturnWrites(called, id, reply);
    ReturnView(called, Return(called, id, reply), id, reply);
  }

  /** The atomic initiation is the run in which the call is answered and written before any requery. */
  lemma InitiateIsARun(w: World, input: Input, d: Decision, reply: Reply) returns (s: State, run: Run)
    requires NewAllowed(w, input, d)
    ensures s == State(ViewOf(Called(w, input, d), |w.intents|), Out, []) && Opened(s)
    ensures run == Then(Then(Start, Answers(reply)), Write(w.now))
    ensures var v := Open(w, input, d, reply);
      |w.intents| < |v.intents| && After(s, run) == State(ViewOf(v, |w.intents|), Written, [])
  {
    CalledView(w, input, d);
    s := State(ViewOf(Called(w, input, d), |w.intents|), Out, []);
    run := CallAlone(s, reply, w.now);
    OpenedView(w, input, d, reply);
  }

  /** An atomic requery is the run in which it reads, is told and writes before anything else starts. */
  lemma RequeryIsARun(w: World, s: State, id: nat, reply: Reply)
    requires id < |w.intents| && s.view == ViewOf(w, id) && s.asks == []
    ensures var v := After(s, Then(Then(Then(Start, BeginRequery), Tells(0, reply)), WriteRequery(0, w.now)));
      && Some(v.view) == DeliveryRuns.ViewIn(Requery(w, id, reply).0, id) && v.call == s.call
      && (v.asks != [] <==> w.intents[id].status == Allowed && id !in w.transactions)
  {
    DeliveryRuns.RequeryInView(w, id, reply);
    AskAlone(s, reply, w.now);
  }

  /** A run with one result leaves a database on which the master invariant holds in full once the call is written. */
  lemma OneResultRestoresInv(s: State, run: Run, w: World, id: nat)
    requires Opened(s) && OneResult(s, run) && After(s, run).call.Written?
    requires id < |w.intents| && InvExcept(w, id) && ViewOf(w, id) == After(s, run).view
    requires forall a :: a in w.answers ==> a.id != id
    ensures Inv(w)
  {
    OneResultIsSound(s, run);
    SoundAtEnd(s, run);
  }

  // ---- the inputs on the database ---------------------------------------------------------------------------

  lemma MissedView(w: World, input: Input, d: Decision)
    requires NewAllowed(w, input, d)
    ensures var u := Requery(Called(w, input, d), |w.intents|, Refused).0;
      && |w.intents| < |u.intents| && |w.intents| !in u.transactions
      && ViewOf(u, |w.intents|) == View(RowOf(w, input, Allow).(status := Failed), Some(d), None, None, 1, Some(Failed))
  {
    CalledView(w, input, d);
    RequeryView(Called(w, input, d), |w.intents|, Refused);
  }

  /** A reply written over a failure that a requery has written, on what was written. */
  lemma FailedReturns(u: World, v: World, id: nat, r: Reply)
    requires id < |u.intents| && id !in u.transactions && u.intents[id].status == Failed
    requires Returned(u, v, id, r) && id < |v.intents|
    ensures r.Settled? ==> v.intents[id].status == Executed
    ensures r.InFlight? ==> v.intents[id].status == Failed && !Inv(v)
  {
    ReturnView(u, v, id, r);
    if r.InFlight? { assert !Coherent(ViewOf(v, id)); }
  }

  /**
   * A requery that hears "not found" while the call is out marks the intent FAILED. If the call then settles, a
   * FAILED intent becomes EXECUTED; if it is pending, the intent stays FAILED and the invariant is lost.
   */
  lemma MissedRequery(w: World, input: Input, d: Decision, r: Reply) returns (u: World, v: World)
    requires NewAllowed(w, input, d) && (r.Settled? || r.InFlight?)
    ensures |w.intents| < |Called(w, input, d).intents|
    ensures u == Requery(Called(w, input, d), |w.intents|, Refused).0 && |w.intents| < |u.intents|
    ensures v == Return(u, |w.intents|, r) && |w.intents| < |v.intents|
    ensures u.intents[|w.intents|].status == Failed
    ensures r.Settled? ==> v.intents[|w.intents|].status == Executed && !MayMove(Failed, Executed)
    ensures r.InFlight? ==> v.intents[|w.intents|].status == Failed && !Inv(v)
  {
    var id := |w.intents|;
    u := Requery(Called(w, input, d), id, Refused).0;
    MissedView(w, input, d);
    v := Return(u, id, r);
    ReturnWrites(u, id, r);
    FailedReturns(u, v, id, r);
  }

  lemma CalledBalances(w: World, input: Input, d: Decision, account: string)
    requires NewAllowed(w, input, d)
    ensures SpineSums.Balanced(w, account) ==> SpineSums.Balanced(Called(w, input, d), account)
  {
    var called := Called(w, input, d);
    assert SpineSums.Accounts(called) == SpineSums.Accounts(w);
    SumSnoc(w.intents, RowOf(w, input, Allow), SpineSums.ExecutedFor(SpineSums.Accounts(w), account));
  }

  lemma PaidView(w: World, input: Input, d: Decision, r: Reply)
    requires NewAllowed(w, input, d) && r.Settled?
    ensures var called, id := Called(w, input, d), |w.intents|;
      var u := Requery(called, id, r).0;
      && |u.intents| == |called.intents| && id in u.transactions && u.credentials == called.credentials
      && u.intents == called.intents[id := RowOf(w, input, Allow).(status := Executed)]
      && u.audit == w.audit
           + [AuditEvent(AccountOf(called, id), System, PaymentExecuted(id, input.amount, r.providerRef))]
  {
    CalledView(w, input, d);
  }

  /** A settlement written over a transaction row, on what it was written. */
  lemma PaidIsFailed(called: World, u: World, v: World, id: nat, reply: Reply, account: string)
    requires id < |called.intents| == |u.intents| && called.intents[id].status == Allowed
    requires account == AccountOf(called, id) && called.intents[id].amount > 0 && u.credentials == called.credentials
    requires u.intents == called.intents[id := called.intents[id].(status := Executed)]
    requires |u.audit| == |called.audit| + 1 && u.audit == called.audit + [u.audit[|called.audit|]]
    requires var paid := u.audit[|called.audit|];
      paid.accountId == account && paid.entry.PaymentExecuted? && paid.entry.amount == called.intents[id].amount
    requires id in u.transactions && reply.Settled? && Returned(u, v, id, reply)
    ensures v.intents == called.intents[id := called.intents[id].(status := Failed)]
    ensures id in v.transactions && !Inv(v)
    ensures SpineSums.Balanced(called, account) ==> !SpineSums.Balanced(v, account)
  {
    assert !Coherent(ViewOf(v, id));
    DeliveryRuns.LogsOnePayment(called, v, id, account, u.audit[|called.audit|], v.audit[|u.audit|]);
  }

  /**
   * A requery that settles while the call is out: the call's own settlement finds the transaction row, and the paid
   * intent is marked FAILED. The log keeps a payment.executed line for it.
   */
  lemma SettledRequery(w: World, input: Input, d: Decision, r: Reply, r': Reply, account: string)
    returns (u: World, v: World)
    requires NewAllowed(w, input, d) && r.Settled? && r'.Settled?
    requires account == w.credentials[input.credentialId].accountId
    ensures |w.intents| < |Called(w, input, d).intents|
    ensures u == Requery(Called(w, input, d), |w.intents|, r).0 && |w.intents| < |u.intents|
    ensures v == Return(u, |w.intents|, r') && |w.intents| < |v.intents|
    ensures u.intents[|w.intents|].status == Executed
    ensures v.intents[|w.intents|].status == Failed && |w.intents| in v.transactions && !Inv(v)
    ensures SpineSums.Balanced(w, account) ==> !SpineSums.Balanced(v, account)
  {
    u := Requery(Called(w, input, d), |w.intents|, r).0;
    PaidView(w, input, d, r);
    v := Return(u, |w.intents|, r');
    ReturnWrites(u, |w.intents|, r');
    CalledBalances(w, input, d, account);
    PaidIsFailed(Called(w, input, d), u, v, |w.intents|, r', account);
  }

  // ---- against the mock -----------------------------------------------------------------------------------------

  /** The mock stores a result only when it answers, so a requery before that hears "not found". */
  lemma EarlyRequeryMisses(rig: Agreement.Rig, input: Input, d: Decision, token: string)
    requires Agreement.RigInv(rig) && NewAllowed(rig.w, input, d)
    ensures MP.Requeried(rig.cache, input.key, token).1 == MP.NOT_FOUND
    ensures Agreement.ReplyOf(MP.NOT_FOUND) == Refused
  {
    Agreement.NewKeyIsUncached(rig, input.key);
  }

  /** A charge the mock leaves pending: it stays pending in the cache beside an intent marked FAILED. */
  lemma MissedRequeryDisagrees(rig: Agreement.Rig, input: Input, d: Decision, ref: string, token: string)
    returns (cache: MP.Cache, v: World)
    requires Agreement.RigInv(rig) && NewAllowed(rig.w, input, d) && MP.StatusFor(input.amount) == MP.InProcess
    ensures cache == Agreement.Ask(rig, RowOf(rig.w, input, Allow), ref, token).0
    ensures |rig.w.intents| < |v.intents| && v.intents[|rig.w.intents|].status == Failed
    ensures v.intents[|rig.w.intents|].key == input.key
    ensures input.key in cache && cache[input.key].status == MP.InProcess
    ensures !Agreement.RigInv(Agreement.Rig(v, cache))
  {
    EarlyRequeryMisses(rig, input, d, token);
    var ask := Agreement.Ask(rig, RowOf(rig.w, input, Allow), ref, token);
    cache := ask.0;
    var u;
    u, v := MissedRequery(rig.w, input, d, ask.1);
    assert v.intents[|rig.w.intents|].key == input.key by { MissedView(rig.w, input, d); }
  }

  /** A requery that reads the stored success before the call's own write: the mock has paid what ends FAILED. */
  lemma SettledRequeryDisagrees(rig: Agreement.Rig, input: Input, d: Decision, ref: string, token: string)
    returns (cache: MP.Cache, v: World)
    requires Agreement.RigInv(rig) && NewAllowed(rig.w, input, d) && MP.StatusFor(input.amount) == MP.Success
    ensures cache == Agreement.Ask(rig, RowOf(rig.w, input, Allow), ref, token).0
    ensures input.key in cache && cache[input.key].status == MP.Success
    ensures MP.Requeried(cache, input.key, token) == (cache, cache[input.key])
    ensures |rig.w.intents| < |v.intents| && v.intents[|rig.w.intents|].status == Failed
    ensures |rig.w.intents| in v.transactions && !Agreement.RigInv(Agreement.Rig(v, cache))
  {
    EarlyRequeryMisses(rig, input, d, token);
    var ask := Agreement.Ask(rig, RowOf(rig.w, input, Allow), ref, token);
    cache := ask.0;
    var u;
    u, v := SettledRequery(rig.w, input, d, Agreement.ReplyOf(cache[input.key]), ask.1,
                           rig.w.credentials[input.credentialId].accountId);
  }
}
