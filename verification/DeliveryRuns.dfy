/**
 * Whole runs of overlapping handlers of one held intent: exactly which of them keep the master invariant,
 * the runs of the source that do not, and the runs without overlap, which are the atomic steps of Spine.dfy.
 */
module DeliveryRuns {
  import opened Basics
  import opened Policy
  import opened Spine
  import opened SpineInvariant
  import opened Deliveries
  import SpineSteps
  import SpineSums
  import Agreement
  import MP = MockProvider

  // ---- which runs are sound ---------------------------------------------------------------------------------

  /** A held intent before anything is accepted or handled. */
  ghost predicate Held(s: State) {
    s.accepted == {} && s.handled == {} && s.tasks == [] && s.view.row.status == Escalated && Coherent(s.view)
  }

  /** Every state of the run is sound. */
  ghost predicate AllSound(s: State, run: Run) {
    match run case Start => Sound(s) case Then(past, m) => AllSound(s, past) && Sound(After(s, run))
  }

  /** How many approvals got past status guard and recheck. */
  function CallsIn(s: State, run: Run): nat {
    match run case Start => 0 case Then(past, m) => CallsIn(s, past) + if Calls(After(s, past), m) then 1 else 0
  }

  /** How many denials and failed rechecks were written. */
  function VoidsIn(s: State, run: Run): nat {
    match run case Start => 0 case Then(past, m) => VoidsIn(s, past) + if Voids(After(s, past), m) then 1 else 0
  }

  predicate Unsettled(s: State, run: Run) {
    match run case Start => false case Then(past, m) => Unsettled(s, past) || Unsettles(After(s, past), m)
  }

  /** At most one approval passes, nothing is voided if one does, and no settled payment is marked failed. */
  predicate OneOutcome(s: State, run: Run) {
    CallsIn(s, run) <= 1 && (CallsIn(s, run) == 0 || VoidsIn(s, run) == 0) && !Unsettled(s, run)
  }

  lemma {:induction false} CallsAreCounted(s: State, run: Run)
    ensures After(s, run).view.calls == s.view.calls + CallsIn(s, run)
  {
    match run
    case Start =>
    case Then(past, m) => CallsAreCounted(s, past);
  }

  /** Where a sound run is: still held, charged once, or voided for good; an answer once handled stays so. */
  ghost predicate Staged(s: State, calls: nat, voids: nat) {
    && s.view.calls == calls
    && (calls == 0 && voids == 0 ==> s.view.row.status == Escalated && CallsOut(s) == 0)
    && (voids > 0 ==> s.view.row.status == Voided && CallsOut(s) == 0)
    && (true in s.handled ==> s.view.row.status != Escalated)
    && (false in s.handled ==> s.view.row.status == Voided)
  }

  lemma ReadSpendStages(s: State, k: nat, spent: int, hours: Hours, calls: nat, voids: nat)
    requires var m := ReadSpend(k, spent, hours); Sound(s) && Staged(s, calls, voids) && Guarded(s, m)
    ensures var m := ReadSpend(k, spent, hours);
      Staged(Advance(s, m), calls + if Calls(s, m) then 1 else 0, voids)
  {
    OutAfter(s, k, Calling);
    OutAfter(s, k, Voiding);
  }

  lemma WriteStages(s: State, k: nat, at: Instant, calls: nat, voids: nat)
    requires Sound(s) && Staged(s, calls, voids)
    ensures Staged(Advance(s, Write(k, at)), calls, voids)
  {
    OutAfter(s, k, Finished);
    OutAfter(s, k, Replied(Threw));
  }

  lemma VoidStages(s: State, m: Move, calls: nat, voids: nat)
    requires Sound(s) && Staged(s, calls, voids) && Guarded(s, m) && (m.WriteVoid? || m.Decline?)
    ensures Staged(Advance(s, m), calls, voids + if Voids(s, m) then 1 else 0)
  {
    if m.WriteVoid? { OutAfter(s, m.k, Finished); }
  }

  lemma RequeryStages(s: State, k: nat, at: Instant, calls: nat, voids: nat)
    requires Sound(s) && Staged(s, calls, voids) && Guarded(s, WriteRequery(k, at))
    ensures Staged(Advance(s, WriteRequery(k, at)), calls, voids)
  {
    OutAfter(s, k, Finished);
  }

  lemma QuietMoveStages(s: State, m: Move, calls: nat, voids: nat)
    requires Sound(s) && Staged(s, calls, voids)
    requires m.Accept? || m.Begin? || m.Answers? || m.BeginRequery? || m.Tells?
    ensures Staged(Advance(s, m), calls, voids)
  {
    match m
    case Accept(_) =>
    case Begin(cred) => OutAfter(s, 0, if cred.revoked then Voiding else Rechecking(cred));
    case Answers(k, reply) => OutAfter(s, k, Replied(reply));
    case BeginRequery => OutAfter(s, 0, Asking);
    case Tells(k, reply) => OutAfter(s, k, Told(reply));
  }

  lemma MoveStages(s: State, m: Move, calls: nat, voids: nat)
    requires Sound(s) && Staged(s, calls, voids) && Guarded(s, m)
    ensures Staged(Advance(s, m), calls + if Calls(s, m) then 1 else 0, voids + if Voids(s, m) then 1 else 0)
  {
    match m
    case ReadSpend(k, spent, hours) => ReadSpendStages(s, k, spent, hours, calls, voids);
    case Write(k, at) => WriteStages(s, k, at, calls, voids);
    case WriteVoid(_) => VoidStages(s, m, calls, voids);
    case Decline => VoidStages(s, m, calls, voids);
    case WriteRequery(k, at) => RequeryStages(s, k, at, calls, voids);
    case _ => QuietMoveStages(s, m, calls, voids);
  }

  /** On a staged state a move is guarded exactly when the counts it leads to still allow one outcome. */
  lemma GuardedByCounts(s: State, m: Move, calls: nat, voids: nat)
    requires Sound(s) && Staged(s, calls, voids) && calls <= 1 && (calls == 0 || voids == 0)
    ensures var c, v := calls + (if Calls(s, m) then 1 else 0), voids + if Voids(s, m) then 1 else 0;
      Guarded(s, m) <==> c <= 1 && (c == 0 || v == 0) && !Unsettles(s, m)
  {
    OutIsNatural(s);
  }

  lemma {:induction false} SoundRunsAreStaged(s: State, run: Run)
    requires Held(s) && AllSound(s, run)
    ensures Staged(After(s, run), CallsIn(s, run), VoidsIn(s, run)) && OneOutcome(s, run)
  {
    match run
    case Start =>
    case Then(past, m) =>
      SoundRunsAreStaged(s, past);
      MoveKeepsIff(After(s, past), m);
      MoveStages(After(s, past), m, CallsIn(s, past), VoidsIn(s, past));
      GuardedByCounts(After(s, past), m, CallsIn(s, past), VoidsIn(s, past));
  }

  lemma {:induction false} OneOutcomeIsSound(s: State, run: Run)
    requires Held(s) && OneOutcome(s, run)
    ensures AllSound(s, run)
  {
    match run
    case Start =>
    case Then(past, m) =>
      OneOutcomeIsSound(s, past);
      SoundRunsAreStaged(s, past);
      GuardedByCounts(After(s, past), m, CallsIn(s, past), VoidsIn(s, past));
      MoveKeepsIff(After(s, past), m);
  }

  /**
   * For any number of handlers in any order: the master invariant holds in every state of the run if and only if
   * at most one approval gets past status guard and recheck, no void is written in a run in which one does, and
   * no requery marks a settled payment failed. Every approval that passes is one provider call.
   */
  lemma SoundIffOneOutcome(s: State, run: Run)
    requires Held(s)
    ensures AllSound(s, run) <==> OneOutcome(s, run)
    ensures After(s, run).view.calls == CallsIn(s, run)
  {
    CallsAreCounted(s, run);
    if AllSound(s, run) {
      SoundRunsAreStaged(s, run);
    } else if OneOutcome(s, run) {
      OneOutcomeIsSound(s, run);
    }
  }

  lemma StagedIsSettled(v: State, calls: nat, voids: nat)
    requires Sound(v) && Staged(v, calls, voids) && CallsOut(v) == 0
    ensures Coherent(v.view)
    ensures forall answer :: answer in v.handled ==>
      v.view.row.status != Escalated && (!answer ==> v.view.row.status == Voided)
  {
  }

  /** Once no call is out, such a run has left the intent coherent, and every handled answer answered. */
  lemma OneOutcomeSettles(s: State, run: Run)
    requires Held(s) && OneOutcome(s, run) && CallsOut(After(s, run)) == 0
    ensures var v := After(s, run);
      && Coherent(v.view)
      && forall answer :: answer in v.handled ==>
           v.view.row.status != Escalated && (!answer ==> v.view.row.status == Voided)
  {
    OneOutcomeIsSound(s, run);
    SoundRunsAreStaged(s, run);
    StagedIsSettled(After(s, run), CallsIn(s, run), VoidsIn(s, run));
  }

  /** On the database: where such a run has answered every accepted answer, the master invariant is back in full. */
  lemma OneOutcomeRestoresInv(s: State, run: Run, w: World, id: nat)
    requires Held(s) && OneOutcome(s, run) && CallsOut(After(s, run)) == 0
    requires id < |w.intents| && InvExcept(w, id) && ViewOf(w, id) == After(s, run).view
    requires forall a :: a in w.answers && a.id == id ==> a.approve in After(s, run).handled
    ensures Inv(w)
  {
    OneOutcomeSettles(s, run);
    SettledRestoresInv(w, id, After(s, run));
  }

  lemma SettledRestoresInv(w: World, id: nat, v: State)
    requires id < |w.intents| && InvExcept(w, id) && ViewOf(w, id) == v.view && Coherent(v.view)
    requires forall a :: a in w.answers && a.id == id ==> a.approve in v.handled
    requires forall answer :: answer in v.handled ==>
      v.view.row.status != Escalated && (!answer ==> v.view.row.status == Voided)
    ensures Inv(w)
  {
  }

  // ---- the runs that break it -------------------------------------------------------------------------------

  /** A handler of an approval begins and passes its recheck while the intent is held. */
  lemma PassOne(s: State, run: Run, cred: Credential, spent: int, hours: Hours) returns (run': Run)
    requires var v := After(s, run);
      && true in v.accepted && v.view.row.status == Escalated && !cred.revoked && Passes(v, cred, spent, hours)
    ensures var v := After(s, run);
      After(s, run') == v.(tasks := v.tasks + [Calling], view := v.view.(calls := v.view.calls + 1))
  {
    var v, begin, read := After(s, run), Begin(cred), ReadSpend(|After(s, run).tasks|, spent, hours);
    run' := Then(Then(run, begin), read);
    assert (v.tasks + [Rechecking(cred)])[|v.tasks| := Calling] == v.tasks + [Calling];
  }

  lemma AnswerAndWrite(v: State, k: nat, reply: Reply, at: Instant)
    requires TaskAt(v, k) == Calling && !(reply.Settled? && v.view.transaction.Some?)
    ensures Advance(Advance(v, Answers(k, reply)), Write(k, at))
         == Put(v, k, Finished).(view := ResumedView(v.view, reply, at), handled := v.handled + {true})
  {
    assert v.tasks[k := Replied(reply)][k := Finished] == v.tasks[k := Finished];
  }

  /** The provider answers a call, and the answer is written. */
  lemma SettleOne(s: State, run: Run, k: nat, reply: Reply, at: Instant) returns (run': Run)
    requires TaskAt(After(s, run), k) == Calling && !(reply.Settled? && After(s, run).view.transaction.Some?)
    ensures var v := After(s, run);
      && k < |v.tasks|
      && After(s, run') == Put(v, k, Finished).(view := ResumedView(v.view, reply, at), handled := v.handled + {true})
  {
    AnswerAndWrite(After(s, run), k, reply, at);
    run' := Then(Then(run, Answers(k, reply)), Write(k, at));
  }

  /** The provider settles a call whose transaction row is already there: rolled back, and then marked failed. */
  lemma SettleTwice(s: State, run: Run, k: nat, reply: Reply, at: Instant) returns (run': Run)
    requires TaskAt(After(s, run), k) == Calling && reply.Settled? && After(s, run).view.transaction.Some?
    ensures var v := After(s, run); After(s, run').view == ResumedView(v.view, Threw, at)
  {
    var v, answers, write := After(s, run), Answers(k, reply), Write(k, at);
    assert After(s, Then(run, answers)) == Put(v, k, Replied(reply));
    run' := Then(Then(Then(run, answers), write), write);
  }

  lemma AcceptOne(s: State, run: Run, approve: bool) returns (run': Run)
    requires After(s, run).view.cosign == Some(CosignPending)
    ensures After(s, run') == After(s, run).(accepted := After(s, run).accepted + {approve})
  {
    run' := Then(run, Accept(approve));
  }

  /**
   * What the two registered handlers of one approval do: both read the intent held, both call the provider, and
   * the second write finds the transaction row of the first. The intent ends FAILED although it was paid.
   */
  lemma TwoHandlersChargeTwice(s: State, cred: Credential, spent: int, hours: Hours, r: Reply, r': Reply, at: Instant)
    returns (run: Run)
    requires Held(s) && !cred.revoked && Passes(s, cred, spent, hours) && r.Settled? && r'.Settled?
    ensures var v := After(s, run).view;
      && CallsIn(s, run) == 2 && v.calls == 2
      && v.row.status == Failed && v.transaction.Some? && v.cosign == Some(CosignApproved) && !Coherent(v)
  {
    run := AcceptOne(s, Start, true);
    run := PassOne(s, run, cred, spent, hours);
    run := PassOne(s, run, cred, spent, hours);
    run := SettleOne(s, run, 0, r, at);
    run := SettleTwice(s, run, 1, r', at);
    CallsAreCounted(s, run);
  }

  /** A denial accepted and handled while an approval's call is out: the intent ends EXECUTED under a denied cosign. */
  lemma DenialDuringTheCall(s: State, cred: Credential, spent: int, hours: Hours, r: Reply, at: Instant)
    returns (run: Run)
    requires Held(s) && !cred.revoked && Passes(s, cred, spent, hours) && r.Settled?
    ensures var v := After(s, run).view;
      v.row.status == Executed && v.cosign == Some(CosignDenied) && v.calls == 1 && !Coherent(v)
  {
    run := AcceptOne(s, Start, true);
    run := PassOne(s, run, cred, spent, hours);
    run := AcceptOne(s, run, false);
    run := Then(run, Decline);
    run := SettleOne(s, run, 0, r, at);
  }

  /** A denial accepted in time but handled after the approval was paid: VOIDED although the money moved. */
  lemma LateDenialIsReachable(s: State, cred: Credential, spent: int, hours: Hours, r: Reply, at: Instant)
    returns (run: Run)
    requires Held(s) && !cred.revoked && Passes(s, cred, spent, hours) && r.Settled?
    ensures var v := After(s, run).view;
      v.row.status == Voided && v.transaction.Some? && v.calls == 1 && !Coherent(v)
  {
    run := AcceptOne(s, Start, true);
    run := AcceptOne(s, run, false);
    run := PassOne(s, run, cred, spent, hours);
    run := SettleOne(s, run, 0, r, at);
    run := Then(run, Decline);
  }

  // ---- the same on the database --------------------------------------------------------------------------------

  ghost predicate RecordWrote(w: World, v: World, id: nat, reply: Reply)
    requires id < |w.intents|
  {
    var row, status := w.intents[id], StatusOn(reply, id in w.transactions);
    && v.intents == w.intents[id := row.(status := status)]
    && v.decisions == w.decisions && v.calls == w.calls
    && v.cosigns == (if id in w.cosigns && w.cosigns[id] == CosignPending
         then w.cosigns[id := if status == Failed then CosignDenied else CosignApproved] else w.cosigns)
    && v.transactions == (if status == Executed
         then w.transactions[id := Transaction(reply.providerRef, NonEmpty(reply.token), w.now)] else w.transactions)
    && v.audit == w.audit + [AuditEvent(AccountOf(w, id), System, ChargeEntry(id, row.amount, reply, status))]
    && v.credentials == w.credentials && v.now == w.now
  }

  lemma RecordWrites(w: World, id: nat, reply: Reply)
    requires id < |w.intents|
    ensures RecordWrote(w, Record(w, id, System, true, reply), id, reply)
  {
  }

  /** A written result is ResumedView on the intent's own rows and nothing on any other intent's. */
  lemma RecordView(w: World, v: World, id: nat, reply: Reply)
    requires id < |w.intents| && RecordWrote(w, v, id, reply)
    ensures ViewOf(v, id) == ResumedView(ViewOf(w, id), reply, w.now) && SameBut(w, v, id)
  {
    var e := v.audit[|w.audit|];
    forall i | 0 <= i < |w.intents| && i != id ensures ViewOf(v, i) == ViewOf(w, i) {
      LogFrame(w.audit, e, i);
    }
    LogFrame(w.audit, e, id);
  }

  /** A written void is VoidedView. */
  lemma VoidIsVoidedView(w: World, id: nat)
    requires id < |w.intents|
    ensures ViewOf(Void(w, id).0, id) == VoidedView(ViewOf(w, id)) && SameBut(w, Void(w, id).0, id)
  {
    VoidView(w, id);
  }

  /** A written requery of an intent still ALLOWED is RequeriedView. */
  lemma RequeryIsRequeriedView(w: World, id: nat, reply: Reply)
    requires id < |w.intents| && w.intents[id].status == Allowed && id !in w.transactions
    ensures ViewOf(Requery(w, id, reply).0, id) == RequeriedView(ViewOf(w, id), reply, w.now)
  {
    RequeryView(w, id, reply);
  }

  /** An intent that ends FAILED adds nothing to the spend the next policy check reads. */
  lemma FailedIsNotSpent(w: World, v: World, id: nat, c: string, month: int)
    requires id < |w.intents| && w.intents[id].status != Executed
    requires v.intents == w.intents[id := w.intents[id].(status := Failed)]
    ensures SpentSince(v.intents, c, month) == SpentSince(w.intents, c, month)
  {
    SumUpdate(w.intents, id, v.intents[id], SpendSince(c, month));
  }

  /**
   * Two handlers of one approval, both past their recheck before either wrote, whatever refs they settle with: two
   * calls moved money, and no credential's spend has changed.
   */
  lemma OverlappingApprovals(w: World, id: nat, r: Reply, r': Reply, account: string) returns (v: World)
    requires Inv(w) && id < |w.intents| && w.intents[id].status == Escalated && r.Settled? && r'.Settled?
    requires account == AccountOf(w, id)
    ensures var called := w.(calls := w.calls + [w.intents[id].key, w.intents[id].key]);
      v == Record(Record(called, id, System, true, r), id, System, true, r')
    ensures id < |v.intents| && v.intents[id].status == Failed && id in v.transactions
    ensures multiset(v.calls)[w.intents[id].key] == 2 && !Inv(v)
    ensures SpineSums.Balanced(w, account) ==> !SpineSums.Balanced(v, account)
    ensures forall c, month :: SpentSince(v.intents, c, month) == SpentSince(w.intents, c, month)
  {
    var called: World := w.(calls := w.calls + [w.intents[id].key, w.intents[id].key]);
    var u := Record(called, id, System, true, r);
    RecordWrites(called, id, r);
    v := Record(u, id, System, true, r');
    RecordWrites(u, id, r');
    assert Coherent(ViewOf(w, id));
    TwiceWritten(w, called, u, v, id, r, r', account);
    forall c, month ensures SpentSince(v.intents, c, month) == SpentSince(w.intents, c, month) {
      FailedIsNotSpent(w, v, id, c, month);
    }
  }

  lemma TwiceWritten(w: World, called: World, u: World, v: World, id: nat, r: Reply, r': Reply, account: string)
    requires id < |w.intents| && w.intents[id].status == Escalated && Coherent(ViewOf(w, id))
    requires account == AccountOf(w, id) && r.Settled? && r'.Settled?
    requires called == w.(calls := w.calls + [w.intents[id].key, w.intents[id].key])
    requires RecordWrote(called, u, id, r) && RecordWrote(u, v, id, r')
    ensures v.intents == w.intents[id := w.intents[id].(status := Failed)] && id in v.transactions
    ensures multiset(v.calls)[w.intents[id].key] == 2 && !Inv(v)
    ensures SpineSums.Balanced(w, account) ==> !SpineSums.Balanced(v, account)
  {
    TwiceCalled(w.calls, w.intents[id].key);
    assert ViewOf(v, id).calls == 2;
    LogsOnePayment(w, v, id, account, u.audit[|w.audit|], v.audit[|u.audit|]);
  }

  lemma TwiceCalled(calls: seq<string>, key: string)
    ensures multiset(calls + [key, key])[key] == multiset(calls)[key] + 2
  {
    assert calls + [key, key] == calls + [key] + [key];
  }

  /** One payment.executed line more, and the intent not executed: the log no longer equals the state. */
  lemma LogsOnePayment(w: World, v: World, id: nat, account: string, paid: AuditEvent, failed: AuditEvent)
    requires id < |w.intents| && account == AccountOf(w, id) && w.intents[id].amount > 0
    requires w.intents[id].status != Executed && v.credentials == w.credentials
    requires v.intents == w.intents[id := w.intents[id].(status := Failed)]
    requires v.audit == w.audit + [paid] + [failed] && paid.accountId == account && !failed.entry.PaymentExecuted?
    requires paid.entry.PaymentExecuted? && paid.entry.amount == w.intents[id].amount
    ensures SpineSums.Balanced(w, account) ==> !SpineSums.Balanced(v, account)
  {
    var f := SpineSums.ExecutedFor(SpineSums.Accounts(w), account);
    assert SpineSums.Accounts(v) == SpineSums.Accounts(w);
    SumUpdate(w.intents, id, v.intents[id], f);
    SumSnoc(w.audit, paid, SpineSums.LoggedFor(account));
    SumSnoc(w.audit + [paid], failed, SpineSums.LoggedFor(account));
  }

  /** A void written while a call is out, whose reply then settles. */
  lemma VoidDuringTheCall(w: World, id: nat, r: Reply)
    requires Inv(w) && id < |w.intents| && w.intents[id].status == Escalated && r.Settled?
    ensures var called := w.(calls := w.calls + [w.intents[id].key]);
      var v := Record(Void(called, id).0, id, System, true, r);
      v.intents[id].status == Executed && id in v.cosigns && v.cosigns[id] == CosignDenied && !Inv(v)
  {
    var called: World := w.(calls := w.calls + [w.intents[id].key]);
    assert Coherent(ViewOf(w, id));
    var u := Void(called, id).0;
    var v := Record(u, id, System, true, r);
    VoidWrites(called, id);
    RecordWrites(u, id, r);
    RecordView(u, v, id, r);
    assert !Coherent(ViewOf(v, id));
  }

  /**
   * Against the mock: both calls look up the key before either stores its result, so both execute. The cache keeps
   * the second result, a success, beside an intent marked FAILED.
   */
  lemma OverlappingCallsDisagree(rig: Agreement.Rig, id: nat, ref: string, token: string, ref': string, token': string)
    requires Agreement.RigInv(rig) && id < |rig.w.intents| && rig.w.intents[id].status == Escalated
    requires MP.StatusFor(rig.w.intents[id].amount) == MP.Success
    ensures var w, row := rig.w, rig.w.intents[id];
      var first := MP.Executed(rig.cache, row.key, row.amount, row.billerId, ref, token).1;
      var second := MP.Executed(rig.cache, row.key, row.amount, row.billerId, ref', token').1;
      var called := w.(calls := w.calls + [row.key, row.key]);
      var u := Record(called, id, System, true, Agreement.ReplyOf(first));
      var v := Record(u, id, System, true, Agreement.ReplyOf(second));
      !Agreement.RigInv(Agreement.Rig(v, rig.cache[row.key := first][row.key := second]))
  {
    var row := rig.w.intents[id];
    assert Agreement.Agrees(row, Get(rig.w.transactions, id), Get(rig.cache, row.key));
    assert row.key !in rig.cache;
    var _ := OverlappingApprovals(rig.w, id,
      Agreement.ReplyOf(MP.Executed(rig.cache, row.key, row.amount, row.billerId, ref, token).1),
      Agreement.ReplyOf(MP.Executed(rig.cache, row.key, row.amount, row.billerId, ref', token').1),
      AccountOf(rig.w, id));
  }

  // ---- how often an intent is paid -----------------------------------------------------------------------------

  function ExecutionsIn(s: State, run: Run): nat {
    match run
    case Start => 0
    case Then(past, m) =>
      ExecutionsIn(s, past)
      + if After(s, past).view.row.status != Executed && After(s, run).view.row.status == Executed then 1 else 0
  }

  /** However handlers overlap, an intent becomes EXECUTED at most once: its transaction row is unique and stays. */
  lemma {:induction false} BecomesExecutedOnce(s: State, run: Run)
    requires s.view.transaction.None?
    ensures ExecutionsIn(s, run) <= if After(s, run).view.transaction.Some? then 1 else 0
  {
    match run
    case Start =>
    case Then(past, m) => BecomesExecutedOnce(s, past);
  }

  // ---- answers ----------------------------------------------------------------------------------------------

  /** An answer is accepted only while the request is pending, and a closed request never opens again. */
  lemma AnswersComeWhilePending(s: State, m: Move)
    ensures var v := Advance(s, m);
      && (forall b :: b in v.accepted <==> b in s.accepted || (m == Accept(b) && s.view.cosign == Some(CosignPending)))
      && (s.view.cosign != Some(CosignPending) ==> v.view.cosign != Some(CosignPending))
  {
  }

  /** Before an answer is accepted nothing happens to a held intent, whatever is delivered or asked. */
  lemma {:induction false} NothingWithoutAnAnswer(s: State, run: Run)
    requires Held(s) && After(s, run).accepted == {}
    ensures After(s, run) == s
  {
    match run
    case Start =>
    case Then(past, m) =>
      AnswersComeWhilePending(After(s, past), m);
      assert forall b :: b in After(s, past).accepted ==> b in After(s, run).accepted;
      NothingWithoutAnAnswer(s, past);
  }

  // ---- steps that do not overlap ------------------------------------------------------------------------------

  function ViewIn(w: World, id: nat): Option<View> {
    if id < |w.intents| then Some(ViewOf(w, id)) else None
  }

  predicate AllFinished(s: State) {
    forall k :: 0 <= k < |s.tasks| ==> s.tasks[k] == Finished
  }

  /** An atomic resolution is the run in which its one handler finishes before anything else starts. */
  lemma ResolveIsARun(w: World, s: State, answer: Answer, hours: Hours, reply: Reply) returns (run: Run)
    requires Inv(w) && CanResolve(w, answer.id) && s == State(ViewOf(w, answer.id), {}, {}, [])
    ensures var v := After(s, run);
      && Some(v.view) == ViewIn(Resolve(w, answer, hours, reply), answer.id)
      && v.handled == {answer.approve} && AllFinished(v)
  {
    assert Coherent(ViewOf(w, answer.id));
    run := AcceptOne(s, Start, answer.approve);
    run := HandleIsARun(w.(answers := w.answers + {answer}), s, run, answer, hours, reply);
  }

  /**
   * An atomic requery is the run in which it reads, is told and writes before anything else starts. It writes nothing
   * where the intent is not ALLOWED, or paid already.
   */
  lemma RequeryIsARun(w: World, s: State, id: nat, reply: Reply)
    requires id < |w.intents| && s.view == ViewOf(w, id) && s.tasks == []
    ensures var v := After(s, Then(Then(Then(Start, BeginRequery), Tells(0, reply)), WriteRequery(0, w.now)));
      && Some(v.view) == ViewIn(Requery(w, id, reply).0, id) && AllFinished(v)
      && v.accepted == s.accepted && v.handled == s.handled
      && (v.tasks != [] <==> w.intents[id].status == Allowed && id !in w.transactions)
  {
    RequeryInView(w, id, reply);
    AskAlone(s, reply, w.now);
  }

  lemma RequeryInView(w: World, id: nat, reply: Reply)
    requires id < |w.intents|
    ensures var v := ViewOf(w, id);
      ViewIn(Requery(w, id, reply).0, id)
        == Some(if v.row.status == Allowed && v.transaction.None? then RequeriedView(v, reply, w.now) else v)
  {
    RequeryView(w, id, reply);
  }

  /** One requery that reads, is told and writes before anything else happens. */
  lemma AskAlone(s: State, reply: Reply, at: Instant)
    requires s.tasks == []
    ensures After(s, Then(Then(Then(Start, BeginRequery), Tells(0, reply)), WriteRequery(0, at)))
      == if s.view.row.status == Allowed && s.view.transaction.None?
         then s.(tasks := [Finished], view := RequeriedView(s.view, reply, at)) else s
  {
    var begun := Advance(s, BeginRequery);
    if s.view.row.status == Allowed && s.view.transaction.None? {
      assert begun == s.(tasks := [Asking]);
      assert Advance(begun, Tells(0, reply)) == s.(tasks := [Told(reply)]);
    } else {
      assert begun == s;
    }
    assert After(s, Start) == s;
    assert After(s, Then(Start, BeginRequery)) == begun;
  }

  /**
   * A handler that comes late is over at once: an approval of an intent that is no longer held writes nothing, and a
   * denial voids it, whatever it has become.
   */
  lemma LateHandlerIsARun(w: World, s: State, answer: Answer, hours: Hours, reply: Reply, cred: Credential)
    requires answer.id < |w.intents| && s.view == ViewOf(w, answer.id) && answer.approve in s.accepted
    requires answer.approve ==> w.intents[answer.id].status != Escalated
    ensures var v := After(s, Then(Start, if answer.approve then Begin(cred) else Decline));
      && Some(v.view) == ViewIn(Handle(w, answer, hours, reply), answer.id)
      && v.handled == s.handled + {answer.approve} && v.accepted == s.accepted && v.tasks == s.tasks
  {
    if !answer.approve {
      VoidIsVoidedView(w, answer.id);
    }
  }

  lemma HandleIsARun(w: World, s: State, run: Run, answer: Answer, hours: Hours, reply: Reply)
    returns (run': Run)
    requires answer.id < |w.intents| && w.intents[answer.id].status == Escalated && answer.id !in w.transactions
    requires After(s, run) == State(ViewOf(w, answer.id), {answer.approve}, {}, [])
    ensures var v := After(s, run');
      && Some(v.view) == ViewIn(Handle(w, answer, hours, reply), answer.id)
      && v.handled == {answer.approve} && AllFinished(v)
  {
    if !answer.approve {
      run' := DecliningRun(w, s, run, answer.id);
    } else if SpineSteps.Passed(w, w.intents[answer.id], hours) {
      run' := PassingRun(w, s, run, answer.id, hours, reply);
    } else {
      run' := FailedHandler(w, s, run, answer, hours, reply);
    }
  }

  lemma PassingRun(w: World, s: State, run: Run, id: nat, hours: Hours, reply: Reply) returns (run': Run)
    requires id < |w.intents| && w.intents[id].status == Escalated && id !in w.transactions
    requires SpineSteps.Passed(w, w.intents[id], hours)
    requires After(s, run) == State(ViewOf(w, id), {true}, {}, [])
    ensures var v := After(s, run');
      Some(v.view) == ViewIn(Resume(w, id, hours, reply).0, id) && v.handled == {true} && v.tasks == [Finished]
  {
    var cred := w.credentials[w.intents[id].credentialId];
    SpineSteps.PassedIsLive(w, w.intents[id], hours);
    run' := PassAndSettle(s, run, cred, SpentSince(w.intents, w.intents[id].credentialId, w.now.month), hours,
                          reply, w.now);
    ResumeIsResumedView(w, id, hours, reply);
  }

  /** One handler that passes its recheck and writes the reply before anything else happens. */
  lemma PassAndSettle(s: State, run: Run, cred: Credential, spent: int, hours: Hours, reply: Reply, at: Instant)
    returns (run': Run)
    requires var v := After(s, run);
      && v.accepted == {true} && v.handled == {} && v.tasks == []
      && v.view.row.status == Escalated && v.view.transaction.None? && !cred.revoked && Passes(v, cred, spent, hours)
    ensures var v := After(s, run);
      After(s, run') == State(ResumedView(v.view.(calls := v.view.calls + 1), reply, at), {true}, {true}, [Finished])
  {
    run' := PassOne(s, run, cred, spent, hours);
    run' := SettleOne(s, run', 0, reply, at);
  }

  lemma ResumeIsResumedView(w: World, id: nat, hours: Hours, reply: Reply)
    requires id < |w.intents| && w.intents[id].status == Escalated && id !in w.transactions
    requires SpineSteps.Passed(w, w.intents[id], hours) && !w.credentials[w.intents[id].credentialId].revoked
    ensures var v := ViewOf(w, id);
      ViewIn(Resume(w, id, hours, reply).0, id) == Some(ResumedView(v.(calls := v.calls + 1), reply, w.now))
  {
    ChargeView(w, id, System, true, reply);
  }

  lemma DecliningRun(w: World, s: State, run: Run, id: nat) returns (run': Run)
    requires id < |w.intents| && After(s, run) == State(ViewOf(w, id), {false}, {}, [])
    ensures var v := After(s, run');
      Some(v.view) == ViewIn(Void(w, id).0, id) && v.handled == {false} && AllFinished(v)
  {
    VoidIsVoidedView(w, id);
    run' := Then(run, Decline);
  }

  /** A handler whose recheck fails, and the void it writes. */
  lemma GivesUp(s: State, run: Run, cred: Credential, spent: int, hours: Hours) returns (run': Run)
    requires var v := After(s, run);
      && v.tasks == [] && true in v.accepted && v.view.row.status == Escalated
      && (cred.revoked || !Passes(v, cred, spent, hours))
    ensures var v := After(s, run);
      After(s, run') == v.(tasks := [Finished], view := VoidedView(v.view), handled := v.handled + {true})
  {
    run' := Then(run, Begin(cred));
    if !cred.revoked {
      run' := Then(run', ReadSpend(0, spent, hours));
    }
    assert After(s, run') == After(s, run).(tasks := [Voiding]);
    run' := Then(run', WriteVoid(0));
  }

  lemma FailingRun(w: World, s: State, run: Run, id: nat, hours: Hours) returns (run': Run)
    requires id < |w.intents| && w.intents[id].status == Escalated && !SpineSteps.Passed(w, w.intents[id], hours)
    requires After(s, run) == State(ViewOf(w, id), {true}, {}, [])
    ensures var v := After(s, run');
      Some(v.view) == ViewIn(Void(w, id).0, id) && v.handled == {true} && v.tasks == [Finished]
  {
    var cred := w.credentials[w.intents[id].credentialId];
    var spent := SpentSince(w.intents, w.intents[id].credentialId, w.now.month);
    FailsRecheck(w, id, After(s, run), cred, spent, hours);
    run' := GivesUp(s, run, cred, spent, hours);
    VoidIsVoidedView(w, id);
  }

  lemma FailsRecheck(w: World, id: nat, v: State, cred: Credential, spent: int, hours: Hours)
    requires id < |w.intents| && !SpineSteps.Passed(w, w.intents[id], hours) && v.view == ViewOf(w, id)
    requires cred == w.credentials[w.intents[id].credentialId]
    requires spent == SpentSince(w.intents, w.intents[id].credentialId, w.now.month)
    ensures cred.revoked || !Passes(v, cred, spent, hours)
  {
  }

  lemma FailedHandler(w: World, s: State, run: Run, answer: Answer, hours: Hours, reply: Reply)
    returns (run': Run)
    requires answer.id < |w.intents| && w.intents[answer.id].status == Escalated && answer.approve
    requires !SpineSteps.Passed(w, w.intents[answer.id], hours)
    requires After(s, run) == State(ViewOf(w, answer.id), {true}, {}, [])
    ensures var v := After(s, run');
      && Some(v.view) == ViewIn(Handle(w, answer, hours, reply), answer.id)
      && v.handled == {true} && AllFinished(v)
  {
    run' := FailingRun(w, s, run, answer.id, hours);
    FailedResumeVoids(w, answer.id, hours, reply);
  }

  lemma FailedResumeVoids(w: World, id: nat, hours: Hours, reply: Reply)
    requires id < |w.intents| && w.intents[id].status == Escalated && !SpineSteps.Passed(w, w.intents[id], hours)
    ensures Resume(w, id, hours, reply).0 == Void(w, id).0
  {
  }
}
