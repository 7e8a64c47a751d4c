/**
 * The orchestrator and its payment provider agree: for any provider each key is executed at most once;
 * with the mock, the idempotency cache and the intents tell the same story in every reachable state.
 */
module Agreement {
  import opened Basics
  import opened Policy
  import opened Spine
  import opened SpineInvariant
  import opened SpineSteps
  import opened SpineRuns
  import MP = MockProvider

  /** Where the invariant holds, execute was called at most once per key, and exactly once iff charged. */
  lemma ExecutedAtMostOncePerKey(w: World, key: string)
    requires Inv(w)
    ensures var found := FindKey(w.intents, key);
      multiset(w.calls)[key] == if found.Some? && Charged(w.intents[found.value].status) then 1 else 0
  {
    var found := FindKey(w.intents, key);
    if found.Some? {
      assert Coherent(ViewOf(w, found.value));
    } else {
      assert key !in w.calls;
    }
  }

  /** The spine together with the mock's cache. */
  datatype Rig = Rig(w: World, cache: MP.Cache)

  function ReplyOf(r: MP.Result): Reply {
    match r.status
    case Success => Settled(r.providerRef, r.token)
    case InProcess => InFlight(r.providerRef)
    case Failure => Refused
  }

  /** Handing a charge to the mock: the cache after execute, and the reply. */
  function Ask(rig: Rig, row: Intent, providerRef: string, token: string): (MP.Cache, Reply) {
    var (cache, r) := MP.Executed(rig.cache, row.key, row.amount, row.billerId, providerRef, token);
    (cache, ReplyOf(r))
  }

  /** The cache changes with a charge only if the spine really made the call. */
  function Charging(rig: Rig, v: World, cache: MP.Cache): Rig {
    Rig(v, if v.calls != rig.w.calls then cache else rig.cache)
  }

  function InitiateWithMock(rig: Rig, input: Input, hours: Hours, providerRef: string, token: string)
    : (Rig, Initiation)
  {
    var (cache, reply) := Ask(rig, RowOf(rig.w, input, Allow), providerRef, token);
    var (v, out) := Initiate(rig.w, input, hours, reply);
    (Charging(rig, v, cache), out)
  }

  function ResumeWithMock(rig: Rig, id: nat, hours: Hours, providerRef: string, token: string): (Rig, Outcome) {
    if id < |rig.w.intents| then
      var (cache, reply) := Ask(rig, rig.w.intents[id], providerRef, token);
      var (v, out) := Resume(rig.w, id, hours, reply);
      (Charging(rig, v, cache), out)
    else (rig, Error(IntentNotFound))
  }

  function HandleWithMock(rig: Rig, answer: Answer, hours: Hours, providerRef: string, token: string): Rig {
    if answer.approve then ResumeWithMock(rig, answer.id, hours, providerRef, token).0
    else rig.(w := Void(rig.w, answer.id).0)
  }

  function RequeryWithMock(rig: Rig, id: nat, token: string): (Rig, Outcome) {
    if id < |rig.w.intents| && rig.w.intents[id].status == Allowed && id !in rig.w.transactions then
      var (cache, r) := MP.Requeried(rig.cache, rig.w.intents[id].key, token);
      var (v, out) := Requery(rig.w, id, ReplyOf(r));
      (Rig(v, cache), out)
    else (rig, if id < |rig.w.intents| then Done else Error(IntentNotFound))
  }

  function ResolveWithMock(rig: Rig, answer: Answer, hours: Hours, providerRef: string, token: string): Rig {
    if CanResolve(rig.w, answer.id)
    then HandleWithMock(rig.(w := rig.w.(answers := rig.w.answers + {answer})), answer, hours, providerRef, token)
    else rig
  }

  /** Resolving a pending request is handling its answer once the answer is on record. */
  lemma ResolveHandles(rig: Rig, heard: World, answer: Answer, hours: Hours, providerRef: string, token: string)
    requires CanResolve(rig.w, answer.id) && heard == rig.w.(answers := rig.w.answers + {answer})
    ensures ResolveWithMock(rig, answer, hours, providerRef, token)
         == HandleWithMock(Rig(heard, rig.cache), answer, hours, providerRef, token)
  {
  }

  /** Resuming a held intent that passes the recheck is one charge. */
  lemma ResumeCharges(rig: Rig, id: nat, hours: Hours, providerRef: string, token: string)
    requires id < |rig.w.intents| && rig.w.intents[id].status == Escalated && Passed(rig.w, rig.w.intents[id], hours)
    ensures var (cache, reply) := Ask(rig, rig.w.intents[id], providerRef, token);
      && Resume(rig.w, id, hours, reply) == (Charge(rig.w, id, System, true, reply), Done)
      && ResumeWithMock(rig, id, hours, providerRef, token)
         == (Rig(Charge(rig.w, id, System, true, reply), cache), Done)
  {
    PassedIsLive(rig.w, rig.w.intents[id], hours);
    var (cache, reply) := Ask(rig, rig.w.intents[id], providerRef, token);
    ChargeWrites(rig.w, id, System, true, reply);
  }

  /** Resuming a held intent that fails the recheck voids it. */
  lemma ResumeVoids(rig: Rig, id: nat, hours: Hours, providerRef: string, token: string)
    requires id < |rig.w.intents| && rig.w.intents[id].status == Escalated && !Passed(rig.w, rig.w.intents[id], hours)
    ensures var error := if rig.w.credentials[rig.w.intents[id].credentialId].revoked then RevokedBeforeResume
                         else DeniedOnResume(DecisionNow(rig.w, rig.w.intents[id], hours).reasons);
      && (forall reply :: Resume(rig.w, id, hours, reply) == (Void(rig.w, id).0, Error(error)))
      && ResumeWithMock(rig, id, hours, providerRef, token) == (rig.(w := Void(rig.w, id).0), Error(error))
  {
  }

  datatype MockEvent = MockEvent(event: Event, providerRef: string, token: string)

  function MockStep(rig: Rig, m: MockEvent): Rig {
    match m.event
    case Initiated(input, hours, _) => InitiateWithMock(rig, input, hours, m.providerRef, m.token).0
    case Resolved(answer, hours, _) => ResolveWithMock(rig, answer, hours, m.providerRef, m.token)
    case Redelivered(answer, hours, _) =>
      if answer in rig.w.answers then HandleWithMock(rig, answer, hours, m.providerRef, m.token) else rig
    case Requeried(id, _) => RequeryWithMock(rig, id, m.token).0
    case Revoked(_) => rig.(w := Step(rig.w, m.event))
    case Ticked(_) => rig.(w := Step(rig.w, m.event))
  }

  function MockRun(rig: Rig, ms: seq<MockEvent>): Rig {
    if ms == [] then rig else MockStep(MockRun(rig, ms[..|ms| - 1]), ms[|ms| - 1])
  }

  /** The same event with the reply the mock gives. */
  function Actual(rig: Rig, m: MockEvent): Event {
    match m.event
    case Initiated(input, hours, _) =>
      Initiated(input, hours, Ask(rig, RowOf(rig.w, input, Allow), m.providerRef, m.token).1)
    case Resolved(answer, hours, _) =>
      if answer.id < |rig.w.intents|
      then Resolved(answer, hours, Ask(rig, rig.w.intents[answer.id], m.providerRef, m.token).1) else m.event
    case Redelivered(answer, hours, _) =>
      if answer.id < |rig.w.intents|
      then Redelivered(answer, hours, Ask(rig, rig.w.intents[answer.id], m.providerRef, m.token).1) else m.event
    case Requeried(id, _) =>
      if id < |rig.w.intents|
      then Requeried(id, ReplyOf(MP.Requeried(rig.cache, rig.w.intents[id].key, m.token).1)) else m.event
    case Revoked(_) => m.event
    case Ticked(_) => m.event
  }

  function ActualEvents(rig: Rig, ms: seq<MockEvent>): seq<Event> {
    if ms == [] then []
    else ActualEvents(rig, ms[..|ms| - 1]) + [Actual(MockRun(rig, ms[..|ms| - 1]), ms[|ms| - 1])]
  }

  lemma HandleIsHandle(rig: Rig, answer: Answer, hours: Hours, providerRef: string, token: string, reply: Reply)
    requires answer.id < |rig.w.intents| ==> reply == Ask(rig, rig.w.intents[answer.id], providerRef, token).1
    ensures HandleWithMock(rig, answer, hours, providerRef, token).w == Handle(rig.w, answer, hours, reply)
  {
  }

  lemma RequeryIsRequery(rig: Rig, id: nat, token: string, reply: Reply)
    requires id < |rig.w.intents| ==> reply == ReplyOf(MP.Requeried(rig.cache, rig.w.intents[id].key, token).1)
    ensures RequeryWithMock(rig, id, token).0.w == Requery(rig.w, id, reply).0
    ensures RequeryWithMock(rig, id, token).1 == Requery(rig.w, id, reply).1
  {
  }

  lemma ResolveIsResolve(rig: Rig, answer: Answer, hours: Hours, providerRef: string, token: string, reply: Reply)
    requires answer.id < |rig.w.intents| ==> reply == Ask(rig, rig.w.intents[answer.id], providerRef, token).1
    ensures ResolveWithMock(rig, answer, hours, providerRef, token).w == Resolve(rig.w, answer, hours, reply)
  {
    if CanResolve(rig.w, answer.id) {
      var heard: World := rig.w.(answers := rig.w.answers + {answer});
      HandleIsHandle(rig.(w := heard), answer, hours, providerRef, token, reply);
    }
  }

  /** What a caller is answered is what the spine answers on the mock's reply. */
  lemma AnswersAreTheSpines(rig: Rig, input: Input, id: nat, hours: Hours, providerRef: string, token: string)
    ensures InitiateWithMock(rig, input, hours, providerRef, token).1
      == Initiate(rig.w, input, hours, Ask(rig, RowOf(rig.w, input, Allow), providerRef, token).1).1
    ensures ResumeWithMock(rig, id, hours, providerRef, token).1
      == if id < |rig.w.intents| then Resume(rig.w, id, hours, Ask(rig, rig.w.intents[id], providerRef, token).1).1
         else Error(IntentNotFound)
  {
  }

  lemma MockStepIsStep(rig: Rig, m: MockEvent)
    ensures MockStep(rig, m).w == Step(rig.w, Actual(rig, m))
  {
    var e := Actual(rig, m);
    if e.Resolved? {
      ResolveIsResolve(rig, e.answer, e.hours, m.providerRef, m.token, e.reply);
    } else if e.Redelivered? {
      HandleIsHandle(rig, e.answer, e.hours, m.providerRef, m.token, e.reply);
    } else if e.Requeried? {
      RequeryIsRequery(rig, e.id, m.token, e.reply);
    }
  }

  /** A run against the mock is a run of the spine, so whatever holds for every provider holds for the mock. */
  lemma {:induction false} MockRunIsRun(rig: Rig, ms: seq<MockEvent>)
    ensures MockRun(rig, ms).w == Run(rig.w, ActualEvents(rig, ms))
  {
    if ms == [] {
    } else {
      var past, last := ms[..|ms| - 1], ms[|ms| - 1];
      MockRunIsRun(rig, past);
      MockStepIsStep(MockRun(rig, past), last);
      RunSnoc(rig.w, ActualEvents(rig, past), Actual(MockRun(rig, past), last));
    }
  }

  // ---- what they agree on ---------------------------------------------------------------------------------

  predicate Agrees(row: Intent, transaction: Option<Transaction>, cached: Option<MP.Result>) {
    && (cached.Some? <==> Charged(row.status))
    && (row.status == Allowed <==> cached.Some? && cached.value.status == MP.InProcess)
    && (row.status == Failed <==> cached.Some? && cached.value.status == MP.Failure)
    && (row.status == Failed ==> MP.StatusFor(row.amount) == MP.Failure)
    && (row.status == Allowed ==> MP.StatusFor(row.amount) == MP.InProcess)
    && (row.status == Executed ==>
          && MP.StatusFor(row.amount) != MP.Failure
          && transaction.Some?
          && transaction.value.providerRef == cached.value.providerRef
          && transaction.value.token == NonEmpty(cached.value.token)
          && (MP.StatusFor(row.amount) == MP.Success ==>
                (cached.value.token.Some? <==> row.billerId.Some? && MP.IsElectricityBiller(row.billerId.value))))
  }

  ghost predicate RigInv(rig: Rig) {
    && Inv(rig.w)
    && (forall i :: 0 <= i < |rig.w.intents| ==>
          Agrees(rig.w.intents[i], Get(rig.w.transactions, i), Get(rig.cache, rig.w.intents[i].key)))
    && (forall k :: k in rig.cache ==> FindKey(rig.w.intents, k).Some?)
  }

  /** A change of one intent and of its cache entry only. */
  lemma AgreementPasses(rig: Rig, rig': Rig, id: nat)
    requires RigInv(rig) && Inv(rig'.w) && id < |rig'.w.intents| && id <= |rig.w.intents|
    requires |rig.w.intents| <= |rig'.w.intents| <= Max(|rig.w.intents|, id + 1)
    requires forall i :: 0 <= i < |rig.w.intents| && i != id ==>
      rig'.w.intents[i] == rig.w.intents[i] && Get(rig'.w.transactions, i) == Get(rig.w.transactions, i)
    requires id < |rig.w.intents| ==> rig'.w.intents[id].key == rig.w.intents[id].key
    requires forall k :: k != rig'.w.intents[id].key ==> Get(rig'.cache, k) == Get(rig.cache, k)
    requires Agrees(rig'.w.intents[id], Get(rig'.w.transactions, id), Get(rig'.cache, rig'.w.intents[id].key))
    ensures RigInv(rig')
  {
    forall i | 0 <= i < |rig'.w.intents|
      ensures Agrees(rig'.w.intents[i], Get(rig'.w.transactions, i), Get(rig'.cache, rig'.w.intents[i].key))
    {
      if i != id { assert rig'.w.intents[i].key != rig'.w.intents[id].key; }
    }
    forall k | k in rig'.cache ensures FindKey(rig'.w.intents, k).Some? {
      if k == rig'.w.intents[id].key {
        FindKeyIsUnique(rig'.w, id);
      } else {
        assert Get(rig.cache, k).Some?;
        assert rig'.w.intents[FindKey(rig.w.intents, k).value].key == k;
      }
    }
  }

  /** A charge of an intent the mock has never seen leaves the two in agreement. */
  lemma ChargeAgrees(cache: MP.Cache, w: World, v: World, id: nat, actor: Actor, resumed: bool,
                     providerRef: string, token: string)
    requires id < |w.intents| && w.intents[id].key !in cache && id !in w.transactions
    requires var row := w.intents[id];
      ChargeWrote(w, v, id, actor, resumed,
                  ReplyOf(MP.Executed(cache, row.key, row.amount, row.billerId, providerRef, token).1))
    ensures var row := w.intents[id];
      && Agrees(v.intents[id], Get(v.transactions, id),
                Get(MP.Executed(cache, row.key, row.amount, row.billerId, providerRef, token).0, row.key))
  {
  }

  lemma OpenPasses(rig: Rig, v: World, input: Input, d: Decision, cache: MP.Cache)
    requires RigInv(rig) && Inv(v)
    requires input.credentialId in rig.w.credentials && OpenWrote(rig.w, v, input, d)
    requires forall k :: k != input.key ==> Get(cache, k) == Get(rig.cache, k)
    requires Agrees(v.intents[|rig.w.intents|], Get(v.transactions, |rig.w.intents|), Get(cache, input.key))
    ensures RigInv(Rig(v, cache))
  {
    AgreementPasses(rig, Rig(v, cache), |rig.w.intents|);
  }

  lemma OpenAgrees(rig: Rig, input: Input, d: Decision, providerRef: string, token: string)
    requires RigInv(rig) && input.credentialId in rig.w.credentials && FindKey(rig.w.intents, input.key).None?
    requires d.verdict != Deny ==> input.amount > 0
    ensures var (cache, reply) := Ask(rig, RowOf(rig.w, input, Allow), providerRef, token);
      RigInv(Rig(Open(rig.w, input, d, reply), if d.verdict == Allow then cache else rig.cache))
  {
    var (cache, reply) := Ask(rig, RowOf(rig.w, input, Allow), providerRef, token);
    OpenKeeps(rig.w, input, d, reply);
    OpenWrites(rig.w, input, d, reply);
    if d.verdict == Allow { ChargeWrites(Commit(rig.w, input, d), |rig.w.intents|, AiAgent, false, reply); }
    OpenedAgrees(rig, Open(rig.w, input, d, reply), input, d, providerRef, token);
  }

  lemma NewKeyIsUncached(rig: Rig, key: string)
    requires RigInv(rig) && FindKey(rig.w.intents, key).None?
    ensures key !in rig.cache
  {
  }

  /** What was written for an opened intent is all that the agreement needs to know of the new state. */
  lemma OpenedAgrees(rig: Rig, v: World, input: Input, d: Decision, providerRef: string, token: string)
    requires RigInv(rig) && Inv(v) && input.credentialId in rig.w.credentials && FindKey(rig.w.intents, input.key).None?
    requires OpenWrote(rig.w, v, input, d)
    requires d.verdict == Allow ==>
      ChargeWrote(Commit(rig.w, input, d), v, |rig.w.intents|, AiAgent, false,
                  Ask(rig, RowOf(rig.w, input, Allow), providerRef, token).1)
    ensures RigInv(Rig(v, if d.verdict == Allow
                          then Ask(rig, RowOf(rig.w, input, Allow), providerRef, token).0 else rig.cache))
  {
    NewKeyIsUncached(rig, input.key);
    if d.verdict == Allow {
      OpenedByCharge(rig, v, input, d, providerRef, token);
    } else {
      OpenPasses(rig, v, input, d, rig.cache);
    }
  }

  lemma OpenedByCharge(rig: Rig, v: World, input: Input, d: Decision, providerRef: string, token: string)
    requires RigInv(rig) && Inv(v) && input.credentialId in rig.w.credentials && FindKey(rig.w.intents, input.key).None?
    requires d.verdict == Allow && OpenWrote(rig.w, v, input, d) && input.key !in rig.cache
    requires ChargeWrote(Commit(rig.w, input, d), v, |rig.w.intents|, AiAgent, false,
                         Ask(rig, RowOf(rig.w, input, Allow), providerRef, token).1)
    ensures RigInv(Rig(v, Ask(rig, RowOf(rig.w, input, Allow), providerRef, token).0))
  {
    ChargeAgrees(rig.cache, Commit(rig.w, input, d), v, |rig.w.intents|, AiAgent, false, providerRef, token);
    OpenPasses(rig, v, input, d, Ask(rig, RowOf(rig.w, input, Allow), providerRef, token).0);
  }

  lemma InitiateAgrees(rig: Rig, input: Input, hours: Hours, providerRef: string, token: string)
    requires RigInv(rig)
    ensures RigInv(InitiateWithMock(rig, input, hours, providerRef, token).0)
  {
    var w, row := rig.w, RowOf(rig.w, input, Allow);
    if FindKey(w.intents, input.key).None? && input.credentialId in w.credentials {
      var d := DecisionNow(w, row, hours);
      if d.verdict != Deny {
        PassedIsSafe(RequestOf(row), w.credentials[row.credentialId],
                     Context(SpentSince(w.intents, row.credentialId, w.now.month), hours));
      }
      OpenAgrees(rig, input, d, providerRef, token);
      InitiateOpens(rig, input, d, hours, providerRef, token);
    }
  }

  /** A replay and an unknown credential stop before the policy check. */
  lemma InitiateStops(rig: Rig, input: Input, hours: Hours, providerRef: string, token: string)
    ensures var existing := FindKey(rig.w.intents, input.key);
      && (existing.Some? ==>
            var id := existing.value;
            InitiateWithMock(rig, input, hours, providerRef, token)
              == (rig, Returned(id, if id in rig.w.decisions then rig.w.decisions[id]
                                    else Decision(DerivedVerdict(rig.w.intents[id].status), []))))
      && (existing.None? && input.credentialId !in rig.w.credentials ==>
            InitiateWithMock(rig, input, hours, providerRef, token) == (rig, Rejected(CredentialNotFound)))
  {
  }

  /** An initiation that gets as far as its rows is one opened intent, and the cache moves only with a charge. */
  lemma InitiateOpens(rig: Rig, input: Input, d: Decision, hours: Hours, providerRef: string, token: string)
    requires FindKey(rig.w.intents, input.key).None? && input.credentialId in rig.w.credentials
    requires d == DecisionNow(rig.w, RowOf(rig.w, input, Allow), hours)
    ensures var (cache, reply) := Ask(rig, RowOf(rig.w, input, Allow), providerRef, token);
      InitiateWithMock(rig, input, hours, providerRef, token)
        == if CanCommit(rig.w, input, d.verdict)
           then (Rig(Open(rig.w, input, d, reply), if d.verdict == Allow then cache else rig.cache),
                 Returned(|rig.w.intents|, d))
           else (rig, Rejected(RolledBack))
  {
    OpenWrites(rig.w, input, d, Ask(rig, RowOf(rig.w, input, Allow), providerRef, token).1);
  }

  /** The rows of a decided input and what its verdict sets off, or nothing at all where they cannot be written. */
  ghost predicate Settles(rig: Rig, rig': Rig, input: Input, d: Decision, providerRef: string, token: string,
                          committed: bool)
    requires FindKey(rig.w.intents, input.key).None? && input.credentialId in rig.w.credentials
  {
    && committed == CanCommit(rig.w, input, d.verdict)
    && if !committed then rig' == rig
       else
         var (cache, reply) := Ask(rig, RowOf(rig.w, input, Allow), providerRef, token);
         rig' == Rig(Open(rig.w, input, d, reply), if d.verdict == Allow then cache else rig.cache)
  }

  lemma SettlesAsInitiated(rig: Rig, rig': Rig, input: Input, d: Decision, hours: Hours, providerRef: string,
                           token: string, committed: bool)
    requires FindKey(rig.w.intents, input.key).None? && input.credentialId in rig.w.credentials
    requires d == DecisionNow(rig.w, RowOf(rig.w, input, Allow), hours)
    requires Settles(rig, rig', input, d, providerRef, token, committed)
    ensures (rig', if committed then Returned(|rig.w.intents|, d) else Rejected(RolledBack))
      == InitiateWithMock(rig, input, hours, providerRef, token)
  {
    InitiateOpens(rig, input, d, hours, providerRef, token);
  }

  lemma VoidAgrees(rig: Rig, heard: World, id: nat)
    requires RigInv(rig) && heard == rig.w.(answers := heard.answers)
    requires id < |heard.intents| && heard.intents[id].status == Escalated
    requires Inv(Void(heard, id).0)
    ensures RigInv(rig.(w := Void(heard, id).0))
  {
    assert Agrees(rig.w.intents[id], Get(rig.w.transactions, id), Get(rig.cache, rig.w.intents[id].key));
    AgreementPasses(rig, rig.(w := Void(heard, id).0), id);
  }

  lemma ResumeAgrees(rig: Rig, heard: World, id: nat, providerRef: string, token: string)
    requires RigInv(rig) && heard == rig.w.(answers := heard.answers)
    requires id < |heard.intents| && heard.intents[id].status == Escalated
    requires var (cache, reply) := Ask(rig, heard.intents[id], providerRef, token);
      Inv(Charge(heard, id, System, true, reply))
    ensures var (cache, reply) := Ask(rig, heard.intents[id], providerRef, token);
      RigInv(Rig(Charge(heard, id, System, true, reply), cache))
  {
    var (cache, reply) := Ask(rig, heard.intents[id], providerRef, token);
    ChargeWrites(heard, id, System, true, reply);
    ResumedAgrees(rig, heard, Charge(heard, id, System, true, reply), id, providerRef, token);
  }

  lemma ResumedAgrees(rig: Rig, heard: World, v: World, id: nat, providerRef: string, token: string)
    requires RigInv(rig) && heard == rig.w.(answers := heard.answers)
    requires id < |heard.intents| && heard.intents[id].status == Escalated
    requires ChargeWrote(heard, v, id, System, true, Ask(rig, heard.intents[id], providerRef, token).1) && Inv(v)
    ensures RigInv(Rig(v, Ask(rig, heard.intents[id], providerRef, token).0))
  {
    assert Agrees(rig.w.intents[id], Get(rig.w.transactions, id), Get(rig.cache, rig.w.intents[id].key));
    assert Coherent(ViewOf(rig.w, id));
    ChargeAgrees(rig.cache, heard, v, id, System, true, providerRef, token);
    AgreementPasses(rig, Rig(v, Ask(rig, heard.intents[id], providerRef, token).0), id);
  }

  lemma HeldAnswerAgrees(rig: Rig, heard: World, answer: Answer, hours: Hours, providerRef: string, token: string)
    requires RigInv(rig) && CanResolve(rig.w, answer.id) && heard == rig.w.(answers := rig.w.answers + {answer})
    requires heard.intents[answer.id].status == Escalated
    requires Inv(Handle(heard, answer, hours, Ask(rig, heard.intents[answer.id], providerRef, token).1))
    ensures RigInv(HandleWithMock(rig.(w := heard), answer, hours, providerRef, token))
  {
    if answer.approve && Passed(heard, heard.intents[answer.id], hours) {
      ResumeCharges(rig.(w := heard), answer.id, hours, providerRef, token);
      ResumeAgrees(rig, heard, answer.id, providerRef, token);
    } else {
      if answer.approve { ResumeVoids(rig.(w := heard), answer.id, hours, providerRef, token); }
      VoidAgrees(rig, heard, answer.id);
    }
  }

  lemma ResolveAgrees(rig: Rig, answer: Answer, hours: Hours, providerRef: string, token: string)
    requires RigInv(rig)
    ensures RigInv(ResolveWithMock(rig, answer, hours, providerRef, token))
  {
    var w, id := rig.w, answer.id;
    if CanResolve(w, id) {
      assert Coherent(ViewOf(w, id));
      var reply := Ask(rig, w.intents[id], providerRef, token).1;
      ResolveKeeps(w, answer, hours, reply);
      HeldAnswerAgrees(rig, w.(answers := w.answers + {answer}), answer, hours, providerRef, token);
    }
  }

  lemma RequeryPasses(rig: Rig, v: World, id: nat, r: MP.Result, cache: MP.Cache)
    requires RigInv(rig) && Inv(v) && id < |rig.w.intents| && rig.w.intents[id].status == Allowed
    requires r.status == MP.Success && cache == rig.cache[rig.w.intents[id].key := r]
    requires v.intents == rig.w.intents[id := rig.w.intents[id].(status := Executed)]
    requires v.transactions == rig.w.transactions[id := Transaction(r.providerRef, NonEmpty(r.token), rig.w.now)]
    ensures RigInv(Rig(v, cache))
  {
    assert Agrees(rig.w.intents[id], Get(rig.w.transactions, id), Get(rig.cache, rig.w.intents[id].key));
    AgreementPasses(rig, Rig(v, cache), id);
  }

  lemma RequeryAgrees(rig: Rig, id: nat, token: string)
    requires RigInv(rig)
    ensures RigInv(RequeryWithMock(rig, id, token).0)
  {
    var w := rig.w;
    if id < |w.intents| && w.intents[id].status == Allowed && id !in w.transactions {
      var (cache, r) := MP.Requeried(rig.cache, w.intents[id].key, token);
      assert Agrees(w.intents[id], Get(w.transactions, id), Get(rig.cache, w.intents[id].key));
      RequeryKeeps(w, id, ReplyOf(r));
      RequeryPasses(rig, Requery(w, id, ReplyOf(r)).0, id, r, cache);
    }
  }

  lemma RedeliveryAgrees(rig: Rig, answer: Answer, hours: Hours, providerRef: string, token: string)
    requires RigInv(rig) && answer in rig.w.answers
    ensures RigInv(HandleWithMock(rig, answer, hours, providerRef, token))
  {
    var w, id := rig.w, answer.id;
    assert Answered(w, answer);
    RedeliveryIsInert(w, answer, hours, Ask(rig, w.intents[id], providerRef, token).1);
    if !answer.approve {
      var v := Void(w, id).0;
      StepKeeps(w, Redelivered(answer, hours, Threw));
      AgreementPasses(rig, rig.(w := v), id);
    }
  }

  lemma MockStepAgrees(rig: Rig, m: MockEvent)
    requires RigInv(rig)
    ensures RigInv(MockStep(rig, m))
  {
    match m.event
    case Initiated(input, hours, _) => InitiateAgrees(rig, input, hours, m.providerRef, m.token);
    case Resolved(answer, hours, _) => ResolveAgrees(rig, answer, hours, m.providerRef, m.token);
    case Redelivered(answer, hours, _) =>
      if answer in rig.w.answers { RedeliveryAgrees(rig, answer, hours, m.providerRef, m.token); }
    case Requeried(id, _) => RequeryAgrees(rig, id, m.token);
    case Revoked(c) => StepKeeps(rig.w, m.event);
    case Ticked(_) => StepKeeps(rig.w, m.event);
  }

  /** Cache and rows agree in every state of every run against the mock whose steps do not overlap. */
  lemma {:induction false} MockRunAgrees(rig: Rig, ms: seq<MockEvent>)
    requires Fresh(rig.w) && rig.cache == map[]
    ensures RigInv(MockRun(rig, ms))
  {
    if ms == [] {
      FreshHolds(rig.w);
    } else {
      MockRunAgrees(rig, ms[..|ms| - 1]);
      MockStepAgrees(MockRun(rig, ms[..|ms| - 1]), ms[|ms| - 1]);
    }
  }

  /** With no call out, one requery settles any pending charge: "not found" cannot come back, and it ends executed. */
  lemma RequerySettles(rig: Rig, id: nat, token: string)
    requires RigInv(rig) && id < |rig.w.intents| && rig.w.intents[id].status == Allowed
    ensures MP.Requeried(rig.cache, rig.w.intents[id].key, token).1 != MP.NOT_FOUND
    ensures var rig' := RequeryWithMock(rig, id, token).0;
      && rig'.w.intents[id].status == Executed
      && id in rig'.w.transactions
      && rig'.w.transactions[id].providerRef == rig.cache[rig.w.intents[id].key].providerRef
      && rig'.w.transactions[id].token == NonEmpty(Some(token))
  {
    assert Agrees(rig.w.intents[id], Get(rig.w.transactions, id), Get(rig.cache, rig.w.intents[id].key));
    assert Coherent(ViewOf(rig.w, id));
  }
}
