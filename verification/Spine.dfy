/**
 * The payment spine on values: the database rows, and what each public entry does to them when it
 * runs to completion. Services.dfy proves the imperative services against these functions.
 */
module Spine {
  import opened Basics
  import opened Policy

  datatype Status = Pending | Allowed | Escalated | Denied | Executed | Failed | Voided

  datatype CosignStatus = CosignPending | CosignApproved | CosignDenied | CosignExpired

  /** A row of payment_intents; its id is its position. */
  datatype Intent = Intent(
    credentialId: string, channel: Channel, billerId: Option<string>, recipient: Option<string>,
    amount: int, status: Status, key: string, createdAt: Instant)

  datatype Transaction = Transaction(providerRef: string, token: Option<string>, executedAt: Instant)

  datatype Actor = AiAgent | System | Owner

  datatype Entry =
    | PaymentExecuted(id: nat, amount: int, providerRef: string)
    | PaymentPendingResolution(id: nat, amount: int, providerRef: string)
    | PaymentFailed(id: nat, amount: int)
    | PaymentEscalated(id: nat, amount: int, reasons: seq<Reason>)
    | PaymentDenied(id: nat, amount: int, reasons: seq<Reason>)
    | PaymentVoided(id: nat)
    | CredentialWasRevoked(credentialId: string)

  datatype AuditEvent = AuditEvent(accountId: string, actor: Actor, entry: Entry)

  /** What a call to the payment provider comes back with. */
  datatype Reply =
    | Settled(providerRef: string, token: Option<string>)
    | InFlight(providerRef: string)
    | Refused
    | Threw

  /** A trusted contact's answer, as carried by the cosign.resolved event. */
  datatype Answer = Answer(id: nat, approve: bool)

  datatype Input = Input(
    credentialId: string, channel: Channel, billerId: Option<string>, recipient: Option<string>,
    amount: int, key: string)

  datatype Rows = Rows(
    now: Instant,
    billers: set<string>,
    hasTrustedContact: bool,
    credentials: map<string, Credential>,
    intents: seq<Intent>,
    decisions: map<nat, Decision>,
    cosigns: map<nat, CosignStatus>,
    transactions: map<nat, Transaction>,
    audit: seq<AuditEvent>,
    calls: seq<string>,     // the keys handed to the provider's execute so far
    answers: set<Answer>)   // the cosign.resolved events emitted so far
  {
    /** The schema's foreign keys and its unique idempotency key. */
    ghost predicate Schema() {
      && (forall i :: 0 <= i < |intents| ==> intents[i].credentialId in credentials)
      && (forall i, j :: 0 <= i < j < |intents| ==> intents[i].key != intents[j].key)
      && (forall i :: i in decisions ==> i < |intents|)
      && (forall i :: i in cosigns ==> i < |intents|)
      && (forall i :: i in transactions ==> i < |intents|)
    }
  }

  ghost const NOTHING := Rows(Instant(0, 0), {}, false, map[], [], map[], map[], map[], [], [], {})

  type World = w: Rows | w.Schema() ghost witness NOTHING

  // ---- reading --------------------------------------------------------------------------------

  function FindKey(intents: seq<Intent>, key: string): (found: Option<nat>)
    ensures found.Some? ==> found.value < |intents| && intents[found.value].key == key
    ensures found.None? ==> forall i :: 0 <= i < |intents| ==> intents[i].key != key
  {
    if intents == [] then None
    else if intents[|intents| - 1].key == key then Some(|intents| - 1)
    else FindKey(intents[..|intents| - 1], key)
  }

  function SpendSince(credentialId: string, month: int): Intent -> int {
    (r: Intent) =>
      if r.credentialId == credentialId && r.status == Executed && r.createdAt.month >= month then r.amount else 0
  }

  /** monthlySpentSoFar: the aggregate over EXECUTED rows created since the start of the month. */
  function SpentSince(intents: seq<Intent>, credentialId: string, month: int): int {
    Sum(intents, SpendSince(credentialId, month))
  }

  function NonEmpty(s: Option<string>): Option<string> {
    if s == Some("") then None else s
  }

  function RequestOf(r: Intent): Request {
    Request(r.channel, NonEmpty(r.billerId), NonEmpty(r.recipient), r.amount)
  }

  function AccountOf(w: World, id: nat): string
    requires id < |w.intents|
  {
    w.credentials[w.intents[id].credentialId].accountId
  }

  // ---- single writes --------------------------------------------------------------------------

  function SetStatus(w: World, id: nat, status: Status): World
    requires id < |w.intents|
  {
    w.(intents := w.intents[id := w.intents[id].(status := status)])
  }

  /** cosignRequest.updateMany on the intent's row, if it is still pending. */
  function CloseCosign(w: World, id: nat, status: CosignStatus): World
    requires id < |w.intents|
  {
    if id in w.cosigns && w.cosigns[id] == CosignPending then w.(cosigns := w.cosigns[id := status]) else w
  }

  function AddTransaction(w: World, id: nat, providerRef: string, token: Option<string>): World
    requires id < |w.intents|
  {
    w.(transactions := w.transactions[id := Transaction(providerRef, NonEmpty(token), w.now)])
  }

  /** AuditService.log */
  function Log(w: World, accountId: string, actor: Actor, entry: Entry): World {
    w.(audit := w.audit + [AuditEvent(accountId, actor, entry)])
  }

  // ---- initiatePayment --------------------------------------------------------------------------

  datatype InitiateError = CredentialNotFound | RolledBack

  datatype Initiation = Returned(id: nat, decision: Decision) | Rejected(error: InitiateError)

  /** The verdict a replay would make up if the decision row were missing. */
  function DerivedVerdict(status: Status): Verdict {
    if status == Executed then Allow else if status == Escalated then Escalate else Deny
  }

  function InitialStatus(v: Verdict): Status {
    match v case Allow => Allowed case Escalate => Escalated case Deny => Denied
  }

  function RowOf(w: World, input: Input, v: Verdict): Intent {
    Intent(input.credentialId, input.channel, NonEmpty(input.billerId), NonEmpty(input.recipient),
           input.amount, InitialStatus(v), input.key, w.now)
  }

  /** The amount column is a 32-bit integer. */
  const MAX_AMOUNT: int := 0x7FFF_FFFF

  predicate Storable(amount: int) {
    -MAX_AMOUNT - 1 <= amount <= MAX_AMOUNT
  }

  /** The row transaction fails on an unknown biller, an amount past the Int column, or no trusted contact. */
  predicate CanCommit(w: World, input: Input, v: Verdict) {
    && (NonEmpty(input.billerId).Some? ==> input.billerId.value in w.billers)
    && Storable(input.amount)
    && (v == Escalate ==> w.hasTrustedContact)
  }

  function Commit(w: World, input: Input, d: Decision): World
    requires input.credentialId in w.credentials && FindKey(w.intents, input.key).None?
  {
    var id := |w.intents|;
    w.(intents := w.intents + [RowOf(w, input, d.verdict)],
       decisions := w.decisions[id := d],
       cosigns := if d.verdict == Escalate then w.cosigns[id := CosignPending] else w.cosigns)
  }

  /** Where a reply leaves the intent; a second transaction row for it would be rolled back. */
  function StatusOn(reply: Reply, hasTransaction: bool): Status {
    if reply.Settled? && !hasTransaction then Executed else if reply.InFlight? then Allowed else Failed
  }

  function ChargeEntry(id: nat, amount: int, reply: Reply, status: Status): Entry {
    if reply.Settled? && status == Executed then PaymentExecuted(id, amount, reply.providerRef)
    else if reply.InFlight? then PaymentPendingResolution(id, amount, reply.providerRef)
    else PaymentFailed(id, amount)
  }

  /** Everything written on a provider's reply. */
  function Record(w: World, id: nat, actor: Actor, resumed: bool, reply: Reply): World
    requires id < |w.intents|
  {
    var status := StatusOn(reply, id in w.transactions);
    var moved := SetStatus(w, id, status);
    var paid := if status == Executed then AddTransaction(moved, id, reply.providerRef, reply.token) else moved;
    var cosign := if status == Failed then CosignDenied else CosignApproved;
    var closed := if resumed then CloseCosign(paid, id, cosign) else paid;
    Log(closed, AccountOf(w, id), actor, ChargeEntry(id, w.intents[id].amount, reply, status))
  }

  /** One call to the provider's execute for an intent, and the record of its reply. */
  function Charge(w: World, id: nat, actor: Actor, resumed: bool, reply: Reply): World
    requires id < |w.intents|
  {
    Record(w.(calls := w.calls + [w.intents[id].key]), id, actor, resumed, reply)
  }

  function DecisionNow(w: World, row: Intent, hours: Hours): Decision
    requires row.credentialId in w.credentials
  {
    Decide(RequestOf(row), w.credentials[row.credentialId],
           Context(SpentSince(w.intents, row.credentialId, w.now.month), hours))
  }

  /** The rows of a decided intent, and what its verdict sets off. */
  function Open(w: World, input: Input, d: Decision, reply: Reply): World
    requires input.credentialId in w.credentials && FindKey(w.intents, input.key).None?
  {
    var id := |w.intents|;
    var saved := Commit(w, input, d);
    match d.verdict
    case Allow => Charge(saved, id, AiAgent, false, reply)
    case Escalate => Log(saved, AccountOf(saved, id), AiAgent, PaymentEscalated(id, input.amount, d.reasons))
    case Deny => Log(saved, AccountOf(saved, id), AiAgent, PaymentDenied(id, input.amount, d.reasons))
  }

  function Initiate(w: World, input: Input, hours: Hours, reply: Reply): (World, Initiation) {
    var existing := FindKey(w.intents, input.key);
    if existing.Some? then
      var id := existing.value;
      var derived := Decision(DerivedVerdict(w.intents[id].status), []);
      (w, Returned(id, if id in w.decisions then w.decisions[id] else derived))
    else if input.credentialId !in w.credentials then
      (w, Rejected(CredentialNotFound))
    else
      var d := DecisionNow(w, RowOf(w, input, Allow), hours);
      if CanCommit(w, input, d.verdict) then (Open(w, input, d, reply), Returned(|w.intents|, d))
      else (w, Rejected(RolledBack))
  }

  // ---- resumeIntent, voidIntent, requeryIntent ----------------------------------------------------

  datatype SpineError = IntentNotFound | NotEscalated | RevokedBeforeResume | DeniedOnResume(reasons: seq<Reason>)

  datatype Outcome = Done | Error(error: SpineError)

  function Void(w: World, id: nat): (World, Outcome) {
    if id >= |w.intents| then (w, Error(IntentNotFound))
    else
      var voided := CloseCosign(SetStatus(w, id, Voided), id, CosignDenied);
      (Log(voided, AccountOf(w, id), System, PaymentVoided(id)), Done)
  }

  function Resume(w: World, id: nat, hours: Hours, reply: Reply): (World, Outcome) {
    if id >= |w.intents| then (w, Error(IntentNotFound))
    else if w.intents[id].status != Escalated then (w, Error(NotEscalated))
    else if w.credentials[w.intents[id].credentialId].revoked then (Void(w, id).0, Error(RevokedBeforeResume))
    else
      var d := DecisionNow(w, w.intents[id], hours);
      if d.verdict == Deny then (Void(w, id).0, Error(DeniedOnResume(d.reasons)))
      else (Charge(w, id, System, true, reply), Done)
  }

  function Requery(w: World, id: nat, reply: Reply): (World, Outcome) {
    if id >= |w.intents| then (w, Error(IntentNotFound))
    else if w.intents[id].status != Allowed || id in w.transactions then (w, Done)
    else
      var row := w.intents[id];
      match reply
      case Settled(providerRef, token) =>
        var paid := AddTransaction(SetStatus(w, id, Executed), id, providerRef, token);
        (Log(paid, AccountOf(w, id), System, PaymentExecuted(id, row.amount, providerRef)), Done)
      case Refused =>
        (Log(SetStatus(w, id, Failed), AccountOf(w, id), System, PaymentFailed(id, row.amount)), Done)
      case InFlight(_) => (w, Done)
      case Threw => (w, Done)
  }

  // ---- cosign and revocation ----------------------------------------------------------------------

  /** handleCosignResolved; what resumeIntent throws is swallowed. */
  function Handle(w: World, answer: Answer, hours: Hours, reply: Reply): World {
    if answer.approve then Resume(w, answer.id, hours, reply).0 else Void(w, answer.id).0
  }

  predicate CanResolve(w: World, id: nat) {
    id in w.cosigns && w.cosigns[id] == CosignPending
  }

  /** CosignService.resolve followed by the first delivery of the event it emits. */
  function Resolve(w: World, answer: Answer, hours: Hours, reply: Reply): World {
    if CanResolve(w, answer.id) then Handle(w.(answers := w.answers + {answer}), answer, hours, reply) else w
  }

  function Revoke(w: World, credentialId: string): World {
    if credentialId !in w.credentials then w
    else
      var cred := w.credentials[credentialId];
      Log(w.(credentials := w.credentials[credentialId := cred.(revoked := true)]),
          cred.accountId, Owner, CredentialWasRevoked(credentialId))
  }

  // ---- runs -----------------------------------------------------------------------------------------

  /**
   * The orchestrator is registered twice, so an emitted answer may be handled again. Here each entry finishes before
   * anything else happens; for entries that overlap see Deliveries.dfy, InitiateRaces.dfy and Race.dfy.
   */
  datatype Event =
    | Initiated(input: Input, hours: Hours, reply: Reply)
    | Resolved(answer: Answer, hours: Hours, reply: Reply)
    | Redelivered(answer: Answer, hours: Hours, reply: Reply)
    | Requeried(id: nat, reply: Reply)
    | Revoked(credentialId: string)
    | Ticked(to: Instant)

  function Step(w: World, e: Event): World {
    match e
    case Initiated(input, hours, reply) => Initiate(w, input, hours, reply).0
    case Resolved(answer, hours, reply) => Resolve(w, answer, hours, reply)
    case Redelivered(answer, hours, reply) => if answer in w.answers then Handle(w, answer, hours, reply) else w
    case Requeried(id, reply) => Requery(w, id, reply).0
    case Revoked(credentialId) => Revoke(w, credentialId)
    case Ticked(to) => if w.now.NotAfter(to) then w.(now := to) else w
  }

  function Run(w: World, es: seq<Event>): World {
    if es == [] then w else Step(Run(w, es[..|es| - 1]), es[|es| - 1])
  }

  /** A database before its first payment: any credentials, rules, billers and contacts. */
  predicate Fresh(w: World) {
    && w.intents == [] && w.decisions == map[] && w.cosigns == map[] && w.transactions == map[]
    && w.audit == [] && w.calls == [] && w.answers == {}
  }
}
