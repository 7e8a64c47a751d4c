/**
 * One intent whose handlers overlap. resumeIntent is split at its awaits: the row is read, the spend is
 * read and the provider called, the provider answers, the result is written; requeryIntent likewise.
 * The orchestrator is registered twice, so every accepted answer starts at least two handlers at once.
 * What goes on around the intent (rules, spend, clock) enters as parameters of the moves. An intent that is allowed
 * at once has no handlers; the requeries that overlap its call are the subject of InitiateRaces.dfy.
 */
module Deliveries {
  import opened Basics
  import opened Policy
  import opened Spine
  import opened SpineInvariant

  datatype Task =
    | Rechecking(cred: Credential)  // resumeIntent has read the row held; the spend is not read yet
    | Calling                       // the recheck passed and execute is called
    | Replied(reply: Reply)         // the provider answered, nothing is written yet
    | Voiding                       // the recheck failed, the void is not written yet
    | Asking                        // requeryIntent has read the row ALLOWED
    | Told(reply: Reply)            // its answer is in, nothing is written yet
    | Finished

  /** The intent's rows, the answers accepted for it, those some handler is done with, and its handlers. */
  datatype State = State(view: View, accepted: set<bool>, handled: set<bool>, tasks: seq<Task>)

  datatype Move =
    | Accept(approve: bool)
    | Begin(cred: Credential)                            // a handler of an approval reads row and credential
    | ReadSpend(k: nat, spent: int, hours: Hours)        // it reads the spend, judges, and calls or gives up
    | Answers(k: nat, reply: Reply)
    | Write(k: nat, at: Instant)
    | WriteVoid(k: nat)
    | Decline                                            // a handler of a denial: voidIntent reads nothing first
    | BeginRequery
    | Tells(k: nat, reply: Reply)
    | WriteRequery(k: nat, at: Instant)

  /** A run of the handlers, in whatever order their moves come. */
  datatype Run = Start | Then(past: Run, m: Move)

  // ---- what a move writes ---------------------------------------------------------------------------------

  function VoidedView(v: View): View {
    v.(row := v.row.(status := Voided), logged := Some(Voided),
       cosign := if v.cosign == Some(CosignPending) then Some(CosignDenied) else v.cosign)
  }

  /** The rows of a resumed intent once the reply is written. */
  function ResumedView(v: View, reply: Reply, at: Instant): View {
    var status := StatusOn(reply, v.transaction.Some?);
    v.(row := v.row.(status := status), logged := Some(status), cosign := ChargedCosign(v.cosign, true, status),
       transaction := if status == Executed then Some(Transaction(reply.providerRef, NonEmpty(reply.token), at))
                      else v.transaction)
  }

  /** A second transaction row is rolled back and the error swallowed, so nothing is written then. */
  function RequeriedView(v: View, reply: Reply, at: Instant): View {
    if reply.Settled? && v.transaction.None? then
      v.(row := v.row.(status := Executed), logged := Some(Executed),
         transaction := Some(Transaction(reply.providerRef, NonEmpty(reply.token), at)))
    else if reply.Refused? then v.(row := v.row.(status := Failed), logged := Some(Failed))
    else v
  }

  function TaskAt(s: State, k: nat): Task {
    if k < |s.tasks| then s.tasks[k] else Finished
  }

  function Put(s: State, k: nat, t: Task): State
    requires k < |s.tasks|
  {
    s.(tasks := s.tasks[k := t])
  }

  predicate Passes(s: State, cred: Credential, spent: int, hours: Hours) {
    Decide(RequestOf(s.view.row), cred, Context(spent, hours)).verdict != Deny
  }

  function Advance(s: State, m: Move): State {
    match m
    case Accept(approve) =>
      if s.view.cosign == Some(CosignPending) then s.(accepted := s.accepted + {approve}) else s
    case Begin(cred) =>
      if true !in s.accepted then s
      else if s.view.row.status != Escalated then s.(handled := s.handled + {true})
      else s.(tasks := s.tasks + [if cred.revoked then Voiding else Rechecking(cred)])
    case ReadSpend(k, spent, hours) =>
      if !TaskAt(s, k).Rechecking? then s
      else if !Passes(s, s.tasks[k].cred, spent, hours) then Put(s, k, Voiding)
      else Put(s, k, Calling).(view := s.view.(calls := s.view.calls + 1))
    case Answers(k, reply) => if TaskAt(s, k).Calling? then Put(s, k, Replied(reply)) else s
    case Write(k, at) =>
      if !TaskAt(s, k).Replied? then s
      else if s.tasks[k].reply.Settled? && s.view.transaction.Some? then Put(s, k, Replied(Threw))
      else Put(s, k, Finished).(view := ResumedView(s.view, s.tasks[k].reply, at), handled := s.handled + {true})
    case WriteVoid(k) =>
      if TaskAt(s, k).Voiding?
      then Put(s, k, Finished).(view := VoidedView(s.view), handled := s.handled + {true}) else s
    case Decline =>
      if false in s.accepted then s.(view := VoidedView(s.view), handled := s.handled + {false}) else s
    case BeginRequery =>
      if s.view.row.status == Allowed && s.view.transaction.None? then s.(tasks := s.tasks + [Asking]) else s
    case Tells(k, reply) => if TaskAt(s, k).Asking? then Put(s, k, Told(reply)) else s
    case WriteRequery(k, at) =>
      if TaskAt(s, k).Told?
      then Put(s, k, Finished).(view := RequeriedView(s.view, s.tasks[k].reply, at)) else s
  }

  function After(s: State, r: Run): State {
    match r case Start => s case Then(past, m) => Advance(After(s, past), m)
  }

  // ---- what overlapping handlers must keep ----------------------------------------------------------------

  function IsOut(): Task -> int {
    (t: Task) => if t.Calling? || t.Replied? then 1 else 0
  }

  /** Provider calls whose result is not written yet. */
  function CallsOut(s: State): int {
    Sum(s.tasks, IsOut())
  }

  predicate Requeriable(v: View) {
    && Charged(v.row.status) && v.decision.Some?
    && (v.decision.value.verdict == Escalate ==> v.cosign == Some(CosignApproved))
  }

  /** The master invariant of the intent; while its one call is out, the intent is still held. */
  ghost predicate Sound(s: State) {
    && (forall k :: 0 <= k < |s.tasks| && (s.tasks[k].Asking? || s.tasks[k].Told?) ==> Requeriable(s.view))
    && if CallsOut(s) == 0 then Coherent(s.view)
       else CallsOut(s) == 1 && s.view.calls == 1 && s.view.row.status == Escalated && Coherent(s.view.(calls := 0))
  }

  /** An approval gets past its recheck, and calls the provider. */
  predicate Calls(s: State, m: Move) {
    m.ReadSpend? && TaskAt(s, m.k).Rechecking? && Passes(s, s.tasks[m.k].cred, m.spent, m.hours)
  }

  /** A denial or a failed recheck is written. */
  predicate Voids(s: State, m: Move) {
    (m.Decline? && false in s.accepted) || (m.WriteVoid? && TaskAt(s, m.k).Voiding?)
  }

  /** A requery's "failed" is written over a payment that another one settled. */
  predicate Unsettles(s: State, m: Move) {
    m.WriteRequery? && TaskAt(s, m.k) == Told(Refused) && s.view.row.status == Executed
  }

  /** What the source would have to check in the same step as it acts. */
  predicate Guarded(s: State, m: Move) {
    && (Calls(s, m) ==> CallsOut(s) == 0 && s.view.row.status == Escalated)
    && (Voids(s, m) ==> CallsOut(s) == 0 && (s.view.row.status == Escalated || s.view.row.status == Voided))
    && !Unsettles(s, m)
  }

  lemma OutIsNatural(s: State)
    ensures CallsOut(s) >= 0
  {
    SumNonNegative(s.tasks, IsOut());
  }

  /** Adding or moving on one handler changes the calls out by that handler alone. */
  lemma OutAfter(s: State, k: nat, t: Task)
    ensures CallsOut(s.(tasks := s.tasks + [t])) == CallsOut(s) + IsOut()(t)
    ensures k < |s.tasks| ==> CallsOut(Put(s, k, t)) == CallsOut(s) - IsOut()(s.tasks[k]) + IsOut()(t)
    ensures CallsOut(s) >= 0
    ensures k < |s.tasks| ==> CallsOut(s) >= IsOut()(s.tasks[k])
  {
    SumSnoc(s.tasks, t, IsOut());
    OutIsNatural(s);
    if k < |s.tasks| {
      SumUpdate(s.tasks, k, t, IsOut());
      SumUpdate(s.tasks, k, Finished, IsOut());
      OutIsNatural(Put(s, k, Finished));
    }
  }

  lemma ReadSpendKeepsIff(s: State, k: nat, spent: int, hours: Hours)
    requires Sound(s)
    ensures Sound(Advance(s, ReadSpend(k, spent, hours))) <==> Guarded(s, ReadSpend(k, spent, hours))
  {
    OutAfter(s, k, Calling);
    OutAfter(s, k, Voiding);
  }

  lemma WriteKeeps(s: State, k: nat, at: Instant)
    requires Sound(s)
    ensures Sound(Advance(s, Write(k, at)))
  {
    OutAfter(s, k, Finished);
    OutAfter(s, k, Replied(Threw));
  }

  lemma WriteVoidKeepsIff(s: State, k: nat)
    requires Sound(s)
    ensures Sound(Advance(s, WriteVoid(k))) <==> Guarded(s, WriteVoid(k))
  {
    OutAfter(s, k, Finished);
  }

  lemma DeclineKeepsIff(s: State)
    requires Sound(s)
    ensures Sound(Advance(s, Decline)) <==> Guarded(s, Decline)
  {
    OutIsNatural(s);
  }

  lemma VoidKeepsIff(s: State, m: Move)
    requires Sound(s) && (m.WriteVoid? || m.Decline?)
    ensures Sound(Advance(s, m)) <==> Guarded(s, m)
  {
    match m
    case WriteVoid(k) => WriteVoidKeepsIff(s, k);
    case Decline => DeclineKeepsIff(s);
  }

  lemma RequeryKeepsIff(s: State, k: nat, at: Instant)
    requires Sound(s)
    ensures Sound(Advance(s, WriteRequery(k, at))) <==> Guarded(s, WriteRequery(k, at))
  {
    OutAfter(s, k, Finished);
  }

  /** A handler that starts, or moves on without a write, where the calls out stay the same. */
  lemma NewTaskKeeps(s: State, t: Task)
    requires Sound(s) && (t.Voiding? || t.Rechecking? || (t.Asking? && Requeriable(s.view)))
    ensures Sound(s.(tasks := s.tasks + [t]))
  {
    OutAfter(s, 0, t);
  }

  lemma NextTaskKeeps(s: State, k: nat, t: Task)
    requires Sound(s) && k < |s.tasks|
    requires (s.tasks[k].Calling? && t.Replied?) || (s.tasks[k].Asking? && t.Told?)
    ensures Sound(Put(s, k, t))
  {
    OutAfter(s, k, t);
  }

  lemma QuietMoveKeeps(s: State, m: Move)
    requires Sound(s) && (m.Accept? || m.Begin? || m.Answers? || m.BeginRequery? || m.Tells?)
    ensures Sound(Advance(s, m))
  {
    match m
    case Accept(_) =>
    case Begin(cred) => NewTaskKeeps(s, if cred.revoked then Voiding else Rechecking(cred));
    case Answers(k, reply) => if TaskAt(s, k).Calling? { NextTaskKeeps(s, k, Replied(reply)); }
    case BeginRequery =>
      OutIsNatural(s);
      if s.view.row.status == Allowed { NewTaskKeeps(s, Asking); }
    case Tells(k, reply) => if TaskAt(s, k).Asking? { NextTaskKeeps(s, k, Told(reply)); }
  }

  /** The exact guard of every move: what is sound stays sound if and only if the move is guarded. */
  lemma MoveKeepsIff(s: State, m: Move)
    requires Sound(s)
    ensures Sound(Advance(s, m)) <==> Guarded(s, m)
  {
    match m
    case ReadSpend(k, spent, hours) => ReadSpendKeepsIff(s, k, spent, hours);
    case Write(k, at) => WriteKeeps(s, k, at);
    case WriteVoid(_) => VoidKeepsIff(s, m);
    case Decline => VoidKeepsIff(s, m);
    case WriteRequery(k, at) => RequeryKeepsIff(s, k, at);
    case _ => QuietMoveKeeps(s, m);
  }

  /** A requery's settlement is written over a failure that another one has written. */
  predicate Revives(s: State, m: Move) {
    m.WriteRequery? && TaskAt(s, m.k).Told? && TaskAt(s, m.k).reply.Settled? && s.view.row.status == Failed
  }

  lemma HeldWhileOut(s: State, k: nat)
    requires Sound(s) && TaskAt(s, k).Replied?
    ensures s.view.row.status == Escalated
  {
    OutAfter(s, k, Finished);
    assert IsOut()(s.tasks[k]) == 1;
  }

  lemma WriteIsForward(s: State, k: nat, at: Instant)
    requires TaskAt(s, k).Replied? ==> s.view.row.status == Escalated
    ensures MayMove(s.view.row.status, Advance(s, Write(k, at)).view.row.status)
  {
  }

  lemma VoidIsForward(s: State, m: Move)
    requires Guarded(s, m) && (m.WriteVoid? || m.Decline?)
    ensures MayMove(s.view.row.status, Advance(s, m).view.row.status)
  {
  }

  lemma RequeryIsForwardIff(s: State, k: nat, at: Instant)
    requires Sound(s) && Guarded(s, WriteRequery(k, at))
    ensures MayMove(s.view.row.status, Advance(s, WriteRequery(k, at)).view.row.status)
       <==> !Revives(s, WriteRequery(k, at))
  {
    OutIsNatural(s);
  }

  /** Of the moves that keep the invariant all but these move the status forward only. */
  lemma MoveIsForwardIff(s: State, m: Move)
    requires Sound(s) && Guarded(s, m)
    ensures MayMove(s.view.row.status, Advance(s, m).view.row.status) <==> !Revives(s, m)
  {
    match m
    case Write(k, at) =>
      if TaskAt(s, k).Replied? { HeldWhileOut(s, k); }
      WriteIsForward(s, k, at);
    case WriteVoid(_) => VoidIsForward(s, m);
    case Decline => VoidIsForward(s, m);
    case WriteRequery(k, at) => RequeryIsForwardIff(s, k, at);
    case _ =>
  }
}
