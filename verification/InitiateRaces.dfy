/**
 * An intent that initiatePayment has written as ALLOWED while its own provider call is out. Replaying the key hands
 * out its id meanwhile, and a requery can be started for it, any number of them at any time: exactly which runs of
 * the call and the requeries keep the master invariant and move the status forward only.
 */
module InitiateRaces {
  import opened Basics
  import opened Spine
  import opened SpineInvariant
  import Deliveries

  /** initiatePayment: execute is under way, the provider has answered, the result is written. */
  datatype Call = Out | Replied(reply: Reply) | Written

  /** requeryIntent: the row was read ALLOWED, the provider has answered, it is done. */
  datatype Ask = Asking | Told(reply: Reply) | Finished

  datatype State = State(view: View, call: Call, asks: seq<Ask>)

  datatype Move =
    | Answers(reply: Reply)
    | Write(at: Instant)
    | BeginRequery
    | Tells(k: nat, reply: Reply)
    | WriteRequery(k: nat, at: Instant)

  datatype Run = Start | Then(past: Run, m: Move)

  /** The rows once the call's reply is written: a pending one leaves the status as it is and only logs. */
  function ReturnedView(v: View, reply: Reply, at: Instant): View {
    match reply
    case Settled(ref, token) =>
      v.(row := v.row.(status := Executed), logged := Some(Executed),
         transaction := Some(Transaction(ref, NonEmpty(token), at)))
    case InFlight(_) => v.(logged := Some(Allowed))
    case Refused => v.(row := v.row.(status := Failed), logged := Some(Failed))
    case Threw => v.(row := v.row.(status := Failed), logged := Some(Failed))
  }

  function AskAt(s: State, k: nat): Ask {
    if k < |s.asks| then s.asks[k] else Finished
  }

  function Put(s: State, k: nat, a: Ask): State
    requires k < |s.asks|
  {
    s.(asks := s.asks[k := a])
  }

  /** A transaction row that is there already makes the write of a settlement fail, and its catch marks FAILED. */
  function Advance(s: State, m: Move): State {
    match m
    case Answers(reply) => if s.call == Out then s.(call := Replied(reply)) else s
    case Write(at) =>
      if !s.call.Replied? then s
      else if s.call.reply.Settled? && s.view.transaction.Some? then s.(call := Replied(Threw))
      else s.(call := Written, view := ReturnedView(s.view, s.call.reply, at))
    case BeginRequery =>
      if s.view.row.status == Allowed && s.view.transaction.None? then s.(asks := s.asks + [Asking]) else s
    case Tells(k, reply) => if AskAt(s, k).Asking? then Put(s, k, Told(reply)) else s
    case WriteRequery(k, at) =>
      if AskAt(s, k).Told?
      then Put(s, k, Finished).(view := Deliveries.RequeriedView(s.view, s.asks[k].reply, at)) else s
  }

  function After(s: State, run: Run): State {
    match run case Start => s case Then(past, m) => Advance(After(s, past), m)
  }

  /** One requery that reads, is told and writes before anything else happens. */
  lemma AskAlone(s: State, reply: Reply, at: Instant)
    requires s.asks == []
    ensures After(s, Then(Then(Then(Start, BeginRequery), Tells(0, reply)), WriteRequery(0, at)))
      == if s.view.row.status == Allowed && s.view.transaction.None?
         then s.(asks := [Finished], view := Deliveries.RequeriedView(s.view, reply, at)) else s
  {
    var begun := Advance(s, BeginRequery);
    if s.view.row.status == Allowed && s.view.transaction.None? {
      assert begun == s.(asks := [Asking]);
      assert Advance(begun, Tells(0, reply)) == s.(asks := [Told(reply)]);
    } else {
      assert begun == s;
    }
    assert After(s, Start) == s;
    assert After(s, Then(Start, BeginRequery)) == begun;
  }

  // ---- what the overlap must keep --------------------------------------------------------------------------

  /** An intent just called: ALLOWED, nothing written or logged since its row. */
  predicate AsLeft(v: View) {
    v.row.status == Allowed && v.logged.None? && Coherent(v.(logged := Some(Allowed)))
  }

  ghost predicate Opened(s: State) {
    s.call == Out && s.asks == [] && AsLeft(s.view)
  }

  /** The master invariant of the intent; while nothing of the call is written it may still be as it was left. */
  predicate Sound(s: State) {
    if !s.call.Written? && s.view.row.status == Allowed then AsLeft(s.view) else Coherent(s.view)
  }

  /** Every state of the run is sound, and the status moves forward only. */
  ghost predicate AllSound(s: State, run: Run) {
    match run
    case Start => Sound(s)
    case Then(past, m) =>
      && AllSound(s, past) && Sound(After(s, run))
      && MayMove(After(s, past).view.row.status, After(s, run).view.row.status)
  }

  /** The move writes EXECUTED. */
  predicate Settles(s: State, m: Move) {
    && s.view.transaction.None?
    && ((m.Write? && s.call.Replied? && s.call.reply.Settled?)
        || (m.WriteRequery? && AskAt(s, m.k).Told? && AskAt(s, m.k).reply.Settled?))
  }

  /** The call itself is written as failed. */
  predicate CallFails(s: State, m: Move) {
    m.Write? && s.call.Replied? && (s.call.reply.Refused? || s.call.reply.Threw?)
  }

  /** The move writes FAILED. */
  predicate Fails(s: State, m: Move) {
    CallFails(s, m) || (m.WriteRequery? && AskAt(s, m.k) == Told(Refused))
  }

  /** The call's pending reply is logged over a result that a requery has written. */
  predicate LogsPendingLate(s: State, m: Move) {
    m.Write? && s.call.Replied? && s.call.reply.InFlight? && s.view.row.status != Allowed
  }

  predicate Guarded(s: State, m: Move) {
    && (Settles(s, m) ==> s.view.row.status == Allowed)
    && (Fails(s, m) ==> s.view.row.status == Allowed || s.view.row.status == Failed)
    && !LogsPendingLate(s, m)
  }

  /** The exact guard of every move. */
  lemma MoveKeepsIff(s: State, m: Move)
    requires Sound(s)
    ensures Sound(Advance(s, m)) && MayMove(s.view.row.status, Advance(s, m).view.row.status) <==> Guarded(s, m)
  {
  }

  // ---- whole runs --------------------------------------------------------------------------------------------

  function SettlesIn(s: State, run: Run): nat {
    match run
    case Start => 0
    case Then(past, m) => SettlesIn(s, past) + if Settles(After(s, past), m) then 1 else 0
  }

  function FailsIn(s: State, run: Run): nat {
    match run case Start => 0 case Then(past, m) => FailsIn(s, past) + if Fails(After(s, past), m) then 1 else 0
  }

  predicate LoggedPendingLate(s: State, run: Run) {
    match run
    case Start => false
    case Then(past, m) => LoggedPendingLate(s, past) || LogsPendingLate(After(s, past), m)
  }

  /** Nobody writes EXECUTED in a run in which anybody writes FAILED, and a pending reply is logged first of all. */
  predicate OneResult(s: State, run: Run) {
    (SettlesIn(s, run) == 0 || FailsIn(s, run) == 0) && !LoggedPendingLate(s, run)
  }

  /** The status tells what was written. */
  predicate Staged(s: State, settles: nat, fails: nat) {
    && (settles == 0 && fails == 0 ==> s.view.row.status == Allowed)
    && (settles > 0 ==> s.view.row.status == Executed)
    && (fails > 0 ==> s.view.row.status == Failed)
  }

  lemma MoveStages(s: State, m: Move, settles: nat, fails: nat)
    requires Sound(s) && Staged(s, settles, fails) && Guarded(s, m)
    ensures Staged(Advance(s, m), settles + if Settles(s, m) then 1 else 0, fails + if Fails(s, m) then 1 else 0)
  {
  }

  lemma GuardedByCounts(s: State, m: Move, settles: nat, fails: nat)
    requires Sound(s) && Staged(s, settles, fails) && (settles == 0 || fails == 0)
    ensures Guarded(s, m) <==>
      && (settles + (if Settles(s, m) then 1 else 0) == 0 || fails + (if Fails(s, m) then 1 else 0) == 0)
      && !LogsPendingLate(s, m)
  {
  }

  lemma {:induction false} SoundRunsAreStaged(s: State, run: Run)
    requires Opened(s) && AllSound(s, run)
    ensures Staged(After(s, run), SettlesIn(s, run), FailsIn(s, run)) && OneResult(s, run)
  {
    match run
    case Start =>
    case Then(past, m) =>
      SoundRunsAreStaged(s, past);
      MoveKeepsIff(After(s, past), m);
      MoveStages(After(s, past), m, SettlesIn(s, past), FailsIn(s, past));
      GuardedByCounts(After(s, past), m, SettlesIn(s, past), FailsIn(s, past));
  }

  lemma {:induction false} SoundAtEnd(s: State, run: Run)
    requires AllSound(s, run)
    ensures Sound(After(s, run))
  {
    match run case Start => case Then(_, _) =>
  }

  lemma {:induction false} OneResultIsSound(s: State, run: Run)
    requires Opened(s) && OneResult(s, run)
    ensures AllSound(s, run)
  {
    match run
    case Start =>
    case Then(past, m) =>
      OneResultIsSound(s, past);
      SoundRunsAreStaged(s, past);
      SoundAtEnd(s, past);
      GuardedByCounts(After(s, past), m, SettlesIn(s, past), FailsIn(s, past));
      MoveKeepsIff(After(s, past), m);
  }

  /**
   * For the call and any number of requeries in any order: every state is sound and the status only moves forward if
   * and only if the run does not write both EXECUTED and FAILED, and a pending reply is not logged over a result.
   */
  lemma SoundIffOneResult(s: State, run: Run)
    requires Opened(s)
    ensures AllSound(s, run) <==> OneResult(s, run)
  {
    if AllSound(s, run) {
      SoundRunsAreStaged(s, run);
    } else if OneResult(s, run) {
      OneResultIsSound(s, run);
    }
  }

  /** The call alone: answered, then written. */
  lemma CallAlone(s: State, reply: Reply, at: Instant) returns (run: Run)
    requires Opened(s)
    ensures run == Then(Then(Start, Answers(reply)), Write(at))
    ensures After(s, run) == State(ReturnedView(s.view, reply, at), Written, [])
  {
    run := Then(Then(Start, Answers(reply)), Write(at));
    assert After(s, run.past) == s.(call := Replied(reply));
  }

  /** However the call and the requeries overlap, EXECUTED is written at most once. */
  lemma {:induction false} SettlesOnce(s: State, run: Run)
    requires s.view.transaction.None?
    ensures SettlesIn(s, run) <= if After(s, run).view.transaction.Some? then 1 else 0
  {
    match run
    case Start =>
    case Then(past, _) => SettlesOnce(s, past);
  }

  // ---- results written before the call's own ------------------------------------------------------------------

  /** Results that requeries write while the call is out. */
  function EarlyIn(s: State, run: Run): nat {
    match run
    case Start => 0
    case Then(past, m) =>
      var u := After(s, past);
      EarlyIn(s, past) + if m.WriteRequery? && !u.call.Written? && (Settles(u, m) || Fails(u, m)) then 1 else 0
  }

  predicate CallFailedIn(s: State, run: Run) {
    match run case Start => false case Then(past, m) => CallFailedIn(s, past) || CallFails(After(s, past), m)
  }

  lemma {:induction false} EarlyIsCounted(s: State, run: Run)
    requires Opened(s)
    ensures EarlyIn(s, run) <= SettlesIn(s, run) + FailsIn(s, run)
    ensures !After(s, run).call.Written? ==> EarlyIn(s, run) == SettlesIn(s, run) + FailsIn(s, run)
  {
    match run
    case Start =>
    case Then(past, m) => EarlyIsCounted(s, past);
  }

  lemma {:induction false} EarlyNeedsAFailedCall(s: State, run: Run)
    requires Opened(s) && AllSound(s, run) && EarlyIn(s, run) > 0 && After(s, run).call.Written?
    ensures CallFailedIn(s, run)
  {
    match run
    case Then(past, m) =>
      if After(s, past).call.Written? {
        EarlyNeedsAFailedCall(s, past);
      } else {
        EarlyIsCounted(s, past);
        SoundRunsAreStaged(s, past);
        SoundAtEnd(s, past);
        MoveKeepsIff(After(s, past), m);
      }
  }

  lemma {:induction false} PendingIsLoggedFirst(s: State, run: Run)
    requires Opened(s) && EarlyIn(s, run) == 0
    ensures !LoggedPendingLate(s, run)
    ensures !After(s, run).call.Written? ==> After(s, run).view.row.status == Allowed
  {
    match run
    case Start =>
    case Then(past, _) => PendingIsLoggedFirst(s, past);
  }

  /**
   * Where the call is written and does not fail: the run is sound if and only if no requery writes a result while
   * the call is out, and EXECUTED and FAILED are not both written after it.
   */
  lemma SoundIffNothingEarly(s: State, run: Run)
    requires Opened(s) && After(s, run).call.Written? && !CallFailedIn(s, run)
    ensures AllSound(s, run) <==> EarlyIn(s, run) == 0 && (SettlesIn(s, run) == 0 || FailsIn(s, run) == 0)
  {
    SoundIffOneResult(s, run);
    if AllSound(s, run) && EarlyIn(s, run) > 0 {
      EarlyNeedsAFailedCall(s, run);
    } else if EarlyIn(s, run) == 0 {
      PendingIsLoggedFirst(s, run);
    }
  }

  // ---- the runs that break it ----------------------------------------------------------------------------------

  /** A requery that begins while the call is out, hears the given reply and writes it. */
  function EarlyRequery(reply: Reply, at: Instant): Run {
    Then(Then(Then(Start, BeginRequery), Tells(0, reply)), WriteRequery(0, at))
  }

  lemma EarlyRequeryWrites(s: State, reply: Reply, at: Instant)
    requires Opened(s)
    ensures After(s, EarlyRequery(reply, at)) == State(Deliveries.RequeriedView(s.view, reply, at), Out, [Finished])
  {
    assert After(s, Then(Start, BeginRequery)) == s.(asks := [Asking]);
    assert After(s, Then(Then(Start, BeginRequery), Tells(0, reply))) == s.(asks := [Told(reply)]);
  }

  /** The requery hears "not found" before the provider knows the key; then the call settles, and FAILED is paid. */
  lemma FailedIntentIsPaid(s: State, r: Reply, at: Instant) returns (run: Run)
    requires Opened(s) && r.Settled?
    ensures run == Then(Then(EarlyRequery(Refused, at), Answers(r)), Write(at))
    ensures After(s, EarlyRequery(Refused, at)).view.row.status == Failed
    ensures After(s, run).view.row.status == Executed && After(s, run).call.Written? && !AllSound(s, run)
  {
    EarlyRequeryWrites(s, Refused, at);
    run := Then(Then(EarlyRequery(Refused, at), Answers(r)), Write(at));
    assert !MayMove(Failed, Executed);
  }

  /** The same before a pending reply: the row stays FAILED although the charge is still under way. */
  lemma FailedIntentIsPending(s: State, r: Reply, at: Instant) returns (run: Run)
    requires Opened(s) && r.InFlight?
    ensures run == Then(Then(EarlyRequery(Refused, at), Answers(r)), Write(at))
    ensures var v := After(s, run).view;
      v.row.status == Failed && v.logged == Some(Allowed) && !Coherent(v) && After(s, run).call.Written?
  {
    EarlyRequeryWrites(s, Refused, at);
    run := Then(Then(EarlyRequery(Refused, at), Answers(r)), Write(at));
  }

  /** The requery settles first; the call's own write finds the transaction row, and its catch marks the paid FAILED. */
  lemma PaidIntentIsFailed(s: State, r: Reply, r': Reply, at: Instant) returns (run: Run)
    requires Opened(s) && r.Settled? && r'.Settled?
    ensures run == Then(Then(Then(EarlyRequery(r, at), Answers(r')), Write(at)), Write(at))
    ensures var v := After(s, run).view;
      v.row.status == Failed && v.transaction.Some? && !Coherent(v) && After(s, run).call.Written?
  {
    EarlyRequeryWrites(s, r, at);
    run := Then(Then(Then(EarlyRequery(r, at), Answers(r')), Write(at)), Write(at));
    assert After(s, run.past).call == Replied(Threw);
  }
}
