/**
 * The two models fit together: every run of the spine, whose entries run to completion, is one of the
 * interleavings of Race.dfy, so what is bounded there is bounded here.
 */
module AtomicRuns {
  import opened Basics
  import opened Policy
  import opened Spine
  import opened SpineInvariant
  import opened SpineSteps
  import opened Race

  /** What a row that no operation is working on waits for. */
  function PhaseOf(status: Status): Phase {
    if status == Escalated then Held else if status == Allowed then Awaiting else Over
  }

  /** The same clock, credentials and rows, and no operation under way. */
  ghost predicate SameRows(w: World, s: State) {
    && s.now == w.now && s.credentials == w.credentials && |s.attempts| == |w.intents|
    && forall i :: 0 <= i < |w.intents| ==>
         s.attempts[i].row == w.intents[i] && s.attempts[i].phase == PhaseOf(w.intents[i].status)
  }

  lemma {:induction false} SameSum(attempts: seq<Attempt>, intents: seq<Intent>, c: string, month: int)
    requires |attempts| == |intents| && forall i :: 0 <= i < |intents| ==> attempts[i].row == intents[i]
    ensures Sum(attempts, ReadBy(c, month)) == Sum(intents, SpendSince(c, month))
  {
    if intents == [] {
    } else {
      var n := |intents| - 1;
      SameSum(attempts[..n], intents[..n], c, month);
      assert ReadBy(c, month)(attempts[n]) == SpendSince(c, month)(intents[n]);
    }
  }

  /** Both models ask the policy the same question. */
  lemma SameJudgement(w: World, s: State, row: Intent, hours: Hours)
    requires SameRows(w, s) && row.credentialId in w.credentials
    ensures Judge(s, row, hours) == DecisionNow(w, row, hours).verdict
  {
    SameSum(s.attempts, w.intents, row.credentialId, w.now.month);
  }

  lemma TwoMoves(s: State, a: Move, b: Move)
    ensures Interleave(s, [a, b]) == Advance(Advance(s, a), b)
  {
    assert [a, b][..1] == [a] && [a][..0] == [];
    assert Interleave(s, [a]) == Advance(s, a);
  }

  lemma ThreeMoves(s: State, a: Move, b: Move, c: Move)
    ensures Interleave(s, [a, b, c]) == Advance(Advance(Advance(s, a), b), c)
  {
    assert [a, b, c][..2] == [a, b];
    TwoMoves(s, a, b);
  }

  lemma OneMove(s: State, a: Move)
    ensures Interleave(s, [a]) == Advance(s, a)
  {
    assert [a][..0] == [];
  }

  lemma {:induction false} MovesConcat(s: State, xs: seq<Move>, ys: seq<Move>)
    ensures Interleave(s, xs + ys) == Interleave(Interleave(s, xs), ys)
  {
    if ys == [] {
      assert xs + ys == xs;
    } else {
      assert (xs + ys)[..|xs + ys| - 1] == xs + ys[..|ys| - 1];
      MovesConcat(s, xs, ys[..|ys| - 1]);
    }
  }

  /** A new attempt as the check leaves it. */
  function Checked(w: World, input: Input, v: Verdict): Attempt {
    Attempt(RowOf(w, input, v).(status := Pending), Decided(v), w.now.month)
  }

  /** A key the table does not hold is free, and stays so through a check. */
  lemma KeyIsFree(w: World, s: State, a: Attempt, key: string)
    requires SameRows(w, s) && FindKey(w.intents, key).None? && !HasRow(a)
    ensures !KeyTaken(s, key) && !KeyTaken(s.(attempts := s.attempts + [a]), key)
  {
  }

  lemma CheckAdds(w: World, s: State, input: Input, hours: Hours)
    requires SameRows(w, s) && input.credentialId in w.credentials && FindKey(w.intents, input.key).None?
    ensures var v := DecisionNow(w, RowOf(w, input, Allow), hours).verdict;
      && Advance(s, Check(input, hours)) == s.(attempts := s.attempts + [Checked(w, input, v)])
      && !KeyTaken(Advance(s, Check(input, hours)), input.key)
  {
    KeyIsFree(w, s, Checked(w, input, DecisionNow(w, RowOf(w, input, Allow), hours).verdict), input.key);
    var row := Checked(w, input, Allow).row;
    SameJudgement(w, s, row, hours);
    assert RequestOf(row) == RequestOf(RowOf(w, input, Allow));
  }

  lemma CommitSets(s: State, w: World, input: Input, v: Verdict, k: nat)
    requires k < |s.attempts| && s.attempts[k] == Checked(w, input, v) && s.now == w.now
    requires !KeyTaken(s, input.key) && Storable(input.amount)
    ensures Advance(s, CommitRow(k)) == Put(s, k, Attempt(RowOf(w, input, v),
      if v == Allow then Calling else if v == Escalate then Held else Over, w.now.month))
  {
  }

  /** The clock and credentials of w, and the given rows. */
  ghost predicate Rewrites(w: World, v: World, intents: seq<Intent>) {
    v.now == w.now && v.credentials == w.credentials && v.intents == intents
  }

  lemma OpenRewrites(w: World, input: Input, d: Decision, reply: Reply)
    requires input.credentialId in w.credentials && FindKey(w.intents, input.key).None?
    ensures var status := if d.verdict == Allow then StatusOn(reply, false) else InitialStatus(d.verdict);
      Rewrites(w, Open(w, input, d, reply), w.intents + [RowOf(w, input, d.verdict).(status := status)])
  {
    if d.verdict == Allow {
      ChargeWrites(Commit(w, input, d), |w.intents|, AiAgent, false, reply);
    }
  }

  /** A recorded initiation that is not allowed is a check and a commit. */
  lemma OpenIsMoves(w: World, s: State, v: World, input: Input, verdict: Verdict, hours: Hours) returns (ms: seq<Move>)
    requires SameRows(w, s) && input.credentialId in w.credentials
    requires FindKey(w.intents, input.key).None? && Storable(input.amount)
    requires verdict == DecisionNow(w, RowOf(w, input, Allow), hours).verdict && verdict != Allow
    requires Rewrites(w, v, w.intents + [RowOf(w, input, verdict)])
    ensures SameRows(v, Interleave(s, ms))
  {
    var check, commit := Check(input, hours), CommitRow(|w.intents|);
    CheckAdds(w, s, input, hours);
    CommitSets(Advance(s, check), w, input, verdict, |w.intents|);
    ms := [check, commit];
    TwoMoves(s, check, commit);
    var row := RowOf(w, input, verdict);
    var a := Attempt(row, PhaseOf(row.status), w.now.month);
    SetLast(s, Checked(w, input, verdict), a);
    OneMoreRow(w, s, v, row, a);
  }

  lemma SetLast(s: State, a: Attempt, b: Attempt)
    ensures Put(s.(attempts := s.attempts + [a]), |s.attempts|, b) == s.(attempts := s.attempts + [b])
  {
  }

  /** One more row on either side. */
  lemma OneMoreRow(w: World, s: State, v: World, row: Intent, a: Attempt)
    requires SameRows(w, s) && Rewrites(w, v, w.intents + [row]) && a.row == row && a.phase == PhaseOf(row.status)
    ensures SameRows(v, s.(attempts := s.attempts + [a]))
  {
  }

  /** An allowed one is a check, a commit and the provider's answer. */
  lemma ChargedOpenIsMoves(w: World, s: State, v: World, input: Input, hours: Hours, reply: Reply)
    returns (ms: seq<Move>)
    requires SameRows(w, s) && input.credentialId in w.credentials
    requires FindKey(w.intents, input.key).None? && Storable(input.amount)
    requires DecisionNow(w, RowOf(w, input, Allow), hours).verdict == Allow
    requires Rewrites(w, v, w.intents + [RowOf(w, input, Allow).(status := StatusOn(reply, false))])
    ensures SameRows(v, Interleave(s, ms))
  {
    var k := |w.intents|;
    var check, commit, answer := Check(input, hours), CommitRow(k), Answered(k, reply);
    CheckAdds(w, s, input, hours);
    CommitSets(Advance(s, check), w, input, Allow, k);
    ms := [check, commit, answer];
    ThreeMoves(s, check, commit, answer);
    var called := Attempt(RowOf(w, input, Allow), Calling, w.now.month);
    AnswerSets(Advance(Advance(s, check), commit), k, called, reply);
  }

  lemma AnswerSets(s: State, k: nat, called: Attempt, reply: Reply)
    requires k < |s.attempts| && s.attempts[k] == called && (called.phase == Calling || called.phase == Resuming)
    ensures Advance(s, Answered(k, reply)) == Put(s, k, AfterCall(called, reply))
    ensures AfterCall(called, reply).row == called.row.(status := StatusOn(reply, false))
    ensures AfterCall(called, reply).phase == PhaseOf(StatusOn(reply, false))
  {
  }

  lemma InitiateIsMoves(w: World, s: State, input: Input, hours: Hours, reply: Reply) returns (ms: seq<Move>)
    requires SameRows(w, s)
    ensures SameRows(Initiate(w, input, hours, reply).0, Interleave(s, ms))
  {
    ms := [];
    if FindKey(w.intents, input.key).None? && input.credentialId in w.credentials {
      var d := DecisionNow(w, RowOf(w, input, Allow), hours);
      if CanCommit(w, input, d.verdict) {
        OpenRewrites(w, input, d, reply);
        if d.verdict == Allow {
          ms := ChargedOpenIsMoves(w, s, Open(w, input, d, reply), input, hours, reply);
        } else {
          ms := OpenIsMoves(w, s, Open(w, input, d, reply), input, d.verdict, hours);
        }
      }
    }
  }

  /** A held intent that passes the recheck is charged. */
  lemma ResumeIsMoves(w: World, s: State, v: World, id: nat, hours: Hours, reply: Reply) returns (ms: seq<Move>)
    requires SameRows(w, s) && id < |w.intents| && w.intents[id].status == Escalated && Passed(w, w.intents[id], hours)
    requires Rewrites(w, v, w.intents[id := w.intents[id].(status := StatusOn(reply, false))])
    ensures SameRows(v, Interleave(s, ms))
  {
    ms := [Recheck(id, hours), Answered(id, reply)];
    SameJudgement(w, s, w.intents[id], hours);
    TwoMoves(s, ms[0], ms[1]);
  }

  /** A held intent that is declined, or fails the recheck, is voided. */
  lemma VoidIsMove(w: World, s: State, v: World, answer: Answer, hours: Hours) returns (ms: seq<Move>)
    requires SameRows(w, s) && answer.id < |w.intents| && w.intents[answer.id].status == Escalated
    requires answer.approve ==> !Passed(w, w.intents[answer.id], hours)
    requires Rewrites(w, v, w.intents[answer.id := w.intents[answer.id].(status := Voided)])
    ensures SameRows(v, Interleave(s, ms))
  {
    var m := if answer.approve then Recheck(answer.id, hours) else Declined(answer.id);
    ms := [m];
    SameJudgement(w, s, w.intents[answer.id], hours);
    OneMove(s, m);
  }

  lemma ResolveIsMoves(w: World, s: State, answer: Answer, hours: Hours, reply: Reply) returns (ms: seq<Move>)
    requires Inv(w) && SameRows(w, s) && CanResolve(w, answer.id)
    ensures SameRows(Resolve(w, answer, hours, reply), Interleave(s, ms))
  {
    var id, heard := answer.id, w.(answers := w.answers + {answer});
    assert Coherent(ViewOf(w, id));
    if answer.approve && Passed(heard, heard.intents[id], hours) {
      PassedIsLive(heard, heard.intents[id], hours);
      ChargeRewrites(heard, id, reply);
      ms := ResumeIsMoves(heard, s, Charge(heard, id, System, true, reply), id, hours, reply);
    } else {
      VoidRewrites(heard, id);
      ms := VoidIsMove(heard, s, Void(heard, id).0, answer, hours);
      if answer.approve { FailedResumeVoids(heard, id, hours, reply); }
    }
  }

  lemma ChargeRewrites(w: World, id: nat, reply: Reply)
    requires id < |w.intents| && id !in w.transactions
    ensures Rewrites(w, Charge(w, id, System, true, reply),
                     w.intents[id := w.intents[id].(status := StatusOn(reply, false))])
  {
    ChargeWrites(w, id, System, true, reply);
  }

  lemma VoidRewrites(w: World, id: nat)
    requires id < |w.intents|
    ensures Rewrites(w, Void(w, id).0, w.intents[id := w.intents[id].(status := Voided)])
  {
  }

  lemma FailedResumeVoids(w: World, id: nat, hours: Hours, reply: Reply)
    requires id < |w.intents| && w.intents[id].status == Escalated && !Passed(w, w.intents[id], hours)
    ensures Resume(w, id, hours, reply).0 == Void(w, id).0
  {
  }

  function RequeriedStatus(reply: Reply): Status {
    match reply
    case Settled(_, _) => Executed
    case Refused => Failed
    case InFlight(_) => Allowed
    case Threw => Allowed
  }

  lemma RequeryRewrites(w: World, id: nat, reply: Reply)
    requires id < |w.intents| && w.intents[id].status == Allowed && id !in w.transactions
    ensures Rewrites(w, Requery(w, id, reply).0, w.intents[id := w.intents[id].(status := RequeriedStatus(reply))])
  {
    if RequeriedStatus(reply) == Allowed {
      assert w.intents[id := w.intents[id]] == w.intents;
    }
  }

  lemma RequeryIsMove(w: World, s: State, v: World, id: nat, reply: Reply) returns (ms: seq<Move>)
    requires SameRows(w, s) && id < |w.intents| && w.intents[id].status == Allowed
    requires Rewrites(w, v, w.intents[id := w.intents[id].(status := RequeriedStatus(reply))])
    ensures SameRows(v, Interleave(s, ms))
  {
    ms := [RequeryAnswered(id, reply)];
    OneMove(s, ms[0]);
  }

  lemma RequeryIsMoves(w: World, s: State, id: nat, reply: Reply) returns (ms: seq<Move>)
    requires Inv(w) && SameRows(w, s)
    ensures SameRows(Requery(w, id, reply).0, Interleave(s, ms))
  {
    ms := [];
    if id < |w.intents| && w.intents[id].status == Allowed {
      assert Coherent(ViewOf(w, id));
      RequeryRewrites(w, id, reply);
      ms := RequeryIsMove(w, s, Requery(w, id, reply).0, id, reply);
    }
  }

  /** Every step of the spine is a run of moves. */
  lemma StepIsMoves(w: World, s: State, e: Event) returns (ms: seq<Move>)
    requires Inv(w) && SameRows(w, s)
    ensures SameRows(Step(w, e), Interleave(s, ms))
  {
    ms := [];
    match e
    case Initiated(input, hours, reply) => ms := InitiateIsMoves(w, s, input, hours, reply);
    case Resolved(answer, hours, reply) =>
      if CanResolve(w, answer.id) { ms := ResolveIsMoves(w, s, answer, hours, reply); }
    case Redelivered(answer, hours, reply) => RedeliveredRows(w, s, answer, hours, reply);
    case Requeried(id, reply) => ms := RequeryIsMoves(w, s, id, reply);
    case Revoked(credentialId) => ms := RevokeIsMove(w, s, credentialId);
    case Ticked(to) => ms := TickIsMove(w, s, to);
  }

  lemma RevokeIsMove(w: World, s: State, credentialId: string) returns (ms: seq<Move>)
    requires SameRows(w, s)
    ensures SameRows(Revoke(w, credentialId), Interleave(s, ms))
  {
    ms := [RevokeCredential(credentialId)];
    OneMove(s, ms[0]);
  }

  lemma TickIsMove(w: World, s: State, to: Instant) returns (ms: seq<Move>)
    requires SameRows(w, s)
    ensures SameRows(Step(w, Ticked(to)), Interleave(s, ms))
  {
    ms := [Tick(to)];
    OneMove(s, ms[0]);
  }

  lemma RedeliveredRows(w: World, s: State, answer: Answer, hours: Hours, reply: Reply)
    requires Inv(w) && SameRows(w, s)
    ensures SameRows(Step(w, Redelivered(answer, hours, reply)), s)
  {
    if answer in w.answers { RedeliveryIsInert(w, answer, hours, reply); }
  }

  /** Every run of the spine is an interleaving: the races of Race.dfy include the runs without any. */
  lemma {:induction false} RunIsAnInterleaving(w: World, s: State, es: seq<Event>) returns (ms: seq<Move>)
    requires Inv(w) && SameRows(w, s)
    ensures SameRows(Run(w, es), Interleave(s, ms))
  {
    if es == [] {
      ms := [];
    } else {
      var past := es[..|es| - 1];
      var before := RunIsAnInterleaving(w, s, past);
      RunKeeps(w, past);
      var last := StepIsMoves(Run(w, past), Interleave(s, before), es[|es| - 1]);
      MovesConcat(s, before, last);
      ms := before + last;
    }
  }
}
