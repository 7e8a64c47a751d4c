/** What holds over whole runs of the spine: moves, revocation, replay, the log, and the monthly cap. */
module SpineRuns {
  import opened Basics
  import opened Policy
  import opened Spine
  import opened SpineInvariant
  import opened SpineSteps

  lemma RunSnoc(w: World, es: seq<Event>, e: Event)
    ensures Run(w, es + [e]) == Step(Run(w, es), e)
  {
    assert (es + [e])[..|es|] == es;
  }

  lemma {:induction false} RunConcat(w: World, xs: seq<Event>, ys: seq<Event>)
    ensures Run(w, xs + ys) == Run(Run(w, xs), ys)
  {
    if ys == [] {
      assert xs + ys == xs;
    } else {
      var zs, e := ys[..|ys| - 1], ys[|ys| - 1];
      assert ys == zs + [e] && xs + ys == (xs + zs) + [e];
      RunConcat(w, xs, zs);
      RunSnoc(w, xs + zs, e);
      RunSnoc(Run(w, xs), zs, e);
    }
  }

  // ---- how far an intent can move -----------------------------------------------------------------------

  /** Rows and decisions are never rewritten, the log only grows, and an intent only moves down its ranks. */
  ghost predicate Later(w: World, v: World) {
    && Evolves(w, v)
    && forall i :: 0 <= i < |w.intents| ==> MayMove(w.intents[i].status, v.intents[i].status)
  }

  lemma ShapeIsLater(w: World, v: World, e: Event)
    requires Ages(w, v)
    requires Quiet(w, v) || Opens(w, v, e) || exists id: nat :: Moves(w, v, e, id)
    ensures Later(w, v)
  {
  }

  lemma StepIsLater(w: World, e: Event)
    requires Inv(w)
    ensures Later(w, Step(w, e))
  {
    StepShape(w, e);
    ShapeIsLater(w, Step(w, e), e);
  }

  lemma LaterOnwards(w: World, u: World, v: World)
    requires Later(w, u) && Later(u, v)
    ensures Later(w, v)
  {
    EvolvesOnwards(w, u, v);
    forall i | 0 <= i < |w.intents| ensures MayMove(w.intents[i].status, v.intents[i].status) {
      assert MayMove(w.intents[i].status, u.intents[i].status) && MayMove(u.intents[i].status, v.intents[i].status);
    }
  }

  lemma EvolvesOnwards(w: World, u: World, v: World)
    requires Evolves(w, u) && Evolves(u, v)
    ensures Evolves(w, v)
  {
    forall i | 0 <= i < |w.intents| ensures v.intents[i] == w.intents[i].(status := v.intents[i].status) {
      assert u.intents[i] == w.intents[i].(status := u.intents[i].status);
    }
  }

  lemma {:induction false} RunIsLater(w: World, es: seq<Event>)
    requires Inv(w)
    ensures Later(w, Run(w, es))
  {
    if es == [] {
    } else {
      var past := es[..|es| - 1];
      RunIsLater(w, past);
      RunKeeps(w, past);
      StepIsLater(Run(w, past), es[|es| - 1]);
      LaterOnwards(w, Run(w, past), Run(w, es));
    }
  }

  function StatusIn(w: World, id: nat): Option<Status> {
    if id < |w.intents| then Some(w.intents[id].status) else None
  }

  /** How many steps of a run changed the status of an intent that was there at its start. */
  function Changes(w: World, es: seq<Event>, id: nat): nat {
    if es == [] then 0
    else
      var past := es[..|es| - 1];
      Changes(w, past, id) + if StatusIn(Run(w, past), id) == StatusIn(Run(w, es), id) then 0 else 1
  }

  /** Where steps do not overlap every change costs rank, so an intent changes at most twice once it exists. */
  lemma {:induction false} ChangesAtMostTwice(w: World, es: seq<Event>, id: nat)
    requires Inv(w) && id < |w.intents|
    ensures id < |Run(w, es).intents|
    ensures Changes(w, es, id) + Rank(Run(w, es).intents[id].status) <= Rank(w.intents[id].status) <= 2
  {
    if es == [] {
    } else {
      var past := es[..|es| - 1];
      ChangesAtMostTwice(w, past, id);
      RunKeeps(w, past);
      StepIsLater(Run(w, past), es[|es| - 1]);
      ChangeCostsRank(Run(w, past), Run(w, es), id);
    }
  }

  lemma ChangeCostsRank(w: World, v: World, id: nat)
    requires Later(w, v) && id < |w.intents|
    ensures id < |v.intents|
    ensures var before, after := w.intents[id].status, v.intents[id].status;
      Rank(after) + (if after == before then 0 else 1) <= Rank(before)
  {
  }

  // ---- revocation -----------------------------------------------------------------------------------------

  /** The credential an executed call was made for. */
  function CalledFor(w: World, key: string): Option<string> {
    var found := FindKey(w.intents, key);
    if found.Some? then Some(w.intents[found.value].credentialId) else None
  }

  predicate AfterRevocation(before: Status, after: Status) {
    || after == before
    || (before == Escalated && after == Voided)
    || (before == Allowed && (after == Executed || after == Failed))
  }

  /** Nothing has been charged to credential c since state w. */
  ghost predicate Frozen(w: World, v: World, c: string) {
    && c in v.credentials && v.credentials[c].revoked
    && |w.intents| <= |v.intents|
    && w.calls <= v.calls
    && (forall k :: |w.calls| <= k < |v.calls| ==>
          CalledFor(v, v.calls[k]).Some? && CalledFor(v, v.calls[k]) != Some(c))
    && (forall i :: |w.intents| <= i < |v.intents| && v.intents[i].credentialId == c ==> v.intents[i].status == Denied)
    && (forall i :: 0 <= i < |w.intents| && w.intents[i].credentialId == c
          ==> v.intents[i].credentialId == c && AfterRevocation(w.intents[i].status, v.intents[i].status))
  }

  lemma KeyStays(w: World, v: World, key: string)
    requires Evolves(w, v) && FindKey(w.intents, key).Some?
    ensures FindKey(v.intents, key) == FindKey(w.intents, key)
    ensures CalledFor(v, key) == CalledFor(w, key)
  {
    var i := FindKey(w.intents, key).value;
    assert v.intents[i].key == key;
    FindKeyIsUnique(v, i);
  }

  /** Frozenness passes to a later state when the calls it adds are for other credentials. */
  lemma FrozenPasses(w0: World, w: World, v: World, c: string)
    requires Frozen(w0, w, c) && Evolves(w, v) && w.calls <= v.calls
    requires forall k :: |w.calls| <= k < |v.calls| ==>
      CalledFor(v, v.calls[k]).Some? && CalledFor(v, v.calls[k]) != Some(c)
    requires forall i :: |w.intents| <= i < |v.intents| && v.intents[i].credentialId == c ==>
      v.intents[i].status == Denied
    requires forall i :: 0 <= i < |w.intents| && w.intents[i].credentialId == c
               ==> AfterRevocation(w.intents[i].status, v.intents[i].status)
    ensures Frozen(w0, v, c)
  {
    forall k | |w0.calls| <= k < |w.calls| ensures CalledFor(v, v.calls[k]) == CalledFor(w, w.calls[k]) {
      KeyStays(w, v, w.calls[k]);
    }
  }

  lemma OpenStaysFrozen(w0: World, w: World, v: World, e: Event, c: string)
    requires Inv(w) && Frozen(w0, w, c) && Evolves(w, v) && Opens(w, v, e)
    ensures Frozen(w0, v, c)
  {
    var row := v.intents[|w.intents|];
    FindKeyIsUnique(v, |w.intents|);
    if Passed(w, row, e.hours) { PassedIsLive(w, row, e.hours); }
    FrozenPasses(w0, w, v, c);
  }

  lemma MoveStaysFrozen(w0: World, w: World, v: World, e: Event, id: nat, c: string)
    requires Inv(w) && Frozen(w0, w, c) && Evolves(w, v) && Moves(w, v, e, id)
    ensures Frozen(w0, v, c)
  {
    FindKeyIsUnique(v, id);
    if e.Resolved? && Charged(v.intents[id].status) { PassedIsLive(w, w.intents[id], e.hours); }
    FrozenPasses(w0, w, v, c);
  }

  lemma StepStaysFrozen(w0: World, w: World, e: Event, c: string)
    requires Inv(w) && Frozen(w0, w, c)
    ensures Frozen(w0, Step(w, e), c)
  {
    var v := Step(w, e);
    StepShape(w, e);
    StepIsLater(w, e);
    if Opens(w, v, e) {
      OpenStaysFrozen(w0, w, v, e, c);
    } else if id: nat :| Moves(w, v, e, id) {
      MoveStaysFrozen(w0, w, v, e, id, c);
    } else {
      FrozenPasses(w0, w, v, c);
    }
  }

  /** From a revocation on, no run calls the provider for the credential, and only pending charges still settle. */
  lemma {:induction false} RevocationFreezes(w: World, c: string, es: seq<Event>)
    requires Inv(w) && c in w.credentials
    ensures var w1 := Step(w, Revoked(c)); Frozen(w1, Run(w1, es), c)
  {
    var w1 := Step(w, Revoked(c));
    StepKeeps(w, Revoked(c));
    if es == [] {
    } else {
      var past := es[..|es| - 1];
      RevocationFreezes(w, c, past);
      RunKeeps(w1, past);
      StepStaysFrozen(w1, Run(w1, past), es[|es| - 1], c);
    }
  }

  // ---- replay -----------------------------------------------------------------------------------------------

  /** Every answer the spine returns is on record: the key's row, and its decision. */
  lemma AnswerIsRecorded(w: World, input: Input, hours: Hours, reply: Reply)
    requires Inv(w) && Initiate(w, input, hours, reply).1.Returned?
    ensures var (w1, answer) := Initiate(w, input, hours, reply);
      && FindKey(w1.intents, input.key) == Some(answer.id)
      && answer.id in w1.decisions && w1.decisions[answer.id] == answer.decision
  {
    var found := FindKey(w.intents, input.key);
    if found.Some? {
      assert Coherent(ViewOf(w, found.value));
    } else {
      var d := DecisionNow(w, RowOf(w, input, Allow), hours);
      OpenWrites(w, input, d, reply);
      FindKeyIsUnique(Open(w, input, d, reply), |w.intents|);
    }
  }

  /** An answered key is answered the same for ever: same intent, same decision, and no state is touched. */
  lemma ReplayIsInert(w: World, first: Input, hours: Hours, reply: Reply, es: seq<Event>,
                      again: Input, hours': Hours, reply': Reply)
    requires Inv(w) && Initiate(w, first, hours, reply).1.Returned?
    requires again.key == first.key
    ensures var (w1, answer) := Initiate(w, first, hours, reply);
      var v := Run(w1, es);
      Initiate(v, again, hours', reply') == (v, answer)
  {
    var (w1, answer) := Initiate(w, first, hours, reply);
    AnswerIsRecorded(w, first, hours, reply);
    InitiateKeeps(w, first, hours, reply);
    RecordedReplays(w1, es, answer.id, again, hours', reply');
  }

  lemma RecordedReplays(w: World, es: seq<Event>, id: nat, again: Input, hours: Hours, reply: Reply)
    requires Inv(w) && FindKey(w.intents, again.key) == Some(id) && id in w.decisions
    ensures Initiate(Run(w, es), again, hours, reply) == (Run(w, es), Returned(id, w.decisions[id]))
  {
    RunIsLater(w, es);
    KeyStays(w, Run(w, es), again.key);
  }
}
