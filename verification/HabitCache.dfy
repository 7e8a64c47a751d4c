/**
 * The habit table over whole runs: every step of the spine followed by the handler of the executed
 * event it emits keeps each habit row equal to the statistics of all executed payments of its pair.
 */
module HabitCache {
  import opened Basics
  import opened Spine
  import opened SpineInvariant
  import opened SpineSteps
  import CQ = ContextQuery

  /** The executed payments of an account to a biller, in creation order, dated by their transaction. */
  predicate Matches(w: World, id: nat, account: string, biller: string)
    requires id < |w.intents|
  {
    && w.intents[id].status == Executed
    && w.intents[id].billerId == Some(biller)
    && AccountOf(w, id) == account
  }

  function PaidAt(w: World, id: nat): int
    requires id < |w.intents|
  {
    if id in w.transactions then w.transactions[id].executedAt.ms else w.intents[id].createdAt.ms
  }

  function PaidList(w: World, n: nat, account: string, biller: string): seq<CQ.Paid>
    requires n <= |w.intents|
  {
    if n == 0 then []
    else if Matches(w, n - 1, account, biller)
    then PaidList(w, n - 1, account, biller) + [CQ.Paid(w.intents[n - 1].amount, PaidAt(w, n - 1))]
    else PaidList(w, n - 1, account, biller)
  }

  function PaidBy(w: World, account: string, biller: string): seq<CQ.Paid> {
    PaidList(w, |w.intents|, account, biller)
  }

  /** An executed payment of the account to the biller. */
  predicate Counts(w: World, i: nat, account: string, biller: string)
    requires i < |w.intents|
  {
    && w.intents[i].status == Executed && w.intents[i].billerId == Some(biller)
    && w.credentials[w.intents[i].credentialId].accountId == account
  }

  /** The places of the executed payments of the account to the biller, in order. */
  ghost predicate Places(w: World, account: string, biller: string, n: nat, at: seq<nat>)
    requires n <= |w.intents|
  {
    && (forall k, l :: 0 <= k < l < |at| ==> at[k] < at[l])
    && (forall k :: 0 <= k < |at| ==> at[k] < n)
    && forall i: nat :: i < n ==>
         (i in at <==> Counts(w, i, account, biller))
  }

  lemma PlaceMore(w: World, account: string, biller: string, n: nat, at: seq<nat>)
    requires 0 < n <= |w.intents| && Places(w, account, biller, n - 1, at) && Counts(w, n - 1, account, biller)
    ensures Places(w, account, biller, n, at + [n - 1])
  {
    assert (at + [n - 1])[|at|] == n - 1;
  }

  lemma NoPlaceMore(w: World, account: string, biller: string, n: nat, at: seq<nat>)
    requires 0 < n <= |w.intents| && Places(w, account, biller, n - 1, at) && !Counts(w, n - 1, account, biller)
    ensures Places(w, account, biller, n, at)
  {
  }

  /** The payments at these places, with their amounts and the dates of their transactions. */
  ghost predicate Shows(w: World, at: seq<nat>, paid: seq<CQ.Paid>) {
    && |paid| == |at|
    && forall k :: 0 <= k < |at| ==>
         && at[k] < |w.intents| && paid[k].amount == w.intents[at[k]].amount
         && paid[k].at == if at[k] in w.transactions then w.transactions[at[k]].executedAt.ms
                          else w.intents[at[k]].createdAt.ms
  }

  lemma ShowsSnoc(w: World, at: seq<nat>, paid: seq<CQ.Paid>, i: nat)
    requires Shows(w, at, paid) && i < |w.intents|
    ensures Shows(w, at + [i], paid + [CQ.Paid(w.intents[i].amount, PaidAt(w, i))])
  {
  }

  lemma PaidListOnward(w: World, account: string, biller: string, n: nat)
    requires 0 < n <= |w.intents|
    ensures var before, after := PaidList(w, n - 1, account, biller), PaidList(w, n, account, biller);
      after == if Counts(w, n - 1, account, biller) then before + [CQ.Paid(w.intents[n - 1].amount, PaidAt(w, n - 1))]
               else before
  {
  }

  /** These are the places of the list, and what stands there. */
  ghost predicate Holds(w: World, account: string, biller: string, n: nat, at: seq<nat>)
    requires n <= |w.intents|
  {
    Places(w, account, biller, n, at) && Shows(w, at, PaidList(w, n, account, biller))
  }

  lemma HoldsMore(w: World, account: string, biller: string, n: nat, at: seq<nat>)
    requires 0 < n <= |w.intents| && Holds(w, account, biller, n - 1, at) && Counts(w, n - 1, account, biller)
    ensures Holds(w, account, biller, n, at + [n - 1])
  {
    PaidListOnward(w, account, biller, n);
    PlaceMore(w, account, biller, n, at);
    ShowsSnoc(w, at, PaidList(w, n - 1, account, biller), n - 1);
  }

  lemma HoldsOn(w: World, account: string, biller: string, n: nat, at: seq<nat>)
    requires 0 < n <= |w.intents| && Holds(w, account, biller, n - 1, at) && !Counts(w, n - 1, account, biller)
    ensures Holds(w, account, biller, n, at)
  {
    PaidListOnward(w, account, biller, n);
    NoPlaceMore(w, account, biller, n, at);
  }

  /** The list a habit is computed from is of the payments at exactly these places, in order. */
  lemma {:induction false} PaidListIsThere(w: World, account: string, biller: string, n: nat) returns (at: seq<nat>)
    requires n <= |w.intents|
    ensures Holds(w, account, biller, n, at)
  {
    if n == 0 {
      at := [];
    } else {
      at := PaidListIsThere(w, account, biller, n - 1);
      if Counts(w, n - 1, account, biller) {
        HoldsMore(w, account, biller, n, at);
        at := at + [n - 1];
      } else {
        HoldsOn(w, account, biller, n, at);
      }
    }
  }

  type Habits = map<(string, string), CQ.Habit>

  /** The executed event of a step, if it emitted one: the intent of the payment.executed line it logged. */
  function ExecutedBy(w: World, v: World): Option<nat> {
    if |v.audit| > |w.audit| && v.audit[|w.audit|].entry.PaymentExecuted? && v.audit[|w.audit|].entry.id < |v.intents|
    then Some(v.audit[|w.audit|].entry.id) else None
  }

  /** What the context query's handler does to the table on that event. */
  function AfterHandler(v: World, habits: Habits, executed: Option<nat>): Habits
    requires executed.Some? ==> executed.value < |v.intents|
  {
    if executed.None? then habits
    else
      var account, biller := AccountOf(v, executed.value), v.intents[executed.value].billerId;
      CQ.Handled(habits, account, biller, if biller.Some? then PaidBy(v, account, biller.value) else [])
  }

  /** A row exists exactly for the pairs with an executed payment, and holds the statistics of all of them. */
  ghost predicate Current(w: World, habits: Habits, account: string, biller: string) {
    var paid := PaidBy(w, account, biller);
    && ((account, biller) in habits <==> paid != [])
    && (paid != [] ==> habits[(account, biller)] == CQ.HabitOf(paid))
  }

  lemma {:induction false} PaidListSame(w: World, v: World, n: nat, account: string, biller: string)
    requires n <= |w.intents| && n <= |v.intents|
    requires forall i :: 0 <= i < n ==> Matches(v, i, account, biller) == Matches(w, i, account, biller)
    requires forall i :: 0 <= i < n ==> v.intents[i].amount == w.intents[i].amount
    requires forall i :: 0 <= i < n && Matches(w, i, account, biller) ==> PaidAt(v, i) == PaidAt(w, i)
    ensures PaidList(v, n, account, biller) == PaidList(w, n, account, biller)
  {
    if n == 0 {
    } else {
      PaidListSame(w, v, n - 1, account, biller);
    }
  }

  lemma {:induction false} PaidIsListed(w: World, n: nat, id: nat)
    requires id < n <= |w.intents| && w.intents[id].billerId.Some?
    requires Matches(w, id, AccountOf(w, id), w.intents[id].billerId.value)
    ensures PaidList(w, n, AccountOf(w, id), w.intents[id].billerId.value) != []
  {
    if id < n - 1 {
      PaidIsListed(w, n - 1, id);
    }
  }

  /** A pair none of whose payments the step executed keeps its list. */
  lemma OtherPairsKeep(w: World, v: World, e: Event, account: string, biller: string)
    requires Inv(w) && Inv(v) && Ages(w, v)
    requires Quiet(w, v) || Opens(w, v, e) || exists id: nat :: Moves(w, v, e, id)
    requires ExecutedBy(w, v).Some? ==> !Matches(v, ExecutedBy(w, v).value, account, biller)
    ensures PaidBy(v, account, biller) == PaidBy(w, account, biller)
  {
    if Opens(w, v, e) {
      OldRowsKeep(w, v, |w.intents|, account, biller);
      OpenedIsUnmatched(w, v, e, account, biller);
    } else if id: nat :| Moves(w, v, e, id) {
      MovedIsUnmatched(w, v, e, id, account, biller);
      OldRowsKeep(w, v, id, account, biller);
    } else {
      OldRowsKeep(w, v, |w.intents|, account, biller);
    }
  }

  /** All rows but one are untouched and that one matches neither before nor after, so the list is the same. */
  lemma OldRowsKeep(w: World, v: World, id: nat, account: string, biller: string)
    requires Inv(w) && Ages(w, v) && |w.intents| <= |v.intents|
    requires forall i :: 0 <= i < |w.intents| && i != id ==> v.intents[i] == w.intents[i]
    requires id < |w.intents| ==> v.intents[id] == w.intents[id].(status := v.intents[id].status)
    requires id < |w.intents| ==> !Matches(w, id, account, biller) && !Matches(v, id, account, biller)
    ensures PaidList(v, |w.intents|, account, biller) == PaidList(w, |w.intents|, account, biller)
  {
    forall i | 0 <= i < |w.intents| && Matches(w, i, account, biller) ensures PaidAt(v, i) == PaidAt(w, i) {
      assert Coherent(ViewOf(w, i));
    }
    PaidListSame(w, v, |w.intents|, account, biller);
  }

  lemma OpenedIsUnmatched(w: World, v: World, e: Event, account: string, biller: string)
    requires Opens(w, v, e) && Ages(w, v)
    requires ExecutedBy(w, v).Some? ==> !Matches(v, ExecutedBy(w, v).value, account, biller)
    ensures !Matches(v, |w.intents|, account, biller)
  {
  }

  lemma MovedIsUnmatched(w: World, v: World, e: Event, id: nat, account: string, biller: string)
    requires Moves(w, v, e, id) && Ages(w, v)
    requires ExecutedBy(w, v).Some? ==> !Matches(v, ExecutedBy(w, v).value, account, biller)
    ensures !Matches(w, id, account, biller) && !Matches(v, id, account, biller)
  {
  }

  lemma StepIsCurrent(w: World, v: World, e: Event, habits: Habits, account: string, biller: string)
    requires Inv(w) && Inv(v) && Ages(w, v) && biller != ""
    requires Quiet(w, v) || Opens(w, v, e) || exists id: nat :: Moves(w, v, e, id)
    requires Current(w, habits, account, biller)
    ensures Current(v, AfterHandler(v, habits, ExecutedBy(w, v)), account, biller)
  {
    var executed := ExecutedBy(w, v);
    if executed.Some? && Matches(v, executed.value, account, biller) {
      PaidIsListed(v, |v.intents|, executed.value);
      HandledIsCurrent(v, habits, executed.value, account, biller);
    } else {
      OtherPairsKeep(w, v, e, account, biller);
      if executed.Some? {
        ExecutedRow(w, v, e);
        OtherPairIsHandled(v, habits, executed.value, account, biller);
      }
    }
  }

  lemma HandledIsCurrent(v: World, habits: Habits, id: nat, account: string, biller: string)
    requires id < |v.intents| && Matches(v, id, account, biller) && biller != ""
    requires PaidBy(v, account, biller) != []
    ensures Current(v, AfterHandler(v, habits, Some(id)), account, biller)
  {
  }

  /** The handler of another pair's payment leaves the pair's row alone. */
  lemma OtherPairIsHandled(v: World, habits: Habits, id: nat, account: string, biller: string)
    requires id < |v.intents| && v.intents[id].status == Executed && !Matches(v, id, account, biller)
    ensures var after := AfterHandler(v, habits, Some(id));
      && ((account, biller) in after <==> (account, biller) in habits)
      && ((account, biller) in habits ==> after[(account, biller)] == habits[(account, biller)])
  {
    var other := v.intents[id].billerId;
    assert other.Some? ==> (AccountOf(v, id), other.value) != (account, biller);
  }

  /** The executed event is about an executed row. */
  lemma ExecutedRow(w: World, v: World, e: Event)
    requires Quiet(w, v) || Opens(w, v, e) || exists id: nat :: Moves(w, v, e, id)
    requires ExecutedBy(w, v).Some?
    ensures v.intents[ExecutedBy(w, v).value].status == Executed
  {
  }

  /** A run of the spine in which each step's executed event is handled before the next step. */
  function HabitsAfter(w: World, es: seq<Event>): Habits {
    if es == [] then map[]
    else
      var past := es[..|es| - 1];
      AfterHandler(Run(w, es), HabitsAfter(w, past), ExecutedBy(Run(w, past), Run(w, es)))
  }

  /** In every reachable state the habit rows are the statistics of the executed payments. */
  lemma {:induction false} HabitsAgreeWithPayments(w: World, es: seq<Event>, account: string, biller: string)
    requires Fresh(w) && biller != ""
    ensures Current(Run(w, es), HabitsAfter(w, es), account, biller)
  {
    if es == [] {
    } else {
      var past, last := es[..|es| - 1], es[|es| - 1];
      HabitsAgreeWithPayments(w, past, account, biller);
      FreshHolds(w);
      RunKeeps(w, past);
      StepKeeps(Run(w, past), last);
      StepShape(Run(w, past), last);
      StepIsCurrent(Run(w, past), Step(Run(w, past), last), last, HabitsAfter(w, past), account, biller);
    }
  }
}
