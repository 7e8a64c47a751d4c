/**
 * What an anomaly flag says, told from the rows: a recipient is new if no other payment of the account went to it,
 * an amount is measured against the other payments to the biller in deviations from their mean, and the hour is
 * late. Over runs, the first payment to a recipient is flagged, and later ones are not for that.
 */
module AnomalyRuns {
  import opened Basics
  import opened Spine
  import opened SpineInvariant
  import opened SpineSteps
  import opened Statistics
  import opened Anomaly
  import HabitCache

  // ---- the factors, on the rows --------------------------------------------------------------------------------

  /** Another intent of the account is executed for the recipient. */
  ghost predicate PaidBefore(w: World, id: nat, account: string, recipient: string) {
    exists i :: 0 <= i < |w.intents| && i != id && w.intents[i].status == Executed
      && w.credentials[w.intents[i].credentialId].accountId == account && w.intents[i].recipient == Some(recipient)
  }

  /** The recipient factor is 1.0 exactly if the intent has a recipient that no other executed intent went to. */
  lemma RecipientIsNew(w: World, id: nat, account: string)
    ensures RecipientScore(w, id, account)
      == if id < |w.intents| && w.intents[id].recipient.Some? && w.intents[id].recipient.value != ""
           && !PaidBefore(w, id, account, w.intents[id].recipient.value)
         then EXTREME else NONE
  {
    if id < |w.intents| && w.intents[id].recipient.Some? {
      var r := w.intents[id].recipient.value;
      if i :| 0 <= i < |w.intents| && PaidTo(w, i, id, account, r) {
        assert w.intents[i].recipient == Some(r);
      }
      if PaidBefore(w, id, account, r) {
        var i :| 0 <= i < |w.intents| && i != id && (w.intents[i].status == Executed
          && w.credentials[w.intents[i].credentialId].accountId == account && w.intents[i].recipient == Some(r));
        assert PaidTo(w, i, id, account, r);
      }
    }
  }

  /** Another executed payment of the account to the biller. */
  predicate Counts(w: World, i: nat, id: nat, account: string, biller: string)
    requires i < |w.intents|
  {
    && i != id && w.intents[i].status == Executed && w.intents[i].billerId == Some(biller)
    && w.credentials[w.intents[i].credentialId].accountId == account
  }

  /** The places of the other executed payments of the account to the biller, in order. */
  ghost predicate Places(w: World, id: nat, account: string, biller: string, n: nat, at: seq<nat>)
    requires n <= |w.intents|
  {
    && (forall k, l :: 0 <= k < l < |at| ==> at[k] < at[l])
    && (forall k :: 0 <= k < |at| ==> at[k] < n)
    && forall i: nat :: i < n ==>
         (i in at <==> Counts(w, i, id, account, biller))
  }

  lemma PlaceMore(w: World, id: nat, account: string, biller: string, n: nat, at: seq<nat>)
    requires 0 < n <= |w.intents| && Places(w, id, account, biller, n - 1, at) && Counts(w, n - 1, id, account, biller)
    ensures Places(w, id, account, biller, n, at + [n - 1])
  {
    assert (at + [n - 1])[|at|] == n - 1;
  }

  lemma NoPlaceMore(w: World, id: nat, account: string, biller: string, n: nat, at: seq<nat>)
    requires 0 < n <= |w.intents| && Places(w, id, account, biller, n - 1, at) && !Counts(w, n - 1, id, account, biller)
    ensures Places(w, id, account, biller, n, at)
  {
  }

  /** The amounts at these places. */
  ghost predicate Shows(w: World, at: seq<nat>, history: seq<int>) {
    |history| == |at| && forall k :: 0 <= k < |at| ==> at[k] < |w.intents| && history[k] == w.intents[at[k]].amount
  }

  lemma ShowsSnoc(w: World, at: seq<nat>, history: seq<int>, i: nat)
    requires Shows(w, at, history) && i < |w.intents|
    ensures Shows(w, at + [i], history + [w.intents[i].amount])
  {
  }

  lemma EarlierOnward(w: World, id: nat, account: string, biller: string, n: nat)
    requires 0 < n <= |w.intents|
    ensures var before := EarlierAmounts(w, n - 1, id, account, biller);
      EarlierAmounts(w, n, id, account, biller)
        == if Counts(w, n - 1, id, account, biller) then before + [w.intents[n - 1].amount] else before
  {
  }

  /** These are the places of the history, and what stands there. */
  ghost predicate Holds(w: World, id: nat, account: string, biller: string, n: nat, at: seq<nat>)
    requires n <= |w.intents|
  {
    Places(w, id, account, biller, n, at) && Shows(w, at, EarlierAmounts(w, n, id, account, biller))
  }

  lemma HoldsMore(w: World, id: nat, account: string, biller: string, n: nat, at: seq<nat>)
    requires 0 < n <= |w.intents| && Holds(w, id, account, biller, n - 1, at) && Counts(w, n - 1, id, account, biller)
    ensures Holds(w, id, account, biller, n, at + [n - 1])
  {
    EarlierOnward(w, id, account, biller, n);
    PlaceMore(w, id, account, biller, n, at);
    ShowsSnoc(w, at, EarlierAmounts(w, n - 1, id, account, biller), n - 1);
  }

  lemma HoldsOn(w: World, id: nat, account: string, biller: string, n: nat, at: seq<nat>)
    requires 0 < n <= |w.intents| && Holds(w, id, account, biller, n - 1, at) && !Counts(w, n - 1, id, account, biller)
    ensures Holds(w, id, account, biller, n, at)
  {
    EarlierOnward(w, id, account, biller, n);
    NoPlaceMore(w, id, account, biller, n, at);
  }

  /** The history an amount is measured against: the amounts at exactly these places, in order. */
  lemma {:induction false} HistoryIsThere(w: World, id: nat, account: string, biller: string, n: nat)
    returns (at: seq<nat>)
    requires n <= |w.intents|
    ensures Holds(w, id, account, biller, n, at)
  {
    if n == 0 {
      at := [];
    } else {
      at := HistoryIsThere(w, id, account, biller, n - 1);
      if Counts(w, n - 1, id, account, biller) {
        HoldsMore(w, id, account, biller, n, at);
        at := at + [n - 1];
      } else {
        HoldsOn(w, id, account, biller, n, at);
      }
    }
  }

  /** A payment is no part of its own history: neither its amount nor its status changes it. */
  lemma {:induction false} OwnRowIsIrrelevant(w: World, v: World, id: nat, account: string, biller: string, n: nat)
    requires n <= |w.intents| == |v.intents| && v.credentials == w.credentials
    requires forall i :: 0 <= i < |w.intents| && i != id ==> v.intents[i] == w.intents[i]
    ensures EarlierAmounts(v, n, id, account, biller) == EarlierAmounts(w, n, id, account, biller)
  {
    if n == 0 {
    } else {
      OwnRowIsIrrelevant(w, v, id, account, biller, n - 1);
    }
  }

  // ---- over runs ---------------------------------------------------------------------------------------------------

  /** The flags raised over a run in which each executed event is handled before the next step. */
  ghost function FlagsAfter(w: World, es: seq<Event>, lagos: Instant -> Option<int>): seq<Flag> {
    if es == [] then []
    else
      var past, v := es[..|es| - 1], Run(w, es);
      FlagsAfter(w, past, lagos) + FlagsOf(v, HabitCache.ExecutedBy(Run(w, past), v), lagos)
  }

  ghost function FlagsOf(v: World, executed: Option<nat>, lagos: Instant -> Option<int>): seq<Flag> {
    if executed.None? || executed.value >= |v.intents| then []
    else
      var id := executed.value;
      Raised(v, id, AccountOf(v, id), v.intents[id].billerId, v.intents[id].amount, lagos(v.now))
  }

  /** The executed payments of the account to the recipient. */
  ghost predicate HasPaid(w: World, account: string, recipient: string) {
    exists i :: 0 <= i < |w.intents| && w.intents[i].status == Executed
      && w.credentials[w.intents[i].credentialId].accountId == account && w.intents[i].recipient == Some(recipient)
  }

  /** A step that executes an intent changes that row only, and it was not executed before. */
  lemma ExecutedStep(u: World, v: World, e: Event, id: nat)
    requires Quiet(u, v) || Opens(u, v, e) || exists i: nat :: Moves(u, v, e, i)
    requires HabitCache.ExecutedBy(u, v) == Some(id)
    ensures id < |v.intents| && v.intents[id].status == Executed && |u.intents| <= |v.intents| <= |u.intents| + 1
    ensures id >= |u.intents| || u.intents[id].status != Executed
    ensures forall i :: 0 <= i < |v.intents| && i != id ==> i < |u.intents| && v.intents[i] == u.intents[i]
  {
  }

  lemma PaidBeforeTheStep(u: World, v: World, e: Event, id: nat, account: string, recipient: string)
    requires Ages(u, v) && HabitCache.ExecutedBy(u, v) == Some(id)
    requires Quiet(u, v) || Opens(u, v, e) || exists i: nat :: Moves(u, v, e, i)
    ensures PaidBefore(v, id, account, recipient) <==> HasPaid(u, account, recipient)
  {
    ExecutedStep(u, v, e, id);
    forall i | 0 <= i < |u.intents| && i != id
      ensures v.intents[i] == u.intents[i]
      ensures v.credentials[v.intents[i].credentialId].accountId == u.credentials[u.intents[i].credentialId].accountId
    {
    }
    if i :| 0 <= i < |u.intents| && u.intents[i].status == Executed && u.intents[i].recipient == Some(recipient)
            && u.credentials[u.intents[i].credentialId].accountId == account {
      assert i != id;
    }
  }

  /**
   * Of the flags the last step of a run raises: the first payment of an account to a recipient is flagged with
   * recipient factor and score 1.0; one that follows an executed payment to the same recipient is not flagged for it.
   */
  lemma FirstPaymentIsFlagged(w: World, es: seq<Event>, lagos: Instant -> Option<int>, id: nat)
    requires Fresh(w) && es != []
    requires HabitCache.ExecutedBy(Run(w, es[..|es| - 1]), Run(w, es)) == Some(id)
    ensures id < |Run(w, es).intents|
    ensures var u, v, before := Run(w, es[..|es| - 1]), Run(w, es), FlagsAfter(w, es[..|es| - 1], lagos);
      var recipient, raised := v.intents[id].recipient, FlagsAfter(w, es, lagos)[|before|..];
      && FlagsAfter(w, es, lagos) == before + raised
      && (forall f :: f in raised ==> f.intentId == id && f.accountId == AccountOf(v, id))
      && if recipient.Some? && recipient.value != "" && !HasPaid(u, AccountOf(v, id), recipient.value)
         then |raised| == 1 && raised[0].recipientScore == EXTREME && raised[0].score == EXTREME
         else forall f :: f in raised ==> f.recipientScore == NONE
  {
    var past := es[..|es| - 1];
    var u, v, e := Run(w, past), Run(w, es), es[|es| - 1];
    FreshHolds(w);
    RunKeeps(w, past);
    StepShape(u, e);
    ExecutedStep(u, v, e, id);
    RecipientIsNew(v, id, AccountOf(v, id));
    if v.intents[id].recipient.Some? {
      PaidBeforeTheStep(u, v, e, id, AccountOf(v, id), v.intents[id].recipient.value);
    }
    var recipient := v.intents[id].recipient;
    var isNew := recipient.Some? && recipient.value != "" && !HasPaid(u, AccountOf(v, id), recipient.value);
    RaisedFollows(v, id, AccountOf(v, id), v.intents[id].billerId, v.intents[id].amount, lagos(v.now), isNew);
    FlagsGrow(w, es, lagos, id);
  }

  lemma FlagsGrow(w: World, es: seq<Event>, lagos: Instant -> Option<int>, id: nat)
    requires es != [] && HabitCache.ExecutedBy(Run(w, es[..|es| - 1]), Run(w, es)) == Some(id)
    requires id < |Run(w, es).intents|
    ensures var v, before := Run(w, es), FlagsAfter(w, es[..|es| - 1], lagos);
      var raised := Raised(v, id, AccountOf(v, id), v.intents[id].billerId, v.intents[id].amount, lagos(v.now));
      FlagsAfter(w, es, lagos) == before + raised && FlagsAfter(w, es, lagos)[|before|..] == raised
  {
  }

  /**
   * A flag is raised exactly if the recipient is new, the hour is known and late, or the amount scores. It carries the
   * three factors, and its score is 1.0 if one of them is, and 0.5 otherwise.
   */
  lemma FlagSays(w: World, id: nat, account: string, biller: Option<string>, amount: int, hour: Option<int>,
                 isNew: bool, late: bool, history: seq<int>)
    requires isNew == (id < |w.intents| && w.intents[id].recipient.Some? && w.intents[id].recipient.value != ""
                       && !PaidBefore(w, id, account, w.intents[id].recipient.value))
    requires late == (hour.Some? && !(5 <= hour.value < 23))
    requires history == if biller.Some? && biller.value != ""
                        then EarlierAmounts(w, |w.intents|, id, account, biller.value) else []
    ensures var raised, unusual := Raised(w, id, account, biller, amount, hour), AmountScore(history, amount);
      && |raised| == (if isNew || late || unusual != NONE then 1 else 0)
      && forall f :: f in raised ==>
           && f.intentId == id && f.accountId == account
           && f.recipientScore == (if isNew then EXTREME else NONE)
           && f.amountScore == unusual
           && f.timeScore == (if late then EXTREME else NONE)
           && f.score == if isNew || late || unusual == EXTREME then EXTREME else UNUSUAL
  {
    RecipientIsNew(w, id, account);
  }

  lemma RaisedFollows(w: World, id: nat, account: string, biller: Option<string>, amount: int, hour: Option<int>,
                      isNew: bool)
    requires RecipientScore(w, id, account) == if isNew then EXTREME else NONE
    ensures var raised := Raised(w, id, account, biller, amount, hour);
      && (forall f :: f in raised ==> f.intentId == id && f.accountId == account)
      && if isNew then |raised| == 1 && raised[0].recipientScore == EXTREME && raised[0].score == EXTREME
         else forall f :: f in raised ==> f.recipientScore == NONE
  {
  }
}
