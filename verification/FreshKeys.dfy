/** When the idempotency keys one chat session mints are all different, over any run of its messages. */
module FreshKeys {
  import opened Policy
  import opened SessionKeys
  import opened AgentSession

  /** The store after a run of messages of one session. */
  function StoreIn(store: Store, id: string, vs: seq<Visit>): Store {
    if vs == [] then store else StoreAfter(StoreIn(store, id, vs[..|vs| - 1]), id, vs[|vs| - 1])
  }

  /** All keys the messages minted, in order. */
  function AllKeys(channel: Channel, store: Store, id: string, vs: seq<Visit>): seq<Key> {
    if vs == [] then []
    else
      var before, v := vs[..|vs| - 1], vs[|vs| - 1];
      AllKeys(channel, store, id, before)
        + Minted(channel, id, Load(StoreIn(store, id, before), id, v.now).turn, Dispatched(v.replies))
  }

  ghost predicate Distinct(keys: seq<Key>) {
    forall i, j :: 0 <= i < j < |keys| ==> keys[i] != keys[j]
  }

  predicate Persists(v: Visit) {
    v.saves && !EndingOf(v.replies).Crashed?
  }

  /** The stored row has expired, and it counted some payments. */
  predicate Forgets(store: Store, id: string, v: Visit) {
    id in store && store[id].expiresAt < v.now && store[id].session.turn > 0
  }

  /** The message drops turns: it saves over an expired count, or it pays and its count is not saved. */
  predicate Loses(store: Store, id: string, v: Visit) {
    if Persists(v) then Forgets(store, id, v) else Dispatched(v.replies) > 0
  }

  /** Turns were dropped in some message of the run. */
  predicate Lost(store: Store, id: string, vs: seq<Visit>) {
    vs != [] && (Lost(store, id, vs[..|vs| - 1]) || Loses(StoreIn(store, id, vs[..|vs| - 1]), id, vs[|vs| - 1]))
  }

  /** The k-th message pays after turns were dropped, or finds its own count expired. */
  predicate PaysAfterLoss(store: Store, id: string, vs: seq<Visit>, k: nat)
    requires k < |vs|
  {
    Dispatched(vs[k].replies) > 0 && (Lost(store, id, vs[..k]) || Forgets(StoreIn(store, id, vs[..k]), id, vs[k]))
  }

  function StoredTurn(store: Store, id: string): nat {
    if id in store then store[id].session.turn else 0
  }

  lemma TurnAfter(store: Store, id: string, v: Visit)
    ensures StoredTurn(StoreAfter(store, id, v), id)
      == if !Persists(v) then StoredTurn(store, id)
         else if Forgets(store, id, v) then Dispatched(v.replies)
         else StoredTurn(store, id) + Dispatched(v.replies)
    ensures Load(store, id, v.now).turn == if Forgets(store, id, v) then 0 else StoredTurn(store, id)
  {
  }

  /** The stored turn never exceeds the number of keys minted, and equals it exactly while nothing was lost. */
  lemma {:induction false} TurnCountsKeys(channel: Channel, store: Store, id: string, vs: seq<Visit>)
    requires id !in store
    ensures StoredTurn(StoreIn(store, id, vs), id) <= |AllKeys(channel, store, id, vs)|
    ensures StoredTurn(StoreIn(store, id, vs), id) == |AllKeys(channel, store, id, vs)| <==> !Lost(store, id, vs)
  {
    if vs == [] {
    } else {
      var before, v := vs[..|vs| - 1], vs[|vs| - 1];
      TurnCountsKeys(channel, store, id, before);
      TurnAfter(StoreIn(store, id, before), id, v);
    }
  }

  lemma MintedAgain(channel: Channel, id: string, keys: seq<Key>, start: nat, count: nat)
    requires keys == Minted(channel, id, 0, |keys|) && start <= |keys|
    ensures Distinct(keys + Minted(channel, id, start, count)) <==> count == 0 || start == |keys|
    ensures count == 0 || start == |keys| ==>
      keys + Minted(channel, id, start, count) == Minted(channel, id, 0, |keys| + count)
  {
    var all := keys + Minted(channel, id, start, count);
    if count > 0 && start < |keys| {
      assert all[start] == all[|keys|] == Key(channel, id, start + 1);
    }
  }

  lemma DistinctPrefix(xs: seq<Key>, ys: seq<Key>)
    requires Distinct(xs + ys)
    ensures Distinct(xs)
  {
    forall i, j | 0 <= i < j < |xs| ensures xs[i] != xs[j] {
      assert xs[i] == (xs + ys)[i] && xs[j] == (xs + ys)[j];
    }
  }

  /** One more message on a history of fresh keys: its keys are fresh too exactly when it does not pay after a loss. */
  lemma OneMoreMessage(channel: Channel, store: Store, id: string, vs: seq<Visit>)
    requires id !in store && vs != []
    requires var keys := AllKeys(channel, store, id, vs[..|vs| - 1]); keys == Minted(channel, id, 0, |keys|)
    ensures var keys, fresh' := AllKeys(channel, store, id, vs), !PaysAfterLoss(store, id, vs, |vs| - 1);
      && (Distinct(keys) <==> fresh')
      && (fresh' ==> keys == Minted(channel, id, 0, |keys|))
  {
    var before, v := vs[..|vs| - 1], vs[|vs| - 1];
    var keys, at := AllKeys(channel, store, id, before), StoreIn(store, id, before);
    TurnCountsKeys(channel, store, id, before);
    TurnAfter(at, id, v);
    MintedAgain(channel, id, keys, Load(at, id, v.now).turn, Dispatched(v.replies));
  }

  lemma EarlierLossesStand(store: Store, id: string, vs: seq<Visit>, k: nat)
    requires k + 1 < |vs|
    ensures PaysAfterLoss(store, id, vs[..|vs| - 1], k) == PaysAfterLoss(store, id, vs, k)
  {
    assert vs[..|vs| - 1][..k] == vs[..k];
  }

  ghost predicate NeverPaysAfterLoss(store: Store, id: string, vs: seq<Visit>) {
    forall k :: 0 <= k < |vs| ==> !PaysAfterLoss(store, id, vs, k)
  }

  lemma LossSplits(store: Store, id: string, vs: seq<Visit>)
    requires vs != []
    ensures NeverPaysAfterLoss(store, id, vs)
      <==> NeverPaysAfterLoss(store, id, vs[..|vs| - 1]) && !PaysAfterLoss(store, id, vs, |vs| - 1)
  {
    var before := vs[..|vs| - 1];
    if NeverPaysAfterLoss(store, id, vs) {
      forall k | 0 <= k < |before| ensures !PaysAfterLoss(store, id, before, k) {
        EarlierLossesStand(store, id, vs, k);
      }
    } else if NeverPaysAfterLoss(store, id, before) {
      var k :| 0 <= k < |vs| && PaysAfterLoss(store, id, vs, k);
      if k < |before| {
        EarlierLossesStand(store, id, vs, k);
      }
    }
  }

  /**
   * A session's payments all carry different keys, and then the keys count 1, 2, 3, ..., exactly when no message
   * pays after the session lost its count: to an expiry, a failed save, or a model that became unreachable.
   */
  lemma {:induction false} KeysAreFreshIffNothingLost(channel: Channel, store: Store, id: string, vs: seq<Visit>)
    requires id !in store
    ensures var keys := AllKeys(channel, store, id, vs);
      && (Distinct(keys) <==> NeverPaysAfterLoss(store, id, vs))
      && (Distinct(keys) <==> keys == Minted(channel, id, 0, |keys|))
  {
    if vs == [] {
    } else {
      var before, v := vs[..|vs| - 1], vs[|vs| - 1];
      KeysAreFreshIffNothingLost(channel, store, id, before);
      LossSplits(store, id, vs);
      if NeverPaysAfterLoss(store, id, before) {
        OneMoreMessage(channel, store, id, vs);
        MintedIsDistinct(channel, id, |AllKeys(channel, store, id, vs)|);
      } else {
        PrefixRepeats(channel, store, id, vs);
      }
    }
  }

  lemma MintedIsDistinct(channel: Channel, id: string, n: nat)
    ensures Distinct(Minted(channel, id, 0, n))
  {
    forall i, j | 0 <= i < j < n ensures Minted(channel, id, 0, n)[i] != Minted(channel, id, 0, n)[j] {
      assert Minted(channel, id, 0, n)[i].turn == 1 + i;
    }
  }

  lemma PrefixRepeats(channel: Channel, store: Store, id: string, vs: seq<Visit>)
    requires vs != [] && !Distinct(AllKeys(channel, store, id, vs[..|vs| - 1]))
    ensures var keys := AllKeys(channel, store, id, vs); !Distinct(keys) && keys != Minted(channel, id, 0, |keys|)
  {
    var before, v, keys := vs[..|vs| - 1], vs[|vs| - 1], AllKeys(channel, store, id, vs);
    if Distinct(keys) {
      DistinctPrefix(AllKeys(channel, store, id, before),
                     Minted(channel, id, Load(StoreIn(store, id, before), id, v.now).turn, Dispatched(v.replies)));
    }
    MintedIsDistinct(channel, id, |keys|);
  }

  /** The k-th message finds its session unexpired, and if it pays, its count is saved. */
  predicate Kept(store: Store, id: string, vs: seq<Visit>, k: nat)
    requires k < |vs|
  {
    !Forgets(StoreIn(store, id, vs[..k]), id, vs[k]) && (Dispatched(vs[k].replies) > 0 ==> Persists(vs[k]))
  }

  lemma {:induction false} NeverLost(store: Store, id: string, vs: seq<Visit>, n: nat)
    requires n <= |vs| && forall k :: 0 <= k < |vs| ==> Kept(store, id, vs, k)
    ensures !Lost(store, id, vs[..n])
  {
    if n == 0 {
    } else {
      NeverLost(store, id, vs, n - 1);
      assert vs[..n][..n - 1] == vs[..n - 1];
      assert Kept(store, id, vs, n - 1);
    }
  }

  /** While the session never expires and every save of a paying message goes through, keys are always fresh. */
  lemma SavedSessionsStayFresh(channel: Channel, store: Store, id: string, vs: seq<Visit>)
    requires id !in store && forall k :: 0 <= k < |vs| ==> Kept(store, id, vs, k)
    ensures Distinct(AllKeys(channel, store, id, vs))
  {
    forall k | 0 <= k < |vs| ensures !PaysAfterLoss(store, id, vs, k) {
      NeverLost(store, id, vs, k);
      assert Kept(store, id, vs, k);
    }
    KeysAreFreshIffNothingLost(channel, store, id, vs);
  }

  /**
   * The keys can repeat: a payment is dispatched, the model is unreachable in the next round so nothing is saved,
   * and the next message dispatches its payment under the same key.
   */
  lemma AnUnreachableModelRepeatsAKey(channel: Channel, id: string, now: int)
    ensures exists v: Visit, w: Visit ::
      AllKeys(channel, map[], id, [v, w]) == [Key(channel, id, 1), Key(channel, id, 1)]
  {
    var pay, done := Asked([Call("a", true)]), Said("");
    var v := Visit(now, now, [pay, Unreachable, done, done, done, done], true);
    var w := Visit(now, now, [pay, done, done, done, done, done], true);
    OnlyFirstRound(v.replies);
    OnlyFirstRound(w.replies);
    AllPay(1);
    assert PayingCalls(1) == [Call("a", true)];
    UnsavedTurnIsReused(channel, map[], id, v, w);
  }

  lemma UnsavedTurnIsReused(channel: Channel, store: Store, id: string, v: Visit, w: Visit)
    requires id !in store && !Persists(v) && Dispatched(v.replies) == Dispatched(w.replies) == 1
    ensures AllKeys(channel, store, id, [v, w]) == [Key(channel, id, 1), Key(channel, id, 1)]
  {
    assert [v, w][..1] == [v] && [v][..0] == [];
    assert StoreIn(store, id, [v]) == store;
    assert AllKeys(channel, store, id, [v]) == [Key(channel, id, 1)];
  }

  /** Any number of calls that all dispatch a payment. */
  function PayingCalls(n: nat): seq<Call> {
    seq(n, _ => Call("a", true))
  }

  lemma {:induction false} AllPay(n: nat)
    ensures Payments(PayingCalls(n)) == n
  {
    if n == 0 {
    } else {
      AllPay(n - 1);
      assert PayingCalls(n)[..n - 1] == PayingCalls(n - 1);
    }
  }

  /** For every n one message can dispatch n payments, each under its own key. */
  lemma OneMessageMayPayAnyNumber(channel: Channel, id: string, now: int, n: nat) returns (v: Visit)
    ensures AllKeys(channel, map[], id, [v]) == Minted(channel, id, 0, n)
  {
    var done := Said("");
    v := Visit(now, now, [Asked(PayingCalls(n)), done, done, done, done, done], true);
    AllPay(n);
    if n > 0 {
      OnlyFirstRound(v.replies);
    } else {
      assert ToolRounds(v.replies) == 0;
    }
    assert [v][..0] == [];
  }

  lemma OnlyFirstRound(replies: Replies)
    requires AsksTools(replies[0]) && !AsksTools(replies[1])
    ensures ToolRounds(replies) == 1 && Dispatched(replies) == Payments(CallsOf(replies[0]))
  {
    assert ToolRounds(replies[1..]) == 0;
    assert RoundPayments(replies, 1) == RoundPayments(replies, 0) + Payments(CallsOf(replies[0]));
  }
}
