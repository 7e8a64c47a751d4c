/**
 * What is left of a message once it is handled: the conversation that is saved, what it counts as payments, and for
 * how long it is found again.
 */
module Conversations {
  import opened AgentSession

  // ---- the conversation --------------------------------------------------------------------------------------

  /** The ids of the calls of each assistant message, in order. */
  function CallLists(ms: seq<Message>): seq<seq<string>> {
    if ms == [] then []
    else CallLists(ms[..|ms| - 1]) + if ms[|ms| - 1].Assistant? then [ms[|ms| - 1].calls] else []
  }

  lemma {:induction false} CallListsConcat(xs: seq<Message>, ys: seq<Message>)
    ensures CallLists(xs + ys) == CallLists(xs) + CallLists(ys)
  {
    if ys == [] {
      assert xs + ys == xs;
    } else {
      assert (xs + ys)[..|xs + ys| - 1] == xs + ys[..|ys| - 1];
      CallListsConcat(xs, ys[..|ys| - 1]);
    }
  }

  lemma {:induction false} NoAssistant(ms: seq<Message>)
    requires forall i :: 0 <= i < |ms| ==> !ms[i].Assistant?
    ensures CallLists(ms) == []
  {
    if ms == [] {
    } else {
      NoAssistant(ms[..|ms| - 1]);
    }
  }

  lemma OneList(calls: seq<string>)
    ensures CallLists([Assistant(calls)]) == [calls]
  {
    assert [Assistant(calls)][..0] == [];
  }

  lemma ListOfRound(calls: seq<Call>)
    ensures CallLists(ToolRound(calls)) == [Ids(calls)]
  {
    var results := seq(|calls|, i requires 0 <= i < |calls| => Tool(calls[i].id));
    CallListsConcat([Assistant(Ids(calls))], results);
    OneList(Ids(calls));
    NoAssistant(results);
  }

  /** The rounds: exactly the first n replies ask for tools, up to the sixth. */
  predicate Rounds(replies: Replies, n: nat) {
    && n <= 6
    && (forall i :: 0 <= i < n ==> replies[i].Asked? && replies[i].calls != [])
    && (n < 6 ==> !(replies[n].Asked? && replies[n].calls != []))
  }

  lemma {:induction false} RoundsAreToolRounds(replies: Replies, n: nat)
    requires Rounds(replies, n)
    ensures ToolRounds(replies) == n
  {
  }

  predicate Names(list: seq<string>, calls: seq<Call>) {
    |list| == |calls| && forall j :: 0 <= j < |list| ==> list[j] == calls[j].id
  }

  /** Each of the first n rounds adds one list, the ids of the calls asked for. */
  ghost predicate Lists(lists: seq<seq<string>>, replies: Replies, n: nat)
    requires n <= 6
  {
    |lists| == n && forall i :: 0 <= i < n ==> Names(lists[i], CallsOf(replies[i]))
  }

  ghost predicate Mute(ms: seq<Message>) {
    forall i :: 0 <= i < |ms| ==> ms[i].Assistant? || ms[i].Tool?
  }

  lemma ListsSnoc(lists: seq<seq<string>>, replies: Replies, n: nat, list: seq<string>)
    requires 0 < n <= 6 && Lists(lists, replies, n - 1) && Names(list, CallsOf(replies[n - 1]))
    ensures Lists(lists + [list], replies, n)
  {
  }

  lemma RoundAddsOneList(before: seq<Message>, replies: Replies, n: nat)
    requires 0 < n <= 6 && Lists(CallLists(before), replies, n - 1) && Mute(before)
    ensures var after := before + ToolRound(CallsOf(replies[n - 1]));
      Lists(CallLists(after), replies, n) && Mute(after)
  {
    var calls := CallsOf(replies[n - 1]);
    CallListsConcat(before, ToolRound(calls));
    ListOfRound(calls);
    ListsSnoc(CallLists(before), replies, n, Ids(calls));
  }

  lemma {:induction false} RoundsAddLists(replies: Replies, n: nat)
    requires n <= 6
    ensures Lists(CallLists(RoundMessages(replies, n)), replies, n) && Mute(RoundMessages(replies, n))
  {
    if n == 0 {
    } else {
      RoundsAddLists(replies, n - 1);
      RoundAddsOneList(RoundMessages(replies, n - 1), replies, n);
    }
  }

  /** What a message found: an unexpired conversation, or just the system message. */
  ghost predicate Found(store: Store, id: string, now: int, found: seq<Message>) {
    if id in store && now <= store[id].expiresAt && store[id].session.messages != []
    then found == store[id].session.messages else found == [System]
  }

  /** The message is saved: its save goes through, and the model answered or was stopped by the guard. */
  predicate IsSaved(v: Visit, n: nat) {
    v.saves && (n < 6 ==> n < |v.replies| && !v.replies[n].Unreachable?)
  }

  /** What follows the user message: the rounds, and the reply if there is one. */
  ghost predicate Follows(rest: seq<Message>, replies: Replies, n: nat)
    requires n <= 6
  {
    && Paired(rest) && Mute(rest)
    && var lists := CallLists(rest);
    && |lists| == n + (if n < 6 then 1 else 0) && Lists(lists[..n], replies, n)
    && (n < 6 ==> lists[n] == [] && rest != [] && rest[|rest| - 1] == Assistant([]))
  }

  /** The conversation goes on where it was found: a user message, and what follows it. */
  ghost predicate GoesOn(saved: seq<Message>, found: seq<Message>, replies: Replies, n: nat)
    requires n <= 6
  {
    && |found| < |saved| && saved[..|found|] == found && saved[|found|] == User
    && Follows(saved[|found| + 1..], replies, n)
  }

  lemma RoundsFollow(replies: Replies, n: nat)
    requires n <= 6
    ensures n == 6 ==> Follows(RoundMessages(replies, n), replies, n)
    ensures n < 6 ==> Follows(RoundMessages(replies, n) + [Assistant([])], replies, n)
  {
    var rounds := RoundMessages(replies, n);
    RoundsArePaired(replies, n);
    RoundsAddLists(replies, n);
    assert CallLists(rounds)[..n] == CallLists(rounds);
    if n < 6 {
      OneMessageIsPaired(Assistant([]));
      PairedJoin(rounds, [Assistant([])]);
      ReplyFollows(rounds, replies, n);
    }
  }

  lemma ReplyFollows(rounds: seq<Message>, replies: Replies, n: nat)
    requires n < 6 && Mute(rounds) && Lists(CallLists(rounds), replies, n) && Paired(rounds + [Assistant([])])
    ensures Follows(rounds + [Assistant([])], replies, n)
  {
    CallListsConcat(rounds, [Assistant([])]);
    OneList([]);
    assert CallLists(rounds + [Assistant([])])[..n] == CallLists(rounds);
  }

  lemma SavedGoesOn(found: seq<Message>, rest: seq<Message>, replies: Replies, n: nat)
    requires n <= 6 && Follows(rest, replies, n)
    ensures GoesOn(found + [User] + rest, found, replies, n)
  {
    assert (found + [User] + rest)[|found| + 1..] == rest;
  }

  lemma AfterMessageGoesOn(found: seq<Message>, start: nat, replies: Replies, n: nat)
    requires Rounds(replies, n) && (n < 6 ==> !replies[n].Unreachable?)
    ensures GoesOn(AfterMessage(found + [User], start, replies).messages, found, replies, n)
  {
    var begun, rounds := found + [User], RoundMessages(replies, n);
    RoundsAreToolRounds(replies, n);
    RoundsFollow(replies, n);
    if n < 6 {
      assert begun + rounds + [Assistant([])] == begun + (rounds + [Assistant([])]);
      SavedGoesOn(found, rounds + [Assistant([])], replies, n);
    } else {
      assert begun + rounds + [] == begun + rounds;
      SavedGoesOn(found, rounds, replies, n);
    }
  }

  /**
   * What a message leaves: if it is saved, the conversation it found, the user message, one assistant message with
   * its results for each round, and the reply; and otherwise the store as it was.
   */
  lemma MessageIsKept(store: Store, id: string, v: Visit, found: seq<Message>, n: nat)
    requires Rounds(v.replies, n) && Found(store, id, v.now, found)
    ensures var after := StoreAfter(store, id, v);
      && (forall other :: other != id ==> (other in after <==> other in store))
      && (forall other :: other != id && other in store ==> after[other] == store[other])
      && if !IsSaved(v, n) then after == store
         else id in after && GoesOn(after[id].session.messages, found, v.replies, n)
              && after[id].expiresAt == v.later + 30 * 60 * 1000
  {
    RoundsAreToolRounds(v.replies, n);
    if IsSaved(v, n) {
      AfterMessageGoesOn(found, Load(store, id, v.now).turn, v.replies, n);
    }
  }

  /** A saved session is found again up to its expiry, and is as good as absent from then on. */
  lemma SavedIsFound(store: Store, id: string, v: Visit, n: nat, now: int)
    requires Rounds(v.replies, n) && IsSaved(v, n)
    ensures var after := StoreAfter(store, id, v);
      id in after && Load(after, id, now)
        == if now <= v.later + 30 * 60 * 1000 then after[id].session else Session([], 0)
  {
    RoundsAreToolRounds(v.replies, n);
  }

  // ---- the payments it counts --------------------------------------------------------------------------------

  /** The calls that dispatch a payment, by round and place. */
  function Paying(replies: Replies, n: nat): set<(int, int)>
    requires n <= 6
  {
    set i, j | 0 <= i < n && 0 <= j < |CallsOf(replies[i])| && CallsOf(replies[i])[j].dispatchesPayment :: (i, j)
  }

  function PayingIn(calls: seq<Call>, round: int, upto: nat): set<(int, int)>
    requires upto <= |calls|
  {
    set j | 0 <= j < upto && calls[j].dispatchesPayment :: (round, j)
  }

  lemma {:induction false} PaymentsOfRound(calls: seq<Call>, round: int, upto: nat)
    requires upto <= |calls|
    ensures Payments(calls[..upto]) == |PayingIn(calls, round, upto)|
  {
    if upto == 0 {
      assert PayingIn(calls, round, 0) == {};
    } else {
      PaymentsOfRound(calls, round, upto - 1);
      assert calls[..upto][..upto - 1] == calls[..upto - 1];
      var before, now := PayingIn(calls, round, upto - 1), PayingIn(calls, round, upto);
      assert now == if calls[upto - 1].dispatchesPayment then before + {(round, upto - 1)} else before;
    }
  }

  lemma PaymentsOfAll(calls: seq<Call>, round: int)
    ensures Payments(calls) == |PayingIn(calls, round, |calls|)|
  {
    PaymentsOfRound(calls, round, |calls|);
    assert calls[..|calls|] == calls;
  }

  lemma PayingSizes(replies: Replies, n: nat, calls: seq<Call>)
    requires 0 < n <= 6 && calls == CallsOf(replies[n - 1])
    ensures |Paying(replies, n)| == |Paying(replies, n - 1)| + |PayingIn(calls, n - 1, |calls|)|
  {
    var all, before, more := Paying(replies, n), Paying(replies, n - 1), PayingIn(calls, n - 1, |calls|);
    assert all == before + more;
    assert before !! more;
  }

  lemma PayingMore(replies: Replies, n: nat)
    requires 0 < n <= 6
    ensures |Paying(replies, n)| == |Paying(replies, n - 1)| + Payments(CallsOf(replies[n - 1]))
  {
    PaymentsOfAll(CallsOf(replies[n - 1]), n - 1);
    PayingSizes(replies, n, CallsOf(replies[n - 1]));
  }

  lemma {:induction false} TurnsArePayments(replies: Replies, n: nat)
    requires n <= 6
    ensures RoundPayments(replies, n) == |Paying(replies, n)|
  {
    if n == 0 {
      assert Paying(replies, 0) == {};
    } else {
      TurnsArePayments(replies, n - 1);
      PayingMore(replies, n);
    }
  }

  /** A saved message counts each call that dispatched a payment in its rounds, on top of what it found. */
  lemma SavedTurnCounts(store: Store, id: string, v: Visit, n: nat)
    requires Rounds(v.replies, n) && IsSaved(v, n)
    ensures var after := StoreAfter(store, id, v);
      id in after && after[id].session.turn
        == (if id in store && v.now <= store[id].expiresAt then store[id].session.turn else 0) + |Paying(v.replies, n)|
  {
    RoundsAreToolRounds(v.replies, n);
    TurnsArePayments(v.replies, n);
  }
}
