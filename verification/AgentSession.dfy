/** The agent's conversation loop: what it sends to the model, what it stores, and the keys it mints. */
module AgentSession {
  import opened Policy
  import opened SessionKeys

  const MAX_TOOL_ROUNDS: nat := 6
  const MAX_SENT_MESSAGES: nat := 14
  const TTL_MS: int := 30 * 60000

  /** Messages by role; an assistant message names the tool calls it asks for, a tool message the call it answers. */
  datatype Message = System | User | Assistant(calls: seq<string>) | Tool(callId: string)

  // ---- the window sent to the model -------------------------------------------------------------------------

  function FromFirstUser(ms: seq<Message>): seq<Message> {
    if ms == [] || ms[0].User? then ms else FromFirstUser(ms[1..])
  }

  function LastOf(ms: seq<Message>, n: nat): seq<Message> {
    if |ms| <= n then ms else ms[|ms| - n..]
  }

  function Window(ms: seq<Message>): seq<Message> {
    if |ms| <= MAX_SENT_MESSAGES + 1 then ms
    else
      var system := if ms[0].System? then 1 else 0;
      ms[..system] + FromFirstUser(LastOf(ms[system..], MAX_SENT_MESSAGES))
  }

  /** windowMessages: the system message, and the recent messages shifted until they start at a user. */
  method WindowMessages(ms: seq<Message>) returns (sent: seq<Message>)
    ensures sent == Window(ms)
  {
    if |ms| <= MAX_SENT_MESSAGES + 1 {
      return ms;
    }
    var hasSystem := ms[0].System?;
    var system := if hasSystem then [ms[0]] else [];
    var rest := LastOf(ms[if hasSystem then 1 else 0..], MAX_SENT_MESSAGES);
    ghost var recent := rest;
    while |rest| > 0 && !rest[0].User?
      invariant FromFirstUser(rest) == FromFirstUser(recent)
    {
      rest := rest[1..];
    }
    sent := system + rest;
    assert system == ms[..|system|];
  }

  /** Every tool call is followed at once by its results, and no result stands alone. */
  predicate Paired(ms: seq<Message>)
    decreases |ms|
  {
    ms == [] ||
    match ms[0]
    case System => false
    case Tool(_) => false
    case User => Paired(ms[1..])
    case Assistant(calls) =>
      && |calls| < |ms|
      && (forall i :: 0 <= i < |calls| ==> ms[1 + i] == Tool(calls[i]))
      && Paired(ms[1 + |calls|..])
  }

  /** A stored conversation: the system message, then properly paired messages. */
  predicate Transcript(ms: seq<Message>) {
    ms != [] && ms[0] == System && Paired(ms[1..])
  }

  /** How many messages of a paired list belong together at its start. */
  function Unit(ms: seq<Message>): (n: nat)
    requires ms != [] && Paired(ms)
    ensures 0 < n <= |ms|
  {
    if ms[0].Assistant? then 1 + |ms[0].calls| else 1
  }

  lemma DropFromConcat(xs: seq<Message>, ys: seq<Message>, n: nat)
    requires n <= |xs|
    ensures (xs + ys)[n..] == xs[n..] + ys
    ensures forall i :: 0 <= i < |xs| ==> (xs + ys)[i] == xs[i]
  {
  }

  lemma {:induction false} PairedJoin(xs: seq<Message>, ys: seq<Message>)
    requires Paired(xs) && Paired(ys)
    ensures Paired(xs + ys)
    decreases |xs|
  {
    if xs == [] {
      assert xs + ys == ys;
    } else {
      PairedJoin(xs[Unit(xs)..], ys);
      DropFromConcat(xs, ys, Unit(xs));
    }
  }

  lemma {:induction false} PairedSuffix(ms: seq<Message>, k: nat)
    requires Paired(ms) && k <= |ms| && (k < |ms| ==> ms[k].User?)
    ensures Paired(ms[k..])
    decreases |ms|
  {
    if k == 0 {
      assert ms[k..] == ms;
    } else {
      var n := Unit(ms);
      UnitHasOneUser(ms);
      assert ms[n..][k - n..] == ms[k..];
      PairedSuffix(ms[n..], k - n);
    }
  }

  lemma UnitHasOneUser(ms: seq<Message>)
    requires ms != [] && Paired(ms)
    ensures forall i :: 1 <= i < Unit(ms) ==> !ms[i].User?
    ensures Paired(ms[Unit(ms)..])
  {
    if ms[0].Assistant? {
      forall i | 1 <= i < Unit(ms) ensures !ms[i].User? {
        assert ms[1 + (i - 1)] == Tool(ms[0].calls[i - 1]);
      }
    }
  }

  /** What is left after shifting to the first user message is a suffix of the whole conversation. */
  lemma {:induction false} FirstUserFrom(ms: seq<Message>, cut: nat) returns (k: nat)
    requires cut <= |ms|
    ensures cut <= k <= |ms| && FromFirstUser(ms[cut..]) == ms[k..]
    ensures k < |ms| ==> ms[k].User?
    ensures forall i :: cut <= i < k ==> !ms[i].User?
    decreases |ms| - cut
  {
    if cut == |ms| || ms[cut].User? {
      k := cut;
    } else {
      assert ms[cut..][1..] == ms[cut + 1..];
      k := FirstUserFrom(ms, cut + 1);
    }
  }

  /** A list the model API accepts: the system message first, tool calls paired, nothing but a suffix from a user on. */
  ghost predicate Sendable(sent: seq<Message>, ms: seq<Message>) {
    && Transcript(sent)
    && |sent| <= MAX_SENT_MESSAGES + 1
    && exists k :: 1 <= k <= |ms| && sent == [System] + ms[k..] && (1 < k < |ms| ==> ms[k].User?)
  }

  /** A long conversation is cut at the first user message among the last MAX_SENT_MESSAGES. */
  lemma LongWindow(ms: seq<Message>) returns (k: nat)
    requires |ms| > MAX_SENT_MESSAGES + 1 && ms[0] == System
    ensures var cut := |ms| - MAX_SENT_MESSAGES;
      && cut <= k <= |ms| && Window(ms) == [System] + ms[k..]
      && (k < |ms| ==> ms[k].User?)
      && (forall i :: cut <= i < k ==> !ms[i].User?)
  {
    LongWindowUnfolds(ms);
    k := FirstUserFrom(ms, |ms| - MAX_SENT_MESSAGES);
  }

  lemma LongWindowUnfolds(ms: seq<Message>)
    requires |ms| > MAX_SENT_MESSAGES + 1 && ms[0] == System
    ensures Window(ms) == [System] + FromFirstUser(ms[|ms| - MAX_SENT_MESSAGES..])
  {
    assert LastOf(ms[1..], MAX_SENT_MESSAGES) == ms[|ms| - MAX_SENT_MESSAGES..] && ms[..1] == [System];
  }

  lemma WindowIsSendable(ms: seq<Message>)
    requires Transcript(ms)
    ensures Sendable(Window(ms), ms)
  {
    if |ms| <= MAX_SENT_MESSAGES + 1 {
      assert Window(ms) == [System] + ms[1..];
    } else {
      var k := LongWindow(ms);
      assert ms[k..] == ms[1..][k - 1..];
      PairedSuffix(ms[1..], k - 1);
    }
  }

  /** Exactly when the turn being worked on still fits, the model sees it; otherwise it sees no message of anyone. */
  lemma CurrentTurnIsSeen(ms: seq<Message>, u: nat)
    requires u < |ms| && ms[0] == System && ms[u].User? && forall i :: u < i < |ms| ==> !ms[i].User?
    ensures if |ms| - u <= MAX_SENT_MESSAGES
            then |ms| - u < |Window(ms)| && Window(ms)[|Window(ms)| - (|ms| - u)..] == ms[u..]
            else Window(ms) == [System]
  {
    assert u > 0;
    if |ms| > MAX_SENT_MESSAGES + 1 {
      var k := LongWindow(ms);
      if |ms| - u <= MAX_SENT_MESSAGES {
        assert k <= u;
        assert ms[k..][u - k..] == ms[u..];
      } else {
        assert k == |ms|;
      }
    }
  }

  // ---- one user message through the tool loop ---------------------------------------------------------------

  /** A tool call of the model; a payment that is dispatched has a positive amount and a known biller. */
  datatype Call = Call(id: string, dispatchesPayment: bool)

  /** What the model answers in a round, or that the request to it failed. */
  datatype Reply = Said(text: string) | Asked(calls: seq<Call>) | Unreachable

  function CallsOf(r: Reply): seq<Call> {
    if r.Asked? then r.calls else []
  }

  predicate AsksTools(r: Reply) {
    CallsOf(r) != []
  }

  function Ids(calls: seq<Call>): seq<string> {
    seq(|calls|, i requires 0 <= i < |calls| => calls[i].id)
  }

  /** The messages a round of tool calls adds. */
  function ToolRound(calls: seq<Call>): seq<Message> {
    [Assistant(Ids(calls))] + seq(|calls|, i requires 0 <= i < |calls| => Tool(calls[i].id))
  }

  function Payments(calls: seq<Call>): nat {
    if calls == [] then 0 else Payments(calls[..|calls| - 1]) + if calls[|calls| - 1].dispatchesPayment then 1 else 0
  }

  /** The model's answers to the at most MAX_TOOL_ROUNDS requests of one user message. */
  type Replies = r: seq<Reply> | |r| == MAX_TOOL_ROUNDS 
    witness [Said(""), Said(""), Said(""), Said(""), Said(""), Said("")]

  /** How many rounds of tool calls run before the model answers, fails, or the guard stops it. */
  function ToolRounds(replies: seq<Reply>): (n: nat)
    ensures n <= |replies|
    ensures n < |replies| ==> !AsksTools(replies[n])
    ensures forall i :: 0 <= i < n ==> AsksTools(replies[i])
  {
    if replies == [] || !AsksTools(replies[0]) then 0 else 1 + ToolRounds(replies[1..])
  }

  function RoundMessages(replies: Replies, n: nat): seq<Message>
    requires n <= MAX_TOOL_ROUNDS
  {
    if n == 0 then [] else RoundMessages(replies, n - 1) + ToolRound(CallsOf(replies[n - 1]))
  }

  function RoundPayments(replies: Replies, n: nat): nat
    requires n <= MAX_TOOL_ROUNDS
  {
    if n == 0 then 0 else RoundPayments(replies, n - 1) + Payments(CallsOf(replies[n - 1]))
  }

  /** The part of a session the loop works on. */
  datatype Session = Session(messages: seq<Message>, turn: nat)

  datatype Ending = Replied | GaveUp | Crashed

  /** The conversation at the start of a message: the system message is added to an empty one. */
  function Begun(s: Session): seq<Message> {
    (if s.messages == [] then [System] else s.messages) + [User]
  }

  function EndingOf(replies: Replies): Ending {
    var n := ToolRounds(replies);
    if n == MAX_TOOL_ROUNDS then GaveUp else if replies[n].Unreachable? then Crashed else Replied
  }

  /** The conversation and the turn after the rounds of one message. */
  function AfterMessage(begun: seq<Message>, start: nat, replies: Replies): Session {
    var n := ToolRounds(replies);
    Session(begun + RoundMessages(replies, n) + (if EndingOf(replies).Replied? then [Assistant([])] else []),
            start + RoundPayments(replies, n))
  }

  function SessionAfter(s: Session, replies: Replies): Session {
    AfterMessage(Begun(s), s.turn, replies)
  }

  datatype Stored = Stored(session: Session, expiresAt: int)

  type Store = map<string, Stored>

  /** SessionStore.load: an expired row counts as absent. */
  function Load(store: Store, id: string, now: int): Session {
    if id !in store || store[id].expiresAt < now then Session([], 0) else store[id].session
  }

  /** One incoming message, when it is loaded and saved, and whether the save goes through. */
  datatype Visit = Visit(now: int, later: int, replies: Replies, saves: bool)

  function StoreAfter(store: Store, id: string, v: Visit): Store {
    if EndingOf(v.replies).Crashed? || !v.saves then store
    else store[id := Stored(SessionAfter(Load(store, id, v.now), v.replies), v.later + TTL_MS)]
  }

  /** The keys minted while a message is handled. */
  function Minted(channel: Channel, id: string, turn: nat, count: nat): seq<Key> {
    seq(count, i requires 0 <= i < count => Key(channel, id, turn + 1 + i))
  }

  lemma MintedJoin(channel: Channel, id: string, turn: nat, a: nat, b: nat)
    ensures Minted(channel, id, turn, a) + Minted(channel, id, turn + a, b) == Minted(channel, id, turn, a + b)
  {
  }

  /** The payments one message dispatches. */
  function Dispatched(replies: Replies): nat {
    RoundPayments(replies, ToolRounds(replies))
  }

  /** The lists sent in the first n requests of a message. */
  function SentLists(begun: seq<Message>, replies: Replies, n: nat): seq<seq<Message>>
    requires n <= MAX_TOOL_ROUNDS
  {
    if n == 0 then [] else SentLists(begun, replies, n - 1) + [Window(begun + RoundMessages(replies, n - 1))]
  }

  function Requests(replies: Replies): nat {
    var n := ToolRounds(replies);
    if n == MAX_TOOL_ROUNDS then n else n + 1
  }

  /** What the first n rounds of a message have done. */
  ghost predicate AfterRounds(channel: Channel, id: string, begun: seq<Message>, start: nat, replies: Replies, n: nat,
                              messages: seq<Message>, turn: nat, minted: seq<Key>)
    requires n <= MAX_TOOL_ROUNDS
  {
    && messages == begun + RoundMessages(replies, n)
    && turn == start + RoundPayments(replies, n)
    && minted == Minted(channel, id, start, RoundPayments(replies, n))
  }

  // ---- every list sent, in any session ------------------------------------------------------------------------

  ghost predicate ValidSession(s: Session) {
    s.messages == [] || Transcript(s.messages)
  }

  ghost predicate ValidStore(store: Store) {
    forall id :: id in store ==> ValidSession(store[id].session)
  }

  lemma RoundIsPaired(calls: seq<Call>)
    ensures Paired(ToolRound(calls))
  {
    assert ToolRound(calls)[1 + |calls|..] == [];
  }

  lemma {:induction false} RoundsArePaired(replies: Replies, n: nat)
    requires n <= MAX_TOOL_ROUNDS
    ensures Paired(RoundMessages(replies, n))
    ensures forall i :: 0 <= i < |RoundMessages(replies, n)| ==> !RoundMessages(replies, n)[i].User?
  {
    if n == 0 {
    } else {
      RoundsArePaired(replies, n - 1);
      RoundIsPaired(CallsOf(replies[n - 1]));
      PairedJoin(RoundMessages(replies, n - 1), ToolRound(CallsOf(replies[n - 1])));
    }
  }

  lemma ExtendTranscript(ms: seq<Message>, more: seq<Message>)
    requires Transcript(ms) && Paired(more)
    ensures Transcript(ms + more)
  {
    PairedJoin(ms[1..], more);
    DropFromConcat(ms, more, 1);
  }

  lemma OneMessageIsPaired(m: Message)
    requires m == User || m == Assistant([])
    ensures Paired([m])
  {
    assert [m][1..] == [];
  }

  lemma BegunIsTranscript(s: Session, replies: Replies, n: nat)
    requires ValidSession(s) && n <= MAX_TOOL_ROUNDS
    ensures Transcript(Begun(s) + RoundMessages(replies, n))
  {
    var head := if s.messages == [] then [System] else s.messages;
    assert Transcript(head) by { assert [System][1..] == []; }
    OneMessageIsPaired(User);
    ExtendTranscript(head, [User]);
    RoundsArePaired(replies, n);
    ExtendTranscript(Begun(s), RoundMessages(replies, n));
  }

  /** Every message keeps every stored conversation properly paired. */
  lemma VisitKeepsStoreValid(store: Store, id: string, v: Visit)
    requires ValidStore(store)
    ensures ValidStore(StoreAfter(store, id, v))
  {
    var s, n := Load(store, id, v.now), ToolRounds(v.replies);
    BegunIsTranscript(s, v.replies, n);
    var messages := Begun(s) + RoundMessages(v.replies, n);
    OneMessageIsPaired(Assistant([]));
    ExtendTranscript(messages, [Assistant([])]);
    assert messages + [] == messages;
  }

  /** The current turn of round r: the user message and the tool rounds before r. */
  function TurnLength(replies: Replies, r: nat): nat
    requires r <= MAX_TOOL_ROUNDS
  {
    1 + |RoundMessages(replies, r)|
  }

  /** The window of any round of any session is a list the model API accepts. */
  lemma SentIsSendable(s: Session, replies: Replies, r: nat)
    requires ValidSession(s) && r < MAX_TOOL_ROUNDS
    ensures var ms := Begun(s) + RoundMessages(replies, r); Sendable(Window(ms), ms)
  {
    BegunIsTranscript(s, replies, r);
    WindowIsSendable(Begun(s) + RoundMessages(replies, r));
  }

  lemma BegunEndsWithUser(s: Session)
    requires ValidSession(s)
    ensures var begun := Begun(s); begun != [] && begun[0] == System && begun[|begun| - 1].User?
  {
  }

  /** It shows the turn being worked on exactly when that turn has at most MAX_SENT_MESSAGES messages so far. */
  lemma SentShowsTheTurn(s: Session, replies: Replies, r: nat)
    requires ValidSession(s) && r < MAX_TOOL_ROUNDS
    ensures var sent := Window(Begun(s) + RoundMessages(replies, r));
      if TurnLength(replies, r) <= MAX_SENT_MESSAGES
      then TurnLength(replies, r) < |sent|
           && sent[|sent| - TurnLength(replies, r)..] == [User] + RoundMessages(replies, r)
      else sent == [System]
  {
    RoundsArePaired(replies, r);
    BegunEndsWithUser(s);
    TurnInWindow(Begun(s), RoundMessages(replies, r));
  }

  ghost predicate ShowsTurn(list: seq<Message>, turn: seq<Message>) {
    if 1 + |turn| <= 14 then 1 + |turn| < |list| && list[|list| - (1 + |turn|)..] == [User] + turn
    else list == [System]
  }

  /** The window of a conversation that goes on after its last user message. */
  lemma TurnInWindow(begun: seq<Message>, more: seq<Message>)
    requires begun != [] && begun[0] == System && begun[|begun| - 1].User?
    requires forall i :: 0 <= i < |more| ==> !more[i].User?
    ensures ShowsTurn(Window(begun + more), more)
  {
    var ms, u := begun + more, |begun| - 1;
    assert ms[u..] == [User] + more;
    CurrentTurnIsSeen(ms, u);
  }

  /** With at most c calls in each round the turn has at most 1 + r * (1 + c) messages. */
  lemma {:induction false} TurnLengthBound(replies: Replies, r: nat, c: nat)
    requires r <= MAX_TOOL_ROUNDS && forall i :: 0 <= i < r ==> |CallsOf(replies[i])| <= c
    ensures TurnLength(replies, r) <= 1 + r * (1 + c)
  {
    if r == 0 {
    } else {
      TurnLengthBound(replies, r - 1, c);
      assert (r - 1) * (1 + c) + (1 + c) == r * (1 + c);
    }
  }

  /**
   * The lists sent are as they should be: one for each request, the k-th a list the model API accepts for the
   * conversation before round k, which ends with the whole current turn exactly while that has at most 14 messages.
   */
  ghost predicate SendsWell(s: Session, replies: Replies, sent: seq<seq<Message>>) {
    && |sent| == Requests(replies)
    && forall k :: 0 <= k < |sent| ==> SentWell(sent[k], Begun(s), RoundMessages(replies, k))
  }

  ghost predicate SentWell(list: seq<Message>, begun: seq<Message>, turn: seq<Message>) {
    && Transcript(list) && |list| <= 15 && Sendable(list, begun + turn) && Recent(list, begun + turn)
    && ShowsTurn(list, turn)
  }

  /** A list leaves out no more than it must: nothing of 15 messages, else all before the first user in the last 14. */
  ghost predicate Recent(list: seq<Message>, ms: seq<Message>) {
    if |ms| <= 15 then list == ms
    else
      exists k :: |ms| - 14 <= k <= |ms| && list == [System] + ms[k..]
        && (k < |ms| ==> ms[k].User?) && forall i :: |ms| - 14 <= i < k ==> !ms[i].User?
  }

  /** A long list that does not start with a system message is cut the same way, and loses its first message. */
  lemma WithoutSystem(ms: seq<Message>) returns (k: nat)
    requires |ms| > MAX_SENT_MESSAGES + 1 && !ms[0].System?
    ensures |ms| - 14 <= k <= |ms| && Window(ms) == ms[k..] && (k < |ms| ==> ms[k].User?)
    ensures forall i :: |ms| - 14 <= i < k ==> !ms[i].User?
  {
    WithoutSystemUnfolds(ms);
    k := FirstUserFrom(ms, |ms| - MAX_SENT_MESSAGES);
  }

  lemma WithoutSystemUnfolds(ms: seq<Message>)
    requires |ms| > MAX_SENT_MESSAGES + 1 && !ms[0].System?
    ensures Window(ms) == FromFirstUser(ms[|ms| - MAX_SENT_MESSAGES..])
  {
    assert ms[..0] == [] && ms[0..] == ms;
  }

  lemma WindowIsRecent(ms: seq<Message>)
    requires Transcript(ms)
    ensures Recent(Window(ms), ms)
  {
    if |ms| > MAX_SENT_MESSAGES + 1 {
      var k := LongWindow(ms);
    }
  }

  /** The k-th list sent is the window of the conversation before round k. */
  lemma {:induction false} SentListAt(begun: seq<Message>, replies: Replies, n: nat, k: nat)
    requires k < n <= MAX_TOOL_ROUNDS
    ensures |SentLists(begun, replies, n)| == n
    ensures SentLists(begun, replies, n)[k] == Window(begun + RoundMessages(replies, k))
  {
    if k < n - 1 {
      SentListAt(begun, replies, n - 1, k);
    } else {
      SentListsCount(begun, replies, n - 1);
    }
  }

  lemma {:induction false} SentListsCount(begun: seq<Message>, replies: Replies, n: nat)
    requires n <= MAX_TOOL_ROUNDS
    ensures |SentLists(begun, replies, n)| == n
  {
    if n == 0 {
    } else {
      SentListsCount(begun, replies, n - 1);
    }
  }

  lemma WindowIsSentWell(begun: seq<Message>, turn: seq<Message>)
    requires begun != [] && begun[0] == System && begun[|begun| - 1].User? && Transcript(begun + turn)
    requires forall i :: 0 <= i < |turn| ==> !turn[i].User?
    ensures SentWell(Window(begun + turn), begun, turn)
  {
    WindowIsSendable(begun + turn);
    WindowIsRecent(begun + turn);
    TurnInWindow(begun, turn);
    AllOfThese(Window(begun + turn), begun, turn);
  }

  lemma AllOfThese(list: seq<Message>, begun: seq<Message>, turn: seq<Message>)
    requires Sendable(list, begun + turn) && Recent(list, begun + turn) && ShowsTurn(list, turn)
    ensures SentWell(list, begun, turn)
  {
  }

  /** Whatever a message sends in any session, it sends well. */
  lemma SentListsAreWell(s: Session, replies: Replies)
    requires ValidSession(s)
    ensures SendsWell(s, replies, SentLists(Begun(s), replies, Requests(replies)))
  {
    var n := Requests(replies);
    SentListsCount(Begun(s), replies, n);
    forall k: nat | k < n
      ensures SentWell(SentLists(Begun(s), replies, n)[k], Begun(s), RoundMessages(replies, k))
    {
      SentListAt(Begun(s), replies, n, k);
      BegunIsTranscript(s, replies, k);
      BegunEndsWithUser(s);
      RoundsArePaired(replies, k);
      WindowIsSentWell(Begun(s), RoundMessages(replies, k));
    }
  }

  /** A message on properly stored sessions leaves them so, and sends well whatever the model answers. */
  ghost predicate GoesWell(before: Store, after: Store, id: string, v: Visit, sent: seq<seq<Message>>) {
    ValidStore(before) ==> ValidStore(after) && SendsWell(Load(before, id, v.now), v.replies, sent)
  }

  lemma VisitGoesWell(before: Store, after: Store, id: string, v: Visit, sent: seq<seq<Message>>)
    requires after == StoreAfter(before, id, v)
    requires sent == SentLists(Begun(Load(before, id, v.now)), v.replies, Requests(v.replies))
    ensures GoesWell(before, after, id, v, sent)
  {
    if ValidStore(before) {
      VisitKeepsStoreValid(before, id, v);
      SentListsAreWell(Load(before, id, v.now), v.replies);
    }
  }

  /** The list sent in request r of a message. */
  function SentAt(s: Session, replies: Replies, r: nat): seq<Message>
    requires r < Requests(replies)
  {
    SentListsCount(Begun(s), replies, Requests(replies));
    SentLists(Begun(s), replies, Requests(replies))[r]
  }

  /** With at most c calls in each round, the current turn is sent as long as 1 + r * (1 + c) messages fit. */
  lemma ShortTurnsAreSeen(s: Session, replies: Replies, r: nat, c: nat)
    requires ValidSession(s) && r < Requests(replies) && forall i :: 0 <= i < r ==> |CallsOf(replies[i])| <= c
    requires 1 + r * (1 + c) <= MAX_SENT_MESSAGES
    ensures var sent := SentAt(s, replies, r);
      exists k :: 0 < k < |sent| && sent[k..] == [User] + RoundMessages(replies, r)
  {
    TurnLengthBound(replies, r, c);
    SentListsAreWell(s, replies);
    var sent := SentAt(s, replies, r);
    assert SentWell(sent, Begun(s), RoundMessages(replies, r));
    assert 0 < |sent| - TurnLength(replies, r) < |sent|;
  }

  /** One call per round always leaves the current turn in view. */
  lemma OneCallPerRoundIsSeen(s: Session, replies: Replies, r: nat)
    requires ValidSession(s) && r < Requests(replies) && forall i :: 0 <= i < r ==> |CallsOf(replies[i])| <= 1
    ensures var sent := SentAt(s, replies, r);
      exists k :: 0 < k < |sent| && sent[k..] == [User] + RoundMessages(replies, r)
  {
    ShortTurnsAreSeen(s, replies, r, 1);
  }

  /** One round of thirteen or more calls is enough: the request after it shows the model the system message alone. */
  lemma ManyCallsHideTheTurn(s: Session, replies: Replies)
    requires ValidSession(s) && |CallsOf(replies[0])| >= 13
    ensures Requests(replies) >= 2 && SentAt(s, replies, 1) == [System]
  {
    assert RoundMessages(replies, 1) == RoundMessages(replies, 0) + ToolRound(CallsOf(replies[0]));
    SentListsAreWell(s, replies);
    assert SentWell(SentAt(s, replies, 1), Begun(s), RoundMessages(replies, 1));
  }

  // ---- the agent ----------------------------------------------------------------------------------------------

  class AgentService {
    var store: Store

    constructor ()
      ensures store == map[]
    {
      store := map[];
    }

    /** The tool calls of one round: a dispatched payment takes the next turn for its key. */
    method Dispatch(channel: Channel, id: string, messages: seq<Message>, turn: nat, calls: seq<Call>)
      returns (messages': seq<Message>, turn': nat, minted: seq<Key>)
      ensures messages' == messages + ToolRound(calls)
      ensures turn' == turn + Payments(calls) && minted == Minted(channel, id, turn, Payments(calls))
    {
      messages', turn', minted := messages + [Assistant(Ids(calls))], turn, [];
      for i := 0 to |calls|
        invariant messages' == messages + [Assistant(Ids(calls))] + seq(i, k requires 0 <= k < i => Tool(calls[k].id))
        invariant turn' == turn + Payments(calls[..i]) && minted == Minted(channel, id, turn, Payments(calls[..i]))
      {
        assert calls[..i + 1][..i] == calls[..i];
        if calls[i].dispatchesPayment {
          turn' := turn' + 1;
          minted := minted + [Key(channel, id, turn')];
        }
        messages' := messages' + [Tool(calls[i].id)];
      }
      assert calls[..|calls|] == calls;
    }

    /** One round: its tool calls are appended and its payments counted, on top of the rounds before. */
    method RunRound(channel: Channel, id: string, begun: seq<Message>, start: nat, replies: Replies, round: nat,
                    messages: seq<Message>, turn: nat, minted: seq<Key>)
      returns (messages': seq<Message>, turn': nat, minted': seq<Key>)
      requires round < MAX_TOOL_ROUNDS && AfterRounds(channel, id, begun, start, replies, round, messages, turn, minted)
      ensures AfterRounds(channel, id, begun, start, replies, round + 1, messages', turn', minted')
    {
      var calls := CallsOf(replies[round]);
      ghost var before := RoundMessages(replies, round);
      var more;
      messages', turn', more := Dispatch(channel, id, messages, turn, calls);
      assert (begun + before) + ToolRound(calls) == begun + (before + ToolRound(calls));
      MintedJoin(channel, id, start, RoundPayments(replies, round), Payments(calls));
      minted' := minted + more;
    }

    /** The loop of tool rounds: every request carries the window of the conversation so far; sent lists them. */
    method RunRounds(channel: Channel, id: string, begun: seq<Message>, start: nat, replies: Replies)
      returns (messages: seq<Message>, turn: nat, sent: seq<seq<Message>>, minted: seq<Key>, ending: Ending)
      ensures Session(messages, turn) == AfterMessage(begun, start, replies) && ending == EndingOf(replies)
      ensures sent == SentLists(begun, replies, Requests(replies))
      ensures minted == Minted(channel, id, start, Dispatched(replies))
    {
      messages, turn, sent, minted := begun, start, [], [];
      var round := 0;
      while round < MAX_TOOL_ROUNDS
        invariant round <= ToolRounds(replies)
        invariant AfterRounds(channel, id, begun, start, replies, round, messages, turn, minted)
        invariant sent == SentLists(begun, replies, round)
      {
        var window := WindowMessages(messages);
        sent := sent + [window];
        if !AsksTools(replies[round]) {
          break;
        }
        messages, turn, minted := RunRound(channel, id, begun, start, replies, round, messages, turn, minted);
        round := round + 1;
      }
      messages, ending := Finish(replies, round, messages);
    }

    /** After the rounds: the reply is appended, unless the model failed or the guard stopped the loop. */
    method Finish(replies: Replies, round: nat, messages: seq<Message>)
      returns (messages': seq<Message>, ending: Ending)
      requires round == ToolRounds(replies)
      ensures ending == EndingOf(replies)
      ensures messages' == messages + (if ending.Replied? then [Assistant([])] else [])
    {
      messages' := messages;
      if round == MAX_TOOL_ROUNDS {
        ending := GaveUp;
      } else if replies[round].Unreachable? {
        ending := Crashed;
      } else {
        messages' := messages + [Assistant([])];
        ending := Replied;
      }
    }

    method Begin(id: string, now: int) returns (begun: seq<Message>, turn: nat)
      ensures begun == Begun(Load(store, id, now)) && turn == Load(store, id, now).turn
    {
      var messages: seq<Message>;
      messages, turn := [], 0;
      if id in store && store[id].expiresAt >= now {
        messages, turn := store[id].session.messages, store[id].session.turn;
      }
      if messages == [] {
        messages := [System];
      }
      begun := messages + [User];
    }

    /** SessionStore.save; a failing write is only logged. */
    method Save(id: string, session: Session, later: int, saves: bool)
      modifies this
      ensures store == if saves then old(store)[id := Stored(session, later + TTL_MS)] else old(store)
    {
      if saves {
        store := store[id := Stored(session, later + TTL_MS)];
      }
    }

    /** handleMessage: load the session, run the rounds, and save what they left unless the model was unreachable. */
    method HandleMessage(channel: Channel, id: string, v: Visit)
      returns (sent: seq<seq<Message>>, minted: seq<Key>, ending: Ending)
      modifies this
      ensures store == StoreAfter(old(store), id, v) && ending == EndingOf(v.replies)
      ensures var s := Load(old(store), id, v.now);
        && sent == SentLists(Begun(s), v.replies, Requests(v.replies))
        && minted == Minted(channel, id, s.turn, Dispatched(v.replies))
      ensures GoesWell(old(store), store, id, v, sent)
    {
      ghost var before := store;
      var begun, start := Begin(id, v.now);
      var messages, turn;
      messages, turn, sent, minted, ending := RunRounds(channel, id, begun, start, v.replies);
      if ending != Crashed {
        Save(id, Session(messages, turn), v.later, v.saves);
      }
      VisitGoesWell(before, store, id, v, sent);
    }
  }
}
