/**
 * Messages of one chat session that overlap. A message is split into loading the session's count, minting keys
 * from its own copy of it, and saving the copy over whatever is stored by then.
 */
module KeyRaces {
  import opened Basics
  import opened Policy
  import opened SessionKeys
  import AgentSession
  import FreshKeys

  datatype Row = Row(turn: nat, expiresAt: int)

  /** A message under way: its own count, and whether it is over. */
  datatype Message = Message(turn: nat, over: bool)

  datatype State = State(row: Option<Row>, messages: seq<Message>)

  datatype Move =
    | Load(now: int)
    | Mint(k: nat)                            // it dispatches a payment
    | Save(k: nat, later: int, saves: bool)   // it ends; saves is false where the save fails or the model did

  /** A run of one session's messages, in whatever order their moves come. */
  datatype Run = Start | Then(past: Run, m: Move)

  /** An expired row counts as absent. */
  predicate Live(s: State, now: int) {
    s.row.Some? && now <= s.row.value.expiresAt
  }

  predicate Open(s: State, k: nat) {
    k < |s.messages| && !s.messages[k].over
  }

  function Advance(s: State, m: Move): State {
    match m
    case Load(now) => s.(messages := s.messages + [Message(if Live(s, now) then s.row.value.turn else 0, false)])
    case Mint(k) => if Open(s, k) then s.(messages := s.messages[k := Message(s.messages[k].turn + 1, false)]) else s
    case Save(k, later, saves) =>
      if !Open(s, k) then s
      else
        State(if saves then Some(Row(s.messages[k].turn, later + AgentSession.TTL_MS)) else s.row,
              s.messages[k := Message(s.messages[k].turn, true)])
  }

  function After(r: Run): State {
    match r case Start => State(None, []) case Then(past, m) => Advance(After(past), m)
  }

  predicate Mints(s: State, m: Move) {
    m.Mint? && Open(s, m.k)
  }

  /** All keys minted, in order. */
  function KeysIn(channel: Channel, id: string, r: Run): seq<Key> {
    match r
    case Start => []
    case Then(past, m) =>
      KeysIn(channel, id, past)
      + if Mints(After(past), m) then [Key(channel, id, After(past).messages[m.k].turn + 1)] else []
  }

  predicate NoneMinted(r: Run) {
    match r case Start => true case Then(past, m) => NoneMinted(past) && !Mints(After(past), m)
  }

  // ---- whose count is current ----------------------------------------------------------------------------------

  /** Nothing was minted after the last save that went through, and that save's message was current. */
  predicate RowIsCurrent(r: Run) {
    match r
    case Start => true
    case Then(past, m) =>
      if Mints(After(past), m) then false
      else if m.Save? && Open(After(past), m.k) && m.saves then IsCurrent(past, m.k)
      else RowIsCurrent(past)
  }

  /** The message loaded a current, unexpired row, and no other message has minted since. */
  predicate IsCurrent(r: Run, k: nat) {
    match r
    case Start => false
    case Then(past, m) =>
      if m.Load? && k == |After(past).messages|
      then NoneMinted(past) || (RowIsCurrent(past) && Live(After(past), m.now))
      else if Mints(After(past), m) then m.k == k && IsCurrent(past, k)
      else IsCurrent(past, k)
  }

  /** Some message mints a key although its count is not current. */
  predicate MintsStale(r: Run) {
    match r
    case Start => false
    case Then(past, m) => MintsStale(past) || (Mints(After(past), m) && !IsCurrent(past, m.k))
  }

  function RowTurn(s: State): nat {
    if s.row.Some? then s.row.value.turn else 0
  }

  /** A count is current exactly if it is the number of keys minted; none is ever larger. */
  ghost predicate Counted(channel: Channel, id: string, r: Run) {
    var s, n := After(r), |KeysIn(channel, id, r)|;
    && RowTurn(s) <= n && (RowIsCurrent(r) <==> RowTurn(s) == n)
    && (forall k: nat :: k < |s.messages| ==> s.messages[k].turn <= n && (IsCurrent(r, k) <==> s.messages[k].turn == n))
    && (NoneMinted(r) <==> n == 0)
  }

  lemma {:induction false} CountsAreKept(channel: Channel, id: string, r: Run)
    ensures Counted(channel, id, r)
  {
    match r
    case Start =>
    case Then(past, m) => CountsAreKept(channel, id, past);
  }

  /**
   * For any overlap of a session's messages: the keys are all different, and then count 1, 2, 3 and on, if and only
   * if every message that mints is current: it loaded an unexpired row saved by a current message after which
   * nothing had been minted, and no other message minted in between.
   */
  lemma {:induction false} KeysAreFreshIffNoneIsStale(channel: Channel, id: string, r: Run)
    ensures var keys := KeysIn(channel, id, r);
      && (FreshKeys.Distinct(keys) <==> !MintsStale(r))
      && (FreshKeys.Distinct(keys) <==> keys == AgentSession.Minted(channel, id, 0, |keys|))
  {
    match r
    case Start =>
    case Then(past, m) =>
      KeysAreFreshIffNoneIsStale(channel, id, past);
      CountsAreKept(channel, id, past);
      var keys := KeysIn(channel, id, past);
      if Mints(After(past), m) {
        assert IsCurrent(past, m.k) <==> After(past).messages[m.k].turn == |keys|;
        OneMoreKey(channel, id, keys, After(past).messages[m.k].turn);
      } else {
        assert keys + [] == keys;
      }
  }

  lemma OneMoreKey(channel: Channel, id: string, keys: seq<Key>, turn: nat)
    requires turn <= |keys|
    requires FreshKeys.Distinct(keys) <==> keys == AgentSession.Minted(channel, id, 0, |keys|)
    ensures var more := keys + [Key(channel, id, turn + 1)];
      && (FreshKeys.Distinct(more) <==> FreshKeys.Distinct(keys) && turn == |keys|)
      && (FreshKeys.Distinct(more) <==> more == AgentSession.Minted(channel, id, 0, |more|))
  {
    var more := keys + [Key(channel, id, turn + 1)];
    assert AgentSession.Minted(channel, id, turn, 1) == [Key(channel, id, turn + 1)];
    FreshKeys.MintedIsDistinct(channel, id, |more|);
    if FreshKeys.Distinct(keys) {
      FreshKeys.MintedAgain(channel, id, keys, turn, 1);
    } else if FreshKeys.Distinct(more) {
      FreshKeys.DistinctPrefix(keys, [Key(channel, id, turn + 1)]);
    }
  }

  // ---- the runs that repeat a key ------------------------------------------------------------------------------

  function Both(now: int): Run {
    Then(Then(Start, Load(now)), Load(now))
  }

  lemma BothLoad(channel: Channel, id: string, now: int)
    ensures After(Both(now)) == State(None, [Message(0, false), Message(0, false)])
    ensures KeysIn(channel, id, Both(now)) == []
  {
    assert After(Start) == State(None, []);
    assert After(Then(Start, Load(now))) == State(None, [Message(0, false)]);
    assert KeysIn(channel, id, Start) == [] && KeysIn(channel, id, Then(Start, Load(now))) == [];
  }

  /**
   * Two messages that overlap: both load before either has saved, both mint the next key, and both save. No save
   * fails, no model is unreachable, nothing expires, and the keys are equal.
   */
  lemma OverlappingMessagesRepeatAKey(channel: Channel, id: string, now: int) returns (r: Run)
    ensures r == Then(Then(Then(Then(Both(now), Mint(0)), Mint(1)), Save(0, now, true)), Save(1, now, true))
    ensures KeysIn(channel, id, r) == [Key(channel, id, 1), Key(channel, id, 1)]
  {
    BothLoad(channel, id, now);
    r := Then(Both(now), Mint(0));
    assert After(r) == State(None, [Message(1, false), Message(0, false)]);
    r := Then(r, Mint(1));
    assert KeysIn(channel, id, r) == [Key(channel, id, 1), Key(channel, id, 1)];
    r := Then(r, Save(0, now, true));
    r := Then(r, Save(1, now, true));
  }

  /** A message that pays nothing can do it too: it saves its older count over that of a payment made meanwhile. */
  lemma QuietMessageRepeatsAKey(channel: Channel, id: string, now: int) returns (r: Run)
    ensures var saved := Then(Then(Then(Both(now), Mint(0)), Save(0, now, true)), Save(1, now, true));
      r == Then(Then(saved, Load(now)), Mint(2))
    ensures KeysIn(channel, id, r) == [Key(channel, id, 1), Key(channel, id, 1)]
  {
    BothLoad(channel, id, now);
    r := Then(Both(now), Mint(0));
    assert After(r) == State(None, [Message(1, false), Message(0, false)]);
    assert KeysIn(channel, id, r) == [Key(channel, id, 1)];
    r := Then(r, Save(0, now, true));
    assert After(r).messages == [Message(1, true), Message(0, false)];
    assert KeysIn(channel, id, r) == [Key(channel, id, 1)];
    r := Then(r, Save(1, now, true));
    assert After(r) == State(Some(Row(0, now + AgentSession.TTL_MS)), [Message(1, true), Message(0, true)]);
    assert KeysIn(channel, id, r) == [Key(channel, id, 1)];
    r := Then(r, Load(now));
    assert After(r).messages[2] == Message(0, false) && KeysIn(channel, id, r) == [Key(channel, id, 1)];
    r := Then(r, Mint(2));
  }

  // ---- messages that do not overlap ------------------------------------------------------------------------------

  function MintMany(r: Run, k: nat, n: nat): Run {
    if n == 0 then r else Then(MintMany(r, k, n - 1), Mint(k))
  }

  /** One message from start to end, as the k-th of its session. */
  function Visited(r: Run, v: AgentSession.Visit, k: nat): Run {
    Then(MintMany(Then(r, Load(v.now)), k, AgentSession.Dispatched(v.replies)), Save(k, v.later, FreshKeys.Persists(v)))
  }

  function RunOf(vs: seq<AgentSession.Visit>): Run {
    if vs == [] then Start else Visited(RunOf(vs[..|vs| - 1]), vs[|vs| - 1], |vs| - 1)
  }

  function WithTurn(s: State, k: nat, turn: nat): State
    requires k < |s.messages|
  {
    s.(messages := s.messages[k := Message(turn, false)])
  }

  /** The run ends in s, and has minted keys and then n more from turn on. */
  ghost predicate Shows(channel: Channel, id: string, r: Run, s: State, keys: seq<Key>, turn: nat, n: nat) {
    After(r) == s && KeysIn(channel, id, r) == keys + AgentSession.Minted(channel, id, turn, n)
  }

  lemma MintStep(channel: Channel, id: string, r: Run, s: State, keys: seq<Key>, k: nat, turn: nat, n: nat)
    requires k < |s.messages| && Shows(channel, id, r, WithTurn(s, k, turn + n), keys, turn, n)
    ensures Shows(channel, id, Then(r, Mint(k)), WithTurn(s, k, turn + n + 1), keys, turn, n + 1)
  {
    assert s.messages[k := Message(turn + n, false)][k := Message(turn + n + 1, false)]
        == s.messages[k := Message(turn + n + 1, false)];
    assert AgentSession.Minted(channel, id, turn, n) + [Key(channel, id, turn + n + 1)]
        == AgentSession.Minted(channel, id, turn, n + 1);
  }

  lemma {:induction false} MintsAdd(channel: Channel, id: string, r: Run, s: State, keys: seq<Key>,
                                    k: nat, turn: nat, n: nat)
    requires k < |s.messages| && Shows(channel, id, r, WithTurn(s, k, turn), keys, turn, 0)
    ensures Shows(channel, id, MintMany(r, k, n), WithTurn(s, k, turn + n), keys, turn, n)
    decreases n
  {
    if n == 0 {
    } else {
      MintsAdd(channel, id, r, s, keys, k, turn, n - 1);
      MintStep(channel, id, MintMany(r, k, n - 1), s, keys, k, turn, n - 1);
    }
  }

  lemma LoadShows(channel: Channel, id: string, r: Run, store: AgentSession.Store, now: int, k: nat)
    requires After(r).row == RowIn(store, id) && k == |After(r).messages|
    ensures var s, turn := Advance(After(r), Load(now)), AgentSession.Load(store, id, now).turn;
      && |s.messages| == k + 1 && s.row == After(r).row
      && Shows(channel, id, Then(r, Load(now)), WithTurn(s, k, turn), KeysIn(channel, id, r), turn, 0)
  {
    var s, turn := Advance(After(r), Load(now)), AgentSession.Load(store, id, now).turn;
    assert s.messages[k := Message(turn, false)] == s.messages;
    assert KeysIn(channel, id, r) + [] == KeysIn(channel, id, r) + AgentSession.Minted(channel, id, turn, 0);
  }

  lemma SaveShows(channel: Channel, id: string, r: Run, s: State, keys: seq<Key>, k: nat, turn: nat, n: nat, m: Move)
    requires k < |s.messages| && Shows(channel, id, r, WithTurn(s, k, turn + n), keys, turn, n) && m.Save? && m.k == k
    ensures Shows(channel, id, Then(r, m), Advance(WithTurn(s, k, turn + n), m), keys, turn, n)
  {
    assert keys + AgentSession.Minted(channel, id, turn, n) + [] == keys + AgentSession.Minted(channel, id, turn, n);
  }

  function RowIn(store: AgentSession.Store, id: string): Option<Row> {
    if id in store then Some(Row(store[id].session.turn, store[id].expiresAt)) else None
  }

  lemma OneVisit(channel: Channel, id: string, r: Run, store: AgentSession.Store, v: AgentSession.Visit, k: nat)
    requires After(r).row == RowIn(store, id) && k == |After(r).messages|
    ensures var r', turn := Visited(r, v, k), AgentSession.Load(store, id, v.now).turn;
      && After(r').row == RowIn(AgentSession.StoreAfter(store, id, v), id) && |After(r').messages| == k + 1
      && KeysIn(channel, id, r')
         == KeysIn(channel, id, r) + AgentSession.Minted(channel, id, turn, AgentSession.Dispatched(v.replies))
  {
    var s, loaded, keys := Advance(After(r), Load(v.now)), Then(r, Load(v.now)), KeysIn(channel, id, r);
    var n, turn := AgentSession.Dispatched(v.replies), AgentSession.Load(store, id, v.now).turn;
    LoadShows(channel, id, r, store, v.now, k);
    MintsAdd(channel, id, loaded, s, keys, k, turn, n);
    SaveShows(channel, id, MintMany(loaded, k, n), s, keys, k, turn, n, Save(k, v.later, FreshKeys.Persists(v)));
    SaveStores(s, store, id, v, k, turn);
  }

  lemma SaveStores(s: State, store: AgentSession.Store, id: string, v: AgentSession.Visit, k: nat, turn: nat)
    requires k < |s.messages| && s.row == RowIn(store, id) && turn == AgentSession.Load(store, id, v.now).turn
    ensures var s' := Advance(WithTurn(s, k, turn + AgentSession.Dispatched(v.replies)),
                              Save(k, v.later, FreshKeys.Persists(v)));
      s'.row == RowIn(AgentSession.StoreAfter(store, id, v), id) && |s'.messages| == |s.messages|
  {
  }

  /** Messages one at a time: their keys and the stored count are those of FreshKeys. */
  lemma {:induction false} VisitsAreRuns(channel: Channel, id: string, store: AgentSession.Store,
                                         vs: seq<AgentSession.Visit>)
    requires id !in store
    ensures var r := RunOf(vs);
      && KeysIn(channel, id, r) == FreshKeys.AllKeys(channel, store, id, vs)
      && After(r).row == RowIn(FreshKeys.StoreIn(store, id, vs), id) && |After(r).messages| == |vs|
  {
    if vs == [] {
    } else {
      var past, v := vs[..|vs| - 1], vs[|vs| - 1];
      VisitsAreRuns(channel, id, store, past);
      OneVisit(channel, id, RunOf(past), FreshKeys.StoreIn(store, id, past), v, |past|);
    }
  }
}
