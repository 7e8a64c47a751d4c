/**
 * Handlers of executed payments of one account and biller that overlap: each reads the executed payments of the
 * pair and writes the habit row from what it read, while further payments are executed in between and others leave
 * the list: a second handler of the same answer marks a paid intent FAILED, a late denial voids it
 * (DeliveryRuns.TwoHandlersChargeTwice, LateDenialIsReachable), and neither emits an executed event.
 */
module HabitRaces {
  import opened Basics
  import CQ = ContextQuery

  /** The payments of executed intents, by intent id, which is the order of creation. */
  type Payments = map<nat, CQ.Paid>

  /**
   * The executed payments, the intents that have ever been executed, what each handler has read, and which handler
   * wrote the row last.
   */
  datatype State = State(executed: Payments, seen: set<nat>, queried: seq<Payments>, writer: Option<nat>)

  datatype Move =
    | Pay(id: nat, p: CQ.Paid)   // at most once for an intent: its transaction row is unique and stays
    | Leave(id: nat)             // an executed intent is marked FAILED or VOIDED
    | Read                       // a handler runs its query
    | Write(k: nat)              // the k-th handler to read upserts the row, unless it has read nothing

  datatype Run = Start | Then(past: Run, m: Move)

  predicate Pays(s: State, m: Move) {
    m.Pay? && m.id !in s.seen
  }

  predicate Leaves(s: State, m: Move) {
    m.Leave? && m.id in s.executed
  }

  predicate Writes(s: State, m: Move) {
    m.Write? && m.k < |s.queried| && s.queried[m.k] != map[]
  }

  function Advance(s: State, m: Move): State {
    match m
    case Pay(id, p) => if Pays(s, m) then s.(executed := s.executed[id := p], seen := s.seen + {id}) else s
    case Leave(id) => s.(executed := s.executed - {id})
    case Read => s.(queried := s.queried + [s.executed])
    case Write(k) => if Writes(s, m) then s.(writer := Some(k)) else s
  }

  function After(r: Run): State {
    match r case Start => State(map[], {}, [], None) case Then(past, m) => Advance(After(past), m)
  }

  /** What a handler has read; before any handler the row stands for no payment. */
  function ReadBy(s: State, reader: Option<nat>): Payments {
    if reader.Some? && reader.value < |s.queried| then s.queried[reader.value] else map[]
  }

  /** The payments the stored row was computed from. */
  function RowFrom(s: State): Payments {
    ReadBy(s, s.writer)
  }

  /** The list of a query: the payments in the order of their creation. */
  function InOrder(ps: Payments, n: nat): seq<CQ.Paid> {
    if n == 0 then [] else InOrder(ps, n - 1) + if n - 1 in ps then [ps[n - 1]] else []
  }

  function HabitFor(ps: Payments, n: nat): Option<CQ.Habit> {
    if InOrder(ps, n) == [] then None else Some(CQ.HabitOf(InOrder(ps, n)))
  }

  predicate IsRead(s: State, m: Move, reader: Option<nat>) {
    m.Read? && reader == Some(|s.queried|)
  }

  /** The payments executed since a handler read, or since the start. */
  function PaidSince(r: Run, reader: Option<nat>): set<nat> {
    match r
    case Start => {}
    case Then(past, m) =>
      if IsRead(After(past), m, reader) then {}
      else PaidSince(past, reader) + if Pays(After(past), m) then {m.id} else {}
  }

  /** The payments that have left the executed ones since then. */
  function LeftSince(r: Run, reader: Option<nat>): set<nat> {
    match r
    case Start => {}
    case Then(past, m) =>
      if IsRead(After(past), m, reader) then {}
      else LeftSince(past, reader) + if Leaves(After(past), m) then {m.id} else {}
  }

  predicate HasRead(s: State, reader: Option<nat>) {
    reader.Some? ==> reader.value < |s.queried|
  }

  /** Nothing the handler has read has left since, and whatever was executed since has left again. */
  predicate ReadIsCurrent(r: Run, reader: Option<nat>) {
    ReadBy(After(r), reader).Keys !! LeftSince(r, reader) && PaidSince(r, reader) <= LeftSince(r, reader)
  }

  /** What is executed is what the handler has read, with what came since and without what left since. */
  ghost predicate Tracked(s: State, from: Payments, paid: set<nat>, left: set<nat>) {
    && s.executed.Keys == (from.Keys + paid) - left
    && from.Keys !! paid && from.Keys <= s.seen && paid <= s.seen && left <= s.seen
    && forall i :: i in s.executed && i in from ==> s.executed[i] == from[i]
  }

  lemma MoveIsTracked(s: State, m: Move, from: Payments, paid: set<nat>, left: set<nat>)
    requires Tracked(s, from, paid, left)
    ensures Tracked(Advance(s, m), from, paid + (if Pays(s, m) then {m.id} else {}),
                    left + if Leaves(s, m) then {m.id} else {})
  {
  }

  lemma {:induction false} ExecutedWasSeen(r: Run)
    ensures After(r).executed.Keys <= After(r).seen && HasRead(After(r), After(r).writer)
  {
    match r
    case Start =>
    case Then(past, _) => ExecutedWasSeen(past);
  }

  lemma {:induction false} ReadsAreTracked(r: Run, reader: Option<nat>)
    requires HasRead(After(r), reader)
    ensures Tracked(After(r), ReadBy(After(r), reader), PaidSince(r, reader), LeftSince(r, reader))
  {
    match r
    case Start =>
    case Then(past, m) =>
      if IsRead(After(past), m, reader) {
        ExecutedWasSeen(past);
      } else {
        ReadsAreTracked(past, reader);
        MoveIsTracked(After(past), m, ReadBy(After(past), reader), PaidSince(past, reader), LeftSince(past, reader));
      }
  }

  lemma TrackedIsCurrentIff(s: State, from: Payments, paid: set<nat>, left: set<nat>)
    requires Tracked(s, from, paid, left)
    ensures from == s.executed <==> from.Keys !! left && paid <= left
  {
    if from.Keys !! left && paid <= left {
      assert s.executed.Keys == from.Keys;
    }
  }

  /**
   * The row is computed from exactly the executed payments if and only if no payment that the handler that wrote
   * last had read has left since, and every payment executed since that read has left again.
   */
  lemma RowIsCurrentIff(r: Run, n: nat)
    ensures var s := After(r);
      && (ReadIsCurrent(r, s.writer) <==> RowFrom(s) == s.executed)
      && (ReadIsCurrent(r, s.writer) ==> HabitFor(RowFrom(s), n) == HabitFor(s.executed, n))
  {
    var s := After(r);
    ExecutedWasSeen(r);
    ReadsAreTracked(r, s.writer);
    TrackedIsCurrentIff(s, RowFrom(s), PaidSince(r, s.writer), LeftSince(r, s.writer));
  }

  /** Two handlers whose writes come in the other order than their reads leave a row that misses a payment. */
  lemma OvertakenHandlerLeavesAStaleRow(p: CQ.Paid, q: CQ.Paid) returns (r: Run)
    ensures r == Then(Then(Then(Then(Then(Then(Start, Pay(0, p)), Read), Pay(1, q)), Read), Write(1)), Write(0))
    ensures After(r).executed == map[0 := p, 1 := q] && RowFrom(After(r)) == map[0 := p]
  {
    r := Then(Then(Start, Pay(0, p)), Read);
    assert After(Start) == State(map[], {}, [], None);
    assert After(r) == State(map[0 := p], {0}, [map[0 := p]], None);
    r := Then(Then(r, Pay(1, q)), Read);
    assert After(r) == State(map[0 := p, 1 := q], {0, 1}, [map[0 := p], map[0 := p, 1 := q]], None);
    r := Then(r, Write(1));
    assert 0 in map[0 := p] && 0 in map[0 := p, 1 := q];
    assert After(r).writer == Some(1);
    r := Then(r, Write(0));
  }

  /** A payment that is marked failed or voided after its handler has run stays in the row, with no handler late. */
  lemma DepartedPaymentStaysInTheRow(p: CQ.Paid) returns (r: Run)
    ensures r == Then(Then(Then(Then(Start, Pay(0, p)), Read), Write(0)), Leave(0))
    ensures After(r).executed == map[] && RowFrom(After(r)) == map[0 := p]
    ensures PaidSince(r, After(r).writer) == {} && !ReadIsCurrent(r, After(r).writer)
    ensures HabitFor(After(r).executed, 1) == None && HabitFor(RowFrom(After(r)), 1) == Some(CQ.HabitOf([p]))
  {
    var paid := Then(Start, Pay(0, p));
    assert After(Start) == State(map[], {}, [], None);
    assert After(paid) == State(map[0 := p], {0}, [], None);
    var read := Then(paid, Read);
    assert After(read) == State(map[0 := p], {0}, [map[0 := p]], None);
    var written := Then(read, Write(0));
    assert 0 in map[0 := p];
    assert After(written) == State(map[0 := p], {0}, [map[0 := p]], Some(0));
    r := Then(written, Leave(0));
    assert After(r) == State(map[], {0}, [map[0 := p]], Some(0));
    DepartedSets(p, paid, read, written, r);
    assert InOrder(map[0 := p], 1) == [p] && InOrder(map[], 1) == [];
  }

  lemma DepartedSets(p: CQ.Paid, paid: Run, read: Run, written: Run, r: Run)
    requires paid == Then(Start, Pay(0, p)) && read == Then(paid, Read) && written == Then(read, Write(0))
    requires r == Then(written, Leave(0)) && After(paid).queried == [] && After(read).executed == map[0 := p]
    requires After(read).queried == [map[0 := p]] && After(written) == After(read).(writer := Some(0))
    ensures PaidSince(r, Some(0)) == {} && LeftSince(r, Some(0)) == {0}
  {
    assert IsRead(After(paid), Read, Some(0));
    assert PaidSince(read, Some(0)) == {} && LeftSince(read, Some(0)) == {};
    assert PaidSince(written, Some(0)) == {} && LeftSince(written, Some(0)) == {};
  }
}
