/**
 * PIN checks of one user that overlap. A check takes its lock object at the guard and counts and stores it only
 * when the PIN is compared; a user without an entry gets a new object for every check.
 */
module PinRaces {
  import opened Basics
  import opened PinLock

  /** A lock object: its fields, and how many checks under way hold it. */
  datatype Object = Object(attempts: int, lockedUntil: Option<int>, held: int)

  /** The object in the map, and the objects that only checks under way hold. */
  datatype Desk = Desk(stored: Option<Object>, loose: seq<Object>)

  datatype Move =
    | Guard(now: int)
    | Finish(at: Option<nat>, later: int, matches: bool)   // a check that holds the stored (None) or a loose object

  const NEW := Object(0, None, 1)

  predicate Shut(o: Object, now: int) {
    o.lockedUntil.Some? && now < o.lockedUntil.value
  }

  /** A check passes the guard, so its PIN is compared. */
  predicate Compares(d: Desk, m: Move) {
    m.Guard? && (d.stored.None? || !Shut(d.stored.value, m.now))
  }

  function Counted(o: Object, later: int): Object {
    var lock := Missed(LockValue(o.attempts, o.lockedUntil), later);
    Object(lock.attempts, lock.lockedUntil, o.held - 1)
  }

  function Released(o: Object): Object {
    o.(held := o.held - 1)
  }

  /** The loose objects once the i-th is taken out and others are put in its place. */
  function Swapped(loose: seq<Object>, i: nat, put: seq<Object>): seq<Object>
    requires i < |loose|
  {
    loose[..i] + put + loose[i + 1..]
  }

  function Advance(d: Desk, m: Move): Desk {
    match m
    case Guard(_) =>
      if !Compares(d, m) then d
      else if d.stored.None? then d.(loose := d.loose + [NEW])
      else d.(stored := Some(d.stored.value.(held := d.stored.value.held + 1)))
    case Finish(None, later, matches) =>
      if d.stored.None? || d.stored.value.held <= 0 then d
      else if matches then Desk(None, d.loose + [Released(d.stored.value)])
      else d.(stored := Some(Counted(d.stored.value, later)))
    case Finish(Some(i), later, matches) =>
      if i >= |d.loose| || d.loose[i].held <= 0 then d
      else
        var back := if d.stored.Some? then [d.stored.value] else [];
        if matches then Desk(None, Swapped(d.loose, i, [Released(d.loose[i])] + back))
        else Desk(Some(Counted(d.loose[i], later)), Swapped(d.loose, i, back))
  }

  function After(ms: seq<Move>): Desk {
    if ms == [] then Desk(None, []) else Advance(After(ms[..|ms| - 1]), ms[|ms| - 1])
  }

  function HeldOf(): Object -> int {
    (o: Object) => o.held
  }

  /** Checks under way. */
  function Open(d: Desk): int {
    Sum(d.loose, HeldOf()) + if d.stored.Some? then d.stored.value.held else 0
  }

  predicate AtMostOpen(ms: seq<Move>, k: int) {
    Open(After(ms)) <= k && (ms == [] || AtMostOpen(ms[..|ms| - 1], k))
  }

  function TimeOf(m: Move): int {
    match m case Guard(now) => now case Finish(_, later, _) => later
  }

  ghost predicate InOrder(ms: seq<Move>) {
    forall i, j :: 0 <= i < j < |ms| ==> TimeOf(ms[i]) <= TimeOf(ms[j])
  }

  ghost predicate AllWrong(ms: seq<Move>) {
    forall i :: 0 <= i < |ms| && ms[i].Finish? ==> !ms[i].matches
  }

  /** The times at which a guess was really compared with the PIN. */
  function ComparedAt(ms: seq<Move>): seq<int> {
    if ms == [] then []
    else
      var past, m := ms[..|ms| - 1], ms[|ms| - 1];
      ComparedAt(past) + if Compares(After(past), m) then [m.now] else []
  }

  // ---- what a lock object still lets through --------------------------------------------------------------

  predicate Alive(o: Object) {
    o.attempts < MAX_PIN_ATTEMPTS
  }

  /** A loose object can come back only through a check that holds it. */
  function LiveOf(): Object -> int {
    (o: Object) => if Alive(o) && o.held > 0 then 1 else 0
  }

  function LeftOf(): Object -> int {
    (o: Object) => if Alive(o) && o.held > 0 then 2 - o.attempts - o.held else 0
  }

  function Live(d: Desk): int {
    Sum(d.loose, LiveOf()) + if d.stored.Some? && Alive(d.stored.value) then 1 else 0
  }

  function Left(d: Desk): int {
    Sum(d.loose, LeftOf())
    + if d.stored.Some? && Alive(d.stored.value) then 2 - d.stored.value.attempts - d.stored.value.held else 0
  }

  /** Twice the comparisons still possible before every object is locked, with at most k checks under way. */
  function Room(d: Desk, k: int): int {
    RoomOf(Live(d), Left(d), k)
  }

  function RoomOf(live: int, left: int, k: int): int {
    2 * left + live * (2 * k - live + 1)
  }

  ghost predicate WellFormed(d: Desk) {
    && (forall i :: 0 <= i < |d.loose| ==> Fine(d.loose[i]))
    && (d.stored.Some? ==> Fine(d.stored.value))
  }

  predicate Fine(o: Object) {
    o.held >= 0 && o.attempts >= 0 && (Alive(o) <==> o.lockedUntil.None?)
  }

  /** One live object less costs the room at least what its last checks were worth. */
  lemma RoomDrops(live: int, left: int, k: int, gain: int)
    requires gain <= k - live + 1
    ensures RoomOf(live - 1, left + gain, k) <= RoomOf(live, left, k)
  {
    assert live * (2 * k - live + 1) - (live - 1) * (2 * k - (live - 1) + 1) == 2 * (k - live + 1);
  }

  /** Every live loose object is held, so there are no more of them than loose checks. */
  lemma {:induction false} LiveAreHeld(loose: seq<Object>)
    requires forall i :: 0 <= i < |loose| ==> Fine(loose[i])
    ensures 0 <= Sum(loose, LiveOf()) <= Sum(loose, HeldOf()) && Sum(loose, LiveOf()) <= |loose|
    ensures -Sum(loose, HeldOf()) <= Sum(loose, LeftOf()) <= Sum(loose, LiveOf())
    ensures Sum(loose, LiveOf()) == 0 ==> Sum(loose, LeftOf()) == 0
  {
    if loose == [] {
    } else {
      LiveAreHeld(loose[..|loose| - 1]);
    }
  }

  lemma NonNegativeProduct(a: int, b: int)
    requires a >= 0 && b >= 0
    ensures a * b >= 0
  {
  }

  lemma RoomIsEnough(live: int, left: int, open: int, k: int)
    requires 0 <= live <= k && open <= k && -open <= left && (live == 0 ==> left == 0)
    ensures RoomOf(live, left, k) >= 0
  {
    if live > 0 {
      var rest := 2 * k - live;
      assert live * (rest + 1) == live * rest + live;
      assert (live - 1) * rest == live * rest - rest;
      NonNegativeProduct(live - 1, rest);
    }
  }

  lemma RoomIsNatural(d: Desk, k: int)
    requires Bounded(d, k)
    ensures Room(d, k) >= 0
  {
    LiveAreHeld(d.loose);
    RoomIsEnough(Live(d), Left(d), Open(d), k);
  }

  /** At most k objects, at most k checks under way. */
  ghost predicate Bounded(d: Desk, k: int) {
    WellFormed(d) && Open(d) <= k && |d.loose| + (if d.stored.Some? then 1 else 0) <= k
  }

  lemma SwapSum(loose: seq<Object>, i: nat, put: seq<Object>, f: Object -> int)
    requires i < |loose|
    ensures Sum(Swapped(loose, i, put), f) == Sum(loose, f) - f(loose[i]) + Sum(put, f)
  {
    assert loose == loose[..i] + [loose[i]] + loose[i + 1..];
    SumConcat(loose[..i], [loose[i]], f);
    SumConcat(loose[..i] + [loose[i]], loose[i + 1..], f);
    SumConcat(loose[..i], put, f);
    SumConcat(loose[..i] + put, loose[i + 1..], f);
    One(loose[i], f);
  }

  lemma One(o: Object, f: Object -> int)
    ensures Sum([o], f) == f(o)
  {
    assert [o][..0] == [];
  }

  lemma GuardRoom(d: Desk, k: int, now: int)
    requires d.stored.Some? && Compares(d, Guard(now))
    ensures Room(Advance(d, Guard(now)), k) == Room(d, k) - if Alive(d.stored.value) then 2 else 0
  {
  }

  lemma FinishStoredRoom(d: Desk, k: int, later: int)
    requires Bounded(d, k) && d.stored.Some? && d.stored.value.held > 0
    ensures Room(Advance(d, Finish(None, later, false)), k) <= Room(d, k)
  {
    LiveAreHeld(d.loose);
    var o := d.stored.value;
    if o.attempts == MAX_PIN_ATTEMPTS - 1 {
      RoomDrops(Live(d), Left(d), k, o.held);
    }
  }

  /** The stored object c makes way for the loose object o: either may drop out of the live ones. */
  lemma SwapRoom(k: int, live: int, left: int, held: int, o: Object, c: Object)
    requires Fine(o) && Fine(c) && o.held > 0 && 0 <= live <= held && live + 2 <= k && held + o.held + c.held <= k
    ensures var before := RoomOf(live + LiveOf()(o) + (if Alive(c) then 1 else 0),
                                 left + LeftOf()(o) + (if Alive(c) then 2 - c.attempts - c.held else 0), k);
      var o' := Counted(o, 0);
      RoomOf(live + LiveOf()(c) + (if Alive(o') then 1 else 0),
             left + LeftOf()(c) + (if Alive(o') then 2 - o'.attempts - o'.held else 0), k) <= before
  {
    var live0, left0 := live + LiveOf()(o) + (if Alive(c) then 1 else 0),
                        left + LeftOf()(o) + (if Alive(c) then 2 - c.attempts - c.held else 0);
    var dies, leaves := o.attempts == MAX_PIN_ATTEMPTS - 1, Alive(c) && c.held == 0;
    if leaves {
      RoomDrops(live0, left0, k, c.attempts - 2);
      if dies { RoomDrops(live0 - 1, left0 + c.attempts - 2, k, o.held); }
    } else if dies {
      RoomDrops(live0, left0, k, o.held);
    }
  }

  /** The loose objects without the i-th: what they count for. */
  lemma RestOf(d: Desk, k: int, i: nat) returns (live: int, left: int, held: int)
    requires Bounded(d, k) && d.stored.Some? && i < |d.loose|
    ensures live == Sum(d.loose, LiveOf()) - LiveOf()(d.loose[i])
    ensures left == Sum(d.loose, LeftOf()) - LeftOf()(d.loose[i])
    ensures held == Sum(d.loose, HeldOf()) - d.loose[i].held
    ensures 0 <= live <= held && live + 2 <= k
  {
    live := Sum(d.loose, LiveOf()) - LiveOf()(d.loose[i]);
    left := Sum(d.loose, LeftOf()) - LeftOf()(d.loose[i]);
    held := Sum(d.loose, HeldOf()) - d.loose[i].held;
    SwapSum(d.loose, i, [], LiveOf());
    SwapSum(d.loose, i, [], HeldOf());
    LiveAreHeld(Swapped(d.loose, i, []));
  }

  lemma FinishLooseCounts(d: Desk, i: nat, later: int)
    requires d.stored.Some? && i < |d.loose| && d.loose[i].held > 0
    ensures var d', o', c := Advance(d, Finish(Some(i), later, false)), Counted(d.loose[i], later), d.stored.value;
      && Live(d') == Sum(d.loose, LiveOf()) - LiveOf()(d.loose[i]) + LiveOf()(c) + (if Alive(o') then 1 else 0)
      && Left(d') == Sum(d.loose, LeftOf()) - LeftOf()(d.loose[i]) + LeftOf()(c)
                     + (if Alive(o') then 2 - o'.attempts - o'.held else 0)
  {
    var c := d.stored.value;
    SwapSum(d.loose, i, [c], LiveOf());
    SwapSum(d.loose, i, [c], LeftOf());
    One(c, LiveOf());
    One(c, LeftOf());
  }

  lemma FinishLooseRoom(d: Desk, k: int, i: nat, later: int)
    requires Bounded(d, k) && d.stored.Some? && i < |d.loose| && d.loose[i].held > 0
    ensures Room(Advance(d, Finish(Some(i), later, false)), k) <= Room(d, k)
  {
    var live, left, held := RestOf(d, k, i);
    SwapRoom(k, live, left, held, d.loose[i], d.stored.value);
    FinishLooseCounts(d, i, later);
  }

  lemma {:induction false} AllNew(loose: seq<Object>)
    requires forall i :: 0 <= i < |loose| ==> loose[i] == NEW
    ensures Sum(loose, LiveOf()) == Sum(loose, LeftOf()) == Sum(loose, HeldOf()) == |loose|
  {
    if loose == [] {
    } else {
      AllNew(loose[..|loose| - 1]);
    }
  }

  lemma FirstFinishCounts(d: Desk, i: nat, later: int)
    requires d.stored.None? && i < |d.loose| && forall j :: 0 <= j < |d.loose| ==> d.loose[j] == NEW
    ensures var d' := Advance(d, Finish(Some(i), later, false)); Live(d') == Left(d') == |d.loose|
  {
    AllNew(Swapped(d.loose, i, []));
  }

  lemma FirstRoom(m: int, k: int)
    requires m <= k
    ensures 2 * m + RoomOf(m, m, k) <= k * (k + 5)
  {
    assert k * (k + 5) - m * (2 * k - m + 5) == (k - m) * (k - m) + 5 * (k - m);
  }

  /** m checks of a user without an entry have m objects; the first to finish stores its own. */
  lemma FirstFinishRoom(d: Desk, k: int, i: nat, later: int)
    requires Bounded(d, k) && d.stored.None? && i < |d.loose|
    requires forall j :: 0 <= j < |d.loose| ==> d.loose[j] == NEW
    ensures 2 * |d.loose| + Room(Advance(d, Finish(Some(i), later, false)), k) <= k * (k + 5)
  {
    FirstFinishCounts(d, i, later);
    FirstRoom(|d.loose|, k);
  }

  /** Once the stored object is locked there is room left for at most the others. */
  lemma ShutRoom(d: Desk, k: int)
    requires Bounded(d, k) && d.stored.Some? && !Alive(d.stored.value)
    ensures Room(d, k) <= k * (k + 3)
  {
    LiveAreHeld(d.loose);
    ShutRoomOf(Live(d), Left(d), k);
  }

  lemma ShutRoomOf(live: int, left: int, k: int)
    requires left <= live <= k
    ensures RoomOf(live, left, k) <= k * (k + 3)
  {
    assert k * (k + 3) - live * (2 * k - live + 3) == (k - live) * (k - live) + 3 * (k - live);
  }

  // ---- the history of a run -----------------------------------------------------------------------------------

  /**
   * The comparisons made on an object not yet locked, and those made once a lock had expired; since counts the
   * latter after the last finished check, shut is the first time a lock was set and before the early ones by then.
   */
  datatype History = History(
    desk: Desk, early: seq<int>, late: seq<int>, since: int, finished: int, shut: Option<int>, before: int)

  predicate Finishes(d: Desk, m: Move) {
    && m.Finish?
    && (m.at.None? ==> d.stored.Some? && d.stored.value.held > 0)
    && (m.at.Some? ==> m.at.value < |d.loose| && d.loose[m.at.value].held > 0)
  }

  predicate IsShut(d: Desk) {
    d.stored.Some? && !Alive(d.stored.value)
  }

  function Note(h: History, m: Move): History {
    var d := Advance(h.desk, m);
    if Compares(h.desk, m) then
      if IsShut(h.desk) then h.(desk := d, late := h.late + [m.now], since := h.since + 1)
      else h.(desk := d, early := h.early + [m.now])
    else if Finishes(h.desk, m) then
      var first := h.shut.None? && IsShut(d);
      h.(desk := d, since := 0, finished := m.later,
         shut := if first then Some(m.later) else h.shut, before := if first then |h.early| else h.before)
    else h
  }

  function Noted(ms: seq<Move>): History {
    if ms == [] then History(Desk(None, []), [], [], 0, 0, None, 0) else Note(Noted(ms[..|ms| - 1]), ms[|ms| - 1])
  }

  /** Sorted, and every k-th one at least a lock period after. */
  ghost predicate SpacedBy(times: seq<int>, k: int) {
    && Sorted(times)
    && forall i, j :: 0 <= i < j < |times| && j == i + k ==> times[i] + LOCK_MS <= times[j]
  }

  /** The objects, and what is left of their room: all is the room of a user without an entry, shut once locked. */
  ghost predicate RoomyWith(h: History, k: int, room: int, all: int, shut: int) {
    && Bounded(h.desk, k)
    && (h.desk.stored.None? ==>
          |h.early| == |h.desk.loose| && h.shut.None? && forall i :: 0 <= i < |h.desk.loose| ==> h.desk.loose[i] == NEW)
    && (h.desk.stored.Some? ==> 2 * |h.early| + room <= all)
    && (h.shut.Some? ==> 0 <= h.before <= |h.early| && 2 * (|h.early| - h.before) + room <= shut)
    && (h.shut.None? ==> !IsShut(h.desk))
  }

  ghost predicate Roomy(h: History, k: int) {
    RoomyWith(h, k, Room(h.desk, k), k * (k + 5), k * (k + 3))
  }

  /** The times, all of them up to now. */
  ghost predicate Timely(h: History, k: int, now: int) {
    && SpacedBy(h.late, k)
    && 0 <= h.since <= |h.late| && (h.since > 0 ==> h.desk.stored.Some? && h.since <= h.desk.stored.value.held)
    && (forall i :: 0 <= i < |h.late| ==> h.late[i] <= now)
    && (forall i :: 0 <= i < |h.late| - h.since ==> h.late[i] <= h.finished)
    && (forall i :: 0 <= i < |h.early| ==> h.early[i] <= now)
    && (h.shut.None? ==> h.late == [])
    && (h.shut.Some? ==>
          && h.shut.value <= h.finished <= now
          && (forall i :: 0 <= i < h.before && i < |h.early| ==> h.early[i] <= h.shut.value)
          && (forall i :: 0 <= i < |h.late| ==> h.shut.value + LOCK_MS <= h.late[i]))
    && (IsShut(h.desk) ==>
          h.desk.stored.value.lockedUntil.Some? && h.finished + LOCK_MS <= h.desk.stored.value.lockedUntil.value)
  }

  lemma GuardKeepsRoomy(h: History, k: int, now: int, room: int, all: int, shut: int)
    requires RoomyWith(h, k, room, all, shut) && Open(Advance(h.desk, Guard(now))) <= k
    requires Compares(h.desk, Guard(now))
    ensures RoomyWith(Note(h, Guard(now)), k, if IsShut(h.desk) then room else room - 2, all, shut)
  {
    if h.desk.stored.None? { AllNew(h.desk.loose + [NEW]); }
  }

  lemma GuardIsRoomy(h: History, k: int, now: int)
    requires Roomy(h, k) && Open(Advance(h.desk, Guard(now))) <= k
    ensures Roomy(Note(h, Guard(now)), k)
  {
    if Compares(h.desk, Guard(now)) {
      GuardKeepsRoomy(h, k, now, Room(h.desk, k), k * (k + 5), k * (k + 3));
      if h.desk.stored.Some? { GuardRoom(h.desk, k, now); }
    }
  }

  lemma FinishIsRoomy(h: History, k: int, at: Option<nat>, later: int)
    requires Roomy(h, k) && Finishes(h.desk, Finish(at, later, false))
    ensures Roomy(Note(h, Finish(at, later, false)), k)
  {
    var d := Advance(h.desk, Finish(at, later, false));
    FinishIsBounded(h.desk, k, at, later);
    if h.desk.stored.None? {
      FirstFinishRoom(h.desk, k, at.value, later);
    } else if at.Some? {
      FinishLooseRoom(h.desk, k, at.value, later);
    } else {
      FinishStoredRoom(h.desk, k, later);
    }
    if IsShut(d) { ShutRoom(d, k); }
  }

  lemma FinishIsBounded(d: Desk, k: int, at: Option<nat>, later: int)
    requires Bounded(d, k) && Finishes(d, Finish(at, later, false))
    ensures Bounded(Advance(d, Finish(at, later, false)), k)
  {
    if at.Some? {
      var back := if d.stored.Some? then [d.stored.value] else [];
      SwapSum(d.loose, at.value, back, HeldOf());
      if d.stored.Some? { One(d.stored.value, HeldOf()); }
    }
  }

  lemma LateGuardIsTimely(h: History, k: int, now: int, m: Move)
    requires Timely(h, k, now) && now <= TimeOf(m) && k >= 1 && WellFormed(h.desk)
    requires m.Guard? && Compares(h.desk, m) && IsShut(h.desk) && h.shut.Some?
    requires h.desk.stored.value.held + 1 <= k
    ensures Timely(Note(h, m), k, TimeOf(m))
  {
    var late := h.late + [m.now];
    assert h.finished + LOCK_MS <= m.now;
    forall i, j | 0 <= i < j < |late| && j == i + k ensures late[i] + LOCK_MS <= late[j] {
      if j == |h.late| { assert i < |h.late| - h.since; }
    }
  }

  lemma FinishIsTimely(h: History, k: int, now: int, m: Move)
    requires Timely(h, k, now) && now <= TimeOf(m) && WellFormed(h.desk) && (h.shut.None? ==> !IsShut(h.desk))
    requires Finishes(h.desk, m) && !m.matches && (h.shut.Some? ==> 0 <= h.before <= |h.early|)
    ensures Timely(Note(h, m), k, TimeOf(m))
  {
  }

  lemma NoteIsTimely(h: History, k: int, now: int, m: Move)
    requires Roomy(h, k) && Timely(h, k, now) && now <= TimeOf(m) && k >= 1
    requires Open(Advance(h.desk, m)) <= k && (m.Finish? ==> !m.matches)
    ensures Timely(Note(h, m), k, TimeOf(m))
  {
    LiveAreHeld(h.desk.loose);
    if Finishes(h.desk, m) {
      FinishIsTimely(h, k, now, m);
    } else if Compares(h.desk, m) && IsShut(h.desk) {
      LateGuardIsTimely(h, k, now, m);
    }
  }

  lemma NoteKeeps(h: History, m: Move, k: int, now: int)
    requires Roomy(h, k) && Timely(h, k, now) && now <= TimeOf(m) && k >= 1
    requires Open(Advance(h.desk, m)) <= k && (m.Finish? ==> !m.matches)
    ensures Roomy(Note(h, m), k) && Timely(Note(h, m), k, TimeOf(m)) && Note(h, m).desk == Advance(h.desk, m)
  {
    NoteIsTimely(h, k, now, m);
    if m.Guard? {
      GuardIsRoomy(h, k, m.now);
    } else if Finishes(h.desk, m) {
      FinishIsRoomy(h, k, m.at, m.later);
    }
  }

  lemma PastIsFit(ms: seq<Move>)
    requires AllWrong(ms) && InOrder(ms) && ms != []
    ensures AllWrong(ms[..|ms| - 1]) && InOrder(ms[..|ms| - 1])
    ensures |ms| > 1 ==> TimeOf(ms[..|ms| - 1][|ms| - 2]) <= TimeOf(ms[|ms| - 1])
    ensures ms[|ms| - 1].Finish? ==> !ms[|ms| - 1].matches
  {
  }

  lemma {:induction false} RunIsNoted(ms: seq<Move>, k: int, now: int)
    requires AllWrong(ms) && InOrder(ms) && AtMostOpen(ms, k) && k >= 1
    requires ms != [] ==> now == TimeOf(ms[|ms| - 1])
    ensures Noted(ms).desk == After(ms) && Roomy(Noted(ms), k) && Timely(Noted(ms), k, now)
  {
    if ms == [] {
    } else {
      var past, m := ms[..|ms| - 1], ms[|ms| - 1];
      PastIsFit(ms);
      var before := if past == [] then now else TimeOf(past[|past| - 1]);
      RunIsNoted(past, k, before);
      NoteKeeps(Noted(past), m, k, before);
    }
  }

  // ---- comparisons in a window -----------------------------------------------------------------------------------

  lemma CountSnoc(times: seq<int>, t: int, start: int, width: int)
    ensures CountIn(times + [t], start, width)
         == CountIn(times, start, width) + if start <= t <= start + width then 1 else 0
  {
    assert (times + [t])[..|times|] == times;
  }

  /** Each comparison is noted as an early or a late one. */
  lemma NoteLists(h: History, m: Move)
    ensures var h' := Note(h, m);
      && h'.desk == Advance(h.desk, m)
      && (!Compares(h.desk, m) ==> h'.early == h.early && h'.late == h.late)
      && (Compares(h.desk, m) ==>
            || (h'.early == h.early + [m.now] && h'.late == h.late)
            || (h'.early == h.early && h'.late == h.late + [m.now]))
  {
  }

  lemma NoteSplits(early: seq<int>, late: seq<int>, times: seq<int>, t: int, start: int, width: int)
    requires CountIn(times, start, width) == CountIn(early, start, width) + CountIn(late, start, width)
    ensures CountIn(times + [t], start, width) == CountIn(early + [t], start, width) + CountIn(late, start, width)
    ensures CountIn(times + [t], start, width) == CountIn(early, start, width) + CountIn(late + [t], start, width)
  {
    CountSnoc(times, t, start, width);
    CountSnoc(early, t, start, width);
    CountSnoc(late, t, start, width);
  }

  lemma {:induction false} CountIsSplit(ms: seq<Move>, start: int, width: int)
    ensures var h := Noted(ms);
      && h.desk == After(ms)
      && CountIn(ComparedAt(ms), start, width) == CountIn(h.early, start, width) + CountIn(h.late, start, width)
  {
    if ms == [] {
    } else {
      var past, m := ms[..|ms| - 1], ms[|ms| - 1];
      var h, times := Noted(past), ComparedAt(past);
      CountIsSplit(past, start, width);
      NoteLists(h, m);
      if Compares(h.desk, m) {
        NoteSplits(h.early, h.late, times, m.now, start, width);
      } else {
        assert times + [] == times;
      }
    }
  }

  lemma {:induction false} CountFrom(times: seq<int>, n: nat, start: int, width: int)
    requires n <= |times| && forall i :: 0 <= i < n ==> times[i] < start
    ensures CountIn(times, start, width) <= |times| - n
  {
    if times == [] {
    } else if n == |times| {
      CountFrom(times[..|times| - 1], n - 1, start, width);
    } else {
      CountFrom(times[..|times| - 1], n, start, width);
    }
  }

  /** How many full batches of k are in n. */
  function Batches(n: nat, k: int): (b: nat)
    requires k >= 1
    ensures n + 1 <= k * (1 + b)
  {
    if n < k then 0
    else
      var b := 1 + Batches(n - k, k);
      assert k * (1 + b) == k * b + k;
      b
  }

  lemma {:induction false} FarBy(times: seq<int>, k: int, i: nat, j: nat)
    requires SpacedBy(times, k) && k >= 1 && i <= j < |times|
    ensures times[j] >= times[i] + Batches(j - i, k) * LOCK_MS
    decreases j - i
  {
    if j - i < k {
      assert i == j || times[i] <= times[j];
    } else {
      FarBy(times, k, i, j - k);
      assert times[j - k] + LOCK_MS <= times[j];
    }
  }

  lemma FewInWidth(batches: nat, k: int, width: nat)
    requires k >= 1 && batches * LOCK_MS <= width
    ensures k * (1 + batches) <= k * (1 + width / LOCK_MS)
  {
    assert batches <= width / LOCK_MS;
  }

  lemma NoneIsFew(k: int, width: nat)
    requires k >= 1
    ensures 0 <= k * (width / LOCK_MS) <= k * (1 + width / LOCK_MS)
  {
  }

  /** The tail of a list that ends inside the window. */
  lemma TailInWindow(times: seq<int>, k: int, i: nat, start: int, width: nat)
    requires SpacedBy(times, k) && k >= 1 && i < |times|
    requires start <= times[i] && times[|times| - 1] <= start + width
    ensures |times| - i <= k * (1 + width / LOCK_MS)
  {
    var m := |times| - 1;
    FarBy(times, k, i, m);
    FewInWidth(Batches(m - i, k), k, width);
  }

  lemma {:induction false} LateInWindow(times: seq<int>, k: int, start: int, width: nat)
    requires SpacedBy(times, k) && k >= 1
    ensures CountIn(times, start, width) <= k * (1 + width / LOCK_MS)
  {
    NoneIsFew(k, width);
    if times == [] {
    } else if times[|times| - 1] > start + width {
      LateInWindow(times[..|times| - 1], k, start, width);
    } else {
      WindowIsTail(times, start, width);
      if CountBefore(times, start) < |times| {
        TailInWindow(times, k, CountBefore(times, start), start, width);
      }
    }
  }

  lemma {:induction false} SameCount(times: seq<int>, start: int, width: int, start': int, width': int)
    requires start <= start' && start + width == start' + width'
    requires forall i :: 0 <= i < |times| ==> start' <= times[i]
    ensures CountIn(times, start, width) == CountIn(times, start', width')
  {
    if times == [] {
    } else {
      SameCount(times[..|times| - 1], start, width, start', width');
    }
  }

  lemma {:induction false} NoneInWindow(times: seq<int>, start: int, width: int)
    requires forall i :: 0 <= i < |times| ==> start + width < times[i]
    ensures CountIn(times, start, width) == 0
  {
    if times == [] {
    } else {
      NoneInWindow(times[..|times| - 1], start, width);
    }
  }

  lemma OnePeriodLess(k: int, width: nat)
    requires width >= LOCK_MS
    ensures k * (1 + (width - LOCK_MS) / LOCK_MS) == k * (width / LOCK_MS)
  {
    assert 1 + (width - LOCK_MS) / LOCK_MS == width / LOCK_MS;
  }

  lemma LateFrom(times: seq<int>, k: int, start: int, width: nat)
    requires SpacedBy(times, k) && k >= 1 && width >= LOCK_MS
    requires forall i :: 0 <= i < |times| ==> start + LOCK_MS <= times[i]
    ensures CountIn(times, start, width) <= k * (width / LOCK_MS)
  {
    SameCount(times, start, width, start + LOCK_MS, width - LOCK_MS);
    LateInWindow(times, k, start + LOCK_MS, width - LOCK_MS);
    OnePeriodLess(k, width);
  }

  /** Comparisons after expired locks, in a window that starts before the first lock was set. */
  lemma LateAfterShut(times: seq<int>, k: int, start: int, width: nat, shut: int)
    requires SpacedBy(times, k) && k >= 1 && start <= shut
    requires forall i :: 0 <= i < |times| ==> shut + LOCK_MS <= times[i]
    ensures CountIn(times, start, width) <= k * (width / LOCK_MS)
  {
    if width < LOCK_MS {
      NoneInWindow(times, start, width);
      NonNegativeProduct(k, width / LOCK_MS);
    } else {
      LateFrom(times, k, start, width);
    }
  }

  /** Twice the early guesses stay below b by some, twice the late ones exceed 2 * a by no more. */
  lemma AddUp(early: int, late: int, some: int, a: int, b: int)
    requires 2 * early + some <= b && 2 * late <= 2 * a + some
    ensures 2 * (early + late) <= b + 2 * a
  {
  }

  lemma ThreeAndTwo(k: int)
    ensures k * (k + 3) + 2 * k == k * (k + 5)
  {
  }

  lemma EarlyAfterShut(h: History, k: int, now: int, start: int, width: nat, b: int)
    requires Roomy(h, k) && Timely(h, k, now) && k >= 1 && b == k * (k + 5)
    requires h.shut.Some? && h.shut.value < start
    ensures 2 * CountIn(h.early, start, width) + 2 * k <= b
  {
    RoomIsNatural(h.desk, k);
    CountFrom(h.early, h.before, start, width);
    ThreeAndTwo(k);
  }

  lemma FewAreWithin(n: int, k: int)
    requires n <= k && k >= 1
    ensures 2 * n <= k * (k + 5)
  {
    NonNegativeProduct(k, k - 1);
    assert k * (k + 5) == k * (k - 1) + 6 * k;
  }

  lemma EarlyBound(h: History, k: int)
    requires Roomy(h, k) && k >= 1
    ensures 2 * |h.early| <= k * (k + 5)
  {
    RoomIsNatural(h.desk, k);
    if h.desk.stored.None? { FewAreWithin(|h.early|, k); }
  }

  lemma EarlyInAll(h: History, k: int, start: int, width: nat, b: int)
    requires Roomy(h, k) && k >= 1 && b == k * (k + 5)
    ensures 2 * CountIn(h.early, start, width) <= b
  {
    CountFrom(h.early, 0, start, width);
    EarlyBound(h, k);
  }

  lemma OneMore(k: int, q: int)
    ensures k * (1 + q) == k + k * q
  {
  }

  lemma LateIn(times: seq<int>, k: int, start: int, width: nat, a: int)
    requires SpacedBy(times, k) && k >= 1 && a == k * (width / LOCK_MS)
    ensures 2 * CountIn(times, start, width) <= 2 * a + 2 * k
  {
    LateInWindow(times, k, start, width);
    OneMore(k, width / LOCK_MS);
  }

  lemma LateInAll(h: History, k: int, now: int, start: int, width: nat, a: int)
    requires Timely(h, k, now) && k >= 1 && a == k * (width / LOCK_MS)
    requires h.shut.Some? ==> start <= h.shut.value
    ensures CountIn(h.late, start, width) <= a
  {
    if h.shut.Some? {
      LateAfterShut(h.late, k, start, width, h.shut.value);
    } else {
      NonNegativeProduct(k, width / LOCK_MS);
    }
  }

  lemma HistoryInWindow(h: History, k: int, now: int, start: int, width: nat)
    requires Roomy(h, k) && Timely(h, k, now) && k >= 1
    ensures 2 * (CountIn(h.early, start, width) + CountIn(h.late, start, width))
      <= k * (k + 5) + 2 * (k * (width / LOCK_MS))
  {
    var early, late := CountIn(h.early, start, width), CountIn(h.late, start, width);
    var a, b := k * (width / LOCK_MS), k * (k + 5);
    if h.shut.Some? && h.shut.value < start {
      EarlyAfterShut(h, k, now, start, width, b);
      LateIn(h.late, k, start, width, a);
      AddUp(early, late, 2 * k, a, b);
    } else {
      EarlyInAll(h, k, start, width, b);
      LateInAll(h, k, now, start, width, a);
      AddUp(early, late, 0, a, b);
    }
  }

  /**
   * With at most k checks of a user under way at once and no right PIN, any window of the given width compares at
   * most k * (k + 5) / 2 guesses and k more for each lock period in it; 3 and one more when checks do not overlap.
   */
  lemma OverlappingGuessesPerWindow(ms: seq<Move>, k: int, start: int, width: nat)
    requires AllWrong(ms) && InOrder(ms) && AtMostOpen(ms, k) && k >= 1
    ensures 2 * CountIn(ComparedAt(ms), start, width) <= k * (k + 5) + 2 * (k * (width / LOCK_MS))
  {
    RunIsNoted(ms, k, if ms == [] then 0 else TimeOf(ms[|ms| - 1]));
    CountIsSplit(ms, start, width);
    HistoryInWindow(Noted(ms), k, if ms == [] then 0 else TimeOf(ms[|ms| - 1]), start, width);
  }

  /** Checks that do not overlap: three guesses and one more for each lock period. */
  lemma SeparateGuessesPerWindow(ms: seq<Move>, start: int, width: nat)
    requires AllWrong(ms) && InOrder(ms) && AtMostOpen(ms, 1)
    ensures CountIn(ComparedAt(ms), start, width) <= 3 + width / LOCK_MS
  {
    OverlappingGuessesPerWindow(ms, 1, start, width);
  }
}
