/** The bound of PinRaces.dfy cannot be improved, and checks that all overlap are not limited at all. */
module PinRacesTight {
  import opened Basics
  import opened PinLock
  import opened PinRaces

  /** A run under construction. */
  datatype Path = Start | Then(past: Path, m: Move)

  function Moves(p: Path): seq<Move> {
    match p case Start => [] case Then(past, m) => Moves(past) + [m]
  }

  function End(p: Path): Desk {
    match p case Start => Desk(None, []) case Then(past, m) => Advance(End(past), m)
  }

  function Last(p: Path): int {
    match p case Start => 0 case Then(past, m) => TimeOf(m)
  }

  /** How many guesses were compared. */
  function Compared(p: Path): int {
    match p case Start => 0 case Then(past, m) => Compared(past) + if Compares(End(past), m) then 1 else 0
  }

  /** Wrong checks in order, at most k under way. */
  predicate Allowed(p: Path, k: int) {
    match p
    case Start => k >= 0
    case Then(past, m) =>
      && Allowed(past, k) && Last(past) <= TimeOf(m) && (m.Finish? ==> !m.matches) && Open(Advance(End(past), m)) <= k
  }

  /** The path ends in d by the time now, with n guesses compared. */
  predicate Reaches(p: Path, k: int, now: int, n: int, d: Desk) {
    Allowed(p, k) && 0 <= Last(p) <= now && Compared(p) == n && End(p) == d
  }

  ghost predicate IsRun(ms: seq<Move>, k: int, now: int) {
    && AllWrong(ms) && InOrder(ms) && AtMostOpen(ms, k)
    && (forall i :: 0 <= i < |ms| ==> TimeOf(ms[i]) <= now)
  }

  lemma RunGrows(ms: seq<Move>, k: int, now: int, m: Move)
    requires IsRun(ms, k, now) && now <= TimeOf(m) && (m.Finish? ==> !m.matches) && Open(Advance(After(ms), m)) <= k
    ensures IsRun(ms + [m], k, TimeOf(m)) && After(ms + [m]) == Advance(After(ms), m)
    ensures ComparedAt(ms + [m]) == ComparedAt(ms) + if Compares(After(ms), m) then [m.now] else []
  {
    assert (ms + [m])[..|ms|] == ms;
  }

  lemma {:induction false} PathIsRun(p: Path, k: int)
    requires Allowed(p, k)
    ensures IsRun(Moves(p), k, Last(p)) && After(Moves(p)) == End(p) && |ComparedAt(Moves(p))| == Compared(p)
  {
    match p
    case Start =>
    case Then(past, m) =>
      PathIsRun(past, k);
      RunGrows(Moves(past), k, Last(past), m);
  }

  lemma Append(p: Path, k: int, before: int, n: int, d: Desk, m: Move)
    requires Reaches(p, k, before, n, d) && before <= TimeOf(m) && (m.Finish? ==> !m.matches)
    requires Open(Advance(d, m)) <= k
    ensures Reaches(Then(p, m), k, TimeOf(m), n + if Compares(d, m) then 1 else 0, Advance(d, m))
  {
  }

  function WithStored(d: Desk, o: Object): Desk {
    d.(stored := Some(o))
  }

  /** Checks pass the guard together, all on the stored object o. */
  lemma {:induction false} GuardMany(p: Path, k: int, n: int, d: Desk, o: Object, now: int, j: nat) returns (p': Path)
    requires Reaches(p, k, now, n, d) && d.stored == Some(o) && !Shut(o, now) && Open(d) + j <= k
    ensures Reaches(p', k, now, n + j, WithStored(d, o.(held := o.held + j)))
    decreases j
  {
    if j == 0 {
      p' := p;
    } else {
      Append(p, k, now, n, d, Guard(now));
      var o' := o.(held := o.held + 1);
      p' := GuardMany(Then(p, Guard(now)), k, n + 1, WithStored(d, o'), o', now, j - 1);
    }
  }

  function CountedTimes(o: Object, now: int, j: nat): Object
    decreases j
  {
    if j == 0 then o else CountedTimes(Counted(o, now), now, j - 1)
  }

  lemma {:induction false} CountsAddUp(o: Object, now: int, j: nat)
    ensures var o' := CountedTimes(o, now, j);
      && o'.attempts == o.attempts + j && o'.held == o.held - j
      && (j > 0 && o.attempts + j >= MAX_PIN_ATTEMPTS ==> o'.lockedUntil == Some(now + LOCK_MS))
      && (o.attempts + j < MAX_PIN_ATTEMPTS ==> o'.lockedUntil == o.lockedUntil)
    decreases j
  {
    if j == 0 {
    } else {
      CountsAddUp(Counted(o, now), now, j - 1);
    }
  }

  /** Checks finish one after the other, all on the stored object o. */
  lemma {:induction false} FinishMany(p: Path, k: int, n: int, d: Desk, o: Object, now: int, j: nat) returns (p': Path)
    requires Reaches(p, k, now, n, d) && d.stored == Some(o) && j <= o.held && Open(d) <= k
    ensures Reaches(p', k, now, n, WithStored(d, CountedTimes(o, now, j)))
    decreases j
  {
    if j == 0 {
      p' := p;
    } else {
      var m := Finish(None, now, false);
      Append(p, k, now, n, d, m);
      p' := FinishMany(Then(p, m), k, n, WithStored(d, Counted(o, now)), Counted(o, now), now, j - 1);
    }
  }

  /** All of j checks pass the guard, and then all of them finish. */
  lemma GuessTogether(p: Path, k: int, n: int, d: Desk, o: Object, now: int, j: nat) returns (p': Path)
    requires Reaches(p, k, now, n, d) && d.stored == Some(o) && !Shut(o, now) && o.held == 0 && Open(d) + j <= k
    ensures Reaches(p', k, now, n + j, WithStored(d, CountedTimes(o.(held := j), now, j)))
  {
    var o' := o.(held := j);
    p' := GuardMany(p, k, n, d, o, now, j);
    StoredCounts(d, o, o');
    p' := FinishMany(p', k, n + j, WithStored(d, o'), o', now, j);
    assert WithStored(WithStored(d, o'), CountedTimes(o', now, j)) == WithStored(d, CountedTimes(o', now, j));
  }

  lemma StoredCounts(d: Desk, o: Object, o': Object)
    requires d.stored == Some(o)
    ensures Open(WithStored(d, o')) == Open(d) - o.held + o'.held
  {
  }

  function News(j: nat): seq<Object> {
    seq(j, _ => NEW)
  }

  /** Checks of a user without an entry pass the guard together: each gets its own object. */
  lemma {:induction false} NewMany(k: int, j: nat) returns (p: Path)
    requires j <= k
    ensures Reaches(p, k, 0, j, Desk(None, News(j)))
  {
    AllNew(News(j));
    if j == 0 {
      p := Start;
      assert News(0) == [];
    } else {
      p := NewMany(k, j - 1);
      assert News(j) == News(j - 1) + [NEW];
      Append(p, k, 0, j - 1, Desk(None, News(j - 1)), Guard(0));
      p := Then(p, Guard(0));
    }
  }

  /** r checks still hold new objects; every other object is held by nobody. */
  ghost predicate Staged(d: Desk, r: nat) {
    && r <= |d.loose|
    && (forall i :: 0 <= i < r ==> d.loose[i] == NEW)
    && (forall i :: r <= i < |d.loose| ==> d.loose[i].held == 0)
    && (d.stored.Some? ==> d.stored.value.held == 0)
  }

  lemma {:induction false} StagedOpen(loose: seq<Object>, r: nat)
    requires r <= |loose| && (forall i :: 0 <= i < r ==> loose[i] == NEW)
    requires forall i :: r <= i < |loose| ==> loose[i].held == 0
    ensures Sum(loose, HeldOf()) == r
  {
    if loose == [] {
    } else if r == |loose| {
      StagedOpen(loose[..|loose| - 1], r - 1);
    } else {
      StagedOpen(loose[..|loose| - 1], r);
    }
  }

  /** The last new object is finished with and stored: its lock is counted once. */
  lemma FinishNew(d: Desk, r: nat)
    requires Staged(d, r + 1)
    ensures var d' := Advance(d, Finish(Some(r), 0, false));
      Staged(d', r) && d'.stored == Some(Object(1, None, 0)) && Open(d') == r
  {
    var d' := Advance(d, Finish(Some(r), 0, false));
    StagedOpen(d'.loose, r);
  }

  /** A new object is stored, and missed once more. */
  lemma MissTwice(p: Path, k: int, r: nat, n: int, d: Desk) returns (p': Path, d': Desk)
    requires Reaches(p, k, 0, n, d) && Staged(d, r + 1) && r < k
    ensures Reaches(p', k, 0, n + 1, d') && Staged(d', r) && d'.stored == Some(Object(2, None, 0)) && Open(d') == r
  {
    var m, once := Finish(Some(r), 0, false), Object(1, None, 0);
    FinishNew(d, r);
    Append(p, k, 0, n, d, m);
    p' := GuessTogether(Then(p, m), k, n, Advance(d, m), once, 0, 1);
    CountsAddUp(once.(held := 1), 0, 1);
    d' := WithStored(Advance(d, m), CountedTimes(once.(held := 1), 0, 1));
  }

  ghost predicate Locked(d: Desk, until: int) {
    d.stored.Some? && !Alive(d.stored.value) && d.stored.value.held == 0 && d.stored.value.lockedUntil == Some(until)
  }

  /** All checks that are free guess at an object missed twice. */
  lemma LockTwice(p: Path, k: int, r: nat, n: int, d: Desk) returns (p': Path, d': Desk)
    requires Reaches(p, k, 0, n, d) && Staged(d, r) && d.stored == Some(Object(2, None, 0)) && Open(d) == r && r < k
    ensures Reaches(p', k, 0, n + (k - r), d') && Staged(d', r) && Locked(d', LOCK_MS)
  {
    var twice := Object(2, None, 0);
    p' := GuessTogether(p, k, n, d, twice, 0, k - r);
    CountsAddUp(twice.(held := k - r), 0, k - r);
    d' := WithStored(d, CountedTimes(twice.(held := k - r), 0, k - r));
  }

  /** One stage: a new object is stored, missed once more, and then guessed at by all checks that are free. */
  lemma LockOne(p: Path, k: int, r: nat, n: int, d: Desk) returns (p': Path, d': Desk)
    requires Reaches(p, k, 0, n, d) && Staged(d, r + 1) && r < k
    ensures Reaches(p', k, 0, n + 1 + (k - r), d') && Staged(d', r) && Locked(d', LOCK_MS)
  {
    p', d' := MissTwice(p, k, r, n, d);
    p', d' := LockTwice(p', k, r, n + 1, d');
  }

  /** The comparisons of all stages from r new objects on. */
  function Stages(k: int, r: nat): int {
    if r == 0 then 0 else 1 + (k - (r - 1)) + Stages(k, r - 1)
  }

  lemma {:induction false} StagesSum(k: int, r: nat)
    ensures 2 * Stages(k, r) == r * (2 * k - r + 3)
  {
    if r == 0 {
    } else {
      StagesSum(k, r - 1);
    }
  }

  /** r stages are still to come; after the last one the object is locked. */
  ghost predicate AtStage(p: Path, k: int, r: nat, n: int, d: Desk) {
    Reaches(p, k, 0, n, d) && Staged(d, r) && (r == 0 ==> Locked(d, LOCK_MS))
  }

  lemma NextStage(p: Path, k: int, r: nat, n: int, d: Desk) returns (p': Path, n': int, d': Desk)
    requires AtStage(p, k, r, n, d) && 1 <= r <= k
    ensures AtStage(p', k, r - 1, n', d') && n' == n + 1 + (k - (r - 1))
  {
    p', d' := LockOne(p, k, r - 1, n, d);
    n' := n + 1 + (k - (r - 1));
  }

  lemma {:induction false} LockAll(p: Path, k: int, r: nat, n: int, d: Desk) returns (p': Path, n': int, d': Desk)
    requires AtStage(p, k, r, n, d) && r <= k
    ensures AtStage(p', k, 0, n', d') && n' == n + Stages(k, r)
    decreases r
  {
    if r == 0 {
      p', n', d' := p, n, d;
    } else {
      p', n', d' := NextStage(p, k, r, n, d);
      p', n', d' := LockAll(p', k, r - 1, n', d');
    }
  }

  /** When the lock expires, all checks guess together once more. */
  lemma GuessOnceMore(p: Path, k: int, before: int, n: int, d: Desk) returns (p': Path, d': Desk)
    requires Reaches(p, k, before, n, d) && Staged(d, 0) && Locked(d, before + LOCK_MS) && k >= 1
    ensures Reaches(p', k, before + LOCK_MS, n + k, d') && Staged(d', 0) && Locked(d', before + LOCK_MS + LOCK_MS)
  {
    var o, now := d.stored.value, before + LOCK_MS;
    StagedOpen(d.loose, 0);
    p' := GuessTogether(p, k, n, d, o, now, k);
    CountsAddUp(o.(held := k), now, k);
    d' := WithStored(d, CountedTimes(o.(held := k), now, k));
  }

  function Times(x: int, q: nat): int {
    if q == 0 then 0 else Times(x, q - 1) + x
  }

  lemma TimesMore(x: int, q: nat)
    requires q > 0
    ensures Times(x, q) == Times(x, q - 1) + x
  {
  }

  lemma {:induction false} TimesIsProduct(x: int, q: nat)
    ensures Times(x, q) == x * q
  {
    if q == 0 {
    } else {
      TimesIsProduct(x, q - 1);
    }
  }

  lemma {:induction false} WaitAndGuess(p: Path, k: int, now: int, n: int, d: Desk, q: nat)
    returns (p': Path, now': int, n': int, d': Desk)
    requires Reaches(p, k, now, n, d) && Staged(d, 0) && Locked(d, now + LOCK_MS) && k >= 1
    ensures Reaches(p', k, now', n', d') && now' == now + Times(LOCK_MS, q) && n' == n + Times(k, q)
    decreases q
  {
    if q == 0 {
      p', now', n', d' := p, now, n, d;
    } else {
      p', d' := GuessOnceMore(p, k, now, n, d);
      p', now', n', d' := WaitAndGuess(p', k, now + LOCK_MS, n + k, d', q - 1);
      TimesMore(LOCK_MS, q);
      TimesMore(k, q);
    }
  }

  lemma {:induction false} AllInWindow(times: seq<int>, width: int)
    requires forall i :: 0 <= i < |times| ==> 0 <= times[i] <= width
    ensures CountIn(times, 0, width) == |times|
  {
    if times == [] {
    } else {
      AllInWindow(times[..|times| - 1], width);
    }
  }

  lemma {:induction false} ComparedInTime(p: Path, k: int)
    requires Allowed(p, k)
    ensures Last(p) >= 0
    ensures forall i :: 0 <= i < |ComparedAt(Moves(p))| ==> 0 <= ComparedAt(Moves(p))[i] <= Last(p)
  {
    match p
    case Start =>
    case Then(past, m) =>
      ComparedInTime(past, k);
      assert (Moves(past) + [m])[..|Moves(past)|] == Moves(past);
  }

  /** The moves of a path, all of whose comparisons fall into one window. */
  lemma RunOf(p: Path, k: int, now: int, n: int, d: Desk, width: int)
    requires Reaches(p, k, now, n, d) && now <= width
    ensures var ms := Moves(p);
      && AllWrong(ms) && InOrder(ms) && AtMostOpen(ms, k) && After(ms) == d
      && CountIn(ComparedAt(ms), 0, width) == n
  {
    PathIsRun(p, k);
    ComparedInTime(p, k);
    AllInWindow(ComparedAt(Moves(p)), width);
  }

  lemma Totals(k: nat, q: nat, width: nat)
    requires q == width / LOCK_MS
    ensures Times(LOCK_MS, q) <= width
    ensures 2 * (k + Stages(k, k) + Times(k, q)) == k * (k + 5) + 2 * (k * q)
  {
    StagesSum(k, k);
    assert 2 * k + k * (2 * k - k + 3) == k * (k + 5);
    TimesIsProduct(k, q);
    TimesIsProduct(LOCK_MS, q);
  }

  /** For every k and every width some run with at most k checks under way compares exactly as many guesses. */
  lemma BoundIsReached(k: nat, width: nat) returns (ms: seq<Move>)
    requires k >= 1
    ensures AllWrong(ms) && InOrder(ms) && AtMostOpen(ms, k)
    ensures 2 * CountIn(ComparedAt(ms), 0, width) == k * (k + 5) + 2 * (k * (width / LOCK_MS))
  {
    var q, d := width / LOCK_MS, Desk(None, News(k));
    var p := NewMany(k, k);
    var now, n;
    p, n, d := LockAll(p, k, k, k, d);
    p, now, n, d := WaitAndGuess(p, k, 0, n, d, q);
    Totals(k, q, width);
    RunOf(p, k, now, n, d, width);
    ms := Moves(p);
  }

  lemma {:induction false} FinishNews(p: Path, k: int, r: nat, d: Desk) returns (p': Path, d': Desk)
    requires Reaches(p, k, 0, k, d) && Staged(d, r) && r <= k && (r == 0 ==> d.stored == Some(Object(1, None, 0)))
    ensures Reaches(p', k, 0, k, d') && Staged(d', 0) && d'.stored == Some(Object(1, None, 0))
    decreases r
  {
    if r == 0 {
      p', d' := p, d;
    } else {
      var m := Finish(Some(r - 1), 0, false);
      FinishNew(d, r - 1);
      Append(p, k, 0, k, d, m);
      p', d' := FinishNews(Then(p, m), k, r - 1, Advance(d, m));
    }
  }

  /**
   * The lock does nothing against checks that all overlap: for every n, n wrong guesses for a user without an entry
   * are compared at the same moment, and when all have finished the lock has counted one.
   */
  lemma SimultaneousGuessesAreAllCompared(n: nat) returns (ms: seq<Move>)
    requires n >= 1
    ensures AllWrong(ms) && InOrder(ms) && CountIn(ComparedAt(ms), 0, 0) == n
    ensures Open(After(ms)) == 0 && After(ms).stored == Some(Object(1, None, 0))
  {
    var p := NewMany(n, n);
    var d;
    p, d := FinishNews(p, n, n, Desk(None, News(n)));
    StagedOpen(d.loose, 0);
    RunOf(p, n, 0, n, d, 0);
    ms := Moves(p);
  }
}
