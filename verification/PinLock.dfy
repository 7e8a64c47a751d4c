/** The PIN check with its three-strike lockout, and how slowly it lets a wrong guess through. */
module PinLock {
  import opened Basics

  const LOCK_MS: int := 15 * 60000
  const MAX_PIN_ATTEMPTS: int := 3

  datatype LockValue = LockValue(attempts: int, lockedUntil: Option<int>)

  type Locks = map<string, LockValue>

  datatype Answer = Answer(ok: bool, locked: bool)

  predicate IsLocked(locks: Locks, userId: string, now: int) {
    userId in locks && locks[userId].lockedUntil.Some? && now < locks[userId].lockedUntil.value
  }

  /** A lock after one more miss. */
  function Missed(lock: LockValue, later: int): LockValue {
    var attempts := lock.attempts + 1;
    LockValue(attempts, if attempts >= MAX_PIN_ATTEMPTS then Some(later + LOCK_MS) else lock.lockedUntil)
  }

  /** The clock reads now at the guard and later once the PIN was compared; matches is that comparison. */
  function Verified(locks: Locks, userId: string, now: int, later: int, matches: bool): (Locks, Answer) {
    if IsLocked(locks, userId, now) then (locks, Answer(false, true))
    else if matches then (locks - {userId}, Answer(true, false))
    else
      var after := Missed(if userId in locks then locks[userId] else LockValue(0, None), later);
      (locks[userId := after], Answer(false, after.attempts >= MAX_PIN_ATTEMPTS))
  }

  class Lock {
    var attempts: int
    var lockedUntil: Option<int>

    constructor ()
      ensures Value() == LockValue(0, None)
    {
      attempts, lockedUntil := 0, None;
    }

    ghost function Value(): LockValue
      reads this
    {
      LockValue(attempts, lockedUntil)
    }
  }

  class AuthService {
    var locks: map<string, Lock>

    ghost predicate Valid()
      reads this
    {
      forall u, u' :: u in locks && u' in locks && u != u' ==> locks[u] != locks[u']
    }

    ghost function Contents(): Locks
      reads this, locks.Values
    {
      map u | u in locks :: locks[u].Value()
    }

    constructor ()
      ensures Valid() && Contents() == map[]
    {
      locks := map[];
    }

    /** The guard: None while the lock holds, else the very object in the map, or a new one that is not stored. */
    method Begin(userId: string, now: int) returns (lock: Option<Lock>)
      requires Valid()
      ensures lock.None? <==> IsLocked(Contents(), userId, now)
      ensures lock.Some? ==>
        if userId in locks then lock.value == locks[userId]
        else fresh(lock.value) && lock.value.Value() == LockValue(0, None)
    {
      assert userId in locks ==> userId in Contents() && Contents()[userId] == locks[userId].Value();
      var own: Lock;
      if userId in locks {
        own := locks[userId];
      } else {
        own := new Lock();
      }
      if own.lockedUntil.Some? && now < own.lockedUntil.value {
        return None;
      }
      lock := Some(own);
    }

    /** After the comparison, on the object taken at the guard, wherever the map points by now. */
    method Finish(userId: string, lock: Lock, later: int, matches: bool) returns (answer: Answer)
      modifies this, lock
      ensures locks == if matches then old(locks) - {userId} else old(locks)[userId := lock]
      ensures lock.Value() == if matches then old(lock.Value()) else Missed(old(lock.Value()), later)
      ensures answer == Answer(matches, !matches && lock.attempts >= MAX_PIN_ATTEMPTS)
    {
      if matches {
        locks := locks - {userId};
        return Answer(true, false);
      }
      lock.attempts := lock.attempts + 1;
      var locked := lock.attempts >= MAX_PIN_ATTEMPTS;
      if locked {
        lock.lockedUntil := Some(later + LOCK_MS);
      }
      locks := locks[userId := lock];
      answer := Answer(false, locked);
    }

    /** verifyPin where no other check of the user is under way. */
    method VerifyPin(userId: string, now: int, later: int, matches: bool) returns (answer: Answer)
      requires Valid()
      modifies this, locks.Values
      ensures Valid() && fresh(locks.Values - old(locks.Values))
      ensures (Contents(), answer) == Verified(old(Contents()), userId, now, later, matches)
    {
      var lock := Begin(userId, now);
      if lock.None? {
        return Answer(false, true);
      }
      assert userId in locks ==> locks[userId] in locks.Values;
      answer := Finish(userId, lock.value, later, matches);
      if matches {
        assert Contents() == old(Contents()) - {userId};
      } else {
        assert Contents() == old(Contents())[userId := lock.value.Value()];
      }
    }
  }

  // ---- how fast wrong guesses are let through ---------------------------------------------------------------

  datatype Guess = Guess(userId: string, now: int, later: int, matches: bool)

  function Play(locks: Locks, gs: seq<Guess>): Locks {
    if gs == [] then locks
    else
      var g := gs[|gs| - 1];
      Verified(Play(locks, gs[..|gs| - 1]), g.userId, g.now, g.later, g.matches).0
  }

  /** The times at which a guess for the user was really compared with the PIN. */
  function EvaluatedAt(locks: Locks, gs: seq<Guess>, userId: string): seq<int> {
    if gs == [] then []
    else
      var past, g := gs[..|gs| - 1], gs[|gs| - 1];
      EvaluatedAt(locks, past, userId)
      + if g.userId == userId && !IsLocked(Play(locks, past), userId, g.now) then [g.now] else []
  }

  /** The clock never runs back. */
  ghost predicate Ordered(gs: seq<Guess>) {
    && (forall i :: 0 <= i < |gs| ==> gs[i].now <= gs[i].later)
    && (forall i, j :: 0 <= i < j < |gs| ==> gs[i].later <= gs[j].now)
  }

  ghost predicate NeverRight(gs: seq<Guess>, userId: string) {
    forall i :: 0 <= i < |gs| && gs[i].userId == userId ==> !gs[i].matches
  }

  ghost predicate Sorted(times: seq<int>) {
    forall i, j :: 0 <= i < j < |times| ==> times[i] <= times[j]
  }

  /** Sorted, and from the fourth on at least a lock period after the one before. */
  ghost predicate Spaced(times: seq<int>) {
    && Sorted(times)
    && (forall i :: MAX_PIN_ATTEMPTS <= i < |times| ==> times[i - 1] + LOCK_MS <= times[i])
  }

  /** What the lock of a user knows about the times of the comparisons so far, all made by time until. */
  ghost predicate Tracks(lock: Option<LockValue>, times: seq<int>, until: int) {
    && Spaced(times)
    && (lock.Some? <==> times != [])
    && (times != [] ==> lock.value.attempts == |times| && times[|times| - 1] <= until)
    && (times != [] && |times| < MAX_PIN_ATTEMPTS ==> lock.value.lockedUntil.None?)
    && (|times| >= MAX_PIN_ATTEMPTS ==>
          lock.value.lockedUntil.Some? && lock.value.lockedUntil.value >= times[|times| - 1] + LOCK_MS)
  }

  lemma OneMoreWrongGuess(lock: Option<LockValue>, times: seq<int>, until: int, now: int, later: int)
    requires Tracks(lock, times, until) && until <= now <= later
    requires lock.Some? && lock.value.lockedUntil.Some? ==> lock.value.lockedUntil.value <= now
    ensures var n := |times| + 1;
      Tracks(Some(LockValue(n, if n >= MAX_PIN_ATTEMPTS then Some(later + LOCK_MS) else None)), times + [now], later)
  {
  }

  lemma TracksOn(lock: Option<LockValue>, times: seq<int>, until: int, later: int)
    requires Tracks(lock, times, until) && until <= later
    ensures Tracks(lock, times + [], later)
  {
    assert times + [] == times;
  }

  /** What a check that is compared, or is not the user's, does to the user's entry. */
  lemma EntryAfter(locks: Locks, g: Guess, userId: string)
    requires g.userId == userId ==> !g.matches
    ensures var after, entry := Verified(locks, g.userId, g.now, g.later, g.matches).0, Get(locks, userId);
      Get(after, userId)
        == if g.userId != userId || IsLocked(locks, userId, g.now) then entry
           else Some(Missed(if entry.Some? then entry.value else LockValue(0, None), g.later))
  {
  }

  /** One guess of anybody, on the state and the times before it. */
  lemma OneGuess(locks: Locks, times: seq<int>, g: Guess, userId: string)
    requires Tracks(Get(locks, userId), times, g.now) && g.now <= g.later && (g.userId == userId ==> !g.matches)
    ensures var compared := g.userId == userId && !IsLocked(locks, userId, g.now);
      Tracks(Get(Verified(locks, g.userId, g.now, g.later, g.matches).0, userId),
             times + (if compared then [g.now] else []), g.later)
  {
    EntryAfter(locks, g, userId);
    if g.userId == userId && !IsLocked(locks, userId, g.now) {
      OneMoreWrongGuess(Get(locks, userId), times, g.now, g.now, g.later);
    } else {
      TracksOn(Get(locks, userId), times, g.now, g.later);
    }
  }

  lemma PastIsFit(gs: seq<Guess>, userId: string)
    requires gs != [] && Ordered(gs) && NeverRight(gs, userId)
    ensures var past, g := gs[..|gs| - 1], gs[|gs| - 1];
      && Ordered(past) && NeverRight(past, userId) && g.now <= g.later && (g.userId == userId ==> !g.matches)
      && (past != [] ==> past[|past| - 1].later <= g.now)
  {
  }

  lemma {:induction false} GuessesAreSpaced(locks: Locks, gs: seq<Guess>, userId: string, until: int)
    requires userId !in locks && Ordered(gs) && NeverRight(gs, userId)
    requires gs != [] ==> gs[|gs| - 1].later <= until
    ensures Tracks(Get(Play(locks, gs), userId), EvaluatedAt(locks, gs, userId), until)
  {
    if gs == [] {
    } else {
      var past, g := gs[..|gs| - 1], gs[|gs| - 1];
      PastIsFit(gs, userId);
      GuessesAreSpaced(locks, past, userId, g.now);
      OneGuess(Play(locks, past), EvaluatedAt(locks, past, userId), g, userId);
    }
  }

  lemma {:induction false} FarApart(times: seq<int>, i: nat, j: nat)
    requires Spaced(times) && MAX_PIN_ATTEMPTS - 1 <= i <= j < |times|
    ensures times[j] >= times[i] + (j - i) * LOCK_MS
  {
    if i < j {
      FarApart(times, i, j - 1);
    }
  }

  /** Without a right guess, the k-th comparison comes at least k - 3 lock periods after the third. */
  lemma GuessRate(locks: Locks, gs: seq<Guess>, userId: string, k: nat)
    requires userId !in locks && Ordered(gs) && NeverRight(gs, userId)
    requires 3 <= k <= |EvaluatedAt(locks, gs, userId)|
    ensures var times := EvaluatedAt(locks, gs, userId);
      times[k - 1] >= times[2] + (k - 3) * LOCK_MS
  {
    GuessesAreSpaced(locks, gs, userId, if gs == [] then 0 else gs[|gs| - 1].later);
    FarApart(EvaluatedAt(locks, gs, userId), 2, k - 1);
  }

  function CountIn(times: seq<int>, start: int, width: int): nat {
    if times == [] then 0
    else CountIn(times[..|times| - 1], start, width) + if start <= times[|times| - 1] <= start + width then 1 else 0
  }

  function CountBefore(times: seq<int>, start: int): (n: nat)
    ensures n <= |times|
  {
    if times == [] then 0
    else CountBefore(times[..|times| - 1], start) + if times[|times| - 1] < start then 1 else 0
  }

  /** In a sorted list ending inside the window, the window is a tail. */
  lemma {:induction false} WindowIsTail(times: seq<int>, start: int, width: int)
    requires Sorted(times) && (times != [] ==> times[|times| - 1] <= start + width)
    ensures CountIn(times, start, width) + CountBefore(times, start) == |times|
    ensures var n := CountBefore(times, start); n < |times| ==> times[n] >= start
  {
    if times == [] {
    } else {
      var m := |times| - 1;
      WindowIsTail(times[..m], start, width);
      if times[m] < start && m > 0 { AllBefore(times[..m], start); }
    }
  }

  lemma {:induction false} AllBefore(times: seq<int>, start: int)
    requires forall i :: 0 <= i < |times| ==> times[i] < start
    ensures CountBefore(times, start) == |times|
  {
    if times == [] {
    } else {
      AllBefore(times[..|times| - 1], start);
    }
  }

  lemma {:induction false} WindowBound(times: seq<int>, start: int, width: nat)
    requires Spaced(times)
    ensures CountIn(times, start, width) <= 3 + width / LOCK_MS
  {
    if times == [] {
    } else {
      var m := |times| - 1;
      if times[m] > start + width {
        WindowBound(times[..m], start, width);
      } else {
        WindowIsTail(times, start, width);
        var i := CountBefore(times, start);
        if i + 2 < m {
          FarApart(times, i + 2, m);
          assert (m - i - 2) * LOCK_MS <= width;
        }
      }
    }
  }

  /** Any window of the given width compares at most three guesses and one more per lock period. */
  lemma GuessesPerWindow(locks: Locks, gs: seq<Guess>, userId: string, start: int, width: nat)
    requires userId !in locks && Ordered(gs) && NeverRight(gs, userId)
    ensures CountIn(EvaluatedAt(locks, gs, userId), start, width) <= 3 + width / LOCK_MS
  {
    GuessesAreSpaced(locks, gs, userId, if gs == [] then 0 else gs[|gs| - 1].later);
    WindowBound(EvaluatedAt(locks, gs, userId), start, width);
  }
}
