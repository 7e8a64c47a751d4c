/** What the PIN check answers, over runs of checks one at a time, told from the guesses and the answers before. */
module PinAnswers {
  import opened Basics
  import opened PinLock

  /** A check and its answer. */
  datatype Entry = Entry(guess: Guess, answer: Answer)

  /** The answers given to the guesses, in order. */
  function Log(locks: Locks, gs: seq<Guess>): (log: seq<Entry>)
    ensures |log| == |gs| && forall k :: 0 <= k < |gs| ==> log[k].guess == gs[k]
  {
    if gs == [] then []
    else
      var past, g := gs[..|gs| - 1], gs[|gs| - 1];
      Log(locks, past) + [Entry(g, Verified(Play(locks, past), g.userId, g.now, g.later, g.matches).1)]
  }

  // ---- what the log says about a user ------------------------------------------------------------------------

  /** Wrong PINs compared since the user's last right one, and when the last of them was counted. */
  datatype Tally = Tally(misses: nat, last: int)

  /** The user's PIN is not compared: three misses, and the lock period after the last is not over. */
  predicate Refused(t: Tally, now: int) {
    t.misses >= 3 && now < t.last + 15 * 60 * 1000
  }

  function TallyOf(log: seq<Entry>, userId: string): Tally {
    if log == [] then Tally(0, 0)
    else
      var before, e := TallyOf(log[..|log| - 1], userId), log[|log| - 1];
      if e.guess.userId != userId || Refused(before, e.guess.now) then before
      else if e.guess.matches then Tally(0, 0)
      else Tally(before.misses + 1, e.guess.later)
  }

  /** The entry of the user in the lock map is the tally. */
  ghost predicate Shows(lock: Option<LockValue>, t: Tally) {
    && (t.misses == 0 <==> lock.None?)
    && (lock.Some? ==>
          && lock.value.attempts == t.misses
          && lock.value.lockedUntil == if t.misses >= 3 then Some(t.last + 15 * 60 * 1000) else None)
  }

  /** One check of anybody, on the state and the log before it. */
  lemma OneCheck(locks: Locks, log: seq<Entry>, g: Guess, userId: string)
    requires Shows(Get(locks, userId), TallyOf(log, userId))
    ensures var (after, answer) := Verified(locks, g.userId, g.now, g.later, g.matches);
      Shows(Get(after, userId), TallyOf(log + [Entry(g, answer)], userId))
  {
    var (after, answer) := Verified(locks, g.userId, g.now, g.later, g.matches);
    assert (log + [Entry(g, answer)])[..|log|] == log;
  }

  lemma {:induction false} LogIsTallied(locks: Locks, gs: seq<Guess>, userId: string)
    requires userId !in locks
    ensures Shows(Get(Play(locks, gs), userId), TallyOf(Log(locks, gs), userId))
  {
    if gs == [] {
    } else {
      var past := gs[..|gs| - 1];
      LogIsTallied(locks, past, userId);
      OneCheck(Play(locks, past), Log(locks, past), gs[|gs| - 1], userId);
    }
  }

  lemma {:induction false} LogPrefix(locks: Locks, gs: seq<Guess>, k: nat)
    requires k <= |gs|
    ensures Log(locks, gs)[..k] == Log(locks, gs[..k])
  {
    if k == |gs| {
      assert gs[..k] == gs && Log(locks, gs)[..k] == Log(locks, gs);
    } else {
      var past := gs[..|gs| - 1];
      LogPrefix(locks, past, k);
      assert past[..k] == gs[..k];
      assert Log(locks, gs)[..k] == Log(locks, past)[..k];
    }
  }

  lemma LogAt(locks: Locks, gs: seq<Guess>, k: nat)
    requires k < |gs|
    ensures var g := gs[k];
      Log(locks, gs)[k].answer == Verified(Play(locks, gs[..k]), g.userId, g.now, g.later, g.matches).1
  {
    var upto := gs[..k + 1];
    LogPrefix(locks, gs, k + 1);
    assert upto[..|upto| - 1] == gs[..k];
    assert Log(locks, gs)[k] == Log(locks, gs)[..k + 1][k];
  }

  lemma AnswerFromEntry(locks: Locks, g: Guess, t: Tally)
    requires Shows(Get(locks, g.userId), t)
    ensures var answer := Verified(locks, g.userId, g.now, g.later, g.matches).1;
      && (answer.ok <==> !Refused(t, g.now) && g.matches)
      && (answer.locked <==> Refused(t, g.now) || (!g.matches && t.misses + 1 >= 3))
  {
  }

  /**
   * Every answer, from the log before it: ok exactly if the PIN was compared and is right; locked exactly if it was
   * not compared, or is a miss that brings the misses since the last right PIN to three or more.
   */
  lemma AnswersFollow(locks: Locks, gs: seq<Guess>, k: nat)
    requires k < |gs| && gs[k].userId !in locks
    ensures var log := Log(locks, gs); var g, t := gs[k], TallyOf(log[..k], gs[k].userId);
      && (log[k].answer.ok <==> !Refused(t, g.now) && g.matches)
      && (log[k].answer.locked <==> Refused(t, g.now) || (!g.matches && t.misses + 1 >= 3))
  {
    LogPrefix(locks, gs, k);
    LogAt(locks, gs, k);
    LogIsTallied(locks, gs[..k], gs[k].userId);
    AnswerFromEntry(Play(locks, gs[..k]), gs[k], TallyOf(Log(locks, gs[..k]), gs[k].userId));
  }

  lemma TallySnoc(log: seq<Entry>, k: nat, userId: string)
    requires k < |log|
    ensures var before, g := TallyOf(log[..k], userId), log[k].guess;
      TallyOf(log[..k + 1], userId)
        == if g.userId != userId || Refused(before, g.now) then before
           else if g.matches then Tally(0, 0) else Tally(before.misses + 1, g.later)
  {
    assert log[..k + 1][..k] == log[..k];
  }

  /** The j-th check is a wrong PIN that was compared, the user's third or a later one since the last right PIN. */
  predicate IsThirdMiss(log: seq<Entry>, j: nat)
    requires j < |log|
  {
    var t := TallyOf(log[..j], log[j].guess.userId);
    !log[j].guess.matches && !Refused(t, log[j].guess.now) && t.misses >= 2
  }

  /** The tally after such a miss stays as it is while no check of the user comes after the lock period. */
  lemma {:induction false} TallyIsHeld(log: seq<Entry>, j: nat, m: nat)
    requires j < m <= |log| && IsThirdMiss(log, j)
    requires forall i :: j < i < m ==> log[i].guess.now < log[j].guess.later + 15 * 60 * 1000
    ensures var t := TallyOf(log[..m], log[j].guess.userId); t.misses >= 3 && t.last == log[j].guess.later
  {
    TallySnoc(log, m - 1, log[j].guess.userId);
    if m - 1 > j {
      TallyIsHeld(log, j, m - 1);
    }
  }

  /** In the lock period after such a miss every check of the user answers locked and not ok, whatever its PIN. */
  lemma LockPeriodRefuses(locks: Locks, gs: seq<Guess>, j: nat, k: nat)
    requires j < k < |gs| && gs[j].userId == gs[k].userId && gs[k].userId !in locks && Ordered(gs)
    requires IsThirdMiss(Log(locks, gs), j)
    requires gs[k].now < gs[j].later + 15 * 60 * 1000
    ensures Log(locks, gs)[k].answer == Answer(false, true)
  {
    forall i | j < i < k ensures gs[i].now < gs[j].later + 15 * 60 * 1000 {
      assert gs[i].now <= gs[i].later <= gs[k].now;
    }
    TallyIsHeld(Log(locks, gs), j, k);
    AnswersFollow(locks, gs, k);
  }
}
