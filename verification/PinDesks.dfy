/**
 * The objects of PinRaces.dfy are those of PinLock.dfy: Begin and Finish of the service move the desk of a user as
 * Guard and Finish do, and checks of the user one at a time are the runs that PinLock.dfy is about.
 */
module PinDesks {
  import opened Basics
  import opened PinLock
  import opened PinRaces

  // ---- the desk of a user, from the lock objects --------------------------------------------------------------

  /** A lock object with its value, held by as many checks as it occurs under way. */
  function ObjectOf<L>(l: L, underWay: multiset<L>, values: map<L, LockValue>): Object
    requires l in values
  {
    Object(values[l].attempts, values[l].lockedUntil, underWay[l])
  }

  ghost predicate Distinct<L>(xs: seq<L>) {
    forall i, j :: 0 <= i < j < |xs| ==> xs[i] != xs[j]
  }

  /** The stored object and the loose ones are all different, and whatever a check holds is among them. */
  ghost predicate Owned<L>(stored: Option<L>, loose: seq<L>, underWay: multiset<L>, values: map<L, LockValue>) {
    && (stored.Some? ==> stored.value in values && stored.value !in loose)
    && (forall i :: 0 <= i < |loose| ==> loose[i] in values)
    && Distinct(loose)
    && (forall l :: l in underWay ==> l in loose || stored == Some(l))
  }

  function Objects<L>(loose: seq<L>, underWay: multiset<L>, values: map<L, LockValue>): seq<Object>
    requires forall i :: 0 <= i < |loose| ==> loose[i] in values
  {
    seq(|loose|, i requires 0 <= i < |loose| => ObjectOf(loose[i], underWay, values))
  }

  function DeskOf<L>(stored: Option<L>, loose: seq<L>, underWay: multiset<L>, values: map<L, LockValue>): Desk
    requires stored.Some? ==> stored.value in values
    requires forall i :: 0 <= i < |loose| ==> loose[i] in values
  {
    Desk(if stored.Some? then Some(ObjectOf(stored.value, underWay, values)) else None,
         Objects(loose, underWay, values))
  }

  lemma GuardsStored<L>(l: L, loose: seq<L>, underWay: multiset<L>, values: map<L, LockValue>, now: int)
    requires Owned(Some(l), loose, underWay, values) && Compares(DeskOf(Some(l), loose, underWay, values), Guard(now))
    ensures Owned(Some(l), loose, underWay + multiset{l}, values)
    ensures DeskOf(Some(l), loose, underWay + multiset{l}, values)
         == Advance(DeskOf(Some(l), loose, underWay, values), Guard(now))
  {
  }

  lemma GuardsNew<L>(l: L, loose: seq<L>, underWay: multiset<L>, values: map<L, LockValue>, now: int)
    requires Owned(None, loose, underWay, values) && l !in loose
    ensures var values' := values[l := LockValue(0, None)];
      && Owned(None, loose + [l], underWay + multiset{l}, values')
      && DeskOf(None, loose + [l], underWay + multiset{l}, values')
         == Advance(DeskOf(None, loose, underWay, values), Guard(now))
  {
  }

  /** The check holds the stored object (None) or the i-th loose one. */
  predicate HeldAt<L(==)>(l: L, stored: Option<L>, loose: seq<L>, at: Option<nat>) {
    if at.None? then stored == Some(l) else at.value < |loose| && loose[at.value] == l
  }

  /** A list with its i-th element taken out and others put in its place. */
  function Replaced<L>(xs: seq<L>, i: nat, put: seq<L>): seq<L>
    requires i < |xs|
  {
    xs[..i] + put + xs[i + 1..]
  }

  lemma ReplacedHolds<L>(xs: seq<L>, i: nat, put: seq<L>, x: L)
    requires i < |xs| && Distinct(xs)
    ensures x in Replaced(xs, i, put) <==> x in put || (x in xs && x != xs[i])
  {
    if x in xs && x != xs[i] {
      var j :| 0 <= j < |xs| && xs[j] == x;
      assert if j < i then xs[..i][j] == x else xs[i + 1..][j - i - 1] == x;
    }
  }

  lemma ReplacedIsDistinct<L>(xs: seq<L>, i: nat, put: seq<L>)
    requires i < |xs| && Distinct(xs) && Distinct(put) && forall x :: x in put ==> x !in xs || x == xs[i]
    ensures Distinct(Replaced(xs, i, put))
  {
    var ys, n := Replaced(xs, i, put), |put|;
    forall a, b | 0 <= a < b < |ys| ensures ys[a] != ys[b] {
      var u := if a < i then xs[a] else if a < i + n then put[a - i] else xs[a - n + 1];
      var v := if b < i then xs[b] else if b < i + n then put[b - i] else xs[b - n + 1];
      assert ys[a] == u && ys[b] == v;
      if a < i <= b < i + n {
        assert u in xs && v in put;
      } else if i <= a < i + n <= b {
        assert u in put && v in xs;
      }
    }
  }

  /** What the map held goes back among the loose objects. */
  function Back<L>(stored: Option<L>): seq<L> {
    if stored.Some? then [stored.value] else []
  }

  /** The loose objects after a check on l: a right PIN empties the map, a miss stores l. */
  function LooseAfter<L>(l: L, stored: Option<L>, loose: seq<L>, at: Option<nat>, matches: bool): seq<L>
    requires at.Some? ==> at.value < |loose|
  {
    if at.None? then if matches then loose + [l] else loose
    else Replaced(loose, at.value, if matches then [l] + Back(stored) else Back(stored))
  }

  function ValuesAfter<L>(l: L, values: map<L, LockValue>, later: int, matches: bool): map<L, LockValue>
    requires l in values
  {
    if matches then values else values[l := Missed(values[l], later)]
  }

  lemma StoredStaysOwned<L>(l: L, loose: seq<L>, underWay: multiset<L>, values: map<L, LockValue>,
                            later: int, matches: bool)
    requires Owned(Some(l), loose, underWay, values)
    ensures Owned(if matches then None else Some(l), LooseAfter(l, Some(l), loose, None, matches),
                  underWay - multiset{l}, ValuesAfter(l, values, later, matches))
  {
  }

  lemma ReplacedMembers<L>(xs: seq<L>, i: nat, put: seq<L>)
    requires i < |xs| && Distinct(xs)
    ensures forall x :: x in Replaced(xs, i, put) <==> x in put || (x in xs && x != xs[i])
  {
    forall x ensures x in Replaced(xs, i, put) <==> x in put || (x in xs && x != xs[i]) {
      ReplacedHolds(xs, i, put, x);
    }
  }

  lemma BackHolds<L>(stored: Option<L>)
    ensures forall x :: x in Back(stored) <==> stored == Some(x)
  {
  }

  /** The map takes the loose object l, and what it held is loose; or the map is emptied, and both are loose. */
  lemma MissedIsOwned<L>(l: L, stored: Option<L>, loose: seq<L>, underWay: multiset<L>, values: map<L, LockValue>,
                         loose': seq<L>, v: LockValue)
    requires Owned(stored, loose, underWay, values) && l in loose && Distinct(loose')
    requires forall x :: x in loose' <==> x in Back(stored) || (x in loose && x != l)
    ensures Owned(Some(l), loose', underWay - multiset{l}, values[l := v])
  {
    BackHolds(stored);
    forall x | x in underWay - multiset{l} ensures x in loose' || x == l {
      assert x in underWay;
    }
    forall i | 0 <= i < |loose'| ensures loose'[i] in values {
      assert loose'[i] in loose';
    }
  }

  lemma MatchedIsOwned<L>(l: L, stored: Option<L>, loose: seq<L>, underWay: multiset<L>, values: map<L, LockValue>,
                          loose': seq<L>)
    requires Owned(stored, loose, underWay, values) && l in loose && Distinct(loose')
    requires forall x :: x in loose' <==> x in [l] + Back(stored) || (x in loose && x != l)
    ensures Owned(None, loose', underWay - multiset{l}, values)
  {
    BackHolds(stored);
    assert forall x :: x in [l] + Back(stored) <==> x == l || stored == Some(x);
    forall x | x in underWay - multiset{l} ensures x in loose' {
      assert x in underWay;
    }
    forall i | 0 <= i < |loose'| ensures loose'[i] in values {
      assert loose'[i] in loose';
    }
  }

  lemma LooseStaysOwned<L>(stored: Option<L>, loose: seq<L>, underWay: multiset<L>, values: map<L, LockValue>,
                           i: nat, later: int, matches: bool)
    requires Owned(stored, loose, underWay, values) && i < |loose|
    ensures Owned(if matches then None else Some(loose[i]), LooseAfter(loose[i], stored, loose, Some(i), matches),
                  underWay - multiset{loose[i]}, ValuesAfter(loose[i], values, later, matches))
  {
    var l, put := loose[i], if matches then [loose[i]] + Back(stored) else Back(stored);
    ReplacedIsDistinct(loose, i, put);
    ReplacedMembers(loose, i, put);
    if matches {
      MatchedIsOwned(l, stored, loose, underWay, values, Replaced(loose, i, put));
    } else {
      MissedIsOwned(l, stored, loose, underWay, values, Replaced(loose, i, put), Missed(values[l], later));
    }
  }

  lemma FinishesStored<L>(l: L, loose: seq<L>, underWay: multiset<L>, values: map<L, LockValue>,
                          later: int, matches: bool)
    requires Owned(Some(l), loose, underWay, values) && l in underWay
    ensures var loose', values' := LooseAfter(l, Some(l), loose, None, matches), ValuesAfter(l, values, later, matches);
      && Owned(if matches then None else Some(l), loose', underWay - multiset{l}, values')
      && DeskOf(if matches then None else Some(l), loose', underWay - multiset{l}, values')
         == Advance(DeskOf(Some(l), loose, underWay, values), Finish(None, later, matches))
  {
    StoredStaysOwned(l, loose, underWay, values, later, matches);
  }

  /** The objects of a list change as the list does, if all but the one taken out keep their value and checks. */
  lemma ObjectsReplaced<L>(xs: seq<L>, i: nat, put: seq<L>, underWay: multiset<L>, values: map<L, LockValue>,
                           underWay': multiset<L>, values': map<L, LockValue>)
    requires i < |xs| && Distinct(xs)
    requires forall j :: 0 <= j < |xs| ==> xs[j] in values && xs[j] in values'
    requires forall j :: 0 <= j < |put| ==> put[j] in values'
    requires forall j :: 0 <= j < |xs| && j != i ==>
      ObjectOf(xs[j], underWay', values') == ObjectOf(xs[j], underWay, values)
    ensures forall j :: 0 <= j < |Replaced(xs, i, put)| ==> Replaced(xs, i, put)[j] in values'
    ensures Objects(Replaced(xs, i, put), underWay', values')
         == Swapped(Objects(xs, underWay, values), i, Objects(put, underWay', values'))
  {
  }

  /** What a check on another object leaves alone. */
  lemma BackKeeps<L>(l: L, stored: Option<L>, underWay: multiset<L>, values: map<L, LockValue>, v: LockValue)
    requires stored.Some? ==> stored.value in values && stored.value != l
    ensures var values' := values[l := v];
      && Objects(Back(stored), underWay - multiset{l}, values') == Objects(Back(stored), underWay, values)
      && Objects(Back(stored), underWay - multiset{l}, values) == Objects(Back(stored), underWay, values)
      && Objects(Back(stored), underWay, values)
         == if stored.Some? then [ObjectOf(stored.value, underWay, values)] else []
  {
  }

  lemma MissedObjects<L>(stored: Option<L>, loose: seq<L>, underWay: multiset<L>, values: map<L, LockValue>,
                         i: nat, v: LockValue)
    requires Owned(stored, loose, underWay, values) && i < |loose|
    requires Owned(Some(loose[i]), Replaced(loose, i, Back(stored)), underWay - multiset{loose[i]},
                   values[loose[i] := v])
    ensures Objects(Replaced(loose, i, Back(stored)), underWay - multiset{loose[i]}, values[loose[i] := v])
         == Swapped(Objects(loose, underWay, values), i,
                    if stored.Some? then [ObjectOf(stored.value, underWay, values)] else [])
  {
    BackKeeps(loose[i], stored, underWay, values, v);
    ObjectsReplaced(loose, i, Back(stored), underWay, values, underWay - multiset{loose[i]}, values[loose[i] := v]);
  }

  lemma LooseMisses<L>(stored: Option<L>, loose: seq<L>, underWay: multiset<L>, values: map<L, LockValue>,
                       i: nat, later: int)
    requires Owned(stored, loose, underWay, values) && i < |loose| && loose[i] in underWay
    requires Owned(Some(loose[i]), LooseAfter(loose[i], stored, loose, Some(i), false),
                   underWay - multiset{loose[i]}, ValuesAfter(loose[i], values, later, false))
    ensures DeskOf(Some(loose[i]), LooseAfter(loose[i], stored, loose, Some(i), false),
                   underWay - multiset{loose[i]}, ValuesAfter(loose[i], values, later, false))
         == Advance(DeskOf(stored, loose, underWay, values), Finish(Some(i), later, false))
  {
    MissedObjects(stored, loose, underWay, values, i, Missed(values[loose[i]], later));
  }

  lemma ObjectsCons<L>(l: L, xs: seq<L>, underWay: multiset<L>, values: map<L, LockValue>)
    requires l in values && forall j :: 0 <= j < |xs| ==> xs[j] in values
    ensures Objects([l] + xs, underWay, values) == [ObjectOf(l, underWay, values)] + Objects(xs, underWay, values)
  {
  }

  lemma MatchedObjects<L>(stored: Option<L>, loose: seq<L>, underWay: multiset<L>, values: map<L, LockValue>, i: nat)
    requires Owned(stored, loose, underWay, values) && i < |loose|
    requires Owned(None, Replaced(loose, i, [loose[i]] + Back(stored)), underWay - multiset{loose[i]}, values)
    ensures Objects(Replaced(loose, i, [loose[i]] + Back(stored)), underWay - multiset{loose[i]}, values)
         == Swapped(Objects(loose, underWay, values), i,
                    [ObjectOf(loose[i], underWay - multiset{loose[i]}, values)]
                    + if stored.Some? then [ObjectOf(stored.value, underWay, values)] else [])
  {
    var underWay' := underWay - multiset{loose[i]};
    BackKeeps(loose[i], stored, underWay, values, values[loose[i]]);
    ObjectsCons(loose[i], Back(stored), underWay', values);
    ObjectsReplaced(loose, i, [loose[i]] + Back(stored), underWay, values, underWay', values);
  }

  lemma LooseMatches<L>(stored: Option<L>, loose: seq<L>, underWay: multiset<L>, values: map<L, LockValue>,
                        i: nat, later: int)
    requires Owned(stored, loose, underWay, values) && i < |loose| && loose[i] in underWay
    requires Owned(None, LooseAfter(loose[i], stored, loose, Some(i), true), underWay - multiset{loose[i]}, values)
    ensures DeskOf(None, LooseAfter(loose[i], stored, loose, Some(i), true), underWay - multiset{loose[i]}, values)
         == Advance(DeskOf(stored, loose, underWay, values), Finish(Some(i), later, true))
  {
    MatchedObjects(stored, loose, underWay, values, i);
    assert ObjectOf(loose[i], underWay - multiset{loose[i]}, values) == Released(ObjectOf(loose[i], underWay, values));
  }

  lemma FinishesLoose<L>(stored: Option<L>, loose: seq<L>, underWay: multiset<L>, values: map<L, LockValue>,
                         i: nat, later: int, matches: bool)
    requires Owned(stored, loose, underWay, values) && i < |loose| && loose[i] in underWay
    ensures var l := loose[i];
      var loose', values' := LooseAfter(l, stored, loose, Some(i), matches), ValuesAfter(l, values, later, matches);
      && Owned(if matches then None else Some(l), loose', underWay - multiset{l}, values')
      && DeskOf(if matches then None else Some(l), loose', underWay - multiset{l}, values')
         == Advance(DeskOf(stored, loose, underWay, values), Finish(Some(i), later, matches))
  {
    LooseStaysOwned(stored, loose, underWay, values, i, later, matches);
    if matches {
      LooseMatches(stored, loose, underWay, values, i, later);
    } else {
      LooseMisses(stored, loose, underWay, values, i, later);
    }
  }

  // ---- the service ---------------------------------------------------------------------------------------------

  function StoredFor(auth: AuthService, userId: string): Option<Lock>
    reads auth
  {
    if userId in auth.locks then Some(auth.locks[userId]) else None
  }

  /** What is known of one user's checks: the objects only they hold, who holds what, and the objects' values. */
  datatype Books = Books(loose: seq<Lock>, underWay: multiset<Lock>, values: map<Lock, LockValue>)

  ghost predicate OthersApart(auth: AuthService, userId: string, loose: seq<Lock>)
    reads auth
  {
    forall u :: u in auth.locks && u != userId ==> auth.locks[u] !in loose
  }

  ghost predicate Kept(auth: AuthService, userId: string, b: Books)
    reads auth, b.values.Keys
  {
    && auth.Valid() && Owned(StoredFor(auth, userId), b.loose, b.underWay, b.values)
    && OthersApart(auth, userId, b.loose)
    && forall l :: l in b.values ==> b.values[l] == l.Value()
  }

  ghost function DeskAt(auth: AuthService, userId: string, b: Books): Desk
    requires Kept(auth, userId, b)
    reads auth, b.values.Keys
  {
    DeskOf(StoredFor(auth, userId), b.loose, b.underWay, b.values)
  }

  /** A user without an entry and without a check under way has an empty desk. */
  lemma NewUser(auth: AuthService, userId: string)
    requires auth.Valid() && userId !in auth.locks
    ensures Kept(auth, userId, Books([], multiset{}, map[]))
    ensures DeskAt(auth, userId, Books([], multiset{}, map[])) == After([])
  {
  }

  /** Begin is Guard: it compares exactly if the desk does, and the check then holds the stored object or a new one. */
  method BeginGuards(auth: AuthService, userId: string, now: int, ghost b: Books)
    returns (lock: Option<Lock>, ghost b': Books)
    requires Kept(auth, userId, b)
    ensures Kept(auth, userId, b')
    ensures lock.Some? <==> Compares(DeskAt(auth, userId, b), Guard(now))
    ensures DeskAt(auth, userId, b') == Advance(DeskAt(auth, userId, b), Guard(now))
    ensures lock.Some? ==> b'.underWay == b.underWay + multiset{lock.value}
    ensures lock.Some? ==>
      HeldAt(lock.value, StoredFor(auth, userId), b'.loose, if userId in auth.locks then None else Some(|b.loose|))
  {
    lock := auth.Begin(userId, now);
    b' := b;
    assert userId in auth.locks ==>
      userId in auth.Contents() && auth.Contents()[userId] == b.values[auth.locks[userId]];
    if lock.Some? {
      var l := lock.value;
      if userId in auth.locks {
        GuardsStored(l, b.loose, b.underWay, b.values, now);
        b' := b.(underWay := b.underWay + multiset{l});
      } else {
        GuardsNew(l, b.loose, b.underWay, b.values, now);
        b' := Books(b.loose + [l], b.underWay + multiset{l}, b.values[l := LockValue(0, None)]);
      }
    }
  }

  lemma LooseFrom<L>(l: L, stored: Option<L>, loose: seq<L>, at: Option<nat>, matches: bool)
    requires HeldAt(l, stored, loose, at)
    ensures forall x :: x in LooseAfter(l, stored, loose, at, matches) ==> x in loose || stored == Some(x)
  {
  }

  /** A check that finishes, on the books: the desk moves, and no object comes in from elsewhere. */
  lemma FinishMoves(l: Lock, stored: Option<Lock>, b: Books, b': Books, at: Option<nat>, later: int, matches: bool)
    requires Owned(stored, b.loose, b.underWay, b.values) && l in b.underWay && HeldAt(l, stored, b.loose, at)
    requires b' == Books(LooseAfter(l, stored, b.loose, at, matches), b.underWay - multiset{l},
                         ValuesAfter(l, b.values, later, matches))
    ensures var stored' := if matches then None else Some(l);
      && Owned(stored', b'.loose, b'.underWay, b'.values)
      && DeskOf(stored', b'.loose, b'.underWay, b'.values)
         == Advance(DeskOf(stored, b.loose, b.underWay, b.values), Finish(at, later, matches))
    ensures forall x :: x in b'.loose ==> x in b.loose || stored == Some(x)
  {
    if at.None? {
      FinishesStored(l, b.loose, b.underWay, b.values, later, matches);
    } else {
      FinishesLoose(stored, b.loose, b.underWay, b.values, at.value, later, matches);
    }
    LooseFrom(l, stored, b.loose, at, matches);
  }

  /** Storing an object of the user's own, or dropping the entry, keeps the users apart. */
  lemma StayApart(locks: map<string, Lock>, locks': map<string, Lock>, userId: string, lock: Lock,
                  loose: seq<Lock>, loose': seq<Lock>)
    requires forall u, u' :: u in locks && u' in locks && u != u' ==> locks[u] != locks[u']
    requires forall u :: u in locks && u != userId ==> locks[u] !in loose
    requires lock in loose || (userId in locks && lock == locks[userId])
    requires locks' == locks - {userId} || locks' == locks[userId := lock]
    requires forall l :: l in loose' ==> l in loose || (userId in locks && l == locks[userId])
    ensures forall u, u' :: u in locks' && u' in locks' && u != u' ==> locks'[u] != locks'[u']
    ensures forall u :: u in locks' && u != userId ==> locks'[u] !in loose'
  {
  }

  /** Finish is Finish, on whichever object the check holds. */
  method FinishFinishes(auth: AuthService, userId: string, lock: Lock, later: int, matches: bool,
                        ghost b: Books, ghost at: Option<nat>)
    returns (answer: Answer, ghost b': Books)
    requires Kept(auth, userId, b) && lock in b.underWay && HeldAt(lock, StoredFor(auth, userId), b.loose, at)
    modifies auth, lock
    ensures Kept(auth, userId, b') && b'.underWay == b.underWay - multiset{lock}
    ensures DeskAt(auth, userId, b') == Advance(old(DeskAt(auth, userId, b)), Finish(at, later, matches))
  {
    ghost var stored := StoredFor(auth, userId);
    b' := Books(LooseAfter(lock, stored, b.loose, at, matches), b.underWay - multiset{lock},
                ValuesAfter(lock, b.values, later, matches));
    FinishMoves(lock, stored, b, b', at, later, matches);
    answer := auth.Finish(userId, lock, later, matches);
    StayApart(old(auth.locks), auth.locks, userId, lock, b.loose, b'.loose);
  }

  // ---- checks one at a time ------------------------------------------------------------------------------------

  function Entry(d: Desk): Option<LockValue> {
    if d.stored.Some? then Some(LockValue(d.stored.value.attempts, d.stored.value.lockedUntil)) else None
  }

  /** No check is under way. */
  ghost predicate Idle(d: Desk) {
    (d.stored.Some? ==> d.stored.value.held == 0) && forall i :: 0 <= i < |d.loose| ==> d.loose[i].held == 0
  }

  /** A guess of the user, from its guard to its count; the guesses of others do not touch the desk. */
  function MovesOf(d: Desk, g: Guess, userId: string): seq<Move> {
    if g.userId != userId then []
    else if !Compares(d, Guard(g.now)) then [Guard(g.now)]
    else [Guard(g.now), Finish(if d.stored.Some? then None else Some(|d.loose|), g.later, g.matches)]
  }

  function Checks(gs: seq<Guess>, userId: string): seq<Move> {
    if gs == [] then []
    else
      var past := Checks(gs[..|gs| - 1], userId);
      past + MovesOf(After(past), gs[|gs| - 1], userId)
  }

  lemma {:induction false} HeldSum(loose: seq<Object>)
    requires forall i :: 0 <= i < |loose| ==> loose[i].held == 0
    ensures Sum(loose, HeldOf()) == 0
  {
    if loose == [] {
    } else {
      HeldSum(loose[..|loose| - 1]);
    }
  }

  lemma IdleIsOpenNone(d: Desk)
    requires Idle(d)
    ensures Open(d) == 0
  {
    HeldSum(d.loose);
  }

  /** One guess of the user on an idle desk. */
  lemma OneCheck(d: Desk, now: int, later: int, matches: bool, locks: Locks, userId: string)
    requires Idle(d) && Entry(d) == Get(locks, userId)
    ensures Compares(d, Guard(now)) <==> !IsLocked(locks, userId, now)
    ensures var at := if d.stored.Some? then None else Some(|d.loose|);
      var d' := if Compares(d, Guard(now)) then Advance(Advance(d, Guard(now)), Finish(at, later, matches)) else d;
      Idle(d') && Entry(d') == Get(Verified(locks, userId, now, later, matches).0, userId)
  {
  }

  lemma OneMove(ms: seq<Move>, m: Move, k: int)
    requires AtMostOpen(ms, k) && Open(Advance(After(ms), m)) <= k
    ensures After(ms + [m]) == Advance(After(ms), m) && AtMostOpen(ms + [m], k)
    ensures ComparedAt(ms + [m]) == if Compares(After(ms), m) then ComparedAt(ms) + [m.now] else ComparedAt(ms)
  {
    assert (ms + [m])[..|ms|] == ms;
    assert ComparedAt(ms) + [] == ComparedAt(ms);
  }

  lemma TwoMoves(ms: seq<Move>, m: Move, n: Move)
    ensures ms + [m, n] == ms + [m] + [n]
  {
  }

  lemma GuardOpensOne(d: Desk, now: int)
    requires Idle(d) && Compares(d, Guard(now))
    ensures Open(Advance(d, Guard(now))) == 1
  {
    IdleIsOpenNone(d);
    SumSnoc(d.loose, NEW, HeldOf());
  }

  /** One guess of anybody, on the run and the map before it. */
  lemma GuessIsMoves(ms: seq<Move>, locks: Locks, g: Guess, userId: string)
    requires Idle(After(ms)) && Entry(After(ms)) == Get(locks, userId) && AtMostOpen(ms, 1)
    ensures var ms' := ms + MovesOf(After(ms), g, userId);
      && Idle(After(ms')) && AtMostOpen(ms', 1)
      && Entry(After(ms')) == Get(Verified(locks, g.userId, g.now, g.later, g.matches).0, userId)
      && ComparedAt(ms')
         == ComparedAt(ms) + if g.userId == userId && !IsLocked(locks, userId, g.now) then [g.now] else []
  {
    NoMoves(ms);
    if g.userId == userId {
      OwnGuessIsMoves(ms, locks, g);
    }
  }

  lemma NoMoves(ms: seq<Move>)
    ensures ms + [] == ms && ComparedAt(ms) + [] == ComparedAt(ms)
  {
  }

  /** A guess that is refused at the guard, and one that is compared and counted. */
  lemma RefusedMoves(ms: seq<Move>, now: int)
    requires Idle(After(ms)) && AtMostOpen(ms, 1) && !Compares(After(ms), Guard(now))
    ensures After(ms + [Guard(now)]) == After(ms) && AtMostOpen(ms + [Guard(now)], 1)
    ensures ComparedAt(ms + [Guard(now)]) == ComparedAt(ms)
  {
    IdleIsOpenNone(After(ms));
    OneMove(ms, Guard(now), 1);
  }

  lemma ComparedMoves(ms: seq<Move>, now: int, finish: Move, d': Desk)
    requires Idle(After(ms)) && AtMostOpen(ms, 1) && Compares(After(ms), Guard(now))
    requires finish.Finish? && d' == Advance(Advance(After(ms), Guard(now)), finish) && Idle(d')
    ensures After(ms + [Guard(now), finish]) == d' && AtMostOpen(ms + [Guard(now), finish], 1)
    ensures ComparedAt(ms + [Guard(now), finish]) == ComparedAt(ms) + [now]
  {
    var guard := ms + [Guard(now)];
    GuardOpensOne(After(ms), now);
    OneMove(ms, Guard(now), 1);
    IdleIsOpenNone(d');
    OneMove(guard, finish, 1);
    TwoMoves(ms, Guard(now), finish);
  }

  lemma OwnGuessIsMoves(ms: seq<Move>, locks: Locks, g: Guess)
    requires Idle(After(ms)) && Entry(After(ms)) == Get(locks, g.userId) && AtMostOpen(ms, 1)
    ensures var ms' := ms + MovesOf(After(ms), g, g.userId);
      && Idle(After(ms')) && AtMostOpen(ms', 1)
      && Entry(After(ms')) == Get(Verified(locks, g.userId, g.now, g.later, g.matches).0, g.userId)
      && ComparedAt(ms') == if !IsLocked(locks, g.userId, g.now) then ComparedAt(ms) + [g.now] else ComparedAt(ms)
  {
    var d := After(ms);
    OneCheck(d, g.now, g.later, g.matches, locks, g.userId);
    if !Compares(d, Guard(g.now)) {
      RefusedMoves(ms, g.now);
    } else {
      var finish := Finish(if d.stored.Some? then None else Some(|d.loose|), g.later, g.matches);
      ComparedMoves(ms, g.now, finish, Advance(Advance(d, Guard(g.now)), finish));
    }
  }

  /**
   * Guesses one at a time are a run of the user's desk with at most one check under way: it compares the same guesses
   * and leaves the same entry.
   */
  lemma {:induction false} SeparateChecksAreARun(locks: Locks, gs: seq<Guess>, userId: string)
    requires userId !in locks
    ensures var ms := Checks(gs, userId);
      && Idle(After(ms)) && AtMostOpen(ms, 1)
      && Entry(After(ms)) == Get(Play(locks, gs), userId)
      && ComparedAt(ms) == EvaluatedAt(locks, gs, userId)
  {
    if gs == [] {
      IdleIsOpenNone(After([]));
    } else {
      var past := gs[..|gs| - 1];
      SeparateChecksAreARun(locks, past, userId);
      GuessIsMoves(Checks(past, userId), Play(locks, past), gs[|gs| - 1], userId);
    }
  }

  lemma InOrderConcat(ms: seq<Move>, ns: seq<Move>, t: int)
    requires InOrder(ms) && InOrder(ns) && AllWrong(ms) && AllWrong(ns)
    requires (forall m :: m in ms ==> TimeOf(m) <= t) && (forall n :: n in ns ==> t <= TimeOf(n))
    ensures InOrder(ms + ns) && AllWrong(ms + ns)
  {
  }

  lemma MovesInOrder(d: Desk, g: Guess, userId: string)
    requires g.now <= g.later && (g.userId == userId ==> !g.matches)
    ensures var ns := MovesOf(d, g, userId);
      InOrder(ns) && AllWrong(ns) && forall n :: n in ns ==> g.now <= TimeOf(n) <= g.later
  {
  }

  /** The moves are in order and no PIN is right, as the guesses are, so the bound for one check at a time applies. */
  lemma {:induction false} ChecksAreInOrder(gs: seq<Guess>, userId: string)
    requires Ordered(gs) && NeverRight(gs, userId)
    ensures InOrder(Checks(gs, userId)) && AllWrong(Checks(gs, userId))
    ensures forall m :: m in Checks(gs, userId) ==> gs != [] && TimeOf(m) <= gs[|gs| - 1].later
  {
    if gs == [] {
    } else {
      PinLock.PastIsFit(gs, userId);
      var past, g := gs[..|gs| - 1], gs[|gs| - 1];
      ChecksAreInOrder(past, userId);
      MovesInOrder(After(Checks(past, userId)), g, userId);
      InOrderConcat(Checks(past, userId), MovesOf(After(Checks(past, userId)), g, userId), g.now);
    }
  }
}
