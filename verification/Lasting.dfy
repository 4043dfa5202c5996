/** What is stored is found again: a durable verdict serves for the whole of its window. */
module Lasting {
  import opened Wrappers
  import opened Clock
  import opened Verdict
  import opened Events
  import opened Tables
  import opened VerdictStore
  import CachedJudge

  /** The whole second at which a verdict dispatched at `t0` ends, in nanoseconds. */
  function End(t0: Instant, ttl: Duration): int {
    (Unix(t0) + WholeSeconds(ttl)) * SECOND
  }

  /** The wall time of the last lookup that found the verdict, and the elapsed time until which it may be used. */
  datatype Mark = Mark(at: int, until: int)

  function FirstMark(t0: Instant, ttl: Duration): Mark
    requires t0.mono.Some?
  {
    Mark(t0.wall, t0.mono.value + (End(t0, ttl) - t0.wall))
  }

  /** The reading is not behind the last lookup, the window has not ended, and the time that was left has not elapsed. */
  predicate Allows(m: Mark, t0: Instant, ttl: Duration, now: Instant) {
    now.mono.Some? && m.at <= now.wall < End(t0, ttl) && now.mono.value < m.until
  }

  /** A lookup that finds the verdict leaves no more elapsed time than the wall clock then did. */
  function NextMark(m: Mark, t0: Instant, ttl: Duration, now: Instant): Mark {
    if Allows(m, t0, ttl, now) then Mark(now.wall, MinInt(m.until, now.mono.value + (End(t0, ttl) - now.wall))) else m
  }

  /** The mark after the lookups of `key` that could read its row. */
  function MarkAfter(ops: seq<Op>, key: Key, t0: Instant, ttl: Duration): Mark
    requires t0.mono.Some?
  {
    if ops == [] then FirstMark(t0, ttl)
    else
      var m, op := MarkAfter(ops[..|ops| - 1], key, t0, ttl), ops[|ops| - 1];
      if op.OpLookup? && op.key == key && op.db != ReadFails then NextMark(m, t0, ttl, op.now) else m
  }

  function Authority(o: Opinion, t0: Instant, ttl: Duration, m: Mark): Judgment {
    Judgment(FromUnix(Unix(t0)), FromUnix(Unix(t0) + WholeSeconds(ttl)), Instant(m.at, None),
             Instant(End(t0, ttl), Some(m.until)), o)
  }

  /** As long as there is a row, it is this verdict, and the process may use it as far as the mark says. */
  ghost predicate Lives(s: State, key: Key, o: Opinion, t0: Instant, ttl: Duration, m: Mark) {
    && t0.wall <= m.at
    && (key in s.verdicts.rows ==>
          && s.verdicts.rows[key] == Row(o, Unix(t0), Unix(t0) + WholeSeconds(ttl))
          && key in s.lifetimes && s.lifetimes[key] == Authority(o, t0, ttl, m))
  }

  /** Other keys are used in any way; `key` is only looked up, with no shorter TTL. */
  ghost predicate OnlyLookups(ops: seq<Op>, key: Key, ttl: Duration) {
    forall i :: 0 <= i < |ops| && ops[i].key == key ==> ops[i].OpLookup? && ttl <= ops[i].ttl <= WEEK
  }

  lemma WindowIs(o: Opinion, t0: Instant, ttl: Duration, m: Mark, now: Instant, ttl': Duration)
    requires Reading(t0) && Reading(now) && TtlAllowed(ttl) && ttl <= ttl' <= WEEK && t0.wall <= m.at
    ensures var row := Row(o, Unix(t0), Unix(t0) + WholeSeconds(ttl));
            (RowLive(row, now, ttl') && CacheValidAt(Authority(o, t0, ttl, m), now)) <==> Allows(m, t0, ttl, now)
    ensures !IsZero(Authority(o, t0, ttl, m).deadline)
  {
    UnixFloor(now);
    UnixFloor(t0);
  }

  lemma AnchoredAgain(o: Opinion, t0: Instant, ttl: Duration, m: Mark, now: Instant, ttl': Duration)
    requires Reading(now) && Allows(m, t0, ttl, now) && TtlAllowed(ttl) && ttl <= ttl' <= WEEK
    ensures var j := Anchored(Row(o, Unix(t0), Unix(t0) + WholeSeconds(ttl)), now, ttl');
            Narrowed(j, Authority(o, t0, ttl, m)) == Authority(o, t0, ttl, NextMark(m, t0, ttl, now))
  {
  }

  /** A lookup finds the verdict exactly while the mark allows it, and moves the mark. */
  lemma LookupLives(s: State, key: Key, o: Opinion, t0: Instant, ttl: Duration, m: Mark, now: Instant, ttl': Duration, db: Db)
    requires Reading(t0) && Reading(now) && TtlAllowed(ttl) && ttl <= ttl' <= WEEK
    requires Reusable(o) && Lives(s, key, o, t0, ttl, m)
    ensures var r := Found(s, key, now, ttl', db);
            && Lives(r.state, key, o, t0, ttl, if db != ReadFails then NextMark(m, t0, ttl, now) else m)
            && (db != ReadFails && key in s.verdicts.rows ==>
                  (r.hit.Some? <==> Allows(m, t0, ttl, now)) && (r.hit.Some? ==> r.hit.value.opinion == o))
  {
    WindowIs(o, t0, ttl, m, now, ttl');
    if Allows(m, t0, ttl, now) {
      AnchoredAgain(o, t0, ttl, m, now, ttl');
    }
    hide RowLive, CacheValidAt, Anchored, Narrowed, Authority, Reusable, Unix, WholeSeconds, IsZero, End;
  }

  lemma DoLives(ord: Order<Key>, s: State, op: Op, key: Key, o: Opinion, t0: Instant, ttl: Duration, m: Mark)
    requires Inv(s) && Injective(ord) && SoundOp(op) && Reading(t0) && TtlAllowed(ttl)
    requires Reusable(o) && Lives(s, key, o, t0, ttl, m)
    requires op.key == key ==> op.OpLookup? && ttl <= op.ttl <= WEEK
    ensures Lives(Do(ord, s, op), key, o, t0, ttl,
                  if op.OpLookup? && op.key == key && op.db != ReadFails then NextMark(m, t0, ttl, op.now) else m)
  {
    hide Reusable, Anchored, Narrowed, Authority, RowLive, CacheValidAt, IsZero, MadeRoom, NextMark, Proper;
    match op {
      case OpPut(k, j, at, ttl', db) =>
        PutRoom(ord, s, k);
      case OpLookup(k, now, ttl', db) =>
        if k == key {
          LookupLives(s, key, o, t0, ttl, m, now, ttl', db);
        }
      case OpDelete(k, db) =>
    }
  }

  lemma {:induction false} RunLives(ord: Order<Key>, s: State, ops: seq<Op>, key: Key, o: Opinion, t0: Instant, ttl: Duration)
    requires Inv(s) && Injective(ord) && Reusable(o) && Reading(t0) && TtlAllowed(ttl)
    requires Lives(s, key, o, t0, ttl, FirstMark(t0, ttl)) && OnlyLookups(ops, key, ttl) && Sound(ops)
    ensures Inv(DoAll(ord, s, ops)) && Lives(DoAll(ord, s, ops), key, o, t0, ttl, MarkAfter(ops, key, t0, ttl))
  {
    hide Do, Inv, Lives, Reusable, SoundOp, NextMark;
    if ops != [] {
      var front := ops[..|ops| - 1];
      RunLives(ord, s, front, key, o, t0, ttl);
      DoLives(ord, DoAll(ord, s, front), ops[|ops| - 1], key, o, t0, ttl, MarkAfter(front, key, t0, ttl));
      DoKeepsInv(ord, DoAll(ord, s, front), ops[|ops| - 1]);
    }
  }

  /** Calls are made with clock readings and judgments with both bounds or none. */
  ghost predicate Sound(ops: seq<Op>) {
    forall i :: 0 <= i < |ops| ==> SoundOp(ops[i])
  }

  ghost predicate SoundOp(op: Op) {
    match op
    case OpPut(_, j, at, _, _) => Proper(j) && ZERO.wall < at * SECOND
    case OpLookup(_, now, _, _) => Reading(now)
    case OpDelete(_, _) => true
  }

  lemma DoKeepsInv(ord: Order<Key>, s: State, op: Op)
    requires Inv(s) && Injective(ord) && SoundOp(op)
    ensures Inv(Do(ord, s, op))
  {
    hide Stored, Found, Removed, Inv;
    match op {
      case OpPut(k, j, at, ttl, db) => PutKeepsInv(ord, s, k, j, at, ttl, db);
      case OpLookup(k, now, ttl, db) => LookupKeepsInv(s, k, now, ttl, db);
      case OpDelete(k, db) => RemovedKeepsInv(s, k, db);
    }
  }

  lemma StoredLives(ord: Order<Key>, s: State, key: Key, o: Opinion, t0: Instant, ttl: Duration)
    requires Inv(s) && Injective(ord) && Reusable(o) && Reading(t0) && TtlAllowed(ttl)
    requires key in s.lifetimes || |s.lifetimes| < STATE_CAPACITY
    ensures var r := Stored(ord, s, key, CachedJudge.Stamped(o, t0, ttl), Unix(t0), ttl, Up);
            && r.ok && key in r.state.verdicts.rows && Inv(r.state) && Lives(r.state, key, o, t0, ttl, FirstMark(t0, ttl))
  {
    var j := CachedJudge.Stamped(o, t0, ttl);
    PutRoom(ord, s, key);
    StampedIs(o, t0, ttl);
    UnixFloor(t0);
    PutKeepsInv(ord, s, key, j, Unix(t0), ttl, Up);
    hide MadeRoom, CachedJudge.Stamped, Authority, Proper, Inv;
  }

  lemma StampedIs(o: Opinion, t0: Instant, ttl: Duration)
    requires Reading(t0) && TtlAllowed(ttl)
    ensures var j := CachedJudge.Stamped(o, t0, ttl); j == Authority(o, t0, ttl, FirstMark(t0, ttl)) && Proper(j)
    ensures ZERO.wall < Unix(t0) * SECOND
  {
    UnixFloor(t0);
  }

  /**
   Stored verdicts are found.  A reusable verdict is stored with the lifetime of its
   dispatch; other keys are used in any way, its own is looked up at any readings, and its
   row is not evicted.  Then a lookup finds the very opinion exactly when the wall clock is
   not behind the last lookup that did, the window has not ended, and the elapsed time that
   was left at the dispatch and at each of those lookups is not over.
   */
  lemma {:induction false} StoredIsFound(
      ord: Order<Key>, s: State, key: Key, o: Opinion, t0: Instant, ttl: Duration,
      ops: seq<Op>, now: Instant, ttl': Duration, db: Db)
    requires Inv(s) && Injective(ord) && Reusable(o) && Reading(t0) && TtlAllowed(ttl)
    requires key in s.lifetimes || |s.lifetimes| < STATE_CAPACITY
    requires OnlyLookups(ops, key, ttl) && Sound(ops)
    requires Reading(now) && ttl <= ttl' <= WEEK && db != ReadFails
    requires var s1 := Stored(ord, s, key, CachedJudge.Stamped(o, t0, ttl), Unix(t0), ttl, Up).state;
             key in DoAll(ord, s1, ops).verdicts.rows
    ensures var s1 := Stored(ord, s, key, CachedJudge.Stamped(o, t0, ttl), Unix(t0), ttl, Up).state;
            var hit := Found(DoAll(ord, s1, ops), key, now, ttl', db).hit;
            && (hit.Some? <==> Allows(MarkAfter(ops, key, t0, ttl), t0, ttl, now))
            && (hit.Some? ==> hit.value.opinion == o)
  {
    StoredLives(ord, s, key, o, t0, ttl);
    hide Stored, Found, Lives, Inv, DoAll, Reusable, CachedJudge.Stamped, Allows;
    var s1 := Stored(ord, s, key, CachedJudge.Stamped(o, t0, ttl), Unix(t0), ttl, Up).state;
    RunLives(ord, s1, ops, key, o, t0, ttl);
    LookupLives(DoAll(ord, s1, ops), key, o, t0, ttl, MarkAfter(ops, key, t0, ttl), now, ttl', db);
  }

  /** A reading of the same process after `t0`, on clocks that ran evenly. */
  predicate Steady(t0: Instant, t: Instant) {
    Reading(t0) && Reading(t) && t0.wall <= t.wall && t.wall - t0.wall == t.mono.value - t0.mono.value
  }

  /** On steady clocks that means until the end of the window, however often it was looked up. */
  lemma {:induction false} SteadyMarks(ops: seq<Op>, key: Key, t0: Instant, ttl: Duration, now: Instant)
    requires forall i :: 0 <= i < |ops| && ops[i].OpLookup? && ops[i].key == key ==> Steady(t0, ops[i].now) && ops[i].now.wall <= now.wall
    requires Steady(t0, now)
    ensures var m := MarkAfter(ops, key, t0, ttl);
            t0.wall <= m.at <= now.wall && m.until == t0.mono.value + (End(t0, ttl) - t0.wall)
    ensures Allows(MarkAfter(ops, key, t0, ttl), t0, ttl, now) <==> now.wall < End(t0, ttl)
  {
    hide End;
    if ops != [] {
      SteadyMarks(ops[..|ops| - 1], key, t0, ttl, now);
    }
  }

  /**
   A restart forgets the registry, not the verdicts: a row whose window contains the
   reading is found by the new process, for what is left of the window.
   */
  lemma {:induction false} RestartFinds(s: State, key: Key, now: Instant, ttl: Duration, db: Db)
    requires Inv(s) && Reading(now) && TtlAllowed(ttl) && db != ReadFails
    requires key in s.verdicts.rows && Reusable(s.verdicts.rows[key].opinion)
    ensures var row := s.verdicts.rows[key];
            var hit := Found(s.(lifetimes := map[]), key, now, ttl, db).hit;
            var end := (if row.expires < row.created + WholeSeconds(ttl) then row.expires else row.created + WholeSeconds(ttl)) * SECOND;
            && (hit.Some? <==> row.created * SECOND <= now.wall < end)
            && (hit.Some? ==> hit.value.opinion == row.opinion && hit.value.deadline.mono == Some(now.mono.value + (end - now.wall)))
  {
    UnixFloor(now);
    var row := s.verdicts.rows[key];
    hide Inv, Reusable, CacheValidAt;
    LiveIs(row, now, ttl);
  }

  lemma LiveIs(row: Row, now: Instant, ttl: Duration)
    requires TtlAllowed(ttl)
    ensures var end := (if row.expires < row.created + WholeSeconds(ttl) then row.expires else row.created + WholeSeconds(ttl)) * SECOND;
            RowLive(row, now, ttl) <==> row.created * SECOND <= now.wall < end
  {
    UnixFloor(now);
  }

  // ----- one call -----

  /** Neither the row nor the authority of any other key is touched. */
  ghost predicate OthersStay(s: State, s': State, key: Key) {
    forall k :: k != key ==>
      && (k in s'.verdicts.rows <==> k in s.verdicts.rows) && (k in s'.lifetimes <==> k in s.lifetimes)
      && (k in s.verdicts.rows ==> s'.verdicts.rows[k] == s.verdicts.rows[k])
      && (k in s.lifetimes ==> s'.lifetimes[k] == s.lifetimes[k])
  }

  /** The row and its authority are gone, or the statement failed and nothing changed. */
  ghost predicate Gone(s: State, r: Reply, key: Key, db: Db) {
    if db == WriteFails then !r.ok && r.state == s
    else r.ok && key !in r.state.verdicts.rows && key !in r.state.lifetimes && OthersStay(s, r.state, key)
  }

  /** A deleted verdict is gone: its row and its authority together, or neither when the statement fails; no lookup finds it. */
  lemma {:induction false} DeletedIsGone(s: State, key: Key, db: Db, now: Instant, ttl: Duration, db': Db)
    ensures Gone(s, Removed(s, key, db), key, db)
    ensures Removed(s, key, db).ok ==> Found(Removed(s, key, db).state, key, now, ttl, db').hit.None?
  {
    RemovedIsGone(s, key, db);
    hide RowLive, Reusable, CacheValidAt, IsZero, Removed, OthersStay;
  }

  /** The row holds this opinion and its seconds, and this judgment is the authority over it; rows may have been evicted for it. */
  ghost predicate Written(s: State, s': State, key: Key, j: Judgment, at: int, ttl: Duration) {
    && key in s'.verdicts.rows && s'.lifetimes == s.lifetimes[key := j]
    && s'.verdicts.rows[key] == Row(j.opinion, at, at + ttl / SECOND)
    && forall k :: k in s'.verdicts.rows && k != key ==> k in s.verdicts.rows && s'.verdicts.rows[k] == s.verdicts.rows[k]
  }

  lemma PutWrites(ord: Order<Key>, s: State, key: Key, j: Judgment, at: int, ttl: Duration)
    requires Inv(s) && Injective(ord) && Reusable(j.opinion) && TtlAllowed(ttl)
    requires key in s.lifetimes || |s.lifetimes| < STATE_CAPACITY
    ensures var r := Stored(ord, s, key, j, at, ttl, Up); r.ok && Written(s, r.state, key, j, at, ttl)
  {
    PutRoom(ord, s, key);
    hide MadeRoom, Reusable, Inv, Injective;
  }

  /**
   What is stored.  Only a reusable verdict with a time to live of up to a week is; when the
   registry has no room for its authority, the old row is deleted instead.  A row that is
   stored holds exactly this opinion and its seconds, with this judgment as its authority.
   */
  lemma {:induction false} StoresExactly(ord: Order<Key>, s: State, key: Key, j: Judgment, at: int, ttl: Duration, db: Db)
    requires Inv(s) && Injective(ord)
    ensures var r := Stored(ord, s, key, j, at, ttl, db);
            if !Reusable(j.opinion) || ttl <= 0 || ttl > 604800 * SECOND then r == Reply(s, false, None)
            else if key !in s.lifetimes && |s.lifetimes| >= 10000 then Gone(s, r, key, db)
            else if db != Up then r == Reply(s, false, None)
            else r.ok && Written(s, r.state, key, j, at, ttl)
  {
    RemovedIsGone(s, key, db);
    if Reusable(j.opinion) && TtlAllowed(ttl) && (key in s.lifetimes || |s.lifetimes| < STATE_CAPACITY) {
      PutWrites(ord, s, key, j, at, ttl);
    }
    hide MadeRoom, Reusable, Inv, Injective, Gone, Removed, Written;
  }

  /** The row may be used at the reading: its own seconds and those of the configured time to live are not over. */
  predicate InItsWindow(row: Row, now: Instant, ttl: Duration) {
    && 0 < ttl && !(ttl > 604800 * SECOND)
    && row.created * SECOND <= now.wall && now.wall < row.expires * SECOND && now.wall < (row.created + ttl / SECOND) * SECOND
  }

  /** The process may use the row: it holds no authority over it yet, or one that is valid at the reading. */
  predicate MayUse(s: State, key: Key, now: Instant) {
    key in s.lifetimes && !IsZero(s.lifetimes[key].deadline) ==> CacheValidAt(s.lifetimes[key], now)
  }

  /** The row answers, and the answer's bounds are the authority from now on. */
  ghost predicate Hits(s: State, r: Reply, key: Key)
    requires key in s.verdicts.rows
  {
    r.ok && r.hit.Some? && r.hit.value.opinion == s.verdicts.rows[key].opinion
    && r.state == s.(lifetimes := s.lifetimes[key := r.hit.value])
  }

  ghost predicate LookedUp(s: State, r: Reply, key: Key, now: Instant, ttl: Duration, db: Db) {
    if key !in s.lifetimes && |s.lifetimes| >= 10000 then r == Reply(s, true, None)
    else if db == ReadFails then r == Reply(s, false, None)
    else if key !in s.verdicts.rows then r == Reply(s.(lifetimes := s.lifetimes - {key}), true, None)
    else
      var row := s.verdicts.rows[key];
      if !InItsWindow(row, now, ttl) then r.hit.None? && Gone(s, r, key, db)
      else if !Reusable(row.opinion) then r == Reply(s, true, None)
      else if MayUse(s, key, now) then Hits(s, r, key)
      else r.hit.None? && Gone(s, r, key, db)
  }

  /**
   What a lookup finds and leaves.  It finds the opinion of a reusable row in its window
   over which the process has no authority yet, or one that is valid at the reading; it
   deletes a row out of its window or authority, forgets the authority over a row that
   is not there, and touches nothing else.
   */
  lemma {:induction false} LookupsExactly(s: State, key: Key, now: Instant, ttl: Duration, db: Db)
    ensures LookedUp(s, Found(s, key, now, ttl, db), key, now, ttl, db)
  {
    if key in s.verdicts.rows {
      InWindowIs(s.verdicts.rows[key], now, ttl);
    }
    RemovedIsGone(s, key, db);
    hide RowLive, InItsWindow, CacheValidAt, Anchored, Reusable, IsZero, Gone, Removed;
  }

  lemma RemovedIsGone(s: State, key: Key, db: Db)
    ensures Gone(s, Removed(s, key, db), key, db) && Removed(s, key, db).hit.None?
  {
  }

  lemma InWindowIs(row: Row, now: Instant, ttl: Duration)
    ensures RowLive(row, now, ttl) <==> InItsWindow(row, now, ttl)
  {
    UnixFloor(now);
  }
}
