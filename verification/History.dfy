/**
 Where reusable verdicts come from.

 A `Dispatch` records that a provider was asked, when, and for how long its
 answer may be used.  The history of all processes is a set of dispatches.
 */
module History {
  import opened Wrappers
  import opened Clock
  import opened Verdict
  import opened Events
  import opened Tables
  import opened VerdictStore

  /** The window `created .. expires` is in nanoseconds of wall time. */
  datatype Dispatch = Dispatch(
    process: nat, family: Family, key: Option<Key>, opinion: Opinion,
    at: Instant, ttl: Duration, created: int, expires: int)

  /** The window starts no later than the dispatch and ends within its TTL. */
  predicate Fair(d: Dispatch) {
    Reading(d.at) && d.created <= d.at.wall && d.expires <= d.at.wall + d.ttl
  }

  /** All three bounds are set, the deadline on the monotonic clock. */
  predicate Bounded(j: Judgment) {
    !IsZero(j.createdAt) && !IsZero(j.expiresAt) && !IsZero(j.deadline) && j.deadline.mono.Some?
  }

  /** `j` carries the answer to `d` and no more than is left of its lifetime. */
  ghost predicate LeftOf(d: Dispatch, process: nat, fam: Family, j: Judgment) {
    && Fair(d) && d.family == fam && d.opinion == j.opinion && Bounded(j)
    && d.created <= j.createdAt.wall && j.expiresAt.wall <= d.expires
    && (d.process == process ==> j.deadline.mono.value <= d.at.mono.value + d.ttl)
  }

  ghost predicate Grounded(history: set<Dispatch>, process: nat, fam: Family, j: Judgment) {
    exists d :: d in history && LeftOf(d, process, fam, j)
  }

  /**
   Using opinion `o` for family `fam` now is right: it answers a dispatch whose
   wall window contains now and, in the process that made it, whose TTL has not
   elapsed on the monotonic clock.
   */
  ghost predicate InWindow(d: Dispatch, process: nat, fam: Family, o: Opinion, now: Instant) {
    && Fair(d) && d.family == fam && d.opinion == o && now.mono.Some?
    && d.created <= now.wall < d.expires
    && (d.process == process ==> now.mono.value - d.at.mono.value < d.ttl)
  }

  ghost predicate Justified(history: set<Dispatch>, process: nat, fam: Family, o: Opinion, now: Instant) {
    exists d :: d in history && InWindow(d, process, fam, o, now)
  }

  lemma ValidIsJustified(history: set<Dispatch>, process: nat, fam: Family, j: Judgment, now: Instant)
    requires Grounded(history, process, fam, j) && Reading(now) && CacheValidAt(j, now)
    ensures Justified(history, process, fam, j.opinion, now)
  {
    var d :| d in history && LeftOf(d, process, fam, j);
    assert InWindow(d, process, fam, j.opinion, now);
  }

  lemma GroundedGrows(history: set<Dispatch>, more: set<Dispatch>, process: nat, fam: Family, j: Judgment)
    requires Grounded(history, process, fam, j) && history <= more
    ensures Grounded(more, process, fam, j)
  {
    var d :| d in history && LeftOf(d, process, fam, j);
    assert d in more && LeftOf(d, process, fam, j);
  }

  // ----- durable rows -----

  /** This process will not honour the row of `k` after the given monotonic reading. */
  ghost predicate AuthorityUntil(lifetimes: map<Key, Judgment>, k: Key, mono: int) {
    && k in lifetimes && !IsZero(lifetimes[k].deadline)
    && lifetimes[k].deadline.mono.Some? && lifetimes[k].deadline.mono.value <= mono
  }

  ghost predicate RowOf(d: Dispatch, process: nat, lifetimes: map<Key, Judgment>, k: Key, row: Row) {
    && Fair(d) && d.key == Some(k) && d.family == k.family && d.opinion == row.opinion
    && d.created == row.created * SECOND && d.expires == row.expires * SECOND
    && (d.process == process ==> AuthorityUntil(lifetimes, k, d.at.mono.value + d.ttl))
  }

  ghost predicate RowGrounded(history: set<Dispatch>, process: nat, lifetimes: map<Key, Judgment>, k: Key, row: Row) {
    exists d :: d in history && RowOf(d, process, lifetimes, k, row)
  }

  ghost predicate RowsGrounded(history: set<Dispatch>, process: nat, s: State) {
    forall k :: k in s.verdicts.rows ==> RowGrounded(history, process, s.lifetimes, k, s.verdicts.rows[k])
  }

  lemma RowGroundedStays(
      history: set<Dispatch>, more: set<Dispatch>, process: nat,
      before: map<Key, Judgment>, after: map<Key, Judgment>, k: Key, row: Row)
    requires RowGrounded(history, process, before, k, row) && history <= more
    requires k in before ==> k in after && (after[k] == before[k] || Narrows(after[k], before[k]))
    ensures RowGrounded(more, process, after, k, row)
  {
    var d :| d in history && RowOf(d, process, before, k, row);
    assert d in more && RowOf(d, process, after, k, row);
  }

  ghost predicate Narrows(j: Judgment, prior: Judgment) {
    !IsZero(prior.deadline) ==>
      && !IsZero(j.deadline)
      && (prior.deadline.mono.Some? ==>
            j.deadline.mono.Some? && j.deadline.mono.value <= prior.deadline.mono.value)
  }

  /** An operation that adds no row and drops authority only together with the row. */
  lemma FewerRowsGrounded(history: set<Dispatch>, process: nat, s: State, s': State)
    requires RowsGrounded(history, process, s)
    requires forall k :: k in s'.verdicts.rows ==>
               k in s.verdicts.rows && s'.verdicts.rows[k] == s.verdicts.rows[k]
    requires forall k :: k in s'.verdicts.rows && k in s.lifetimes ==>
               k in s'.lifetimes && (s'.lifetimes[k] == s.lifetimes[k] || Narrows(s'.lifetimes[k], s.lifetimes[k]))
    ensures RowsGrounded(history, process, s')
  {
    hide RowGrounded, Narrows;
    forall k | k in s'.verdicts.rows
      ensures RowGrounded(history, process, s'.lifetimes, k, s'.verdicts.rows[k])
    {
      RowGroundedStays(history, history, process, s.lifetimes, s'.lifetimes, k, s.verdicts.rows[k]);
    }
  }

  lemma RowsGroundedGrows(history: set<Dispatch>, more: set<Dispatch>, process: nat, s: State)
    requires RowsGrounded(history, process, s) && history <= more
    ensures RowsGrounded(more, process, s)
  {
    hide RowGrounded;
    forall k | k in s.verdicts.rows
      ensures RowGrounded(more, process, s.lifetimes, k, s.verdicts.rows[k])
    {
      RowGroundedStays(history, more, process, s.lifetimes, s.lifetimes, k, s.verdicts.rows[k]);
    }
  }

  lemma RemovedGrounded(history: set<Dispatch>, process: nat, s: State, key: Key, db: Db)
    requires RowsGrounded(history, process, s)
    ensures RowsGrounded(history, process, Removed(s, key, db).state)
  {
    hide RowsGrounded;
    FewerRowsGrounded(history, process, s, Removed(s, key, db).state);
  }

  /** A lookup without a hit changes nothing, or drops the authority over a missing row, or deletes. */
  lemma MissParts(s: State, key: Key, now: Instant, ttl: Duration, db: Db)
    requires Found(s, key, now, ttl, db).hit.None?
    ensures var s' := Found(s, key, now, ttl, db).state;
            || s' == s || s' == Removed(s, key, db).state
            || (key !in s.verdicts.rows && s' == s.(lifetimes := s.lifetimes - {key}))
  {
    hide CacheValidAt, RowLive, Reusable, Anchored, Narrowed, IsZero;
  }

  /** A durable hit is grounded in the dispatch of its row, and keeps every row grounded. */
  lemma FoundGrounded(history: set<Dispatch>, process: nat, s: State, key: Key, now: Instant, ttl: Duration, db: Db)
    requires RowsGrounded(history, process, s) && Inv(s) && Reading(now)
    ensures var r := Found(s, key, now, ttl, db);
            && RowsGrounded(history, process, r.state)
            && (r.hit.Some? ==> Grounded(history, process, key.family, r.hit.value) && CacheValidAt(r.hit.value, now))
  {
    var r := Found(s, key, now, ttl, db);
    if r.hit.Some? {
      HitValid(s, key, now, ttl, db);
      HitGrounded(history, process, s, key, now, ttl, db);
      HitNarrows(s, key, now, ttl, db);
      hide RowsGrounded, Grounded, Inv, Found, CacheValidAt, Narrows;
      FewerRowsGrounded(history, process, s, r.state);
    } else {
      MissParts(s, key, now, ttl, db);
      RemovedGrounded(history, process, s, key, db);
      hide RowsGrounded, Inv, Found, Removed;
      FewerRowsGrounded(history, process, s, s.(lifetimes := s.lifetimes - (if key in s.verdicts.rows then {} else {key})));
    }
  }

  lemma HitNarrows(s: State, key: Key, now: Instant, ttl: Duration, db: Db)
    requires Inv(s) && Reading(now) && Found(s, key, now, ttl, db).hit.Some?
    ensures var r := Found(s, key, now, ttl, db);
            && r.state == s.(lifetimes := s.lifetimes[key := r.hit.value])
            && (key in s.lifetimes ==> Narrows(r.hit.value, s.lifetimes[key]))
  {
    HitParts(s, key, now, ttl, db);
    HitValid(s, key, now, ttl, db);
    hide Inv, Found, CacheValidAt, RowLive, Reusable;
  }

  lemma HitGrounded(history: set<Dispatch>, process: nat, s: State, key: Key, now: Instant, ttl: Duration, db: Db)
    requires RowsGrounded(history, process, s) && Inv(s) && Reading(now)
    requires Found(s, key, now, ttl, db).hit.Some?
    ensures Grounded(history, process, key.family, Found(s, key, now, ttl, db).hit.value)
  {
    HitParts(s, key, now, ttl, db);
    HitValid(s, key, now, ttl, db);
    var j := Found(s, key, now, ttl, db).hit.value;
    var row := s.verdicts.rows[key];
    assert RowGrounded(history, process, s.lifetimes, key, row);
    var d :| d in history && RowOf(d, process, s.lifetimes, key, row);
    hide Found, Inv, CacheValidAt, RowLive, Reusable, RowsGrounded;
    assert LeftOf(d, process, key.family, j);
  }

  /** Storing the answer to a dispatch with the lifetime that began at the dispatch. */
  lemma StoredGrounded(
      history: set<Dispatch>, process: nat, ord: Order<Key>, s: State, key: Key, j: Judgment,
      now: int, ttl: Duration, db: Db, d: Dispatch)
    requires RowsGrounded(history, process, s) && Inv(s) && Injective(ord)
    requires d in history
    requires RowOf(d, process, map[key := j], key, Row(j.opinion, now, now + WholeSeconds(ttl)))
    ensures RowsGrounded(history, process, Stored(ord, s, key, j, now, ttl, db).state)
  {
    PutRoom(ord, s, key);
    RemovedGrounded(history, process, s, key, db);
    var r := Stored(ord, s, key, j, now, ttl, db);
    hide MadeRoom, Reusable, TtlAllowed, Inv, Put;
    forall k | k in r.state.verdicts.rows
      ensures RowGrounded(history, process, r.state.lifetimes, k, r.state.verdicts.rows[k])
    {
      StoredRowGrounded(history, process, ord, s, key, j, now, ttl, db, d, k);
    }
  }

  lemma StoredRowGrounded(
      history: set<Dispatch>, process: nat, ord: Order<Key>, s: State, key: Key, j: Judgment,
      now: int, ttl: Duration, db: Db, d: Dispatch, k: Key)
    requires RowsGrounded(history, process, s) && Inv(s) && Injective(ord)
    requires d in history
    requires RowOf(d, process, map[key := j], key, Row(j.opinion, now, now + WholeSeconds(ttl)))
    requires k in Stored(ord, s, key, j, now, ttl, db).state.verdicts.rows
    ensures var s' := Stored(ord, s, key, j, now, ttl, db).state;
            RowGrounded(history, process, s'.lifetimes, k, s'.verdicts.rows[k])
  {
    PutRoom(ord, s, key);
    RemovedGrounded(history, process, s, key, db);
    var r := Stored(ord, s, key, j, now, ttl, db);
    hide MadeRoom, Reusable, TtlAllowed, Inv;
    if r.state != s && r.state != Removed(s, key, db).state {
      if k == key {
        assert RowOf(d, process, r.state.lifetimes, k, r.state.verdicts.rows[k]);
      } else {
        assert k in s.verdicts.rows;
        RowGroundedStays(history, history, process, s.lifetimes, r.state.lifetimes, k, s.verdicts.rows[k]);
      }
    }
  }

  /** A restart forgets all authority; every earlier dispatch then belongs to another process. */
  lemma RestartGrounded(history: set<Dispatch>, process: nat, s: State)
    requires RowsGrounded(history, process, s) && forall d :: d in history ==> d.process <= process
    ensures RowsGrounded(history, process + 1, s.(lifetimes := map[]))
  {
    forall k | k in s.verdicts.rows
      ensures RowGrounded(history, process + 1, map[], k, s.verdicts.rows[k])
    {
      assert RowGrounded(history, process, s.lifetimes, k, s.verdicts.rows[k]);
      var d :| d in history && RowOf(d, process, s.lifetimes, k, s.verdicts.rows[k]);
      assert RowOf(d, process + 1, map[], k, s.verdicts.rows[k]);
    }
  }
}
