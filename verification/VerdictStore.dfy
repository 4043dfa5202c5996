/**
 The verdict half of the durable store.

 A row survives restarts; the `lifetimes` registry does not.  Within one process
 the registry holds the authority over a row's remaining lifetime, so that
 neither a longer configured TTL nor a wall clock that was set back can extend
 it.  `State` and its functions say what each operation does; class `Store`
 is the code.
 */
module VerdictStore {
  import opened Wrappers
  import opened Clock
  import opened Verdict
  import opened Events
  import opened Tables

  /** Digest of the analysis contract and the semantic family. */
  datatype Key = Key(contract: string, scope: Source, family: Family, version: Version, important: bool)

  /** The columns of a verdict; times are Unix seconds. */
  datatype Row = Row(opinion: Opinion, created: int, expires: int)

  datatype State = State(verdicts: Table<Key, Row>, lifetimes: map<Key, Judgment>)

  /** Which database statement fails, if any. */
  datatype Db = Up | ReadFails | WriteFails

  /** The new state, whether the call succeeded, and the verdict found. */
  datatype Reply = Reply(state: State, ok: bool, hit: Option<Judgment>)

  function RowSlot(r: Row): Slot {
    Slot(r.expires, true)
  }

  function Deleted(s: State, key: Key): State {
    State(Delete(s.verdicts, {key}), s.lifetimes - {key})
  }

  function Removed(s: State, key: Key, db: Db): Reply {
    if db == WriteFails then Reply(s, false, None) else Reply(Deleted(s, key), true, None)
  }

  predicate TtlAllowed(ttl: Duration) {
    0 < ttl <= WEEK
  }

  ghost function Stored(ord: Order<Key>, s: State, key: Key, j: Judgment, now: int, ttl: Duration, db: Db): Reply {
    if !Reusable(j.opinion) || !TtlAllowed(ttl) then Reply(s, false, None)
    else if key !in s.lifetimes && STATE_CAPACITY <= |s.lifetimes| then Removed(s, key, db)
    else if db != Up then Reply(s, false, None)
    else
      match MadeRoom(s.verdicts, RowSlot, ord, key)
      case None => Reply(s, false, None)
      case Some(t) =>
        Reply(State(Put(t, key, Row(j.opinion, now, now + WholeSeconds(ttl))), s.lifetimes[key := j]), true, None)
  }

  /** Whether the wall clock allows a row to be used at all. */
  predicate RowLive(r: Row, now: Instant, ttl: Duration) {
    TtlAllowed(ttl) && r.created <= Unix(now) < r.expires && Unix(now) - r.created < WholeSeconds(ttl)
  }

  function MinInt(a: int, b: int): int { if a < b then a else b }

  /** A row turned into a judgment whose elapsed deadline starts to run now. */
  function Anchored(r: Row, now: Instant, ttl: Duration): Judgment {
    var expires := FromUnix(MinInt(r.expires, r.created + WholeSeconds(ttl)));
    Judgment(FromUnix(r.created), expires, WallOnly(now), Add(now, expires.wall - now.wall), r.opinion)
  }

  /** The tighter of the bounds of a row and of the authority already held. */
  function Narrowed(j: Judgment, prior: Judgment): Judgment {
    j.(deadline := if Before(prior.deadline, j.deadline) then prior.deadline else j.deadline,
       expiresAt := if Before(prior.expiresAt, j.expiresAt) then prior.expiresAt else j.expiresAt)
  }

  function Found(s: State, key: Key, now: Instant, ttl: Duration, db: Db): Reply {
    if key !in s.lifetimes && STATE_CAPACITY <= |s.lifetimes| then Reply(s, true, None)
    else if db == ReadFails then Reply(s, false, None)
    else if key !in s.verdicts.rows then Reply(s.(lifetimes := s.lifetimes - {key}), true, None)
    else
      var row := s.verdicts.rows[key];
      if !RowLive(row, now, ttl) then Removed(s, key, db)
      else if !Reusable(row.opinion) then Reply(s, true, None)
      else
        var j := Anchored(row, now, ttl);
        if key in s.lifetimes && !IsZero(s.lifetimes[key].deadline) then
          if !CacheValidAt(s.lifetimes[key], now) then Removed(s, key, db)
          else
            var j' := Narrowed(j, s.lifetimes[key]);
            Reply(s.(lifetimes := s.lifetimes[key := j']), true, Some(j'))
        else Reply(s.(lifetimes := s.lifetimes[key := j]), true, Some(j))
  }

  // ----- what every operation keeps -----

  /** Rows are created by readings later than the zero time. */
  ghost predicate Dated(r: Row) {
    ZERO.wall < r.created * SECOND && r.created <= r.expires
  }

  /** Either no elapsed deadline was recorded, or both bounds were, each from the right clock. */
  ghost predicate Proper(j: Judgment) {
    IsZero(j.deadline) || (j.deadline.mono.Some? && !IsZero(j.expiresAt) && j.expiresAt.mono.None?)
  }

  ghost predicate AllDated(rows: map<Key, Row>) {
    forall k :: k in rows ==> Dated(rows[k])
  }

  ghost predicate AllProper(lifetimes: map<Key, Judgment>) {
    forall k :: k in lifetimes ==> Proper(lifetimes[k])
  }

  ghost predicate Inv(s: State) {
    Counted(s.verdicts) && |s.lifetimes| <= STATE_CAPACITY && AllDated(s.verdicts.rows) && AllProper(s.lifetimes)
  }

  lemma RemoveOne<K, V>(m: map<K, V>, k: K)
    ensures |m - {k}| <= |m|
    ensures k in m ==> |m - {k}| == |m| - 1
  {
    assert (m - {k}).Keys == m.Keys - {k};
    assert |m| == |m.Keys| && |m - {k}| == |(m - {k}).Keys|;
  }

  lemma InsertOne<K, V>(m: map<K, V>, k: K, v: V)
    ensures |m[k := v]| == |m| + (if k in m then 0 else 1)
  {
    assert m[k := v].Keys == m.Keys + {k};
    assert |m| == |m.Keys| && |m[k := v]| == |m[k := v].Keys|;
    if k in m {
      assert m.Keys + {k} == m.Keys;
    }
  }

  lemma RemovedKeepsInv(s: State, key: Key, db: Db)
    requires Inv(s)
    ensures Inv(Removed(s, key, db).state)
  {
    hide Dated, Proper;
    DeleteKeepsCount(s.verdicts, {key});
    RemoveOne(s.lifetimes, key);
  }

  lemma StoredKeepsInv(s: State, t: Table<Key, Row>, key: Key, row: Row, j: Judgment)
    requires Inv(s) && Counted(t) && (forall k :: k in t.rows ==> k in s.verdicts.rows && t.rows[k] == s.verdicts.rows[k])
    requires key in t.rows || |t.rows| < STATE_CAPACITY
    requires key in s.lifetimes || |s.lifetimes| < STATE_CAPACITY
    requires Dated(row) && Proper(j)
    ensures Inv(State(Put(t, key, row), s.lifetimes[key := j]))
  {
    hide Dated, Proper;
    PutKeepsCount(t, key, row);
    InsertOne(s.lifetimes, key, j);
  }

  lemma PutKeepsInv(ord: Order<Key>, s: State, key: Key, j: Judgment, now: int, ttl: Duration, db: Db)
    requires Inv(s) && Injective(ord) && Proper(j) && ZERO.wall < now * SECOND
    ensures Inv(Stored(ord, s, key, j, now, ttl, db).state)
  {
    hide Reusable, MadeRoom, Inv, Removed, Put, Proper;
    RemovedKeepsInv(s, key, db);
    if TtlAllowed(ttl) && (key in s.lifetimes || |s.lifetimes| < STATE_CAPACITY) {
      PutRoom(ord, s, key);
      match MadeRoom(s.verdicts, RowSlot, ord, key) {
        case None =>
        case Some(t) => StoredKeepsInv(s, t, key, Row(j.opinion, now, now + WholeSeconds(ttl)), j);
      }
    }
  }

  lemma PutRoom(ord: Order<Key>, s: State, key: Key)
    requires Inv(s) && Injective(ord)
    ensures MadeRoom(s.verdicts, RowSlot, ord, key).Some?
    ensures var t := MadeRoom(s.verdicts, RowSlot, ord, key).value;
            && Counted(t) && (key in t.rows || |t.rows| < STATE_CAPACITY)
            && forall k :: k in t.rows ==> k in s.verdicts.rows && t.rows[k] == s.verdicts.rows[k]
  {
    hide MadeRoom, AllDated, AllProper;
    MadeRoomSound(s.verdicts, RowSlot, ord, key);
    assert forall k :: k in s.verdicts.rows ==> RowSlot(s.verdicts.rows[k]).free;
    assert s.verdicts.rows != map[] ==> exists k :: k in s.verdicts.rows;
  }

  /** A judgment anchored at a reading inside its row's window is valid at that reading. */
  lemma AnchoredValid(r: Row, now: Instant, ttl: Duration)
    requires Reading(now) && Dated(r) && RowLive(r, now, ttl)
    ensures var j := Anchored(r, now, ttl);
            && CacheValidAt(j, now) && Proper(j)
            && HeldBy(j, now.mono.value + (j.expiresAt.wall - now.wall), j.expiresAt.wall)
            && j.createdAt == FromUnix(r.created) && !IsZero(j.createdAt)
            && j.expiresAt.wall <= r.expires * SECOND
            && now.wall < j.expiresAt.wall
  {
    UnixFloor(now);
    var j := Anchored(r, now, ttl);
    assert Unix(now) < MinInt(r.expires, r.created + WholeSeconds(ttl));
    assert (Unix(now) + 1) * SECOND <= j.expiresAt.wall;
    assert r.created * SECOND <= Unix(now) * SECOND;
  }

  /** What a hit is made of. */
  lemma HitParts(s: State, key: Key, now: Instant, ttl: Duration, db: Db)
    requires Inv(s) && Reading(now) && Found(s, key, now, ttl, db).hit.Some?
    ensures key in s.verdicts.rows
    ensures var r := Found(s, key, now, ttl, db);
            var row := s.verdicts.rows[key];
            && RowLive(row, now, ttl) && Dated(row) && Reusable(row.opinion)
            && r.ok && r.state == s.(lifetimes := s.lifetimes[key := r.hit.value])
            && (key in s.lifetimes || |s.lifetimes| < STATE_CAPACITY)
            && (r.hit.value == Anchored(row, now, ttl)
                || (&& key in s.lifetimes && !IsZero(s.lifetimes[key].deadline)
                    && Proper(s.lifetimes[key]) && CacheValidAt(s.lifetimes[key], now)
                    && r.hit.value == Narrowed(Anchored(row, now, ttl), s.lifetimes[key])))
            && (key in s.lifetimes && !IsZero(s.lifetimes[key].deadline) ==>
                  r.hit.value == Narrowed(Anchored(row, now, ttl), s.lifetimes[key]))
  {
    hide Reusable, RowLive, CacheValidAt, Anchored, Narrowed, IsZero, Counted, Dated, Proper;
  }

  /** A hit is valid when it is returned, and carries bounds of both clocks. */
  lemma HitValid(s: State, key: Key, now: Instant, ttl: Duration, db: Db)
    requires Inv(s) && Reading(now) && Found(s, key, now, ttl, db).hit.Some?
    ensures var j := Found(s, key, now, ttl, db).hit.value;
            && CacheValidAt(j, now) && Proper(j) && !IsZero(j.deadline)
            && j.createdAt == FromUnix(s.verdicts.rows[key].created) && !IsZero(j.createdAt)
            && j.expiresAt.wall <= s.verdicts.rows[key].expires * SECOND
            && now.wall < j.expiresAt.wall
            && j.deadline.mono.value <= now.mono.value + (s.verdicts.rows[key].expires * SECOND - now.wall)
  {
    HitParts(s, key, now, ttl, db);
    hide Found, Inv, RowLive, Dated, Reusable;
    AnchoredValid(s.verdicts.rows[key], now, ttl);
  }

  lemma LookupKeepsInv(s: State, key: Key, now: Instant, ttl: Duration, db: Db)
    requires Inv(s) && Reading(now)
    ensures Inv(Found(s, key, now, ttl, db).state)
  {
    hide Reusable, RowLive, CacheValidAt, Anchored, Narrowed, IsZero, Counted, Dated, Proper;
    var r := Found(s, key, now, ttl, db);
    if r.hit.Some? {
      HitParts(s, key, now, ttl, db);
      HitValid(s, key, now, ttl, db);
      InsertOne(s.lifetimes, key, r.hit.value);
    } else {
      RemovedKeepsInv(s, key, db);
      RemoveOne(s.lifetimes, key);
    }
  }

  // ----- the authority over one row only shrinks -----

  ghost predicate HeldBy(j: Judgment, mono: int, wall: int) {
    && !IsZero(j.deadline) && j.deadline.mono.Some? && j.deadline.mono.value <= mono
    && !IsZero(j.expiresAt) && j.expiresAt.mono.None? && j.expiresAt.wall <= wall
  }

  /** While there is a row for `key`, this process holds bounds for it no later than the given ones. */
  ghost predicate Held(s: State, key: Key, mono: int, wall: int) {
    key in s.verdicts.rows ==>
      key in s.lifetimes && HeldBy(s.lifetimes[key], mono, wall)
  }

  /** A hit never outlives the authority held before it, and becomes the authority itself. */
  lemma HitIsHeld(s: State, key: Key, now: Instant, ttl: Duration, db: Db, mono: int, wall: int)
    requires Inv(s) && Reading(now) && Held(s, key, mono, wall)
    requires Found(s, key, now, ttl, db).hit.Some?
    ensures var r := Found(s, key, now, ttl, db);
            && HeldBy(r.hit.value, mono, wall) && CacheValidAt(r.hit.value, now)
            && r.state == s.(lifetimes := s.lifetimes[key := r.hit.value])
  {
    HitParts(s, key, now, ttl, db);
    HitValid(s, key, now, ttl, db);
    hide Found, Inv, RowLive, Dated, Reusable, CacheValidAt;
  }

  datatype Op =
    | OpPut(key: Key, j: Judgment, at: int, ttl: Duration, db: Db)
    | OpLookup(key: Key, now: Instant, ttl: Duration, db: Db)
    | OpDelete(key: Key, db: Db)

  ghost function Do(ord: Order<Key>, s: State, op: Op): State {
    match op
    case OpPut(key, j, at, ttl, db) => Stored(ord, s, key, j, at, ttl, db).state
    case OpLookup(key, now, ttl, db) => Found(s, key, now, ttl, db).state
    case OpDelete(key, db) => Removed(s, key, db).state
  }

  ghost function DoAll(ord: Order<Key>, s: State, ops: seq<Op>): State {
    if ops == [] then s else Do(ord, DoAll(ord, s, ops[..|ops| - 1]), ops[|ops| - 1])
  }

  /** A call made with clock readings and proper judgments that does not store a new verdict for `key`. */
  ghost predicate Spares(op: Op, key: Key) {
    match op
    case OpPut(k, j, at, _, _) => k != key && Proper(j) && ZERO.wall < at * SECOND
    case OpLookup(_, now, _, _) => Reading(now)
    case OpDelete(_, _) => true
  }

  lemma DoKeepsHeld(ord: Order<Key>, s: State, op: Op, key: Key, mono: int, wall: int)
    requires Inv(s) && Injective(ord) && Held(s, key, mono, wall) && Spares(op, key)
    ensures Inv(Do(ord, s, op)) && Held(Do(ord, s, op), key, mono, wall)
  {
    hide HeldBy, Inv;
    match op {
      case OpPut(k, j, at, ttl, db) =>
        PutKeepsInv(ord, s, k, j, at, ttl, db);
        PutRoom(ord, s, k);
        hide MadeRoom, Reusable, TtlAllowed, Proper;
      case OpLookup(k, now, ttl, db) =>
        LookupKeepsInv(s, k, now, ttl, db);
        var r := Found(s, k, now, ttl, db);
        if k == key && r.hit.Some? {
          HitIsHeld(s, key, now, ttl, db, mono, wall);
        }
        hide RowLive, CacheValidAt, Anchored, Narrowed, Reusable, IsZero;
      case OpDelete(k, db) =>
        RemovedKeepsInv(s, k, db);
    }
  }

  lemma {:induction false} RunKeepsHeld(ord: Order<Key>, s: State, ops: seq<Op>, key: Key, mono: int, wall: int)
    requires Inv(s) && Injective(ord) && Held(s, key, mono, wall)
    requires forall i :: 0 <= i < |ops| ==> Spares(ops[i], key)
    ensures Inv(DoAll(ord, s, ops)) && Held(DoAll(ord, s, ops), key, mono, wall)
  {
    hide Do, Inv, Held, Spares;
    if ops != [] {
      var front, last := ops[..|ops| - 1], ops[|ops| - 1];
      RunKeepsHeld(ord, s, front, key, mono, wall);
      DoKeepsHeld(ord, DoAll(ord, s, front), last, key, mono, wall);
    }
  }

  /**
   Lifetime authority only shrinks.  Take two hits on one row in one process, with
   any calls between them that do not store a new verdict for it.  The later hit
   expires no later than the first, by the wall clock and by elapsed time and
   whatever TTL it is asked with, and it is valid when it is returned.  Until
   then the process keeps its authority over the row, and never over more than
   the registry's capacity.
   */
  lemma {:induction false} AuthorityOnlyShrinks(
      ord: Order<Key>, s: State, key: Key, now1: Instant, ttl1: Duration, db1: Db,
      ops: seq<Op>, now2: Instant, ttl2: Duration, db2: Db)
    requires Inv(s) && Injective(ord) && Reading(now1) && Reading(now2)
    requires forall i :: 0 <= i < |ops| ==> Spares(ops[i], key)
    requires Found(s, key, now1, ttl1, db1).hit.Some?
    ensures var first := Found(s, key, now1, ttl1, db1);
            var s' := DoAll(ord, first.state, ops);
            var second := Found(s', key, now2, ttl2, db2);
            && |s'.lifetimes| <= STATE_CAPACITY
            && (key in s'.verdicts.rows ==> key in s'.lifetimes)
            && (second.hit.Some? ==>
                 && CacheValidAt(second.hit.value, now2)
                 && !Before(first.hit.value.deadline, second.hit.value.deadline)
                 && !Before(first.hit.value.expiresAt, second.hit.value.expiresAt))
  {
    hide Do, Spares, Found, CacheValidAt, Reusable, RowLive;
    var first := Found(s, key, now1, ttl1, db1);
    var mono, wall := first.hit.value.deadline.mono, first.hit.value.expiresAt.wall;
    HitParts(s, key, now1, ttl1, db1);
    HitValid(s, key, now1, ttl1, db1);
    LookupKeepsInv(s, key, now1, ttl1, db1);
    RunKeepsHeld(ord, first.state, ops, key, mono.value, wall);
    var s' := DoAll(ord, first.state, ops);
    if Found(s', key, now2, ttl2, db2).hit.Some? {
      HitIsHeld(s', key, now2, ttl2, db2, mono.value, wall);
    }
  }

  lemma StoredIsHeld(ord: Order<Key>, s: State, key: Key, j: Judgment, at: int, ttl: Duration, db: Db)
    requires Proper(j) && !IsZero(j.deadline) && Stored(ord, s, key, j, at, ttl, db).state != s
    ensures j.deadline.mono.Some?
    ensures Held(Stored(ord, s, key, j, at, ttl, db).state, key, j.deadline.mono.value, j.expiresAt.wall)
  {
    hide MadeRoom, Reusable, TtlAllowed;
  }

  /**
   A published verdict is never renewed either: after any calls that do not store a new
   verdict for its row, whatever TTL they use, a hit keeps inside both bounds it was
   published with.
   */
  lemma {:induction false} PublishedBoundsHold(
      ord: Order<Key>, s: State, key: Key, j: Judgment, at: int, ttl: Duration, db: Db,
      ops: seq<Op>, now: Instant, later: Duration, db': Db)
    requires Inv(s) && Injective(ord) && Proper(j) && ZERO.wall < at * SECOND && Reading(now)
    requires !IsZero(j.deadline) && j.deadline.mono.Some? && Stored(ord, s, key, j, at, ttl, db).state != s
    requires forall i :: 0 <= i < |ops| ==> Spares(ops[i], key)
    ensures var hit := Found(DoAll(ord, Stored(ord, s, key, j, at, ttl, db).state, ops), key, now, later, db').hit;
            hit.Some? ==> CacheValidAt(hit.value, now) && HeldBy(hit.value, j.deadline.mono.value, j.expiresAt.wall)
  {
    hide Do, Spares, Found, CacheValidAt, RowLive, Inv, Stored, Held, HeldBy, Proper;
    var s1 := Stored(ord, s, key, j, at, ttl, db).state;
    PutKeepsInv(ord, s, key, j, at, ttl, db);
    StoredIsHeld(ord, s, key, j, at, ttl, db);
    RunKeepsHeld(ord, s1, ops, key, j.deadline.mono.value, j.expiresAt.wall);
    if Found(DoAll(ord, s1, ops), key, now, later, db').hit.Some? {
      HitIsHeld(DoAll(ord, s1, ops), key, now, later, db', j.deadline.mono.value, j.expiresAt.wall);
    }
  }

  // ----- the code -----

  class Store {
    const ord: Order<Key>
    var verdicts: Table<Key, Row>
    // Lifetime authority belongs to the store, never to evictable rows.
    var lifetimes: map<Key, Judgment>

    ghost function Model(): State
      reads this
    {
      State(verdicts, lifetimes)
    }

    ghost predicate Valid()
      reads this
    {
      Injective(ord) && Inv(Model())
    }

    /** A process opens the durable rows and starts with no authority. */
    constructor (ord: Order<Key>, verdicts: Table<Key, Row>)
      requires Injective(ord) && Counted(verdicts) && AllDated(verdicts.rows)
      ensures this.ord == ord && Model() == State(verdicts, map[]) && Valid()
    {
      this.ord := ord;
      this.verdicts, lifetimes := verdicts, map[];
    }

    method DeleteVerdict(key: Key, db: Db) returns (ok: bool)
      requires Valid()
      modifies this
      ensures Valid() && Reply(Model(), ok, None) == Removed(old(Model()), key, db)
    {
      RemovedKeepsInv(Model(), key, db);
      if db == WriteFails {
        return false;
      }
      verdicts := Delete(verdicts, {key});
      // Safe only after the durable authority is deleted.
      lifetimes := lifetimes - {key};
      return true;
    }

    method PutVerdict(key: Key, j: Judgment, now: int, ttl: Duration, db: Db) returns (ok: bool)
      requires Valid() && Proper(j) && ZERO.wall < now * SECOND
      modifies this
      ensures Valid() && Reply(Model(), ok, None) == Stored(ord, old(Model()), key, j, now, ttl, db)
    {
      hide Inv, Reusable, MadeRoom;
      PutKeepsInv(ord, Model(), key, j, now, ttl, db);
      if !Reusable(j.opinion) || ttl <= 0 || ttl > WEEK {
        return false;
      }
      if key !in lifetimes && |lifetimes| >= STATE_CAPACITY {
        // Nothing may become durable without retained lifetime authority.
        ok := DeleteVerdict(key, db);
        return;
      }
      if db != Up {
        return false;
      }
      var room := MakeRoom(verdicts, RowSlot, ord, key);
      if room.None? {
        return false;
      }
      verdicts := Put(room.value, key, Row(j.opinion, now, now + WholeSeconds(ttl)));
      if key in lifetimes || |lifetimes| < STATE_CAPACITY {
        lifetimes := lifetimes[key := j];
      }
      return true;
    }

    method Lookup(key: Key, now: Instant, ttl: Duration, db: Db) returns (ok: bool, hit: Option<Judgment>)
      requires Valid() && Reading(now)
      modifies this
      ensures Valid() && Reply(Model(), ok, hit) == Found(old(Model()), key, now, ttl, db)
    {
      hide Inv, Reusable, CacheValidAt, IsZero, Before, Add, FromUnix, WallOnly, Unix, WholeSeconds, MinInt;
      LookupKeepsInv(Model(), key, now, ttl, db);
      var known := key in lifetimes;
      if !known && |lifetimes| >= STATE_CAPACITY {
        return true, None;
      }
      if db == ReadFails {
        return false, None;
      }
      if key !in verdicts.rows {
        lifetimes := lifetimes - {key};
        return true, None;
      }
      var row := verdicts.rows[key];
      if ttl <= 0 || ttl > WEEK || Unix(now) < row.created || Unix(now) >= row.expires
         || Unix(now) - row.created >= WholeSeconds(ttl) {
        ok := DeleteVerdict(key, db);
        return ok, None;
      }
      if !Reusable(row.opinion) {
        return true, None;
      }
      var created, expires := FromUnix(row.created), FromUnix(MinInt(row.expires, row.created + WholeSeconds(ttl)));
      var j := Judgment(created, expires, WallOnly(now), Add(now, expires.wall - now.wall), row.opinion);
      if known && !IsZero(lifetimes[key].deadline) {
        var prior := lifetimes[key];
        if !CacheValidAt(prior, now) {
          ok := DeleteVerdict(key, db);
          return ok, None;
        }
        if Before(prior.deadline, j.deadline) {
          j := j.(deadline := prior.deadline);
        }
        if Before(prior.expiresAt, j.expiresAt) {
          j := j.(expiresAt := prior.expiresAt);
        }
      }
      lifetimes := lifetimes[key := j];
      return true, Some(j);
    }
  }
}
