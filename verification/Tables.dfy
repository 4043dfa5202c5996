/**
 Bounded durable tables.  A table carries the row counter that triggers keep and
 the number of rows evicted so far; both change in the transaction of the rows.
 */
module Tables {
  import opened Wrappers

  const STATE_CAPACITY: nat := 10_000

  datatype Table<K, V> = Table(rows: map<K, V>, count: int, evicted: nat)

  /** What eviction looks at: the time a row is ordered by, and whether it may go at all. */
  datatype Slot = Slot(at: int, free: bool)

  /** Keys are hexadecimal digests of one length, so they are ordered like numbers. */
  type Order<!K> = K -> nat

  ghost predicate Injective<K(!new)>(ord: Order<K>) {
    forall a, b :: ord(a) == ord(b) ==> a == b
  }

  /** Insert a row, or update the row of the same key; only an insertion fires the counter. */
  function Put<K, V>(t: Table<K, V>, k: K, v: V): Table<K, V> {
    t.(rows := t.rows[k := v], count := if k in t.rows then t.count else t.count + 1)
  }

  /** Delete rows; the counter fires once for each. */
  function Delete<K, V>(t: Table<K, V>, ks: set<K>): Table<K, V> {
    t.(rows := t.rows - ks, count := t.count - |t.rows.Keys * ks|)
  }

  ghost predicate Older<K>(slots: map<K, Slot>, ord: Order<K>, a: K, b: K)
    requires a in slots && b in slots
  {
    slots[a].at < slots[b].at || (slots[a].at == slots[b].at && ord(a) < ord(b))
  }

  ghost function Free<K>(slots: map<K, Slot>): set<K> {
    set k | k in slots && slots[k].free
  }

  /** Deleting at most `n` free rows, the oldest first, deletes exactly `victims`. */
  ghost predicate OldestFree<K>(slots: map<K, Slot>, ord: Order<K>, n: nat, victims: set<K>) {
    && victims <= Free(slots)
    && |victims| == (if n <= |Free(slots)| then n else |Free(slots)|)
    && forall v, k :: v in victims && k in Free(slots) && k !in victims ==> Older(slots, ord, v, k)
  }

  lemma OldestFreeUnique<K(!new)>(slots: map<K, Slot>, ord: Order<K>, n: nat, a: set<K>, b: set<K>)
    requires OldestFree(slots, ord, n, a) && OldestFree(slots, ord, n, b)
    ensures a == b
  {
    if a != b {
      if a <= b {
        SmallerSubset(a, b);
      } else if b <= a {
        SmallerSubset(b, a);
      } else {
        var x :| x in a && x !in b;
        var y :| y in b && y !in a;
        OlderOneWay(slots, ord, x, y);
        assert false;
      }
    }
  }

  lemma OlderOneWay<K>(slots: map<K, Slot>, ord: Order<K>, a: K, b: K)
    requires a in slots && b in slots
    ensures !(Older(slots, ord, a, b) && Older(slots, ord, b, a))
  {
  }

  lemma SmallerSubset<K>(a: set<K>, b: set<K>)
    requires a < b
    ensures |a| < |b|
  {
    assert b == a + (b - a);
    assert b - a != {};
  }

  lemma {:induction false} OldestOf<K(!new)>(slots: map<K, Slot>, ord: Order<K>, from: set<K>) returns (k: K)
    requires from <= slots.Keys && from != {} && Injective(ord)
    ensures k in from && forall other :: other in from && other != k ==> Older(slots, ord, k, other)
  {
    var first :| first in from;
    var rest := from - {first};
    assert forall other :: other in from ==> other == first || other in rest;
    if rest == {} {
      k := first;
    } else {
      var m := OldestOf(slots, ord, rest);
      k := if Older(slots, ord, m, first) then m else first;
      assert ord(m) != ord(first);
    }
  }

  /** The oldest free row that is left joins the victims. */
  lemma OneMoreVictim<K(!new)>(slots: map<K, Slot>, ord: Order<K>, n: nat, fewer: set<K>, k: K)
    requires 0 < n && OldestFree(slots, ord, n - 1, fewer)
    requires k in Free(slots) - fewer
    requires forall o :: o in Free(slots) - fewer && o != k ==> Older(slots, ord, k, o)
    ensures OldestFree(slots, ord, n, fewer + {k})
  {
    hide Older;
    var free, left := Free(slots), Free(slots) - fewer;
    assert free == fewer + left;
    assert |free| == |fewer| + |left| && 0 < |left|;
    forall v, o | v in fewer + {k} && o in free && o !in fewer + {k} ensures Older(slots, ord, v, o) {
      if v in fewer {
        assert o !in fewer;
      }
    }
  }

  lemma NoMoreVictims<K(!new)>(slots: map<K, Slot>, ord: Order<K>, n: nat, fewer: set<K>)
    requires 0 < n && OldestFree(slots, ord, n - 1, fewer) && Free(slots) - fewer == {}
    ensures OldestFree(slots, ord, n, fewer)
  {
    hide Older;
    forall k | k in Free(slots) ensures k in fewer {
      assert k !in Free(slots) - fewer;
    }
    assert fewer == Free(slots);
  }

  lemma {:induction false} OldestFreeExists<K(!new)>(slots: map<K, Slot>, ord: Order<K>, n: nat) returns (victims: set<K>)
    requires Injective(ord)
    ensures OldestFree(slots, ord, n, victims)
  {
    if n == 0 {
      victims := {};
      assert OldestFree(slots, ord, 0, {});
    } else {
      hide OldestFree, Older;
      var fewer := OldestFreeExists(slots, ord, n - 1);
      var left := Free(slots) - fewer;
      if left == {} {
        victims := fewer;
        NoMoreVictims(slots, ord, n, fewer);
      } else {
        var k := OldestOf(slots, ord, left);
        victims := fewer + {k};
        OneMoreVictim(slots, ord, n, fewer, k);
      }
    }
  }

  ghost function Victims<K(!new)>(slots: map<K, Slot>, ord: Order<K>, n: nat): set<K> {
    if v :| OldestFree(slots, ord, n, v) then v else {}
  }

  lemma VictimsAre<K(!new)>(slots: map<K, Slot>, ord: Order<K>, n: nat)
    requires Injective(ord)
    ensures OldestFree(slots, ord, n, Victims(slots, ord, n))
  {
    var v := OldestFreeExists(slots, ord, n);
  }

  ghost function Slots<K, V>(rows: map<K, V>, slot: V -> Slot): map<K, Slot> {
    map k | k in rows :: slot(rows[k])
  }

  /** The table with room for `key`, or nothing when only rows that must stay are left. */
  ghost function MadeRoom<K(!new), V>(t: Table<K, V>, slot: V -> Slot, ord: Order<K>, key: K): Option<Table<K, V>> {
    if key in t.rows || t.count < STATE_CAPACITY then Some(t)
    else
      var victims := Victims(Slots(t.rows, slot), ord, t.count - STATE_CAPACITY + 1);
      if STATE_CAPACITY <= t.count - |victims| then None
      else Some(Delete(t, victims).(evicted := t.evicted + |victims|))
  }

  /** The counter is right and the table is within capacity. */
  ghost predicate Counted<K, V>(t: Table<K, V>) {
    t.count == |t.rows| <= STATE_CAPACITY
  }

  lemma PutKeepsCount<K, V>(t: Table<K, V>, k: K, v: V)
    requires Counted(t) && (k in t.rows || |t.rows| < STATE_CAPACITY)
    ensures Counted(Put(t, k, v))
    ensures |Put(t, k, v).rows| == |t.rows| + (if k in t.rows then 0 else 1)
  {
    var t' := Put(t, k, v);
    assert t'.rows.Keys == t.rows.Keys + {k};
    assert |t'.rows| == |t'.rows.Keys| && |t.rows| == |t.rows.Keys|;
    if k in t.rows {
      assert t'.rows.Keys == t.rows.Keys;
    }
  }

  lemma DeleteKeepsCount<K, V>(t: Table<K, V>, ks: set<K>)
    requires Counted(t)
    ensures Counted(Delete(t, ks))
    ensures |t.rows| == |Delete(t, ks).rows| + |t.rows.Keys * ks|
  {
    var t' := Delete(t, ks);
    assert t'.rows.Keys == t.rows.Keys - ks;
    assert |t'.rows| == |t'.rows.Keys| && |t.rows| == |t.rows.Keys|;
    assert t.rows.Keys == (t.rows.Keys - ks) + t.rows.Keys * ks;
  }

  /**
   Making room keeps every row that must stay and every row younger than an
   evicted one, counts what it evicts, and fails only when the table is full of
   rows that must stay.
   */
  lemma MadeRoomSound<K(!new), V>(t: Table<K, V>, slot: V -> Slot, ord: Order<K>, key: K)
    requires Counted(t) && Injective(ord)
    ensures match MadeRoom(t, slot, ord, key)
            case None => |t.rows| == STATE_CAPACITY && key !in t.rows && forall k :: k in t.rows ==> !slot(t.rows[k]).free
            case Some(t') =>
              && Counted(t') && (key in t'.rows <==> key in t.rows)
              && (key in t'.rows || |t'.rows| < STATE_CAPACITY)
              && (forall k :: k in t'.rows ==> k in t.rows && t'.rows[k] == t.rows[k])
              && (forall k :: k in t.rows && k !in t'.rows ==> slot(t.rows[k]).free)
              && (forall k, l :: k in t.rows && k !in t'.rows && l in t'.rows && slot(t'.rows[l]).free ==>
                    slot(t.rows[k]).at <= slot(t'.rows[l]).at)
              && t'.evicted + |t'.rows| == t.evicted + |t.rows|
  {
    if key in t.rows || t.count < STATE_CAPACITY {
    } else {
      var slots := Slots(t.rows, slot);
      var victims := Victims(slots, ord, 1);
      VictimsAre(slots, ord, 1);
      assert t.count - STATE_CAPACITY + 1 == 1;
      if |victims| == 0 {
        assert Free(slots) == {};
        forall k | k in t.rows ensures !slot(t.rows[k]).free {
          assert k !in Free(slots);
        }
      } else {
        DeleteKeepsCount(t, victims);
        assert t.rows.Keys * victims == victims;
        assert key !in victims;
        var t' := Delete(t, victims);
        forall k, l | k in t.rows && k !in t'.rows && l in t'.rows && slot(t'.rows[l]).free
          ensures slot(t.rows[k]).at <= slot(t'.rows[l]).at
        {
          assert k in victims && l in Free(slots) && l !in victims;
          assert Older(slots, ord, k, l);
        }
      }
    }
  }

  /** Make room for `k` and insert or update its row. */
  ghost function Insert<K(!new), V>(t: Table<K, V>, slot: V -> Slot, ord: Order<K>, k: K, v: V): Option<Table<K, V>> {
    match MadeRoom(t, slot, ord, k)
    case None => None
    case Some(room) => Some(Put(room, k, v))
  }

  /** `t'` has the row; every other row was there before, and only rows that could go are gone, each counted. */
  ghost predicate Inserted<K, V>(t: Table<K, V>, slot: V -> Slot, t': Table<K, V>, k: K, v: V) {
    && Counted(t') && k in t'.rows && t'.rows[k] == v
    && (forall o :: o in t'.rows && o != k ==> o in t.rows && t'.rows[o] == t.rows[o])
    && (forall o :: o in t.rows && o !in t'.rows ==> slot(t.rows[o]).free)
    && t'.evicted + |t'.rows| == t.evicted + |t.rows| + (if k in t.rows then 0 else 1)
  }

  /** An insertion succeeds unless the table is full of rows that must stay. */
  lemma InsertSound<K(!new), V>(t: Table<K, V>, slot: V -> Slot, ord: Order<K>, k: K, v: V)
    requires Counted(t) && Injective(ord)
    ensures match Insert(t, slot, ord, k, v)
            case None => |t.rows| == STATE_CAPACITY && k !in t.rows && forall o :: o in t.rows ==> !slot(t.rows[o]).free
            case Some(t') => Inserted(t, slot, t', k, v)
  {
    hide MadeRoom;
    MadeRoomSound(t, slot, ord, k);
    match MadeRoom(t, slot, ord, k) {
      case None =>
      case Some(room) => PutKeepsCount(room, k, v);
    }
  }

  lemma InsertFree<K(!new), V>(t: Table<K, V>, slot: V -> Slot, ord: Order<K>, k: K, v: V)
    requires Counted(t) && Injective(ord) && forall o :: o in t.rows ==> slot(t.rows[o]).free
    ensures Insert(t, slot, ord, k, v).Some?
  {
    hide Insert;
    InsertSound(t, slot, ord, k, v);
    assert t.rows != map[] ==> exists o :: o in t.rows;
  }

  method FindOldest<K(!new, ==), V>(rows: map<K, V>, slot: V -> Slot, ord: Order<K>, from: set<K>) returns (k: K)
    requires Injective(ord) && from <= rows.Keys && from != {}
    ensures k in from && forall other :: other in from && other != k ==> Older(Slots(rows, slot), ord, k, other)
  {
    k :| k in from;
    var rest := from - {k};
    while rest != {}
      invariant rest <= from && k in from && k !in rest
      invariant forall other :: other in from && other !in rest && other != k ==> Older(Slots(rows, slot), ord, k, other)
      decreases |rest|
    {
      var m :| m in rest;
      if slot(rows[m]).at < slot(rows[k]).at || (slot(rows[m]).at == slot(rows[k]).at && ord(m) < ord(k)) {
        k := m;
      }
      rest := rest - {m};
    }
  }

  /** The SQL statement that deletes at most `n` free rows, oldest first. */
  method DeleteOldest<K(!new, ==), V>(rows: map<K, V>, slot: V -> Slot, ord: Order<K>, n: nat) returns (victims: set<K>)
    requires Injective(ord)
    ensures victims == Victims(Slots(rows, slot), ord, n)
  {
    ghost var slots := Slots(rows, slot);
    var free := set k | k in rows && slot(rows[k]).free;
    assert free == Free(slots);
    victims := {};
    var i := 0;
    while i < n && free - victims != {}
      invariant i <= n && |victims| == i
      invariant OldestFree(slots, ord, i, victims)
      decreases n - i
    {
      var k := FindOldest(rows, slot, ord, free - victims);
      assert |free| == |victims| + |free - victims|;
      victims := victims + {k};
      i := i + 1;
    }
    if i < n {
      assert victims == free;
    }
    VictimsAre(slots, ord, n);
    OldestFreeUnique(slots, ord, n, victims, Victims(slots, ord, n));
  }

  /** Make room inside a transaction: the caller's table changes only with its commit. */
  method MakeRoom<K(!new, ==), V>(t: Table<K, V>, slot: V -> Slot, ord: Order<K>, key: K) returns (t': Option<Table<K, V>>)
    requires Injective(ord)
    ensures t' == MadeRoom(t, slot, ord, key)
  {
    if key in t.rows {
      return Some(t);
    }
    if t.count < STATE_CAPACITY {
      return Some(t);
    }
    var victims := DeleteOldest(t.rows, slot, ord, t.count - STATE_CAPACITY + 1);
    if STATE_CAPACITY <= t.count - |victims| {
      return None;
    }
    return Some(Delete(t, victims).(evicted := t.evicted + |victims|));
  }
}
