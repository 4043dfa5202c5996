/** Which rows a full table gives up for a new one, by the columns that decide it. */
module Evictions {
  import opened Wrappers
  import opened Tables
  import opened Events
  import opened Policy
  import opened Controller
  import VerdictStore
  import Verdict
  import Clock

  /** The row `o` is gone and had to be: the table was full and no row that may go and stayed is older. */
  ghost predicate HadToGo<K(!new), V>(
      before: map<K, V>, after: map<K, V>, key: K, ord: Order<K>, mayGo: V -> bool, age: V -> int, o: K)
    requires o in before
  {
    && |before| == 10000 && key !in before && mayGo(before[o])
    && forall l :: l in before && l in after && mayGo(before[l]) ==>
         age(before[o]) < age(before[l]) || (age(before[o]) == age(before[l]) && ord(o) < ord(l))
  }

  /** At most the oldest row that may go is gone, and that only from a full table. */
  ghost predicate OldestWent<K(!new), V>(
      before: map<K, V>, after: map<K, V>, key: K, ord: Order<K>, mayGo: V -> bool, age: V -> int) {
    && (forall o :: o in before && o !in after ==> HadToGo(before, after, key, ord, mayGo, age, o))
    && (forall o, q :: o in before && o !in after && q in before && q !in after ==> o == q)
  }

  lemma OneVictim<K(!new), V>(t: Table<K, V>, slot: V -> Slot, ord: Order<K>, k: K, v: V, o: K)
    requires Counted(t) && Injective(ord) && Insert(t, slot, ord, k, v).Some?
    requires o in t.rows && o !in Insert(t, slot, ord, k, v).value.rows
    ensures |t.rows| == STATE_CAPACITY && k !in t.rows && slot(t.rows[o]).free
    ensures Victims(Slots(t.rows, slot), ord, 1) == {o}
    ensures forall l :: l in t.rows && l in Insert(t, slot, ord, k, v).value.rows && slot(t.rows[l]).free ==>
              Older(Slots(t.rows, slot), ord, o, l)
  {
    var slots := Slots(t.rows, slot);
    var victims := Victims(slots, ord, 1);
    VictimsAre(slots, ord, 1);
    assert t.count - STATE_CAPACITY + 1 == 1;
    assert o in victims;
    Singleton(victims, o);
    forall l | l in t.rows && l in Insert(t, slot, ord, k, v).value.rows && slot(t.rows[l]).free
      ensures Older(slots, ord, o, l)
    {
      assert l in Free(slots) && l !in victims;
    }
  }

  lemma Singleton<K>(ks: set<K>, o: K)
    requires o in ks && |ks| <= 1
    ensures ks == {o}
  {
    assert |ks - {o}| == 0;
  }

  /** An insertion into a full table gives up the oldest row that may go, and no other insertion gives up any. */
  lemma {:induction false} InsertEvicts<K(!new), V>(
      t: Table<K, V>, slot: V -> Slot, ord: Order<K>, k: K, v: V, mayGo: V -> bool, age: V -> int)
    requires Counted(t) && Injective(ord) && Insert(t, slot, ord, k, v).Some?
    requires forall x :: slot(x) == Slot(age(x), mayGo(x))
    ensures OldestWent(t.rows, Insert(t, slot, ord, k, v).value.rows, k, ord, mayGo, age)
  {
    var after := Insert(t, slot, ord, k, v).value.rows;
    forall o | o in t.rows && o !in after
      ensures HadToGo(t.rows, after, k, ord, mayGo, age, o) && Victims(Slots(t.rows, slot), ord, 1) == {o}
    {
      OneVictim(t, slot, ord, k, v, o);
    }
    hide Insert, Injective, Counted, Victims, HadToGo;
  }

  lemma TrackedTables(ord: Orders, db: Db, e: Event, key: IncidentKey, p: Policy, d: Decision, now: int, faults: set<Statement>)
    requires 0 < p.recurrence && Tracked(ord, db, e, key, p, d, now, faults).result.Done?
    ensures var db' := Tracked(ord, db, e, key, p, d, now, faults).db;
            var row := Incidents.Counted(p, IncidentAt(db, key), d, now, db.next + 1);
            && Insert(db.incidents, IncidentSlot, ord.incidents, key, row) == Some(db'.incidents)
            && (db'.outbox == db.outbox
                || Insert(db.outbox, NoteSlot, ord.outbox, NoteId(key, db.next + 1), NewNote(key, e, d, row.count, db.next + 1, now))
                     == Some(db'.outbox))
            && db'.seen == db.seen
  {
    hide Insert, Incidents.Enqueues, Incidents.Counted, NewNote;
  }

  /**
   What a committed event pushes out: an occurrence, an incident and a notification at most,
   each from a full table and the oldest there by its own time, that of its sighting, of its
   last event or of its last change; a pending notification never goes.
   */
  lemma {:induction false} OldestGoFirst(
      ord: Orders, db: Db, e: Event, contract: string, p: Policy, now: int, faults: set<Statement>)
    requires GoodOrders(ord) && Inv(db) && 0 < p.recurrence && Applied(ord, db, e, contract, p, now, faults).result.Done?
    ensures var db' := Applied(ord, db, e, contract, p, now, faults).db;
            var key := KeyOf(contract, e);
            && OldestWent(db.seen.rows, db'.seen.rows, OccurrenceOf(contract, e), ord.seen, (s: Seen) => true, (s: Seen) => s.at)
            && OldestWent(db.incidents.rows, db'.incidents.rows, key, ord.incidents,
                          (i: Incidents.Incident) => true, (i: Incidents.Incident) => i.touched)
            && OldestWent(db.outbox.rows, db'.outbox.rows, NoteId(key, db.next + 1), ord.outbox,
                          (n: Note) => n.status.Delivered? || n.status.Dead?, (n: Note) => n.updated)
  {
    hide Insert, Tracked, Decide, OldestWent, Tables.Counted, Injective;
    var d, key := Decide(p, e), KeyOf(contract, e);
    var occurrence := OccurrenceOf(contract, e);
    InsertEvicts(db.seen, SeenSlot, ord.seen, occurrence, Seen(now, d), (s: Seen) => true, (s: Seen) => s.at);
    NothingWent(db.incidents.rows, key, ord.incidents, (i: Incidents.Incident) => true, (i: Incidents.Incident) => i.touched);
    NothingWent(db.outbox.rows, NoteId(key, db.next + 1), ord.outbox, (n: Note) => n.status.Delivered? || n.status.Dead?, (n: Note) => n.updated);
    if Counts(d) {
      var marked := db.(seen := Insert(db.seen, SeenSlot, ord.seen, occurrence, Seen(now, d)).value);
      TrackedTables(ord, marked, e, key, p, d, now, faults);
      TrackedEvicts(ord, marked, e, key, p, d, now, faults);
    }
  }

  lemma TrackedEvicts(ord: Orders, db: Db, e: Event, key: IncidentKey, p: Policy, d: Decision, now: int, faults: set<Statement>)
    requires GoodOrders(ord) && Tables.Counted(db.incidents) && Tables.Counted(db.outbox)
    requires 0 < p.recurrence && Tracked(ord, db, e, key, p, d, now, faults).result.Done?
    ensures var db' := Tracked(ord, db, e, key, p, d, now, faults).db;
            && OldestWent(db.incidents.rows, db'.incidents.rows, key, ord.incidents,
                          (i: Incidents.Incident) => true, (i: Incidents.Incident) => i.touched)
            && OldestWent(db.outbox.rows, db'.outbox.rows, NoteId(key, db.next + 1), ord.outbox,
                          (n: Note) => n.status.Delivered? || n.status.Dead?, (n: Note) => n.updated)
  {
    hide Insert, Tracked, OldestWent, Tables.Counted, Injective, Incidents.Counted;
    TrackedTables(ord, db, e, key, p, d, now, faults);
    var row := Incidents.Counted(p, IncidentAt(db, key), d, now, db.next + 1);
    InsertEvicts(db.incidents, IncidentSlot, ord.incidents, key, row, (i: Incidents.Incident) => true, (i: Incidents.Incident) => i.touched);
    var mayGo, age := (n: Note) => n.status.Delivered? || n.status.Dead?, (n: Note) => n.updated;
    NothingWent(db.outbox.rows, NoteId(key, db.next + 1), ord.outbox, mayGo, age);
    if Tracked(ord, db, e, key, p, d, now, faults).db.outbox != db.outbox {
      InsertEvicts(db.outbox, NoteSlot, ord.outbox, NoteId(key, db.next + 1),
                   NewNote(key, e, d, row.count, db.next + 1, now), mayGo, age);
    }
  }

  lemma NothingWent<K(!new), V>(rows: map<K, V>, key: K, ord: Order<K>, mayGo: V -> bool, age: V -> int)
    ensures OldestWent(rows, rows, key, ord, mayGo, age)
  {
  }

  /** A stored verdict pushes out the verdict that ends first, and only from a full table. */
  lemma {:induction false} FirstToEndGoes(
      ord: Order<VerdictStore.Key>, s: VerdictStore.State, key: VerdictStore.Key, j: Verdict.Judgment, at: int,
      ttl: Clock.Duration)
    requires VerdictStore.Inv(s) && Injective(ord) && Verdict.Reusable(j.opinion) && VerdictStore.TtlAllowed(ttl)
    requires key in s.lifetimes || |s.lifetimes| < STATE_CAPACITY
    ensures var r := VerdictStore.Stored(ord, s, key, j, at, ttl, VerdictStore.Up);
            OldestWent(s.verdicts.rows, r.state.verdicts.rows, key, ord,
                       (x: VerdictStore.Row) => true, (x: VerdictStore.Row) => x.expires)
  {
    VerdictStore.PutRoom(ord, s, key);
    var row := VerdictStore.Row(j.opinion, at, at + Clock.WholeSeconds(ttl));
    InsertEvicts(s.verdicts, VerdictStore.RowSlot, ord, key, row, (x: VerdictStore.Row) => true, (x: VerdictStore.Row) => x.expires);
    hide MadeRoom, OldestWent, Injective, Verdict.Reusable, Tables.Counted;
  }
}
