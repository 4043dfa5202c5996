/**
 The transactional half of the durable store: what one event changes.

 `Applied` is one transaction on the tables of the incident database; class
 `Store` is the code, which works on a copy and assigns it on commit.
 */
module Controller {
  import opened Wrappers
  import opened Verdict
  import opened Events
  import opened Tables
  import opened Policy
  import Incidents

  type Incident = Incidents.Incident

  // Digests are modelled by constructors, as for verdict families.

  datatype IncidentKey = IncidentKey(contract: string, source: Source, text: string)
  datatype OccurrenceKey = OccurrenceKey(contract: string, source: Source, timestamp: Option<string>, id: string)
  datatype NoteId = NoteId(incident: IncidentKey, sequence: int)

  datatype Seen = Seen(at: int, decision: Decision)
  datatype Payload = Payload(
    id: NoteId, incident: IncidentKey, eventId: string, source: Source, decision: Decision,
    opinion: Opinion, occurrences: int, created: int)
  datatype Status = Pending | Delivered | Dead
  datatype Note = Note(incident: IncidentKey, payload: Payload, status: Status, attempts: int, due: int, updated: int)

  datatype Db = Db(
    seen: Table<OccurrenceKey, Seen>, incidents: Table<IncidentKey, Incident>, outbox: Table<NoteId, Note>,
    // The durable global sequence; it survives the eviction of incidents.
    next: int)

  datatype Orders = Orders(seen: Order<OccurrenceKey>, incidents: Order<IncidentKey>, outbox: Order<NoteId>)

  ghost predicate GoodOrders(o: Orders) {
    Injective(o.seen) && Injective(o.incidents) && Injective(o.outbox)
  }

  function SeenSlot(s: Seen): Slot { Slot(s.at, true) }
  function IncidentSlot(i: Incident): Slot { Slot(i.touched, true) }
  /** Pending delivery intent is never evicted. */
  function NoteSlot(n: Note): Slot { Slot(n.updated, n.status != Pending) }

  /** The statements of the transaction that can fail. */
  datatype Statement = Begin | SelectSeen | RoomSeen | InsertSeen | SelectIncident | RoomIncident | RoomOutbox
    | NextSequence | InsertNote | PutIncident | Commit

  datatype Result = Duplicate | Failed | Backpressure | Done(decision: Decision, enqueued: bool)

  function KeyOf(contract: string, e: Event): IncidentKey {
    IncidentKey(contract, e.source, e.text)
  }

  function OccurrenceOf(contract: string, e: Event): OccurrenceKey {
    OccurrenceKey(contract, e.source, e.timestamp, e.id)
  }

  function Counts(d: Decision): bool {
    d == Notify || d == ForReview
  }

  function IncidentAt(db: Db, key: IncidentKey): Incident {
    if key in db.incidents.rows then db.incidents.rows[key] else Incidents.NO_INCIDENT
  }

  function NewNote(key: IncidentKey, e: Event, d: Decision, count: int, number: int, now: int): Note {
    var id := NoteId(key, number);
    Note(key, Payload(id, key, e.id, e.source, d, e.judgment.opinion, count, now), Pending, 0, now, now)
  }

  datatype Reply = Reply(db: Db, result: Result)

  /** Count the event in its incident, and put it into the outbox if it is due. */
  ghost function Tracked(ord: Orders, db: Db, e: Event, key: IncidentKey, p: Policy, d: Decision, now: int, faults: set<Statement>): Reply
    requires 0 < p.recurrence
  {
    var was := IncidentAt(db, key);
    var number := db.next + 1;
    var row := Incidents.Counted(p, was, d, now, number);
    if RoomIncident in faults then Reply(db, Failed)
    else
      match Insert(db.incidents, IncidentSlot, ord.incidents, key, row)
      case None => Reply(db, Backpressure)
      case Some(incidents) =>
        if !Incidents.Enqueues(p, was, d, now) then
          if PutIncident in faults then Reply(db, Failed) else Reply(db.(incidents := incidents), Done(d, false))
        else if RoomOutbox in faults then Reply(db, Failed)
        else
          match Insert(db.outbox, NoteSlot, ord.outbox, NoteId(key, number), NewNote(key, e, d, row.count, number, now))
          case None => Reply(db, Backpressure)
          case Some(outbox) =>
            if NextSequence in faults || InsertNote in faults || PutIncident in faults then Reply(db, Failed)
            else Reply(db.(incidents := incidents, outbox := outbox, next := number), Done(d, true))
  }

  ghost function Applied(ord: Orders, db: Db, e: Event, contract: string, p: Policy, now: int, faults: set<Statement>): Reply
    requires 0 < p.recurrence
  {
    var occurrence, d := OccurrenceOf(contract, e), Decide(p, e);
    if Begin in faults || SelectSeen in faults then Reply(db, Failed)
    else if occurrence in db.seen.rows then Reply(db, Duplicate)
    else if RoomSeen in faults || InsertSeen in faults || SelectIncident in faults then Reply(db, Failed)
    else
      match Insert(db.seen, SeenSlot, ord.seen, occurrence, Seen(now, d))
      case None => Reply(db, Backpressure)
      case Some(seen) =>
        var marked := db.(seen := seen);
        var r := if Counts(d) then Tracked(ord, marked, e, KeyOf(contract, e), p, d, now, faults)
                 else Reply(marked, Done(d, false));
        if !r.result.Done? then Reply(db, r.result)
        else if Commit in faults then Reply(db, Failed)
        else r
  }

  // ----- all or nothing, within capacity -----

  const FRESH: Db := Db(Table(map[], 0, 0), Table(map[], 0, 0), Table(map[], 0, 0), 0)

  /** Every table is counted and bounded, and no outbox identity is ahead of the sequence. */
  ghost predicate Inv(db: Db) {
    && Counted(db.seen) && Counted(db.incidents) && Counted(db.outbox) && 0 <= db.next
    && (forall id :: id in db.outbox.rows ==> 0 < id.sequence <= db.next)
    && (forall k :: k in db.incidents.rows ==> 0 < db.incidents.rows[k].sequence <= db.next)
  }

  /** Every notification ever enqueued is still in the outbox or was evicted from it. */
  ghost predicate Conserved(db: Db) {
    db.next == |db.outbox.rows| + db.outbox.evicted
  }

  /** The outbox with one new pending notification; only finished ones may have made room for it. */
  ghost predicate Queued(db: Db, db': Db, id: NoteId, note: Note) {
    && db'.next == db.next + 1 && id.sequence == db'.next && id !in db.outbox.rows
    && note.status == Pending && note.attempts == 0
    && Inserted(db.outbox, NoteSlot, db'.outbox, id, note)
  }

  /** What a counted event did to its incident and the outbox. */
  ghost predicate Recorded(db: Db, db': Db, e: Event, key: IncidentKey, p: Policy, d: Decision, now: int, enqueued: bool)
    requires 0 < p.recurrence
  {
    var was := IncidentAt(db, key);
    var row := Incidents.Counted(p, was, d, now, db.next + 1);
    && enqueued == Incidents.Enqueues(p, was, d, now)
    && Inserted(db.incidents, IncidentSlot, db'.incidents, key, row)
    && (if enqueued
        then Queued(db, db', NoteId(key, db.next + 1), NewNote(key, e, d, row.count, db.next + 1, now))
        else db'.outbox == db.outbox && db'.next == db.next)
  }

  ghost predicate OutboxFull(db: Db) {
    |db.outbox.rows| == STATE_CAPACITY && forall k :: k in db.outbox.rows ==> db.outbox.rows[k].status == Pending
  }

  lemma TrackedEffect(ord: Orders, db: Db, e: Event, key: IncidentKey, p: Policy, d: Decision, now: int, faults: set<Statement>)
    requires GoodOrders(ord) && Inv(db) && 0 < p.recurrence
    ensures var r := Tracked(ord, db, e, key, p, d, now, faults);
            && r.result != Duplicate && r.db.seen == db.seen
            && (r.result.Done? ==> r.result.decision == d && Recorded(db, r.db, e, key, p, d, now, r.result.enqueued))
            && (r.result == Backpressure ==> OutboxFull(db))
  {
    hide Incidents.Enqueues, Incidents.Counted, Insert, Inserted, Counted, NewNote, Injective;
    var was := IncidentAt(db, key);
    var row := Incidents.Counted(p, was, d, now, db.next + 1);
    var id, note := NoteId(key, db.next + 1), NewNote(key, e, d, row.count, db.next + 1, now);
    assert note.status == Pending && note.attempts == 0 by { NewNoteIsPending(key, e, d, row.count, db.next + 1, now); }
    InsertSound(db.incidents, IncidentSlot, ord.incidents, key, row);
    InsertFree(db.incidents, IncidentSlot, ord.incidents, key, row);
    InsertSound(db.outbox, NoteSlot, ord.outbox, id, note);
  }

  lemma NewNoteIsPending(key: IncidentKey, e: Event, d: Decision, count: int, number: int, now: int)
    ensures NewNote(key, e, d, count, number, now).status == Pending
    ensures NewNote(key, e, d, count, number, now).attempts == 0
    ensures NewNote(key, e, d, count, number, now).payload.id == NoteId(key, number)
  {
  }

  lemma RecordedKeepsInv(db: Db, db': Db, e: Event, key: IncidentKey, p: Policy, d: Decision, now: int, enqueued: bool)
    requires Inv(db) && 0 < p.recurrence && Recorded(db, db', e, key, p, d, now, enqueued) && Counted(db'.seen)
    ensures Inv(db') && (Conserved(db) ==> Conserved(db'))
  {
    CountedSequence(p, IncidentAt(db, key), d, now, db.next + 1);
    hide Incidents.Enqueues, Incidents.Counted, Counted, NewNote;
  }

  /** A counted incident has a sequence, the new one if it was enqueued. */
  lemma CountedSequence(p: Policy, was: Incident, d: Decision, now: int, number: int)
    requires 0 < p.recurrence
    ensures var row := Incidents.Counted(p, was, d, now, number);
            && row.sequence == (if Incidents.Enqueues(p, was, d, now) then number else was.sequence)
            && (was.sequence == 0 ==> Incidents.Enqueues(p, was, d, now))
  {
  }

  /** What a committed event did. */
  ghost predicate Committed(db: Db, r: Reply, e: Event, contract: string, p: Policy, now: int)
    requires 0 < p.recurrence && r.result.Done?
  {
    var d, occurrence := Decide(p, e), OccurrenceOf(contract, e);
    && r.result.decision == d && occurrence !in db.seen.rows
    && Inserted(db.seen, SeenSlot, r.db.seen, occurrence, Seen(now, d))
    && (if Counts(d) then Recorded(db, r.db, e, KeyOf(contract, e), p, d, now, r.result.enqueued)
        else !r.result.enqueued && r.db == db.(seen := r.db.seen))
  }

  /**
   All or nothing.  An event either commits its occurrence, its incident and its
   notification together, or leaves the database exactly as it was, so that a
   retry behaves like a first try.  Backpressure arises only when the outbox is
   full of pending notifications.  Bounds, counters and the conservation of
   notifications hold afterwards if they held before.
   */
  lemma AllOrNothing(ord: Orders, db: Db, e: Event, contract: string, p: Policy, now: int, faults: set<Statement>)
    requires GoodOrders(ord) && Inv(db) && 0 < p.recurrence
    ensures var r := Applied(ord, db, e, contract, p, now, faults);
            && (if r.result.Done? then Committed(db, r, e, contract, p, now) else r.db == db)
            && (r.result == Duplicate ==> OccurrenceOf(contract, e) in db.seen.rows)
            && (r.result == Backpressure ==> OutboxFull(db))
            && Inv(r.db) && (Conserved(db) ==> Conserved(r.db))
  {
    hide Insert, Inserted, Tracked, Decide, Counted, Injective, Recorded;
    var r := Applied(ord, db, e, contract, p, now, faults);
    var occurrence, d, key := OccurrenceOf(contract, e), Decide(p, e), KeyOf(contract, e);
    InsertSound(db.seen, SeenSlot, ord.seen, occurrence, Seen(now, d));
    InsertFree(db.seen, SeenSlot, ord.seen, occurrence, Seen(now, d));
    var seen := Insert(db.seen, SeenSlot, ord.seen, occurrence, Seen(now, d)).value;
    InsertedCounted(db.seen, SeenSlot, seen, occurrence, Seen(now, d));
    var marked := db.(seen := seen);
    if Counts(d) {
      TrackedEffect(ord, marked, e, key, p, d, now, faults);
      if r.result.Done? {
        RecordedIgnoresSeen(db, marked, r.db, e, key, p, d, now, r.result.enqueued);
        RecordedKeepsInv(marked, r.db, e, key, p, d, now, r.result.enqueued);
      }
    }
  }

  lemma InsertedCounted<K, V>(t: Table<K, V>, slot: V -> Slot, t': Table<K, V>, k: K, v: V)
    requires Inserted(t, slot, t', k, v)
    ensures Counted(t')
  {
  }

  lemma RecordedIgnoresSeen(db: Db, marked: Db, db': Db, e: Event, key: IncidentKey, p: Policy, d: Decision, now: int, enqueued: bool)
    requires 0 < p.recurrence && marked == db.(seen := marked.seen)
    requires Recorded(marked, db', e, key, p, d, now, enqueued)
    ensures Recorded(db, db', e, key, p, d, now, enqueued)
  {
    hide Incidents.Enqueues, Incidents.Counted, Inserted, NewNote;
  }

  // ----- deliveries -----

  const MAX_ATTEMPTS: int := 8
  const RETRY_SECONDS: int := 30

  /** A notification handed to the delivery loop; its attempt is already recorded. */
  datatype Delivery = Delivery(id: NoteId, payload: Payload, attempts: int)

  /** The next notification to try: pending, due, and first by due time. */
  ghost predicate DueFirst(ord: Order<NoteId>, db: Db, now: int, id: NoteId) {
    && IsDue(db, now, id)
    && forall other :: IsDue(db, now, other) && other != id ==> Precedes(ord, db, id, other)
  }

  predicate IsDue(db: Db, now: int, id: NoteId) {
    id in db.outbox.rows && db.outbox.rows[id].status == Pending && db.outbox.rows[id].due <= now
  }

  predicate Precedes(ord: Order<NoteId>, db: Db, a: NoteId, b: NoteId)
    requires a in db.outbox.rows && b in db.outbox.rows
  {
    db.outbox.rows[a].due < db.outbox.rows[b].due || (db.outbox.rows[a].due == db.outbox.rows[b].due && ord(a) < ord(b))
  }

  ghost function NextDue(ord: Order<NoteId>, db: Db, now: int): Option<NoteId> {
    if id :| DueFirst(ord, db, now, id) then Some(id) else None
  }

  function Updated(db: Db, id: NoteId, n: Note): Db {
    db.(outbox := db.outbox.(rows := db.outbox.rows[id := n]))
  }

  datatype Fetch = Fetch(db: Db, ok: bool, delivery: Option<Delivery>)

  predicate Malformed(oversized: Payload -> bool, id: NoteId, n: Note) {
    oversized(n.payload) || n.attempts < 0 || n.attempts > MAX_ATTEMPTS || n.payload.id != id
  }

  function Tried(db: Db, oversized: Payload -> bool, id: NoteId, now: int): Fetch
    requires id in db.outbox.rows
  {
    var n := db.outbox.rows[id];
    if Malformed(oversized, id, n) then Fetch(db, false, None)
    else if n.attempts == MAX_ATTEMPTS then Fetch(Updated(db, id, n.(status := Dead, updated := now)), true, None)
    else
      var next := n.(attempts := n.attempts + 1, due := now + RETRY_SECONDS, updated := now);
      Fetch(Updated(db, id, next), true, Some(Delivery(id, n.payload, next.attempts)))
  }

  /** Record the attempt before anything is sent; give up after eight. */
  ghost function Fetched(ord: Order<NoteId>, db: Db, oversized: Payload -> bool, now: int, up: bool): Fetch {
    match NextDue(ord, db, now)
    case None => Fetch(db, up, None)
    case Some(id) =>
      if !up then Fetch(db, false, None)
      else if id in db.outbox.rows then Tried(db, oversized, id, now) else Fetch(db, true, None)
  }

  function PowerOfTwo(n: nat): int {
    if n == 0 then 1 else 2 * PowerOfTwo(n - 1)
  }

  /** Report the outcome of the attempt that `p` describes; a report of any other attempt changes nothing. */
  function Reported(db: Db, p: Delivery, ok: bool, now: int): Db
    requires 0 <= p.attempts
  {
    if p.id in db.outbox.rows && db.outbox.rows[p.id].attempts == p.attempts then
      var status := if ok then Delivered else if MAX_ATTEMPTS <= p.attempts then Dead else Pending;
      var delay := PowerOfTwo(if p.attempts < 8 then p.attempts else 8);
      Updated(db, p.id, db.outbox.rows[p.id].(status := status, due := now + delay, updated := now))
    else db
  }

  lemma DueFirstUnique(ord: Order<NoteId>, db: Db, now: int, a: NoteId, b: NoteId)
    requires DueFirst(ord, db, now, a) && DueFirst(ord, db, now, b)
    ensures a == b
  {
  }

  lemma NextDueIs(ord: Order<NoteId>, db: Db, now: int, id: NoteId)
    requires DueFirst(ord, db, now, id)
    ensures NextDue(ord, db, now) == Some(id)
  {
    var found := NextDue(ord, db, now);
    assert found.Some? && DueFirst(ord, db, now, found.value);
    DueFirstUnique(ord, db, now, id, found.value);
  }

  // ----- the code -----

  class Store {
    const ord: Orders
    var seen: Table<OccurrenceKey, Seen>
    var incidents: Table<IncidentKey, Incident>
    var outbox: Table<NoteId, Note>
    var next: int

    ghost function Model(): Db
      reads this
    {
      Db(seen, incidents, outbox, next)
    }

    ghost predicate Valid()
      reads this
    {
      GoodOrders(ord) && Inv(Model())
    }

    constructor (ord: Orders)
      requires GoodOrders(ord)
      ensures this.ord == ord && Model() == FRESH && Valid()
    {
      this.ord := ord;
      seen, incidents, outbox, next := Table(map[], 0, 0), Table(map[], 0, 0), Table(map[], 0, 0), 0;
    }

    method Apply(e: Event, contract: string, p: Policy, now: int, faults: set<Statement>) returns (result: Result)
      requires Valid() && 0 < p.recurrence
      modifies this
      ensures Valid() && Reply(Model(), result) == Applied(ord, old(Model()), e, contract, p, now, faults)
    {
      hide MadeRoom, Put, Inv, Tracked, Injective, Decide, Incidents.Enqueues, Incidents.Counted, NewNote;
      AllOrNothing(ord, Model(), e, contract, p, now, faults);
      if Begin in faults || SelectSeen in faults {
        return Failed;
      }
      var occurrence := OccurrenceOf(contract, e);
      if occurrence in seen.rows {
        return Duplicate;
      }
      var decision := Decide(p, e);
      if RoomSeen in faults || InsertSeen in faults || SelectIncident in faults {
        return Failed;
      }
      var room := MakeRoom(seen, SeenSlot, ord.seen, occurrence);
      if room.None? {
        return Backpressure;
      }
      // The transaction works on copies; the tables change only when it commits.
      var txSeen := Put(room.value, occurrence, Seen(now, decision));
      var txIncidents, txOutbox, txNext := incidents, outbox, next;
      result := Done(decision, false);
      if decision == Notify || decision == ForReview {
        txIncidents, txOutbox, txNext, result := Track(txSeen, e, KeyOf(contract, e), p, decision, now, faults);
        if !result.Done? {
          return;
        }
      }
      if Commit in faults {
        return Failed;
      }
      seen, incidents, outbox, next := txSeen, txIncidents, txOutbox, txNext;
    }

    /** The part of the transaction that counts the event; it only computes the new tables. */
    method Track(ghost txSeen: Table<OccurrenceKey, Seen>, e: Event, key: IncidentKey, p: Policy, decision: Decision,
                 now: int, faults: set<Statement>)
      returns (txIncidents: Table<IncidentKey, Incident>, txOutbox: Table<NoteId, Note>, txNext: int, result: Result)
      requires GoodOrders(ord) && 0 < p.recurrence
      ensures Reply(Db(txSeen, txIncidents, txOutbox, txNext), result)
           == Tracked(ord, Db(txSeen, incidents, outbox, next), e, key, p, decision, now, faults)
    {
      hide MadeRoom, Put, Injective, Incidents.Quotient;
      txIncidents, txOutbox, txNext := incidents, outbox, next;
      var was := if key in incidents.rows then incidents.rows[key] else Incidents.NO_INCIDENT;
      if RoomIncident in faults {
        return txIncidents, txOutbox, txNext, Failed;
      }
      var room := MakeRoom(incidents, IncidentSlot, ord.incidents, key);
      if room.None? {
        return txIncidents, txOutbox, txNext, Backpressure;
      }
      var row, enqueue := CountEvent(was, p, decision, now, next + 1);
      hide Incidents.Enqueues, Incidents.Counted;
      if enqueue {
        if RoomOutbox in faults {
          return txIncidents, txOutbox, txNext, Failed;
        }
        var id := NoteId(key, next + 1);
        var space := MakeRoom(outbox, NoteSlot, ord.outbox, id);
        if space.None? {
          return txIncidents, txOutbox, txNext, Backpressure;
        }
        if NextSequence in faults || InsertNote in faults || PutIncident in faults {
          return txIncidents, txOutbox, txNext, Failed;
        }
        txOutbox := Put(space.value, id, NewNote(key, e, decision, row.count, next + 1, now));
        txNext := next + 1;
      } else if PutIncident in faults {
        return txIncidents, txOutbox, txNext, Failed;
      }
      txIncidents := Put(room.value, key, row);
      result := Done(decision, enqueue);
    }

    /** Roll the window, count, raise the level and decide whether to enqueue. */
    method CountEvent(was: Incident, p: Policy, decision: Decision, now: int, number: int) returns (row: Incident, enqueue: bool)
      requires 0 < p.recurrence
      ensures row == Incidents.Counted(p, was, decision, now, number)
      ensures enqueue == Incidents.Enqueues(p, was, decision, now)
    {
      hide Incidents.Quotient;
      var window, count, level := was.window, was.count, was.level;
      var last, sequence, previous := was.last, was.sequence, was.previous;
      if now < window || now - window >= p.window {
        window := now;
        count := 0;
        level := 0;
      }
      count := count + 1;
      var newLevel := Incidents.Min(p.maxEscalation, Incidents.Quotient(count, p.recurrence));
      enqueue := sequence == 0 || now < last || now - last >= p.cooldown || newLevel > level
        || (decision == Notify && previous != Some(Notify));
      level := Incidents.Max(level, newLevel);
      if enqueue {
        last, sequence, previous := now, number, Some(decision);
      }
      row := Incidents.Incident(window, count, level, last, sequence, now, previous);
    }

    method FindDue(now: int) returns (found: Option<NoteId>)
      requires GoodOrders(ord)
      ensures found == NextDue(ord.outbox, Model(), now)
    {
      var keys := set id | id in outbox.rows && outbox.rows[id].status == Status.Pending && outbox.rows[id].due <= now;
      assert forall id :: id in keys <==> IsDue(Model(), now, id);
      found := None;
      var left := keys;
      while left != {}
        invariant left <= keys
        invariant found.None? ==> left == keys
        invariant found.Some? ==> found.value in keys - left
        invariant found.Some? ==>
          forall other :: other in keys && other !in left && other != found.value ==>
            Precedes(ord.outbox, Model(), found.value, other)
        decreases |left|
      {
        var id :| id in left;
        if found.None? || outbox.rows[id].due < outbox.rows[found.value].due
           || (outbox.rows[id].due == outbox.rows[found.value].due && ord.outbox(id) < ord.outbox(found.value)) {
          found := Some(id);
        }
        left := left - {id};
      }
      if found.Some? {
        assert DueFirst(ord.outbox, Model(), now, found.value);
        NextDueIs(ord.outbox, Model(), now, found.value);
      }
    }

    method Pending(oversized: Payload -> bool, now: int, up: bool) returns (ok: bool, delivery: Option<Delivery>)
      requires GoodOrders(ord)
      modifies this`outbox
      ensures Fetch(Model(), ok, delivery) == Fetched(ord.outbox, old(Model()), oversized, now, up)
    {
      var found := FindDue(now);
      if found.None? {
        return up, None;
      }
      if !up {
        return false, None;
      }
      var id := found.value;
      DueIsThere(ord.outbox, Model(), now);
      hide NextDue;
      var n := outbox.rows[id];
      if oversized(n.payload) || n.attempts < 0 || n.attempts > MAX_ATTEMPTS || n.payload.id != id {
        return false, None;
      }
      if n.attempts == MAX_ATTEMPTS {
        outbox := outbox.(rows := outbox.rows[id := n.(status := Dead, updated := now)]);
        return true, None;
      }
      var attempts := n.attempts + 1;
      outbox := outbox.(rows := outbox.rows[id := n.(attempts := attempts, due := now + RETRY_SECONDS, updated := now)]);
      return true, Some(Delivery(id, n.payload, attempts));
    }

    method Delivered(p: Delivery, ok: bool, now: int)
      requires 0 <= p.attempts
      modifies this`outbox
      ensures Model() == Reported(old(Model()), p, ok, now)
    {
      var status := Status.Pending;
      if ok {
        status := Status.Delivered;
      } else if p.attempts >= MAX_ATTEMPTS {
        status := Dead;
      }
      var delay := PowerOfTwo(if p.attempts < 8 then p.attempts else 8);
      if p.id in outbox.rows && outbox.rows[p.id].attempts == p.attempts {
        outbox := outbox.(rows := outbox.rows[p.id :=
          outbox.rows[p.id].(status := status, due := now + delay, updated := now)]);
      }
    }
  }

  lemma DueIsThere(ord: Order<NoteId>, db: Db, now: int)
    ensures NextDue(ord, db, now).Some? ==> IsDue(db, now, NextDue(ord, db, now).value)
  {
  }
}
