/**
 What the store must do with an event: the pages that have to arrive, and the
 events that must leave no notification behind.
 */
module Pages {
  import opened Wrappers
  import opened Verdict
  import opened Events
  import opened Tables
  import opened Policy
  import opened Controller
  import Incidents

  /** The event was not seen before and the outbox has room for one more row. */
  ghost predicate CanCommit(db: Db, contract: string, e: Event) {
    && OccurrenceOf(contract, e) !in db.seen.rows
    && (|db.outbox.rows| < STATE_CAPACITY || exists k :: k in db.outbox.rows && db.outbox.rows[k].status != Pending)
  }

  /** Nothing was paged for the incident, or not lately: the last page is a cooldown ago, or what went out was a review. */
  ghost predicate Unpaged(db: Db, key: IncidentKey, p: Policy, now: int) {
    key !in db.incidents.rows
    || db.incidents.rows[key].previous != Some(Notify)
    || db.incidents.rows[key].last + p.cooldown <= now
    || now < db.incidents.rows[key].last
  }

  /** `db'` has exactly one notification more, for this event. */
  ghost predicate OneNewPage(db: Db, db': Db, contract: string, e: Event, d: Decision, now: int) {
    exists id :: NewPage(db, db', id, contract, e, d, now)
  }

  ghost predicate NewPage(db: Db, db': Db, id: NoteId, contract: string, e: Event, d: Decision, now: int) {
    && id !in db.outbox.rows && id in db'.outbox.rows
    && (forall other :: other in db'.outbox.rows && other != id ==>
          other in db.outbox.rows && db'.outbox.rows[other] == db.outbox.rows[other])
    && (forall other :: other in db.outbox.rows && db.outbox.rows[other].status == Pending ==> other in db'.outbox.rows)
    && KeyOf(contract, e) in db'.incidents.rows
    && var n := db'.outbox.rows[id];
       && n.incident == KeyOf(contract, e) && n.status == Pending && n.attempts == 0 && n.due == now
       && n.updated == now && n.payload.created == now && n.payload.incident == n.incident
       && n.payload.id == id && n.payload.eventId == e.id && n.payload.source == e.source
       && n.payload.opinion == e.judgment.opinion && n.payload.decision == d
       && n.payload.occurrences == db'.incidents.rows[KeyOf(contract, e)].count
  }

  lemma TrackedNeverFails(ord: Orders, db: Db, e: Event, key: IncidentKey, p: Policy, d: Decision, now: int)
    requires 0 < p.recurrence
    ensures !Tracked(ord, db, e, key, p, d, now, {}).result.Failed?
  {
    hide Insert, Incidents.Enqueues, Incidents.Counted, NewNote;
  }

  lemma AppliedNeverFails(ord: Orders, db: Db, e: Event, contract: string, p: Policy, now: int)
    requires GoodOrders(ord) && Inv(db) && 0 < p.recurrence
    ensures !Applied(ord, db, e, contract, p, now, {}).result.Failed?
  {
    hide Insert, Tracked, Decide, Inv, Injective;
    var occurrence, d := OccurrenceOf(contract, e), Decide(p, e);
    var seen := Insert(db.seen, SeenSlot, ord.seen, occurrence, Seen(now, d));
    if seen.Some? {
      TrackedNeverFails(ord, db.(seen := seen.value), e, KeyOf(contract, e), p, d, now);
    }
  }

  /** Without faults, a new event that has room commits. */
  lemma NewEventCommits(ord: Orders, db: Db, e: Event, contract: string, p: Policy, now: int)
    requires GoodOrders(ord) && Inv(db) && 0 < p.recurrence && CanCommit(db, contract, e)
    ensures var r := Applied(ord, db, e, contract, p, now, {});
            r.result.Done? && Committed(db, r, e, contract, p, now)
  {
    AppliedNeverFails(ord, db, e, contract, p, now);
    AllOrNothing(ord, db, e, contract, p, now, {});
    hide Applied, Inv, Committed, Conserved, Decide;
  }

  lemma EnqueuedIsNewPage(db: Db, r: Reply, e: Event, contract: string, p: Policy, now: int)
    requires 0 < p.recurrence && r.result.Done? && Committed(db, r, e, contract, p, now)
    requires var key := KeyOf(contract, e);
             Counts(Decide(p, e)) && Incidents.Enqueues(p, IncidentAt(db, key), Decide(p, e), now)
    ensures r.result == Done(Decide(p, e), true) && OneNewPage(db, r.db, contract, e, Decide(p, e), now)
  {
    hide Decide, Incidents.Enqueues, Incidents.Counted, Tables.Counted;
    var key := KeyOf(contract, e);
    var id := NoteId(key, db.next + 1);
    assert Recorded(db, r.db, e, key, p, Decide(p, e), now, true);
    assert NewPage(db, r.db, id, contract, e, Decide(p, e), now);
  }

  /**
   The page arrives.  A clear and certain important event whose category or severity
   is listed, seen for the first time, of an incident that was not paged within the
   cooldown, leaves exactly one new pending notification: it is due at once and carries
   the event's own opinion.
   */
  lemma {:induction false} PageArrives(ord: Orders, db: Db, e: Event, contract: string, p: Policy, now: int)
    requires GoodOrders(ord) && Inv(db) && 0 < p.recurrence && CanCommit(db, contract, e)
    requires Clear(e) && Certain(p, e.judgment.opinion) && e.judgment.opinion.importance == Important
    requires e.judgment.opinion.category in p.categories || e.judgment.opinion.severity in p.severities
    requires Unpaged(db, KeyOf(contract, e), p, now)
    ensures var r := Applied(ord, db, e, contract, p, now, {});
            r.result == Done(Notify, true) && OneNewPage(db, r.db, contract, e, Notify, now)
  {
    DecisionsAre(p, e);
    NewEventCommits(ord, db, e, contract, p, now);
    hide Applied, Decide, Committed, OneNewPage, Incidents.Quotient, Clear, Certain;
    EnqueuedIsNewPage(db, Applied(ord, db, e, contract, p, now, {}), e, contract, p, now);
  }

  /** A doubtful event of a new incident is put up for review instead, if the policy says so, and leaves nothing otherwise. */
  lemma {:induction false} DoubtIsReviewed(ord: Orders, db: Db, e: Event, contract: string, p: Policy, now: int)
    requires GoodOrders(ord) && Inv(db) && 0 < p.recurrence && CanCommit(db, contract, e)
    requires !Clear(e) || !Certain(p, e.judgment.opinion)
    requires KeyOf(contract, e) !in db.incidents.rows
    ensures var r := Applied(ord, db, e, contract, p, now, {});
            if p.reviewAbstained
            then r.result == Done(ForReview, true) && OneNewPage(db, r.db, contract, e, ForReview, now)
            else r.result == Done(Abstain, false) && r.db == db.(seen := r.db.seen)
  {
    DecisionsAre(p, e);
    NewEventCommits(ord, db, e, contract, p, now);
    hide Applied, Decide, OneNewPage, Incidents.Quotient, Clear, Certain, Recorded;
    if p.reviewAbstained {
      EnqueuedIsNewPage(db, Applied(ord, db, e, contract, p, now, {}), e, contract, p, now);
    }
  }

  /** Whatever happens, a doubtful event is never paged and a clear one that is in no list leaves only its occurrence. */
  lemma {:induction false} OthersAreNotPaged(
      ord: Orders, db: Db, e: Event, contract: string, p: Policy, now: int, faults: set<Statement>)
    requires GoodOrders(ord) && Inv(db) && 0 < p.recurrence
    ensures var r, o := Applied(ord, db, e, contract, p, now, faults), e.judgment.opinion;
            && (r.result.Done? && (!Clear(e) || !Certain(p, o)) ==>
                  r.result.decision == if p.reviewAbstained then ForReview else Abstain)
            && (r.result.Done? && Clear(e) && Certain(p, o)
                && (o.importance != Important || (o.category !in p.categories && o.severity !in p.severities)) ==>
                  r.result == Done(Ignore, false) && r.db == db.(seen := r.db.seen)
                  && OccurrenceOf(contract, e) in r.db.seen.rows)
  {
    DecisionsAre(p, e);
    AllOrNothing(ord, db, e, contract, p, now, faults);
    hide Applied, Decide, Inv, Conserved, Recorded, Clear, Certain;
  }

  /** An event commits only if none of the statements on its way failed. */
  lemma {:induction false} FaultsNeverCommit(
      ord: Orders, db: Db, e: Event, contract: string, p: Policy, now: int, faults: set<Statement>)
    requires 0 < p.recurrence
    ensures var r := Applied(ord, db, e, contract, p, now, faults);
            && (r.result.Done? ==> faults !! {Begin, SelectSeen, RoomSeen, InsertSeen, SelectIncident, Commit})
            && (r.result.Done? && Counts(r.result.decision) ==> faults !! {RoomIncident, PutIncident})
            && (r.result.Done? && r.result.enqueued ==> faults !! {RoomOutbox, NextSequence, InsertNote})
            && (r.result.Failed? ==> faults != {})
            && (r.result.Duplicate? <==> faults !! {Begin, SelectSeen} && OccurrenceOf(contract, e) in db.seen.rows)
  {
    hide Insert, Decide, NewNote, Incidents.Enqueues, Incidents.Counted;
  }

  // ----- the same event again -----

  /** Two events are one occurrence when they have one source, timestamp and identity. */
  predicate SameOccurrence(a: Event, b: Event) {
    a.source == b.source && a.timestamp == b.timestamp && a.id == b.id
  }

  /**
   An event that committed is a duplicate from then on, whatever else it says by then, and
   makes no other event one; events are of one incident exactly when they have one source and
   one text.
   */
  lemma {:induction false} RepeatsAreDuplicates(
      ord: Orders, db: Db, e: Event, contract: string, p: Policy, now: int, faults: set<Statement>,
      e': Event, p': Policy, now': int)
    requires GoodOrders(ord) && Inv(db) && 0 < p.recurrence && 0 < p'.recurrence
    requires Applied(ord, db, e, contract, p, now, faults).result.Done?
    ensures var db' := Applied(ord, db, e, contract, p, now, faults).db;
            var r := Applied(ord, db', e', contract, p', now', {});
            && (SameOccurrence(e, e') ==> r == Reply(db', Duplicate))
            && (!SameOccurrence(e, e') && r.result.Duplicate? ==>
                  Applied(ord, db, e', contract, p', now', {}).result.Duplicate?)
    ensures KeyOf(contract, e) == KeyOf(contract, e') <==> e.source == e'.source && e.text == e'.text
  {
    var db' := Applied(ord, db, e, contract, p, now, faults).db;
    SeenAfter(ord, db, e, contract, p, now, faults);
    DuplicateMeans(ord, db', e', contract, p', now');
    DuplicateMeans(ord, db, e', contract, p', now');
    hide Applied, Inv, GoodOrders;
  }

  lemma SeenAfter(ord: Orders, db: Db, e: Event, contract: string, p: Policy, now: int, faults: set<Statement>)
    requires GoodOrders(ord) && Inv(db) && 0 < p.recurrence && Applied(ord, db, e, contract, p, now, faults).result.Done?
    ensures var rows := Applied(ord, db, e, contract, p, now, faults).db.seen.rows;
            OccurrenceOf(contract, e) in rows && forall k :: k in rows ==> k == OccurrenceOf(contract, e) || k in db.seen.rows
  {
    AllOrNothing(ord, db, e, contract, p, now, faults);
    hide Applied, Inv, Conserved, Recorded, Decide, GoodOrders, Tables.Counted;
  }

  lemma DuplicateMeans(ord: Orders, db: Db, e: Event, contract: string, p: Policy, now: int)
    requires 0 < p.recurrence
    ensures Applied(ord, db, e, contract, p, now, {}).result.Duplicate? <==> OccurrenceOf(contract, e) in db.seen.rows
    ensures Applied(ord, db, e, contract, p, now, {}).result.Duplicate? ==>
              Applied(ord, db, e, contract, p, now, {}) == Reply(db, Duplicate)
  {
    hide Insert, Decide, NewNote, Incidents.Enqueues, Incidents.Counted;
  }
}
