/** When the outbox tries a notification again: not before its delay, and then for certain. */
module Retries {
  import opened Wrappers
  import opened Tables
  import opened Controller
  import opened Outbox
  import Incidents
  import Policy

  /** Seconds to wait after the first, second, ... seventh rejected attempt. */
  const DELAYS: seq<int> := [2, 4, 8, 16, 32, 64, 128]

  /** The loop takes the notification out of the store. */
  ghost predicate HandsOut(m: Machine, m': Machine, id: NoteId) {
    m.phase.Idle? && m'.phase.Holding? && m'.phase.p.id == id
  }

  /** The outcome of sending it is written down. */
  predicate Records(m: Machine, s: Step, id: NoteId) {
    m.phase.Sent? && m.phase.p.id == id && s.Report? && s.up
  }

  predicate Away(m: Machine, id: NoteId) {
    m.phase.Idle? || m.phase.p.id != id
  }

  /** The notification, if it is still pending, is due at `d`. */
  ghost predicate Waits(m: Machine, id: NoteId, d: int) {
    ListedId(m.enqueued, id)
    && (id in m.db.outbox.rows && m.db.outbox.rows[id].status == Pending ==> m.db.outbox.rows[id].due == d)
  }

  /** The last step is the first that hands it out; no outcome is written down on the way. */
  ghost predicate FirstHandOut(cfg: Setup, m: Machine, steps: seq<Step>, id: NoteId)
    requires forall i :: 0 <= i < |steps| ==> StepOk(steps[i])
    decreases |steps|
  {
    && steps != []
    && var m' := Next(cfg, m, steps[0]);
       if |steps| == 1 then HandsOut(m, m', id)
       else !HandsOut(m, m', id) && !Records(m, steps[0], id) && FirstHandOut(cfg, m', steps[1..], id)
  }

  lemma HandOutIsDue(cfg: Setup, m: Machine, s: Step, id: NoteId, d: int)
    requires GoodOrders(cfg.ord) && Good(m) && StepOk(s) && Waits(m, id, d) && HandsOut(m, Next(cfg, m, s), id)
    ensures s.DoFetch? && d <= s.now
  {
    hide Applied, Conserved, Controller.Inv, RowsBounded, SendsBounded, InStep, Listed, Fetched;
    if s.DoFetch? {
      FetchFacts(cfg, m.db, s.now, s.up);
    }
  }

  lemma WaitsOn(cfg: Setup, m: Machine, s: Step, id: NoteId, d: int)
    requires GoodOrders(cfg.ord) && Good(m) && StepOk(s) && Waits(m, id, d)
    requires !HandsOut(m, Next(cfg, m, s), id) && !Records(m, s, id)
    ensures Waits(Next(cfg, m, s), id, d)
  {
    hide Applied, Conserved, Controller.Inv, RowsBounded, SendsBounded, InStep, Fetched, Reported, Tables.Counted;
    match s {
      case Submit(e, contract, p, now, faults) => AppliedMoves(cfg.ord, m.db, e, contract, p, now, faults);
      case DoFetch(now, up) =>
        FetchFacts(cfg, m.db, now, up);
      case DoSend =>
      case Report(ok, now, up) =>
        if m.phase.Sent? && up && 0 <= m.phase.p.attempts {
          ReportedOthers(m, ok, now, id);
        }
      case Crash =>
    }
  }

  lemma ReportedOthers(m: Machine, ok: bool, now: int, id: NoteId)
    requires m.phase.Sent? && 0 <= m.phase.p.attempts && m.phase.p.id != id
    ensures var rows := Reported(m.db, m.phase.p, ok, now).outbox.rows;
            (id in rows <==> id in m.db.outbox.rows) && (id in rows ==> rows[id] == m.db.outbox.rows[id])
  {
    hide PowerOfTwo;
  }

  lemma AwayStays(cfg: Setup, m: Machine, s: Step, id: NoteId)
    requires StepOk(s) && Away(m, id) && !HandsOut(m, Next(cfg, m, s), id)
    ensures Away(Next(cfg, m, s), id) && !Records(m, s, id)
  {
    hide Applied, Fetched, Reported;
  }

  lemma {:induction false} NotBefore(cfg: Setup, m: Machine, steps: seq<Step>, id: NoteId, d: int)
    requires GoodOrders(cfg.ord) && Good(m) && forall i :: 0 <= i < |steps| ==> StepOk(steps[i])
    requires Waits(m, id, d) && FirstHandOut(cfg, m, steps, id)
    ensures steps[|steps| - 1].DoFetch? && d <= steps[|steps| - 1].now
    decreases |steps|
  {
    hide Next, Good, Waits, HandsOut, Records, StepOk;
    var m' := Next(cfg, m, steps[0]);
    if |steps| == 1 {
      HandOutIsDue(cfg, m, steps[0], id, d);
    } else {
      WaitsOn(cfg, m, steps[0], id, d);
      NextKeeps(cfg, m, steps[0]);
      NotBefore(cfg, m', steps[1..], id, d);
    }
  }

  lemma RejectedWaits(cfg: Setup, m: Machine, t: int)
    requires Good(m) && m.phase.Sent? && m.phase.p.attempts < 8
    ensures var m' := Next(cfg, m, Report(false, t, true));
            var id := m.phase.p.id;
            && Waits(m', id, t + DELAYS[m.phase.p.attempts - 1]) && m'.phase.Idle?
            && id in m'.db.outbox.rows && m'.db.outbox.rows[id].status == Pending
  {
    Powers(m.phase.p.attempts);
    hide Conserved, Controller.Inv, RowsBounded, SendsBounded, PowerOfTwo;
  }

  lemma Powers(n: nat)
    requires 1 <= n < 8
    ensures PowerOfTwo(n) == DELAYS[n - 1]
  {
    assert PowerOfTwo(1) == 2;
    assert PowerOfTwo(2) == 4;
    assert PowerOfTwo(3) == 8;
    assert PowerOfTwo(4) == 16;
    assert PowerOfTwo(5) == 32;
    assert PowerOfTwo(6) == 64;
    assert PowerOfTwo(7) == 128;
  }

  /**
   After attempt number `a` was rejected at `t`, the notification is not taken out
   again before `t` plus two to the power of `a` seconds, whatever happens meanwhile.
   */
  lemma {:induction false} RejectionBacksOff(cfg: Setup, m: Machine, t: int, steps: seq<Step>)
    requires GoodOrders(cfg.ord) && Good(m) && forall i :: 0 <= i < |steps| ==> StepOk(steps[i])
    requires m.phase.Sent? && m.phase.p.attempts < 8
    requires FirstHandOut(cfg, Next(cfg, m, Report(false, t, true)), steps, m.phase.p.id)
    ensures steps[|steps| - 1].DoFetch? && t + DELAYS[m.phase.p.attempts - 1] <= steps[|steps| - 1].now
  {
    RejectedWaits(cfg, m, t);
    NextKeeps(cfg, m, Report(false, t, true));
    hide Next, Good, Waits, FirstHandOut;
    NotBefore(cfg, Next(cfg, m, Report(false, t, true)), steps, m.phase.p.id, t + DELAYS[m.phase.p.attempts - 1]);
  }

  lemma TakenWaits(cfg: Setup, m: Machine, t: int, id: NoteId)
    requires GoodOrders(cfg.ord) && Good(m) && HandsOut(m, Next(cfg, m, DoFetch(t, true)), id)
    ensures Waits(Next(cfg, m, DoFetch(t, true)), id, t + 30)
  {
    FetchFacts(cfg, m.db, t, true);
    hide Conserved, Controller.Inv, RowsBounded, SendsBounded, InStep, Fetched;
  }

  /**
   A notification that was taken out at `t` and whose outcome is never written down,
   because the process crashed or the store was away, is not taken out again for
   thirty seconds.
   */
  lemma {:induction false} LostAttemptWaits(cfg: Setup, m: Machine, t: int, steps: seq<Step>, id: NoteId)
    requires GoodOrders(cfg.ord) && Good(m) && forall i :: 0 <= i < |steps| ==> StepOk(steps[i])
    requires HandsOut(m, Next(cfg, m, DoFetch(t, true)), id)
    requires FirstHandOut(cfg, Next(cfg, m, DoFetch(t, true)), steps, id)
    ensures steps[|steps| - 1].DoFetch? && t + 30 <= steps[|steps| - 1].now
  {
    TakenWaits(cfg, m, t, id);
    NextKeeps(cfg, m, DoFetch(t, true));
    hide Next, Good, Waits, FirstHandOut, HandsOut;
    NotBefore(cfg, Next(cfg, m, DoFetch(t, true)), steps, id, t + 30);
  }

  // ----- and then for certain -----

  /** Every row carries a notification with its own identity. */
  ghost predicate Named(m: Machine) {
    forall id :: id in m.db.outbox.rows ==> m.db.outbox.rows[id].payload.id == id
  }

  lemma NamedNext(cfg: Setup, m: Machine, s: Step)
    requires GoodOrders(cfg.ord) && Good(m) && Named(m) && StepOk(s)
    ensures Named(Next(cfg, m, s))
  {
    hide Applied, Conserved, Controller.Inv, RowsBounded, SendsBounded, InStep, Listed, Fetched, PowerOfTwo, Tables.Counted;
    match s {
      case Submit(e, contract, p, now, faults) => NamedSubmit(cfg, m, s);
      case DoFetch(now, up) => FetchFacts(cfg, m.db, now, up);
      case DoSend =>
      case Report(_, _, _) =>
      case Crash =>
    }
  }

  lemma NamedSubmit(cfg: Setup, m: Machine, s: Step)
    requires GoodOrders(cfg.ord) && Controller.Inv(m.db) && Named(m) && StepOk(s) && s.Submit?
    ensures Named(Next(cfg, m, s))
  {
    hide Applied, Conserved, Controller.Inv, Incidents.Enqueues, Incidents.Counted, Policy.Decide, NewNote, OutboxFull, Tables.Counted;
    AllOrNothing(cfg.ord, m.db, s.e, s.contract, s.p, s.now, s.faults);
    var d, key := Policy.Decide(s.p, s.e), KeyOf(s.contract, s.e);
    var row := Incidents.Counted(s.p, IncidentAt(m.db, key), d, s.now, m.db.next + 1);
    NewNoteIsPending(key, s.e, d, row.count, m.db.next + 1, s.now);
  }

  lemma {:induction false} RunNamed(cfg: Setup, steps: seq<Step>)
    requires GoodOrders(cfg.ord) && forall i :: 0 <= i < |steps| ==> StepOk(steps[i])
    ensures Named(Run(cfg, steps))
  {
    hide Good, Next, StepOk;
    if steps != [] {
      var before := steps[..|steps| - 1];
      RunNamed(cfg, before);
      RunKeeps(cfg, before);
      NamedNext(cfg, Run(cfg, before), steps[|steps| - 1]);
    }
  }

  ghost predicate FirstOf(ord: Order<NoteId>, db: Db, due: set<NoteId>, id: NoteId) {
    id in due && due <= db.outbox.rows.Keys
    && forall other :: other in due && other != id ==> Precedes(ord, db, id, other)
  }

  /** Among rows that are due there is a first. */
  lemma {:induction false} SomeoneIsFirst(ord: Order<NoteId>, db: Db, due: set<NoteId>) returns (best: NoteId)
    requires Injective(ord) && due != {} && due <= db.outbox.rows.Keys
    ensures FirstOf(ord, db, due, best)
    decreases |due|
  {
    var k :| k in due;
    var rest := due - {k};
    if rest == {} {
      best := k;
      assert due == {k};
    } else {
      var f := SomeoneIsFirst(ord, db, rest);
      assert ord(k) != ord(f);
      best := if Precedes(ord, db, k, f) then k else f;
      forall other | other in due && other != best ensures Precedes(ord, db, best, other) {
        assert other == k || other == f || (other in rest && Precedes(ord, db, f, other));
      }
    }
  }

  lemma FirstDueExists(ord: Order<NoteId>, db: Db, now: int) returns (id: NoteId)
    requires Injective(ord) && exists k :: IsDue(db, now, k)
    ensures DueFirst(ord, db, now, id) && NextDue(ord, db, now) == Some(id)
  {
    var due := set k | k in db.outbox.rows && IsDue(db, now, k);
    var k :| IsDue(db, now, k);
    assert k in due;
    id := SomeoneIsFirst(ord, db, due);
    NextDueIs(ord, db, now, id);
    hide NextDue, Injective;
  }

  lemma SomeIsDue(db: Db, now: int)
    requires exists k :: k in db.outbox.rows && db.outbox.rows[k].status == Pending && !(now < db.outbox.rows[k].due)
    ensures exists k :: IsDue(db, now, k)
  {
    var k :| k in db.outbox.rows && db.outbox.rows[k].status == Pending && !(now < db.outbox.rows[k].due);
    assert IsDue(db, now, k);
  }

  /** What is taken out, of any table, is a sound row with its new attempt recorded; a broken one is left alone. */
  lemma {:induction false} OnlySoundRowsAreTaken(ord: Order<NoteId>, db: Db, oversized: Payload -> bool, now: int)
    ensures var f := Fetched(ord, db, oversized, now, true);
            && (f.delivery.Some? ==>
                  var p := f.delivery.value;
                  && f.ok && 1 <= p.attempts <= 8 && p.payload.id == p.id && !oversized(p.payload)
                  && p.id in db.outbox.rows && f.db.outbox.rows.Keys == db.outbox.rows.Keys
                  && f.db.outbox.rows[p.id] == db.outbox.rows[p.id].(attempts := p.attempts, due := now + 30, updated := now)
                  && p.attempts == db.outbox.rows[p.id].attempts + 1 && p.payload == db.outbox.rows[p.id].payload)
            && (!f.ok ==> f.db == db)
    ensures forall id :: NextDue(ord, db, now) == Some(id) && id in db.outbox.rows ==>
              var n := db.outbox.rows[id];
              (!Fetched(ord, db, oversized, now, true).ok <==>
                 oversized(n.payload) || n.attempts < 0 || 8 < n.attempts || n.payload.id != id)
  {
    hide NextDue;
  }

  /** The row waits for its turn, and it has come. */
  predicate Waiting(db: Db, now: int, id: NoteId) {
    id in db.outbox.rows && db.outbox.rows[id].status.Pending? && !(now < db.outbox.rows[id].due)
  }

  /**
   Only the first of the waiting rows is touched: the one due first, and of several due at
   once the one with the least identity.  When none waits a fetch does nothing, and succeeds
   if it can read.
   */
  lemma {:induction false} OnlyTheFirstIsTouched(ord: Order<NoteId>, db: Db, oversized: Payload -> bool, now: int, up: bool)
    requires Injective(ord)
    ensures var f := Fetched(ord, db, oversized, now, up);
            && ((forall id :: !Waiting(db, now, id)) ==> f == Fetch(db, up, None))
            && (f.db != db || f.delivery.Some? ==>
                  exists id :: Waiting(db, now, id)
                    && f.db.outbox.rows.Keys == db.outbox.rows.Keys
                    && (forall k :: k in db.outbox.rows && k != id ==> f.db.outbox.rows[k] == db.outbox.rows[k])
                    && (f.delivery.Some? ==> f.delivery.value.id == id)
                    && forall k :: k != id && Waiting(db, now, k) ==>
                         var a, b := db.outbox.rows[id].due, db.outbox.rows[k].due;
                         a < b || (a == b && ord(id) < ord(k)))
  {
    assert forall id :: Waiting(db, now, id) <==> IsDue(db, now, id);
    hide Malformed;
  }

  /**
   Nothing that is due is forgotten.  In every run from empty tables, when the loop is
   idle, the store is up and some pending notification is due, the next fetch takes out
   the one that is due first, with one attempt more, or gives it up after eight.  The one
   exception is a payload that is too large: then the fetch fails and nothing changes.
   */
  lemma {:induction false} DueIsTaken(cfg: Setup, steps: seq<Step>, now: int)
    returns (id: NoteId)
    requires GoodOrders(cfg.ord) && forall i :: 0 <= i < |steps| ==> StepOk(steps[i])
    requires var m := Run(cfg, steps);
             && m.phase.Idle?
             && exists k :: k in m.db.outbox.rows && m.db.outbox.rows[k].status == Pending && !(now < m.db.outbox.rows[k].due)
    ensures var m := Run(cfg, steps);
            var m' := Next(cfg, m, DoFetch(now, true));
            && id in m.db.outbox.rows && m.db.outbox.rows[id].status == Pending && m.db.outbox.rows[id].due <= now
            && (forall other :: other in m.db.outbox.rows && m.db.outbox.rows[other].status == Pending ==>
                  m.db.outbox.rows[id].due <= m.db.outbox.rows[other].due)
            && var n := m.db.outbox.rows[id];
               if cfg.oversized(n.payload) then m' == m
               else if n.attempts < 8 then m'.phase == Holding(Delivery(id, n.payload, n.attempts + 1))
               else m'.phase.Idle? && m'.db.outbox.rows[id].status == Dead
  {
    hide Run, Good, Named, NextDue, Next, Injective, DueFirst;
    RunKeeps(cfg, steps);
    RunNamed(cfg, steps);
    SomeIsDue(Run(cfg, steps).db, now);
    id := FirstDueExists(cfg.ord.outbox, Run(cfg, steps).db, now);
    FirstComesFirst(cfg.ord.outbox, Run(cfg, steps).db, now, id);
    FirstIsTaken(cfg, Run(cfg, steps), now, id);
  }

  lemma FirstComesFirst(ord: Order<NoteId>, db: Db, now: int, id: NoteId)
    requires DueFirst(ord, db, now, id)
    ensures id in db.outbox.rows && db.outbox.rows[id].status == Pending && db.outbox.rows[id].due <= now
    ensures forall other :: other in db.outbox.rows && db.outbox.rows[other].status == Pending ==>
              db.outbox.rows[id].due <= db.outbox.rows[other].due
  {
    forall other | other in db.outbox.rows && db.outbox.rows[other].status == Pending
      ensures db.outbox.rows[id].due <= db.outbox.rows[other].due
    {
      if IsDue(db, now, other) && other != id {
        assert Precedes(ord, db, id, other);
      }
    }
  }

  lemma FirstIsTaken(cfg: Setup, m: Machine, now: int, id: NoteId)
    requires Good(m) && Named(m) && m.phase.Idle? && id in m.db.outbox.rows
    requires NextDue(cfg.ord.outbox, m.db, now) == Some(id)
    ensures var m' := Next(cfg, m, DoFetch(now, true));
            var n := m.db.outbox.rows[id];
            if cfg.oversized(n.payload) then m' == m
            else if n.attempts < 8 then m'.phase == Holding(Delivery(id, n.payload, n.attempts + 1))
            else m'.phase.Idle? && id in m'.db.outbox.rows && m'.db.outbox.rows[id].status == Dead
  {
    hide Conserved, SendsBounded, InStep, Listed, NextDue, Controller.Inv;
  }

  // ----- reports -----

  /**
   What a report does.  One of another attempt than the row's last changes nothing.  An
   accepted delivery is finished; a rejected one waits, or is given up after the eighth
   attempt.  Whatever is finished is dated, so that the one finished longest ago is evicted
   first, and no other row changes.
   */
  lemma {:induction false} ReportsAre(db: Db, p: Delivery, ok: bool, now: int)
    requires 0 <= p.attempts && p.id in db.outbox.rows
    ensures var before, after := db.outbox.rows[p.id], Reported(db, p, ok, now).outbox.rows;
            && after.Keys == db.outbox.rows.Keys
            && (forall k :: k in after && k != p.id ==> after[k] == db.outbox.rows[k])
            && (before.attempts != p.attempts ==> Reported(db, p, ok, now) == db)
            && (before.attempts == p.attempts ==>
                  && after[p.id].updated == now && after[p.id].payload == before.payload && after[p.id].attempts == p.attempts
                  && after[p.id].status == (if ok then Delivered else if p.attempts < 8 then Pending else Dead))
  {
    hide PowerOfTwo;
  }

  /** A row that the next fetch gives up is dated as well. */
  lemma GivenUpIsDated(cfg: Setup, m: Machine, now: int, id: NoteId)
    requires Good(m) && Named(m) && m.phase.Idle? && id in m.db.outbox.rows && m.db.outbox.rows[id].attempts == 8
    requires NextDue(cfg.ord.outbox, m.db, now) == Some(id) && !cfg.oversized(m.db.outbox.rows[id].payload)
    ensures var rows := Next(cfg, m, DoFetch(now, true)).db.outbox.rows;
            id in rows && rows[id] == m.db.outbox.rows[id].(status := Dead, updated := now)
  {
    hide Conserved, SendsBounded, InStep, Listed, NextDue, Controller.Inv;
  }
}
