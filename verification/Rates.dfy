/** The notification rate of one incident in the store, over runs of applied events. */
module Rates {
  import opened Events
  import opened Policy
  import opened Controller
  import Incidents

  /** One call of `Apply`; the contract and the policy are those of the run. */
  datatype Call = Call(e: Event, now: int, faults: set<Statement>)

  datatype Setup = Setup(ord: Orders, contract: string, p: Policy)

  ghost function RunCalls(cfg: Setup, calls: seq<Call>): Db
    requires 0 < cfg.p.recurrence
    decreases |calls|, 1
  {
    if calls == [] then FRESH else CallReply(cfg, calls).db
  }

  /** The reply to the last call. */
  ghost function CallReply(cfg: Setup, calls: seq<Call>): Reply
    requires 0 < cfg.p.recurrence && calls != []
    decreases |calls|, 0
  {
    var c := calls[|calls| - 1];
    Applied(cfg.ord, RunCalls(cfg, calls[..|calls| - 1]), c.e, cfg.contract, cfg.p, c.now, c.faults)
  }

  /** The last call counted an event of incident `key`. */
  ghost predicate CountedLast(cfg: Setup, calls: seq<Call>, key: IncidentKey)
    requires 0 < cfg.p.recurrence && calls != []
  {
    var r := CallReply(cfg, calls);
    r.result.Done? && Counts(r.result.decision) && KeyOf(cfg.contract, calls[|calls| - 1].e) == key
  }

  /** The counted events of one incident. */
  ghost function Sightings(cfg: Setup, calls: seq<Call>, key: IncidentKey): seq<Incidents.Sighting>
    requires 0 < cfg.p.recurrence
  {
    if calls == [] then []
    else
      var n := |calls| - 1;
      Sightings(cfg, calls[..n], key)
      + (if CountedLast(cfg, calls, key)
         then [Incidents.Sighting(CallReply(cfg, calls).result.decision, calls[n].now, RunCalls(cfg, calls[..n]).next + 1)]
         else [])
  }

  /** Notifications that were enqueued for the incident while its window started at `w`. */
  ghost function NotesIn(cfg: Setup, calls: seq<Call>, key: IncidentKey, w: int): nat
    requires 0 < cfg.p.recurrence
  {
    if calls == [] then 0
    else
      var r := CallReply(cfg, calls);
      NotesIn(cfg, calls[..|calls| - 1], key, w)
      + (if CountedLast(cfg, calls, key) && r.result.enqueued && IncidentAt(r.db, key).window == w then 1 else 0)
  }

  /** From its first event on, the incident is never evicted. */
  ghost predicate Resident(cfg: Setup, calls: seq<Call>, key: IncidentKey)
    requires 0 < cfg.p.recurrence
  {
    forall n :: 0 <= n <= |calls| && Sightings(cfg, calls[..n], key) != [] ==>
      key in RunCalls(cfg, calls[..n]).incidents.rows
  }

  ghost predicate Forward(calls: seq<Call>) {
    forall k, l :: 0 <= k < l < |calls| ==> calls[k].now <= calls[l].now
  }

  lemma ResidentFront(cfg: Setup, calls: seq<Call>, key: IncidentKey)
    requires 0 < cfg.p.recurrence && Resident(cfg, calls, key) && calls != []
    ensures Resident(cfg, calls[..|calls| - 1], key)
    ensures Sightings(cfg, calls, key) != [] ==> key in RunCalls(cfg, calls).incidents.rows
  {
    hide Sightings, RunCalls;
    var front := calls[..|calls| - 1];
    assert forall n :: 0 <= n <= |front| ==> front[..n] == calls[..n];
    assert calls[..|calls|] == calls;
  }

  /** One call, seen from one incident. */
  lemma CallEffect(cfg: Setup, db: Db, c: Call, key: IncidentKey)
    requires GoodOrders(cfg.ord) && Inv(db) && 0 < cfg.p.recurrence
    ensures var r := Applied(cfg.ord, db, c.e, cfg.contract, cfg.p, c.now, c.faults);
            var mine := r.result.Done? && Counts(r.result.decision) && KeyOf(cfg.contract, c.e) == key;
            && Inv(r.db)
            && (mine ==>
                  && key in r.db.incidents.rows
                  && r.db.incidents.rows[key]
                       == Incidents.Counted(cfg.p, IncidentAt(db, key), r.result.decision, c.now, db.next + 1)
                  && r.result.enqueued == Incidents.Enqueues(cfg.p, IncidentAt(db, key), r.result.decision, c.now))
            && (!mine && key in r.db.incidents.rows ==>
                  key in db.incidents.rows && r.db.incidents.rows[key] == db.incidents.rows[key])
  {
    AllOrNothing(cfg.ord, db, c.e, cfg.contract, cfg.p, c.now, c.faults);
    hide Applied, Inv, Conserved, Incidents.Enqueues, Incidents.Counted, Decide, Queued, Tables.Counted;
  }

  /** The stored incident is the one its counted events make of nothing. */
  lemma {:induction false} StoredIncident(cfg: Setup, calls: seq<Call>, key: IncidentKey)
    requires GoodOrders(cfg.ord) && ValidPolicy(cfg.p) && Resident(cfg, calls, key)
    ensures Inv(RunCalls(cfg, calls))
    ensures IncidentAt(RunCalls(cfg, calls), key) == Incidents.After(cfg.p, Incidents.NO_INCIDENT, Sightings(cfg, calls, key))
    ensures Sightings(cfg, calls, key) == [] ==> key !in RunCalls(cfg, calls).incidents.rows
    ensures forall w :: NotesIn(cfg, calls, key, w)
                     == Incidents.EnqueuedIn(cfg.p, Incidents.NO_INCIDENT, Sightings(cfg, calls, key), w)
  {
    hide Applied, Inv, Incidents.Enqueues, Incidents.Counted, Resident, ValidPolicy;
    if calls == [] {
      FreshInv();
    } else {
      var n := |calls| - 1;
      assert 0 < cfg.p.recurrence by { ValidRecurrence(cfg.p); }
      ResidentFront(cfg, calls, key);
      StoredIncident(cfg, calls[..n], key);
      CallEffect(cfg, RunCalls(cfg, calls[..n]), calls[n], key);
      var before, after := Sightings(cfg, calls[..n], key), Sightings(cfg, calls, key);
      if CountedLast(cfg, calls, key) {
        assert after[..|before|] == before;
      } else {
        assert after == before;
      }
    }
  }

  lemma FreshInv()
    ensures Inv(FRESH)
  {
  }

  lemma ValidRecurrence(p: Policy)
    requires ValidPolicy(p)
    ensures 0 < p.recurrence
  {
  }

  lemma {:induction false} SightingsSteady(cfg: Setup, calls: seq<Call>, key: IncidentKey)
    requires GoodOrders(cfg.ord) && ValidPolicy(cfg.p) && Resident(cfg, calls, key) && Forward(calls)
    ensures Incidents.Steady(Incidents.NO_INCIDENT, Sightings(cfg, calls, key))
    ensures forall k :: 0 <= k < |Sightings(cfg, calls, key)| ==>
              calls != [] && Sightings(cfg, calls, key)[k].at <= calls[|calls| - 1].now
  {
    hide Applied, Resident, ValidPolicy, CallReply;
    if calls != [] {
      var n := |calls| - 1;
      assert 0 < cfg.p.recurrence by { ValidRecurrence(cfg.p); }
      ResidentFront(cfg, calls, key);
      SightingsSteady(cfg, calls[..n], key);
      StoredIncident(cfg, calls[..n], key);
      assert 0 < n ==> calls[n - 1].now <= calls[n].now;
    }
  }

  /**
   The rate bound of the store.  With a fixed valid policy and a clock that never
   goes back, an incident that is not evicted enqueues, in any of its recurrence
   windows, at most 2 * (1 + (window - 1) / cooldown + maxEscalation) + 1
   notifications; and its level is always its whole recurrences, capped.
   */
  lemma {:induction false} NotificationRateBound(cfg: Setup, calls: seq<Call>, key: IncidentKey, w: int)
    requires GoodOrders(cfg.ord) && ValidPolicy(cfg.p) && Resident(cfg, calls, key) && Forward(calls)
    ensures NotesIn(cfg, calls, key, w) <= 2 * (1 + (cfg.p.window - 1) / cfg.p.cooldown + cfg.p.maxEscalation) + 1
    ensures var i := IncidentAt(RunCalls(cfg, calls), key);
            i.level == Incidents.Min(cfg.p.maxEscalation, i.count / cfg.p.recurrence)
  {
    var events := Sightings(cfg, calls, key);
    SightingsSteady(cfg, calls, key);
    StoredIncident(cfg, calls, key);
    Incidents.RateIsBounded(cfg.p, events, w);
    Incidents.NoIncidentSane(cfg.p);
    Incidents.LevelFollowsCount(cfg.p, Incidents.NO_INCIDENT, events);
    hide Sightings, RunCalls, NotesIn, Incidents.EnqueuedIn, Incidents.After, Resident;
  }

  lemma LastIsLast(cfg: Setup, calls: seq<Call>, key: IncidentKey)
    requires GoodOrders(cfg.ord) && ValidPolicy(cfg.p) && Resident(cfg, calls, key) && calls != [] && CountedLast(cfg, calls, key)
    ensures var events := Sightings(cfg, calls, key);
            && events != []
            && events[|events| - 1].at == calls[|calls| - 1].now
            && events[|events| - 1].decision == Decide(cfg.p, calls[|calls| - 1].e)
            && CallReply(cfg, calls).result.enqueued == Incidents.EnqueuedAt(cfg.p, Incidents.NO_INCIDENT, events, |events| - 1)
  {
    hide Applied, Inv, Incidents.Enqueues, Incidents.Counted, Resident, ValidPolicy, Incidents.After, Decide;
    var front := calls[..|calls| - 1];
    var c := calls[|calls| - 1];
    assert 0 < cfg.p.recurrence by { ValidRecurrence(cfg.p); }
    ResidentFront(cfg, calls, key);
    StoredIncident(cfg, front, key);
    CallEffect(cfg, RunCalls(cfg, front), c, key);
    AllOrNothing(cfg.ord, RunCalls(cfg, front), c.e, cfg.contract, cfg.p, c.now, c.faults);
    var events, before := Sightings(cfg, calls, key), Sightings(cfg, front, key);
    assert events[..|events| - 1] == before;
  }

  /**
   Exactly when the store enqueues.  In such a run a counted event of an incident is
   put into the outbox if and only if it is the incident's first, or the last one that
   was lies a cooldown back, or a notification follows a review, or the events counted
   in the window make a whole recurrence, no more of them than the escalation limit.
   */
  lemma {:induction false} StoreEnqueuesExactly(cfg: Setup, calls: seq<Call>, key: IncidentKey)
    returns (m: nat, l: nat)
    requires GoodOrders(cfg.ord) && ValidPolicy(cfg.p) && Resident(cfg, calls, key) && Forward(calls)
    requires calls != [] && CountedLast(cfg, calls, key)
    ensures var events := Sightings(cfg, calls, key);
            var n, p, e := |events| - 1, cfg.p, calls[|calls| - 1];
            if n == 0 then CallReply(cfg, calls).result.enqueued
            else
              && m < n && Incidents.OpenedBy(p, events[..n], m)
              && l < n && Incidents.LatestIs(p, events[..n], l)
              && var counted := if Incidents.Start(p, events, m) + p.window <= e.now then 1 else n - m + 1;
                 CallReply(cfg, calls).result.enqueued <==>
                   || events[l].at + p.cooldown <= e.now
                   || (Decide(p, e.e) == Notify && events[l].decision != Notify)
                   || exists k :: 1 <= k <= p.maxEscalation && counted == k * p.recurrence
  {
    hide Resident, CallReply, Decide, Sightings, Incidents.EnqueuedAt, Incidents.OpenedBy, Incidents.LatestIs;
    var events := Sightings(cfg, calls, key);
    SightingsSteady(cfg, calls, key);
    LastIsLast(cfg, calls, key);
    var n := |events| - 1;
    m, l := 0, 0;
    if n == 0 {
      Incidents.FirstEvent(cfg.p, events);
    } else {
      m, l := Incidents.HistoryIs(cfg.p, events[..n]);
      Incidents.EnqueuedExactly(cfg.p, events, m, l);
    }
  }
}
