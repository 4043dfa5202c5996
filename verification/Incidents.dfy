/**
 Recurrence of one incident: windows, escalation levels, cooldowns, and how often
 it can notify.
 */
module Incidents {
  import opened Wrappers
  import opened Policy

  /** The columns of an incident; `sequence` is zero until something was enqueued for it. */
  datatype Incident = Incident(
    window: int, count: int, level: int, last: int, sequence: int, touched: int, previous: Option<Decision>)

  const NO_INCIDENT: Incident := Incident(0, 0, 0, 0, 0, 0, None)

  /** Whole multiples of `b` in `a`. */
  function Quotient(a: int, b: int): int
    requires 0 < b
  {
    a / b
  }

  lemma MulMono(a: int, b: int, c: int)
    requires a <= b && 0 <= c
    ensures a * c <= b * c
  {
  }

  lemma QuotientIs(a: int, c: int, q: int)
    requires 0 < c && q * c <= a < q * c + c
    ensures Quotient(a, c) == q
  {
    var k := a / c;
    assert a == k * c + a % c;
    assert (q + 1) * c == q * c + c && (k + 1) * c == k * c + c;
    if k < q {
      MulMono(k + 1, q, c);
    }
    if q < k {
      MulMono(q + 1, k, c);
    }
  }

  lemma QuotientBounds(a: int, c: int)
    requires 0 < c
    ensures Quotient(a, c) * c <= a < Quotient(a, c) * c + c
  {
  }

  lemma QuotientMono(a: int, b: int, c: int)
    requires 0 < c && a <= b
    ensures Quotient(a, c) <= Quotient(b, c)
  {
    QuotientBounds(a, c);
    QuotientBounds(b, c);
    hide Quotient;
    var p, q := Quotient(a, c), Quotient(b, c);
    assert (q + 1) * c == q * c + c;
    if q < p {
      MulMono(q + 1, p, c);
    }
  }

  lemma QuotientStep(a: int, b: int, c: int)
    requires 0 < c && a + c <= b
    ensures Quotient(a, c) + 1 <= Quotient(b, c)
  {
    QuotientBounds(a, c);
    var q := Quotient(a, c);
    assert (q + 1) * c == q * c + c;
    QuotientIs(a + c, c, q + 1);
    QuotientMono(a + c, b, c);
  }

  lemma QuotientSmall(a: int, c: int)
    requires 0 <= a < c
    ensures Quotient(a, c) == 0
  {
    QuotientIs(a, c, 0);
  }

  function Min(a: int, b: int): int { if a < b then a else b }
  function Max(a: int, b: int): int { if a < b then b else a }

  predicate Reopens(p: Policy, i: Incident, now: int) {
    now < i.window || p.window <= now - i.window
  }

  /** The window, count and level the event is counted in, before it is counted. */
  function Rolled(p: Policy, i: Incident, now: int): Incident {
    if Reopens(p, i, now) then i.(window := now, count := 0, level := 0) else i
  }

  function NewLevel(p: Policy, i: Incident, now: int): int
    requires 0 < p.recurrence
  {
    Min(p.maxEscalation, Quotient(Rolled(p, i, now).count + 1, p.recurrence))
  }

  /** Whether a counted event is put into the outbox. */
  predicate Enqueues(p: Policy, i: Incident, d: Decision, now: int)
    requires 0 < p.recurrence
  {
    || i.sequence == 0 || now < i.last || p.cooldown <= now - i.last
    || Rolled(p, i, now).level < NewLevel(p, i, now)
    || (d == Notify && i.previous != Some(Notify))
  }

  /** The incident after one event; `number` is the new sequence if the event is enqueued. */
  function Counted(p: Policy, i: Incident, d: Decision, now: int, number: int): Incident
    requires 0 < p.recurrence
  {
    var r := Rolled(p, i, now);
    var next := r.(count := r.count + 1, level := Max(r.level, NewLevel(p, i, now)), touched := now);
    if Enqueues(p, i, d, now) then next.(last := now, sequence := number, previous := Some(d)) else next
  }

  // ----- one incident over time -----

  /** A counted event of the incident: what was decided, when, and the outbox sequence it could get. */
  datatype Sighting = Sighting(decision: Decision, at: int, number: int)

  function After(p: Policy, i: Incident, events: seq<Sighting>): Incident
    requires 0 < p.recurrence
  {
    if events == [] then i
    else
      var e := events[|events| - 1];
      Counted(p, After(p, i, events[..|events| - 1]), e.decision, e.at, e.number)
  }

  /** Event number `k` was enqueued. */
  predicate EnqueuedAt(p: Policy, i: Incident, events: seq<Sighting>, k: nat)
    requires 0 < p.recurrence && k < |events|
  {
    Enqueues(p, After(p, i, events[..k]), events[k].decision, events[k].at)
  }

  /** How many of the events were enqueued while the incident was in the window that starts at `w`. */
  function EnqueuedIn(p: Policy, i: Incident, events: seq<Sighting>, w: int): nat
    requires 0 < p.recurrence
  {
    if events == [] then 0
    else
      var n := |events| - 1;
      EnqueuedIn(p, i, events[..n], w)
      + (if After(p, i, events).window == w && EnqueuedAt(p, i, events, n) then 1 else 0)
  }

  /** A clock that never goes back, counted decisions only, and positive outbox sequences. */
  ghost predicate Steady(i: Incident, events: seq<Sighting>) {
    && (forall k :: 0 <= k < |events| ==>
          && (events[k].decision == Notify || events[k].decision == ForReview) && 0 < events[k].number
          && (i.touched <= events[k].at || i == NO_INCIDENT))
    && (forall k, l :: 0 <= k < l < |events| ==> events[k].at <= events[l].at)
  }

  /** What holds of every stored incident of a steady run under one policy. */
  ghost predicate Sane(p: Policy, i: Incident)
    requires 0 < p.recurrence
  {
    && 0 <= i.count && i.level == Min(p.maxEscalation, Quotient(i.count, p.recurrence))
    && i.window <= i.touched && i.last <= i.touched && 0 <= i.sequence
    && (i.sequence == 0 ==> i.count == 0 && i.previous.None?)
  }

  lemma CountedSane(p: Policy, i: Incident, d: Decision, now: int, number: int)
    requires ValidPolicy(p) && Sane(p, i) && (i.touched <= now || i == NO_INCIDENT) && 0 < number
    ensures Sane(p, Counted(p, i, d, now, number)) && 0 < Counted(p, i, d, now, number).sequence
  {
    hide Quotient;
    var r := Rolled(p, i, now);
    QuotientMono(r.count, r.count + 1, p.recurrence);
    QuotientSmall(0, p.recurrence);
    QuotientSmall(1, p.recurrence);
  }

  /**
   Under one policy the level is always the number of whole recurrences counted in
   the window, capped: it never lags and never runs ahead.
   */
  lemma {:induction false} LevelFollowsCount(p: Policy, i: Incident, events: seq<Sighting>)
    requires ValidPolicy(p) && Sane(p, i) && Steady(i, events)
    ensures Sane(p, After(p, i, events))
    ensures After(p, i, events).touched == if events == [] then i.touched else events[|events| - 1].at
  {
    if events != [] {
      var n := |events| - 1;
      LevelFollowsCount(p, i, events[..n]);
      CountedSane(p, After(p, i, events[..n]), events[n].decision, events[n].at, events[n].number);
    }
  }

  // ----- how often it can notify -----

  /** Enqueued because nothing was pending for long enough, or because the level rose. */
  predicate Due(p: Policy, i: Incident, now: int)
    requires 0 < p.recurrence
  {
    i.sequence == 0 || now < i.last || p.cooldown <= now - i.last || Rolled(p, i, now).level < NewLevel(p, i, now)
  }

  /** Enqueues in the current window: `due` for cooldown or level, `turned` because a notification followed a review. */
  datatype Tally = Tally(due: nat, turned: nat)

  function Tallied(p: Policy, i: Incident, events: seq<Sighting>): Tally
    requires 0 < p.recurrence
  {
    if events == [] then Tally(0, 0)
    else
      var n := |events| - 1;
      var before, e := After(p, i, events[..n]), events[n];
      var t := if Reopens(p, before, e.at) then Tally(0, 0) else Tallied(p, i, events[..n]);
      if Due(p, before, e.at) then t.(due := t.due + 1)
      else if Enqueues(p, before, e.decision, e.at) then t.(turned := t.turned + 1)
      else t
  }

  /**
   The reason the rate is bounded: a cooldown must pass between due enqueues that
   are not a rise of the level, and a turn needs a review enqueued before it.
   */
  ghost predicate Throttled(p: Policy, i: Incident, t: Tally)
    requires 0 < p.cooldown
  {
    && t.turned <= t.due + (if i.previous == Some(Notify) then 1 else 0)
    && (t.due == 0 || (i.sequence != 0 && i.window <= i.last && t.due <= 1 + Quotient(i.last - i.window, p.cooldown) + i.level))
  }

  lemma ThrottledNext(p: Policy, i: Incident, t: Tally, d: Decision, now: int, number: int)
    requires ValidPolicy(p) && Sane(p, i) && (i.touched <= now || i == NO_INCIDENT) && 0 < number && Throttled(p, i, t)
    ensures var t0 := if Reopens(p, i, now) then Tally(0, 0) else t;
            var t1 := if Due(p, i, now) then t0.(due := t0.due + 1)
                      else if Enqueues(p, i, d, now) then t0.(turned := t0.turned + 1) else t0;
            Throttled(p, Counted(p, i, d, now, number), t1)
  {
    hide Quotient;
    var r := Rolled(p, i, now);
    var i' := Counted(p, i, d, now, number);
    CountedSane(p, i, d, now, number);
    LevelNonNegative(p, i');
    QuotientSmall(0, p.cooldown);
    assert r.level <= i'.level;
    if Due(p, i, now) {
      assert i'.last == now && i'.window == r.window <= now;
      if !Reopens(p, i, now) && 0 < t.due {
        if p.cooldown <= now - i.last {
          QuotientStep(i.last - i.window, now - i.window, p.cooldown);
        } else {
          QuotientMono(i.last - i.window, now - i.window, p.cooldown);
          assert r.level + 1 <= i'.level;
        }
      } else {
        QuotientMono(0, now - r.window, p.cooldown);
      }
    } else if Enqueues(p, i, d, now) && !Reopens(p, i, now) && 0 < t.due {
      QuotientMono(i.last - i.window, now - i.window, p.cooldown);
    }
  }

  lemma LevelNonNegative(p: Policy, i: Incident)
    requires ValidPolicy(p) && Sane(p, i)
    ensures 0 <= i.level <= p.maxEscalation
  {
    QuotientSmall(0, p.recurrence);
    QuotientMono(0, i.count, p.recurrence);
  }

  lemma {:induction false} RunThrottled(p: Policy, i: Incident, events: seq<Sighting>)
    requires ValidPolicy(p) && Sane(p, i) && Steady(i, events) && i.sequence == 0
    ensures Throttled(p, After(p, i, events), Tallied(p, i, events))
  {
    hide Due, Enqueues, Reopens, Throttled, Counted, Sane;
    if events == [] {
      EmptyThrottled(p, i);
    } else {
      var n := |events| - 1;
      RunThrottled(p, i, events[..n]);
      LevelFollowsCount(p, i, events[..n]);
      ThrottledNext(p, After(p, i, events[..n]), Tallied(p, i, events[..n]), events[n].decision, events[n].at, events[n].number);
    }
  }

  lemma EmptyThrottled(p: Policy, i: Incident)
    requires 0 < p.cooldown
    ensures Throttled(p, i, Tally(0, 0))
  {
  }

  /** The most one window can enqueue. */
  function RateBound(p: Policy): int
    requires 0 < p.cooldown
  {
    2 * (1 + Quotient(p.window - 1, p.cooldown) + p.maxEscalation) + 1
  }

  /** The incident was counted inside its window, and windows only move forward. */
  lemma CountedWindow(p: Policy, i: Incident, d: Decision, now: int, number: int)
    requires ValidPolicy(p) && Sane(p, i) && (i.touched <= now || i == NO_INCIDENT)
    ensures var i' := Counted(p, i, d, now, number);
            && i'.touched == now && i'.window <= now < i'.window + p.window
            && (i == NO_INCIDENT || i.window <= i'.window)
            && (i != NO_INCIDENT && Reopens(p, i, now) ==> i.window < i'.window)
            && (i'.window == if Reopens(p, i, now) then now else i.window)
  {
  }

  lemma TallyWithinBound(p: Policy, i: Incident, t: Tally)
    requires ValidPolicy(p) && Sane(p, i) && Throttled(p, i, t) && i.touched < i.window + p.window
    ensures t.due + t.turned <= RateBound(p)
  {
    hide Quotient;
    LevelNonNegative(p, i);
    QuotientSmall(0, p.cooldown);
    QuotientMono(0, p.window - 1, p.cooldown);
    if t.due != 0 {
      QuotientMono(i.last - i.window, p.window - 1, p.cooldown);
    }
  }

  lemma NoIncidentSane(p: Policy)
    requires ValidPolicy(p)
    ensures Sane(p, NO_INCIDENT)
  {
    QuotientSmall(0, p.recurrence);
  }

  ghost predicate CountsUpTo(p: Policy, events: seq<Sighting>)
    requires ValidPolicy(p)
  {
    var i, t := After(p, NO_INCIDENT, events), Tallied(p, NO_INCIDENT, events);
    && EnqueuedIn(p, NO_INCIDENT, events, i.window) == t.due + t.turned
    && (forall w :: (i.window < w || events == []) ==> EnqueuedIn(p, NO_INCIDENT, events, w) == 0)
    && (forall w :: EnqueuedIn(p, NO_INCIDENT, events, w) <= RateBound(p))
  }

  lemma CountsStep(p: Policy, events: seq<Sighting>)
    requires ValidPolicy(p) && events != []
    requires CountsUpTo(p, events[..|events| - 1])
    requires var n := |events| - 1;
             var before, e := After(p, NO_INCIDENT, events[..n]), events[n];
             var i := After(p, NO_INCIDENT, events);
             && i.window == (if Reopens(p, before, e.at) then e.at else before.window)
             && (n == 0 || before.window <= i.window)
             && (n != 0 && Reopens(p, before, e.at) ==> before.window < i.window)
    requires Tallied(p, NO_INCIDENT, events).due + Tallied(p, NO_INCIDENT, events).turned <= RateBound(p)
    ensures CountsUpTo(p, events)
  {
    var n := |events| - 1;
    var front, e := events[..n], events[n];
    var before, i := After(p, NO_INCIDENT, front), After(p, NO_INCIDENT, events);
    var more := if EnqueuedAt(p, NO_INCIDENT, events, n) then 1 else 0;
    TallyStep(p, before, e.decision, e.at);
    TallyUnrolled(p, events);
    forall w
      ensures EnqueuedIn(p, NO_INCIDENT, events, w) ==
                EnqueuedIn(p, NO_INCIDENT, front, w) + (if i.window == w then more else 0)
    {
    }
    hide After, EnqueuedIn, Tallied, Due, Enqueues, Reopens, Counted, RateBound, EnqueuedAt;
  }

  lemma TallyUnrolled(p: Policy, events: seq<Sighting>)
    requires 0 < p.recurrence && events != []
    ensures var n := |events| - 1;
            var before, t := After(p, NO_INCIDENT, events[..n]), Tallied(p, NO_INCIDENT, events);
            t.due + t.turned ==
              (if Reopens(p, before, events[n].at) then 0
               else Tallied(p, NO_INCIDENT, events[..n]).due + Tallied(p, NO_INCIDENT, events[..n]).turned)
              + (if EnqueuedAt(p, NO_INCIDENT, events, n) then 1 else 0)
  {
    var n := |events| - 1;
    TallyStep(p, After(p, NO_INCIDENT, events[..n]), events[n].decision, events[n].at);
    hide Due, Enqueues, Reopens, Counted;
  }

  lemma {:induction false} TallyCounts(p: Policy, events: seq<Sighting>)
    requires ValidPolicy(p) && Steady(NO_INCIDENT, events)
    ensures CountsUpTo(p, events)
  {
    NoIncidentSane(p);
    hide Quotient;
    if events == [] {
      QuotientSmall(0, p.cooldown);
      QuotientMono(0, p.window - 1, p.cooldown);
    } else {
      var n := |events| - 1;
      var front, e := events[..n], events[n];
      var before := After(p, NO_INCIDENT, front);
      TallyCounts(p, front);
      LevelFollowsCount(p, NO_INCIDENT, front);
      LevelFollowsCount(p, NO_INCIDENT, events);
      CountedWindow(p, before, e.decision, e.at, e.number);
      RunThrottled(p, NO_INCIDENT, events);
      TallyWithinBound(p, After(p, NO_INCIDENT, events), Tallied(p, NO_INCIDENT, events));
      if front != [] {
        StoredIsSome(p, front);
      }
      hide CountsUpTo, Reopens, Throttled, Counted, Sane, Steady, RateBound, Enqueues;
      CountsStep(p, events);
    }
  }

  lemma StoredIsSome(p: Policy, events: seq<Sighting>)
    requires ValidPolicy(p) && Steady(NO_INCIDENT, events) && events != []
    ensures After(p, NO_INCIDENT, events) != NO_INCIDENT
  {
    NoIncidentSane(p);
    var n := |events| - 1;
    LevelFollowsCount(p, NO_INCIDENT, events[..n]);
    CountedSane(p, After(p, NO_INCIDENT, events[..n]), events[n].decision, events[n].at, events[n].number);
  }

  lemma TallyStep(p: Policy, i: Incident, d: Decision, now: int)
    requires 0 < p.recurrence
    ensures Due(p, i, now) ==> Enqueues(p, i, d, now)
  {
  }

  /**
   The notification rate is bounded.  Under one valid policy and a clock that
   never goes back, one incident that is not evicted enqueues at most
   2 * (1 + (window - 1) / cooldown + maxEscalation) + 1 notifications in any
   recurrence window.
   */
  lemma {:induction false} RateIsBounded(p: Policy, events: seq<Sighting>, w: int)
    requires ValidPolicy(p) && Steady(NO_INCIDENT, events)
    ensures EnqueuedIn(p, NO_INCIDENT, events, w) <= 2 * (1 + (p.window - 1) / p.cooldown + p.maxEscalation) + 1
  {
    TallyCounts(p, events);
  }

  // ----- exactly when it notifies -----

  /** When the window that event `m` opened began; one within the first window length of the epoch counts from the epoch. */
  function Start(p: Policy, events: seq<Sighting>, m: nat): int
    requires m < |events|
  {
    if m == 0 && 0 <= events[0].at < p.window then 0 else events[m].at
  }

  /** The window of a run opened with event `m` and has counted every event since. */
  ghost predicate OpenedBy(p: Policy, events: seq<Sighting>, m: nat)
    requires 0 < p.recurrence && m < |events|
  {
    var i := After(p, NO_INCIDENT, events);
    && i.window == Start(p, events, m) && i.count == |events| - m
    && (forall k :: m <= k < |events| ==> events[k].at < Start(p, events, m) + p.window)
    && (m != 0 ==> After(p, NO_INCIDENT, events[..m]).window + p.window <= events[m].at)
  }

  /** The latest enqueued event of a run is number `l`. */
  ghost predicate LatestIs(p: Policy, events: seq<Sighting>, l: nat)
    requires 0 < p.recurrence && l < |events|
  {
    EnqueuedAt(p, NO_INCIDENT, events, l) && forall k :: l < k < |events| ==> !EnqueuedAt(p, NO_INCIDENT, events, k)
  }

  lemma AfterOne(p: Policy, events: seq<Sighting>)
    requires 0 < p.recurrence && events != []
    ensures var n := |events| - 1;
            After(p, NO_INCIDENT, events)
              == Counted(p, After(p, NO_INCIDENT, events[..n]), events[n].decision, events[n].at, events[n].number)
  {
  }

  lemma EnqueuedEarlier(p: Policy, events: seq<Sighting>, k: nat)
    requires 0 < p.recurrence && k < |events| - 1
    ensures EnqueuedAt(p, NO_INCIDENT, events, k) <==> EnqueuedAt(p, NO_INCIDENT, events[..|events| - 1], k)
  {
    assert events[..|events| - 1][..k] == events[..k];
  }

  /** The counters of an incident, told from its events alone. */
  lemma {:induction false} HistoryIs(p: Policy, events: seq<Sighting>) returns (m: nat, l: nat)
    requires ValidPolicy(p) && Steady(NO_INCIDENT, events) && events != []
    ensures m < |events| && OpenedBy(p, events, m)
    ensures l < |events| && LatestIs(p, events, l)
    ensures var i := After(p, NO_INCIDENT, events); i.last == events[l].at && i.previous == Some(events[l].decision)
  {
    hide Enqueues, Counted, Sane, Reopens, NewLevel, Quotient;
    var n := |events| - 1;
    var front, e := events[..n], events[n];
    var before := After(p, NO_INCIDENT, front);
    AfterOne(p, events);
    CountedFields(p, before, e.decision, e.at, e.number);
    if n == 0 {
      m, l := 0, 0;
      FirstEvent(p, events);
    } else {
      m, l := HistoryIs(p, front);
      NotBack(p, events);
      hide Steady, ValidPolicy;
      assert front[..m] == events[..m];
      if EnqueuedAt(p, NO_INCIDENT, events, n) {
        l := n;
      } else {
        forall k | l <= k < n ensures EnqueuedAt(p, NO_INCIDENT, events, k) <==> EnqueuedAt(p, NO_INCIDENT, front, k) {
          EnqueuedEarlier(p, events, k);
        }
      }
      if Reopens(p, before, e.at) {
        m := n;
      }
      hide EnqueuedAt;
    }
  }

  lemma CountedFields(p: Policy, i: Incident, d: Decision, now: int, number: int)
    requires 0 < p.recurrence
    ensures var c := Counted(p, i, d, now, number);
            && c.window == (if Reopens(p, i, now) then now else i.window)
            && c.count == (if Reopens(p, i, now) then 1 else i.count + 1)
            && (Enqueues(p, i, d, now) ==> c.last == now && c.previous == Some(d))
            && (!Enqueues(p, i, d, now) ==> c.last == i.last && c.previous == i.previous)
  {
    hide Enqueues, NewLevel, Reopens;
  }

  lemma FirstEvent(p: Policy, events: seq<Sighting>)
    requires ValidPolicy(p) && Steady(NO_INCIDENT, events) && |events| == 1
    ensures EnqueuedAt(p, NO_INCIDENT, events, 0) && OpenedBy(p, events, 0)
  {
    hide Quotient, NewLevel;
    assert After(p, NO_INCIDENT, events[..0]) == NO_INCIDENT;
  }

  /** The clock of a steady run is not behind what the incident has stored. */
  lemma NotBack(p: Policy, events: seq<Sighting>)
    requires ValidPolicy(p) && Steady(NO_INCIDENT, events) && |events| > 1
    ensures var n := |events| - 1;
            var i := After(p, NO_INCIDENT, events[..n]);
            && i.window <= events[n].at && i.last <= events[n].at && i.sequence != 0 && Sane(p, i)
            && (Reopens(p, i, events[n].at) <==> i.window + p.window <= events[n].at)
  {
    var n := |events| - 1;
    var front := events[..n];
    NoIncidentSane(p);
    LevelFollowsCount(p, NO_INCIDENT, front);
    LevelFollowsCount(p, NO_INCIDENT, front[..n - 1]);
    CountedSane(p, After(p, NO_INCIDENT, front[..n - 1]), front[n - 1].decision, front[n - 1].at, front[n - 1].number);
    assert events[n - 1].at <= events[n].at;
    hide Counted, Quotient;
  }

  lemma LevelRises(p: Policy, count: int)
    requires ValidPolicy(p) && 0 <= count
    ensures Min(p.maxEscalation, Quotient(count, p.recurrence)) < Min(p.maxEscalation, Quotient(count + 1, p.recurrence))
       <==> exists k :: 1 <= k <= p.maxEscalation && count + 1 == k * p.recurrence
  {
    var a, b, r := Quotient(count, p.recurrence), Quotient(count + 1, p.recurrence), p.recurrence;
    QuotientBounds(count, r);
    QuotientBounds(count + 1, r);
    QuotientMono(count, count + 1, r);
    QuotientMono(0, count, r);
    QuotientSmall(0, r);
    hide Quotient;
    if a < b {
      MulMono(a + 1, b, r);
      assert (a + 1) * r == a * r + r;
      assert count + 1 == b * r;
    }
    if k :| 1 <= k <= p.maxEscalation && count + 1 == k * r {
      QuotientIs(count + 1, r, k);
      assert (k - 1) * r == k * r - r;
      QuotientIs(count, r, k - 1);
    }
  }

  /**
   Exactly when an event notifies.  With a valid policy and a clock that never goes
   back, an event is put into the outbox if and only if it is the incident's first, or
   a cooldown has passed since the last one that was, or it is a notification and that
   one was a review, or it completes a whole recurrence, no more of them than the
   escalation limit, in the window that its events opened.
   */
  lemma {:induction false} EnqueuedExactly(p: Policy, events: seq<Sighting>, m: nat, l: nat)
    requires ValidPolicy(p) && Steady(NO_INCIDENT, events) && |events| > 1
    requires var front := events[..|events| - 1];
             m < |front| && OpenedBy(p, front, m) && l < |front| && LatestIs(p, front, l)
    ensures var n := |events| - 1;
            var e := events[n];
            var counted := if Start(p, events, m) + p.window <= e.at then 1 else n - m + 1;
            EnqueuedAt(p, NO_INCIDENT, events, n) <==>
              || events[l].at + p.cooldown <= e.at
              || (e.decision == Notify && events[l].decision != Notify)
              || exists k :: 1 <= k <= p.maxEscalation && counted == k * p.recurrence
  {
    hide Quotient, LatestIs, After, Counted, Sane, Enqueues, Reopens;
    var n := |events| - 1;
    var front, e := events[..n], events[n];
    var i := After(p, NO_INCIDENT, front);
    var m', l' := HistoryIs(p, front);
    assert l == l' by { LatestUnique(p, front, l, l'); }
    NotBack(p, events);
    EnqueuesWhen(p, i, e.decision, e.at);
    assert Start(p, front, m) == Start(p, events, m);
  }

  lemma EnqueuesWhen(p: Policy, i: Incident, d: Decision, now: int)
    requires ValidPolicy(p) && Sane(p, i) && i.sequence != 0 && i.window <= now && i.last <= now
    ensures var counted := if i.window + p.window <= now then 1 else i.count + 1;
            Enqueues(p, i, d, now) <==>
              || i.last + p.cooldown <= now
              || (d == Notify && i.previous != Some(Notify))
              || exists k :: 1 <= k <= p.maxEscalation && counted == k * p.recurrence
  {
    hide Quotient;
    LevelRises(p, if Reopens(p, i, now) then 0 else i.count);
    QuotientSmall(0, p.recurrence);
  }

  lemma LatestUnique(p: Policy, events: seq<Sighting>, l: nat, l': nat)
    requires 0 < p.recurrence && l < |events| && l' < |events| && LatestIs(p, events, l) && LatestIs(p, events, l')
    ensures l == l'
  {
  }
}
