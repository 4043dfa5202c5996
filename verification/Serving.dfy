/** What the table owes its callers: which observations are served, and which are audits. */
module Serving {
  import opened Wrappers
  import opened Clock
  import opened Verdict
  import opened Events
  import opened Grouper

  /** The observation is not behind the wall mark and inside every bound of a verdict published at `start`. */
  ghost predicate Timely(cfg: Settings, s: State, j: Judgment, start: Instant, now: Instant) {
    && (IsZero(s.observed) || !Before(WallOnly(now), s.observed))
    && Before(now, Add(start, cfg.ttl)) && CacheValidAt(j, now)
  }

  predicate Observes(cfg: Settings, op: Op, fam: Family) {
    op.DoObserve? && Identify(cfg, op.e, op.now) == Identified(fam)
  }

  /** An operation that leaves the published verdict of `t` alone: no veto, eviction, invalidation or publication. */
  ghost predicate Calm(cfg: Settings, s: State, op: Op, t: Ticket, j: Judgment, start: Instant) {
    match op
    case DoObserve(e, now) =>
      if Identify(cfg, e, now) == Identified(t.family) then Timely(cfg, s, j, start, now)
      else IsCurrent(Do(cfg, s, op), t)
    case DoPublish(u, _, _, _) => u != t
    case DoInvalidate(u) => u != t
    case DoVeto(ids) => t.family !in ids
  }

  ghost predicate Undisturbed(cfg: Settings, s: State, ops: seq<Op>, t: Ticket, j: Judgment, start: Instant) {
    ops != [] ==>
      var front := ops[..|ops| - 1];
      Undisturbed(cfg, s, front, t, j, start) && Calm(cfg, DoAll(cfg, s, front), ops[|ops| - 1], t, j, start)
  }

  /** How often the family is observed. */
  function Times(cfg: Settings, ops: seq<Op>, fam: Family): nat {
    if ops == [] then 0
    else Times(cfg, ops[..|ops| - 1], fam) + if Observes(cfg, ops[|ops| - 1], fam) then 1 else 0
  }

  /** After how many observations a fresh verdict is audited. */
  function AuditAfter(cfg: Settings, j: Judgment, before: nat): nat {
    if j.opinion.importance != Routine then 32
    else
      var want := if before < 16 then 32 else before + before;
      if cfg.maxInterval < want then cfg.maxInterval else want
  }

  /** The deadline of the judgment, if it has one that is not after `end`. */
  function Sooner(j: Judgment, end: Instant): Instant {
    if IsZero(j.deadline) || Before(end, j.deadline) then end else j.deadline
  }

  /** The table holds `j` for `t`, seen `k` times since it was published and audited after `n`. */
  ghost predicate Ready(cfg: Settings, s: State, t: Ticket, j: Judgment, start: Instant, k: nat, n: nat) {
    && IsCurrent(s, t) && t.family !in s.review
    && var p := s.entries[t.family];
       && p.verdict == j && !p.refresh
       && p.expires == Sooner(j, Add(start, cfg.ttl))
       && p.auditAt + k == p.seen + n
  }

  lemma PublishedIsReady(cfg: Settings, s: State, t: Ticket, j: Judgment, rep: string, start: Instant)
    requires Publishes(s, t, j, start)
    ensures Ready(cfg, Published(cfg, s, t, j, rep, start), t, j, start, 0, AuditAfter(cfg, j, s.entries[t.family].interval))
  {
    hide CacheValidAt, Reusable, Before, IsZero, Add, WallOnly;
  }

  lemma AdmittedOthers(cfg: Settings, s: State, fam: Family, other: Family)
    requires other != fam && other in Admitted(cfg, s, fam).entries && other in s.entries
    ensures Admitted(cfg, s, fam).entries[other] == s.entries[other]
  {
  }

  lemma AdmittedSame(cfg: Settings, s: State, fam: Family)
    requires fam in s.entries
    ensures var s' := Admitted(cfg, s, fam);
            && s'.entries[fam] == s.entries[fam].(last := s.sequence + 1, seen := s.entries[fam].seen + 1)
            && s'.observed == s.observed && s'.review == s.review
  {
  }

  /** The observation that decides: served, or the audit. */
  lemma SightReady(cfg: Settings, s: State, t: Ticket, j: Judgment, start: Instant, k: nat, n: nat, e: Event, now: Instant)
    requires Ready(cfg, s, t, j, start, k, n) && Reusable(j.opinion)
    requires Identify(cfg, e, now) == Identified(t.family) && Timely(cfg, s, j, start, now)
    ensures var o := Sight(cfg, s, e, now);
            && o.ticket == Some(t)
            && (if !cfg.adaptive || k + 1 < n
                then o.cached == Some(j) && o.reason == Cached && Ready(cfg, o.state, t, j, start, k + 1, n)
                else o.cached.None? && o.reason == StableAudit)
  {
    AdmittedSame(cfg, s, t.family);
    hide Admitted, Identify, Reusable, Add, Before;
  }

  lemma DoReady(cfg: Settings, s: State, op: Op, t: Ticket, j: Judgment, start: Instant, k: nat, n: nat)
    requires Ready(cfg, s, t, j, start, k, n) && Reusable(j.opinion) && Calm(cfg, s, op, t, j, start)
    requires Observes(cfg, op, t.family) && cfg.adaptive ==> k + 1 < n
    ensures Ready(cfg, Do(cfg, s, op), t, j, start, if Observes(cfg, op, t.family) then k + 1 else k, n)
  {
    match op {
      case DoObserve(e, now) =>
        if Observes(cfg, op, t.family) {
          SightReady(cfg, s, t, j, start, k, n, e, now);
        } else {
          SightOthers(cfg, s, t, e, now);
        }
      case DoPublish(u, j', rep, now) => PublishedOthers(cfg, s, t, u, j', rep, now);
      case DoInvalidate(u) =>
      case DoVeto(ids) =>
    }
    hide Do, Reusable, Add, IsZero, CacheValidAt, Before, Identify, Sight, Published;
  }

  lemma SightOthers(cfg: Settings, s: State, t: Ticket, e: Event, now: Instant)
    requires IsCurrent(s, t) && Identify(cfg, e, now) != Identified(t.family)
    requires IsCurrent(Sight(cfg, s, e, now).state, t)
    ensures Sight(cfg, s, e, now).state.entries[t.family] == s.entries[t.family]
    ensures Sight(cfg, s, e, now).state.review == s.review
  {
    hide Identify, Admitted, Reusable, CacheValidAt, Before, IsZero;
    match Identify(cfg, e, now) {
      case Unidentified(_) =>
      case Identified(fam) =>
        AdmittedObserved(cfg, s, fam);
        ConsultSameResidents(cfg, Admitted(cfg, s, fam), fam, now);
        AdmittedOthers(cfg, s, fam, t.family);
    }
  }

  lemma PublishedOthers(cfg: Settings, s: State, t: Ticket, u: Ticket, j: Judgment, rep: string, now: Instant)
    requires IsCurrent(s, t) && u != t
    ensures var s' := Published(cfg, s, u, j, rep, now);
            IsCurrent(s', t) && s'.entries[t.family] == s.entries[t.family] && s'.review == s.review
  {
    hide Reusable, CacheValidAt, Before, IsZero, Publishes;
  }

  lemma {:induction false} RunReady(cfg: Settings, s: State, ops: seq<Op>, t: Ticket, j: Judgment, start: Instant, n: nat)
    requires Ready(cfg, s, t, j, start, 0, n) && Reusable(j.opinion) && Undisturbed(cfg, s, ops, t, j, start)
    requires cfg.adaptive && Times(cfg, ops, t.family) > 0 ==> Times(cfg, ops, t.family) < n
    ensures Ready(cfg, DoAll(cfg, s, ops), t, j, start, Times(cfg, ops, t.family), n)
  {
    hide Ready, Do, Calm, Reusable, Observes;
    if ops != [] {
      var front := ops[..|ops| - 1];
      RunReady(cfg, s, front, t, j, start, n);
      DoReady(cfg, DoAll(cfg, s, front), ops[|ops| - 1], t, j, start, Times(cfg, front, t.family), n);
    }
  }

  /**
   A published verdict is served.  After a successful publication, in every run without
   a veto, eviction, invalidation or new publication of the family, each observation of
   it that is not behind the wall mark and inside both bounds gets that very judgment.
   Under adaptive auditing this holds for the first `n - 1` of them and the next one is
   the audit, where `n` is 32 for a verdict that is not routine, and for a routine one
   twice the interval before, at least 32 and at most the configured maximum.
   */
  lemma {:induction false} ServedUntilAudit(
      cfg: Settings, s: State, t: Ticket, j: Judgment, rep: string, start: Instant, ops: seq<Op>, e: Event, now: Instant)
    requires Publishes(s, t, j, start)
    requires var s1 := Published(cfg, s, t, j, rep, start);
             Undisturbed(cfg, s1, ops, t, j, start) && Timely(cfg, DoAll(cfg, s1, ops), j, start, now)
    requires Identify(cfg, e, now) == Identified(t.family)
    requires var k := Times(cfg, ops, t.family);
             cfg.adaptive ==> k == 0 || k < AuditAfter(cfg, j, s.entries[t.family].interval)
    ensures var o := Sight(cfg, DoAll(cfg, Published(cfg, s, t, j, rep, start), ops), e, now);
            var k, n := Times(cfg, ops, t.family) + 1, AuditAfter(cfg, j, s.entries[t.family].interval);
            && o.ticket == Some(t)
            && (if !cfg.adaptive || k < n then o.cached == Some(j) && o.reason == Cached
                else o.cached.None? && o.reason == StableAudit)
  {
    var n := AuditAfter(cfg, j, s.entries[t.family].interval);
    var s1 := Published(cfg, s, t, j, rep, start);
    PublishedIsReady(cfg, s, t, j, rep, start);
    hide Published, Ready, Reusable, CacheValidAt, Timely, Undisturbed, Sight, Identify, DoAll, AuditAfter;
    RunReady(cfg, s1, ops, t, j, start, n);
    SightReady(cfg, DoAll(cfg, s1, ops), t, j, start, Times(cfg, ops, t.family), n, e, now);
  }

  lemma SightOverdue(cfg: Settings, s: State, t: Ticket, j: Judgment, start: Instant, k: nat, n: nat, e: Event, now: Instant)
    requires Ready(cfg, s, t, j, start, k, n) && Reusable(j.opinion) && Identify(cfg, e, now) == Identified(t.family)
    requires Reading(start) && Reading(now) && (IsZero(j.deadline) || j.deadline.mono.Some?)
    requires !Timely(cfg, s, j, start, now)
    ensures var o := Sight(cfg, s, e, now);
            && o.ticket == Some(t) && o.cached.None? && AsksAgain(o.reason)
            && (o.reason == ClockRollback <==> !IsZero(s.observed) && now.wall < s.observed.wall)
  {
    AdmittedSame(cfg, s, t.family);
    hide Admitted, Identify, Reusable;
  }

  /**
   And not a reading longer: out of its bounds, or once the time to live has elapsed since
   it was published, a verdict is not served and its family is told to ask again, whatever
   other use was made of the table.
   */
  lemma {:induction false} OverdueIsNotServed(
      cfg: Settings, s: State, t: Ticket, j: Judgment, rep: string, start: Instant, ops: seq<Op>, e: Event, now: Instant)
    requires Publishes(s, t, j, start) && Reading(start) && Reading(now) && (IsZero(j.deadline) || j.deadline.mono.Some?)
    requires var s1 := Published(cfg, s, t, j, rep, start);
             Undisturbed(cfg, s1, ops, t, j, start) && !Timely(cfg, DoAll(cfg, s1, ops), j, start, now)
    requires Identify(cfg, e, now) == Identified(t.family)
    requires var k := Times(cfg, ops, t.family);
             cfg.adaptive ==> k == 0 || k < AuditAfter(cfg, j, s.entries[t.family].interval)
    ensures var s' := DoAll(cfg, Published(cfg, s, t, j, rep, start), ops);
            var o := Sight(cfg, s', e, now);
            && o.ticket == Some(t) && o.cached.None? && AsksAgain(o.reason)
            && (o.reason == ClockRollback <==> !IsZero(s'.observed) && now.wall < s'.observed.wall)
  {
    var n := AuditAfter(cfg, j, s.entries[t.family].interval);
    PublishedIsReady(cfg, s, t, j, rep, start);
    hide Ready, Sight, DoAll, Published, Timely, Undisturbed, AuditAfter, Identify;
    var s1 := Published(cfg, s, t, j, rep, start);
    assert Reusable(j.opinion);
    RunReady(cfg, s1, ops, t, j, start, n);
    SightOverdue(cfg, DoAll(cfg, s1, ops), t, j, start, Times(cfg, ops, t.family), n, e, now);
  }

  // ----- why it is not served -----

  predicate AsksAgain(r: Reason) {
    r == CacheExpired || r == ClockRollback
  }

  /** A partition with this ticket must be judged anew. */
  ghost predicate Refreshing(s: State, t: Ticket) {
    IsCurrent(s, t) ==> s.entries[t.family].refresh
  }

  /** Admission keeps the flag of a resident, and a new partition has another ticket. */
  lemma AdmittedRefreshing(cfg: Settings, s: State, fam: Family, t: Ticket)
    requires Inv(cfg, s) && 0 < cfg.capacity && t.generation <= s.generation && Refreshing(s, t)
    ensures Refreshing(Admitted(cfg, s, fam), t)
  {
    AdmittedKeepsInv(cfg, s, fam);
    hide Inv, Admitted;
    if fam in s.entries {
      AdmittedSame(cfg, s, fam);
    }
  }

  lemma ConsultRefreshing(cfg: Settings, s: State, fam: Family, t: Ticket, now: Instant)
    requires fam in s.entries && s.entries[fam].ticket.family == fam && Refreshing(s, t)
    ensures var o := Consult(cfg, s, fam, now);
            && Refreshing(o.state, t)
            && (o.ticket == Some(t) ==> o.cached.None? && (AsksAgain(o.reason) || o.reason == ReviewRequired))
  {
    hide Reusable, CacheValidAt, Before, IsZero;
  }

  lemma SightRefreshing(cfg: Settings, s: State, t: Ticket, e: Event, now: Instant)
    requires Inv(cfg, s) && 0 < cfg.capacity && t.generation <= s.generation && Refreshing(s, t)
    ensures var o := Sight(cfg, s, e, now);
            && Refreshing(o.state, t)
            && (o.ticket == Some(t) ==> o.cached.None? && (AsksAgain(o.reason) || o.reason == ReviewRequired))
  {
    match Identify(cfg, e, now) {
      case Unidentified(_) =>
      case Identified(fam) =>
        AdmittedOwn(cfg, s, fam);
        AdmittedRefreshing(cfg, s, fam, t);
        ConsultRefreshing(cfg, Admitted(cfg, s, fam), fam, t, now);
    }
    hide Admitted, Consult, Identify, Refreshing, Inv;
  }

  lemma AdmittedOwn(cfg: Settings, s: State, fam: Family)
    requires Inv(cfg, s) && 0 < cfg.capacity
    ensures Admitted(cfg, s, fam).entries[fam].ticket.family == fam
    ensures Inv(cfg, Admitted(cfg, s, fam))
  {
    AdmittedKeepsInv(cfg, s, fam);
    hide Admitted, Distinct;
  }

  lemma DoRefreshing(cfg: Settings, s: State, op: Op, t: Ticket)
    requires Inv(cfg, s) && 0 < cfg.capacity && t.generation <= s.generation && Refreshing(s, t)
    requires op.DoPublish? && op.ticket == t && IsCurrent(s, t) && t.family !in s.review ==>
               Reusable(op.j.opinion) && !Publishes(s, t, op.j, op.now)
    ensures Refreshing(Do(cfg, s, op), t)
  {
    hide Reusable, CacheValidAt, Before, IsZero, Inv, Sight, Publishes;
    match op {
      case DoObserve(e, now) => SightRefreshing(cfg, s, t, e, now);
      case DoPublish(u, j, rep, now) =>
        if u != t && IsCurrent(Published(cfg, s, u, j, rep, now), t) {
          assert IsCurrent(s, t);
          PublishedOthers(cfg, s, t, u, j, rep, now);
        }
      case DoInvalidate(_) =>
      case DoVeto(_) =>
    }
  }

  /** No operation of the run makes a verdict of `t` reusable. */
  ghost predicate NothingNew(cfg: Settings, s: State, ops: seq<Op>, t: Ticket) {
    ops != [] ==>
      var front, op := ops[..|ops| - 1], ops[|ops| - 1];
      && NothingNew(cfg, s, front, t)
      && (op.DoPublish? && op.ticket == t ==> Reusable(op.j.opinion) && !Publishes(DoAll(cfg, s, front), t, op.j, op.now))
  }

  lemma {:induction false} RunRefreshing(cfg: Settings, s: State, ops: seq<Op>, t: Ticket)
    requires Inv(cfg, s) && 0 < cfg.capacity && t.generation <= s.generation && Refreshing(s, t)
    requires NothingNew(cfg, s, ops, t)
    ensures Refreshing(DoAll(cfg, s, ops), t)
  {
    hide Refreshing, Do, Inv, Reusable, Publishes;
    if ops != [] {
      var front := ops[..|ops| - 1];
      RunRefreshing(cfg, s, front, t);
      RunKeeps(cfg, s, front, t);
      DoRefreshing(cfg, DoAll(cfg, s, front), ops[|ops| - 1], t);
    }
  }

  /**
   A family that was told to ask again, because its verdict expired or the clock went
   back, is told so at every later observation until a new verdict is published for it:
   it is never treated like a new family, whose durable row would be looked up.
   */
  lemma {:induction false} ExpiredStaysExpired(
      cfg: Settings, s: State, t: Ticket, e: Event, now: Instant, ops: seq<Op>, e': Event, now': Instant)
    requires Inv(cfg, s) && 0 < cfg.capacity
    requires Sight(cfg, s, e, now).ticket == Some(t) && AsksAgain(Sight(cfg, s, e, now).reason)
    requires NothingNew(cfg, Sight(cfg, s, e, now).state, ops, t)
    ensures var o := Sight(cfg, DoAll(cfg, Sight(cfg, s, e, now).state, ops), e', now');
            o.ticket == Some(t) ==> o.cached.None? && (AsksAgain(o.reason) || o.reason == ReviewRequired)
  {
    var s1 := Sight(cfg, s, e, now).state;
    ToldToAsk(cfg, s, t, e, now);
    hide Sight, Refreshing, Inv;
    RunKeeps(cfg, s1, ops, t);
    RunRefreshing(cfg, s1, ops, t);
    SightRefreshing(cfg, DoAll(cfg, s1, ops), t, e', now');
  }

  lemma ToldToAsk(cfg: Settings, s: State, t: Ticket, e: Event, now: Instant)
    requires Inv(cfg, s) && 0 < cfg.capacity
    requires Sight(cfg, s, e, now).ticket == Some(t) && AsksAgain(Sight(cfg, s, e, now).reason)
    ensures var s1 := Sight(cfg, s, e, now).state; Refreshing(s1, t) && Inv(cfg, s1) && t.generation <= s1.generation
  {
    IdentifiedNotAsking(cfg, e, now);
    var fam := Identify(cfg, e, now).family;
    var s1 := Admitted(cfg, s, fam);
    AdmittedOwn(cfg, s, fam);
    ConsultSameResidents(cfg, s1, fam, now);
    SameResidentsKeepInv(cfg, s1, Consult(cfg, s1, fam, now).state);
    ConsultToldToAsk(cfg, s1, fam, now);
    OwnGeneration(cfg, s1, fam);
    hide Admitted, Consult, Identify, Refreshing, Inv;
  }

  lemma OwnGeneration(cfg: Settings, s: State, fam: Family)
    requires Inv(cfg, s) && fam in s.entries
    ensures s.entries[fam].ticket.generation <= s.generation
  {
  }

  lemma ConsultToldToAsk(cfg: Settings, s: State, fam: Family, now: Instant)
    requires fam in s.entries && s.entries[fam].ticket.family == fam && AsksAgain(Consult(cfg, s, fam, now).reason)
    ensures var o := Consult(cfg, s, fam, now);
            o.ticket == Some(s.entries[fam].ticket) && Refreshing(o.state, s.entries[fam].ticket)
            && o.state.generation == s.generation
  {
    hide Reusable, CacheValidAt, Before, IsZero;
  }

  lemma IdentifiedNotAsking(cfg: Settings, e: Event, now: Instant)
    ensures Identify(cfg, e, now).Unidentified? ==> !AsksAgain(Identify(cfg, e, now).reason)
  {
  }

  /**
   What an observation without a verdict is told.  A vetoed family is always told to
   review; behind the wall mark the clock is blamed; a verdict outside its bounds has
   expired; a family that was never seen, or has no verdict, is new.
   */
  lemma {:induction false} MissesAreTold(cfg: Settings, s: State, e: Event, now: Instant, fam: Family)
    requires Inv(cfg, s) && 0 < cfg.capacity && Identify(cfg, e, now) == Identified(fam)
    ensures var o := Sight(cfg, s, e, now);
            var behind := !IsZero(s.observed) && Before(WallOnly(now), s.observed);
            && o.ticket.Some? && o.ticket.value.family == fam
            && (fam in s.review ==> o.cached.None? && o.reason == ReviewRequired)
            && (fam !in s.review && behind ==> o.cached.None? && o.reason == ClockRollback)
            && (fam !in s.review && !behind && fam !in s.entries ==> o.cached.None? && o.reason == NewOrExpired)
            && (fam !in s.review && !behind && fam in s.entries && !s.entries[fam].refresh ==>
                  var p := s.entries[fam];
                  && (!Reusable(p.verdict.opinion) ==> o.cached.None? && o.reason == NewOrExpired)
                  && (Reusable(p.verdict.opinion) && !(Before(now, p.expires) && CacheValidAt(p.verdict, now)) ==>
                        o.cached.None? && o.reason == CacheExpired))
  {
    AdmittedOwn(cfg, s, fam);
    AdmittedObserved(cfg, s, fam);
    hide Numbered, Distinct;
    NoJudgmentIsNew();
    if fam in s.entries {
      AdmittedSame(cfg, s, fam);
    } else {
      AdmittedNew(cfg, s, fam);
    }
    hide Admitted, Identify, CacheValidAt, Before, IsZero, Reusable;
  }

  lemma NoJudgmentIsNew()
    ensures !Reusable(NO_JUDGMENT.opinion)
  {
  }

  lemma AdmittedNew(cfg: Settings, s: State, fam: Family)
    requires fam !in s.entries
    ensures var p := Admitted(cfg, s, fam).entries[fam];
            p.verdict == NO_JUDGMENT && !p.refresh && p.interval == 16 && p.seen == 1 && p.ticket.family == fam
  {
  }

  /**
   What publishing leaves.  A verdict that is published is held as it is, under the line it came
   from, and as observed then; one that may not be reused, or comes too late, takes the held one
   away; nothing is published for a ticket that is not current or a family that is vetoed, and
   no other family, counter or mark changes.
   */
  lemma {:induction false} PublishedExactly(cfg: Settings, s: State, t: Ticket, j: Judgment, rep: string, now: Instant)
    ensures var s1 := Published(cfg, s, t, j, rep, now);
            && s1 == s.(entries := s1.entries) && s1.entries.Keys == s.entries.Keys
            && (forall k :: k in s.entries && k != t.family ==> s1.entries[k] == s.entries[k])
            && (!IsCurrent(s, t) || t.family in s.review ==> s1 == s)
            && (IsCurrent(s, t) && t.family !in s.review ==>
                  var p, q := s.entries[t.family], s1.entries[t.family];
                  && q.ticket == p.ticket && q.seen == p.seen && q.last == p.last
                  && (if Publishes(s, t, j, now) then q.verdict == j && q.representative == rep && q.observed == WallOnly(now) && !q.refresh
                      else !Reusable(q.verdict.opinion) && q.representative == p.representative && q.observed == p.observed)
                  && (Reusable(j.opinion) && !Publishes(s, t, j, now) ==> q.refresh))
  {
    hide CacheValidAt, Before, IsZero, Add, MinTime, WallOnly;
  }

  /** A judgment that may not be reused takes the verdict away and starts the intervals over. */
  lemma RefusalStartsOver(cfg: Settings, s: State, t: Ticket, j: Judgment, rep: string, now: Instant, k: Judgment, rep': string, now': Instant)
    requires IsCurrent(s, t) && t.family !in s.review && !Reusable(j.opinion)
    requires Publishes(Published(cfg, s, t, j, rep, now), t, k, now')
    ensures var s1 := Published(cfg, s, t, j, rep, now);
            var p := Published(cfg, s1, t, k, rep', now').entries[t.family];
            && !Reusable(s1.entries[t.family].verdict.opinion)
            && (cfg.maxInterval >= 32 ==> p.auditAt == p.seen + 32)
  {
    hide CacheValidAt, Before, IsZero, Add, MinTime;
  }

  // ----- taking a verdict back -----

  ghost predicate Unserved(s: State, t: Ticket) {
    IsCurrent(s, t) ==> !Reusable(s.entries[t.family].verdict.opinion)
  }

  lemma ConsultUnserved(cfg: Settings, s: State, fam: Family, t: Ticket, now: Instant)
    requires fam in s.entries && s.entries[fam].ticket.family == fam && Unserved(s, t)
    ensures var o := Consult(cfg, s, fam, now); Unserved(o.state, t) && (o.ticket == Some(t) ==> o.cached.None?)
  {
    assert !Reusable(Unknown(NoError).opinion);
    hide Reusable, CacheValidAt, Before, IsZero;
  }

  lemma AdmittedUnserved(cfg: Settings, s: State, fam: Family, t: Ticket)
    requires Inv(cfg, s) && 0 < cfg.capacity && t.generation <= s.generation && Unserved(s, t)
    ensures Unserved(Admitted(cfg, s, fam), t)
  {
    AdmittedKeepsInv(cfg, s, fam);
    hide Inv, Admitted, Reusable;
    if fam in s.entries {
      AdmittedSame(cfg, s, fam);
    }
  }

  lemma SightUnserved(cfg: Settings, s: State, t: Ticket, e: Event, now: Instant)
    requires Inv(cfg, s) && 0 < cfg.capacity && t.generation <= s.generation && Unserved(s, t)
    ensures var o := Sight(cfg, s, e, now); Unserved(o.state, t) && (o.ticket == Some(t) ==> o.cached.None?)
  {
    match Identify(cfg, e, now) {
      case Unidentified(_) =>
      case Identified(fam) =>
        AdmittedOwn(cfg, s, fam);
        AdmittedUnserved(cfg, s, fam, t);
        ConsultUnserved(cfg, Admitted(cfg, s, fam), fam, t, now);
    }
    hide Admitted, Consult, Identify, Unserved, Inv;
  }

  lemma DoUnserved(cfg: Settings, s: State, op: Op, t: Ticket)
    requires Inv(cfg, s) && 0 < cfg.capacity && t.generation <= s.generation && Unserved(s, t)
    requires op.DoPublish? && op.ticket == t ==> !Publishes(s, t, op.j, op.now)
    ensures Unserved(Do(cfg, s, op), t)
  {
    assert !Reusable(Unknown(NoError).opinion);
    hide Reusable, CacheValidAt, Before, IsZero, Inv, Sight;
    match op {
      case DoObserve(e, now) => SightUnserved(cfg, s, t, e, now);
      case DoPublish(u, j, rep, now) =>
        if u != t && IsCurrent(Published(cfg, s, u, j, rep, now), t) {
          assert IsCurrent(s, t);
          PublishedOthers(cfg, s, t, u, j, rep, now);
        }
      case DoInvalidate(_) =>
      case DoVeto(_) =>
    }
  }

  /** No operation of the run publishes a verdict for `t`. */
  ghost predicate NoneFor(cfg: Settings, s: State, ops: seq<Op>, t: Ticket) {
    ops != [] ==>
      var front, op := ops[..|ops| - 1], ops[|ops| - 1];
      && NoneFor(cfg, s, front, t)
      && (op.DoPublish? && op.ticket == t ==> !Publishes(DoAll(cfg, s, front), t, op.j, op.now))
  }

  lemma {:induction false} RunUnserved(cfg: Settings, s: State, ops: seq<Op>, t: Ticket)
    requires Inv(cfg, s) && 0 < cfg.capacity && t.generation <= s.generation && Unserved(s, t) && NoneFor(cfg, s, ops, t)
    ensures Unserved(DoAll(cfg, s, ops), t)
  {
    hide Unserved, Do, Inv, Publishes;
    if ops != [] {
      var front := ops[..|ops| - 1];
      RunUnserved(cfg, s, front, t);
      RunKeeps(cfg, s, front, t);
      DoUnserved(cfg, DoAll(cfg, s, front), ops[|ops| - 1], t);
    }
  }

  /** A verdict that was taken back is not served again before another one is published for the ticket. */
  lemma {:induction false} InvalidatedIsNotServed(
      cfg: Settings, s: State, t: Ticket, ops: seq<Op>, e: Event, now: Instant)
    requires Inv(cfg, s) && 0 < cfg.capacity && t.generation <= s.generation
    requires NoneFor(cfg, Invalidated(s, t), ops, t)
    ensures var o := Sight(cfg, DoAll(cfg, Invalidated(s, t), ops), e, now);
            o.ticket == Some(t) ==> o.cached.None?
  {
    hide Unserved, Invalidated, Inv, Sight, DoAll, NoneFor;
    var s1 := Invalidated(s, t);
    TakenBack(cfg, s, t);
    RunUnserved(cfg, s1, ops, t);
    RunKeeps(cfg, s1, ops, t);
    SightUnserved(cfg, DoAll(cfg, s1, ops), t, e, now);
  }

  lemma TakenBack(cfg: Settings, s: State, t: Ticket)
    requires Inv(cfg, s)
    ensures var s1 := Invalidated(s, t); Inv(cfg, s1) && Unserved(s1, t) && s1.generation == s.generation
  {
    hide Inv, Reusable;
    assert !Reusable(Unknown(NoError).opinion) by { UnknownIsNotReusable(); }
    assert SameResidents(s, Invalidated(s, t));
    SameResidentsKeepInv(cfg, s, Invalidated(s, t));
  }

  lemma UnknownIsNotReusable()
    ensures !Reusable(Unknown(NoError).opinion)
  {
  }

  lemma ConsultStamps(cfg: Settings, s: State, fam: Family, at: Instant)
    requires fam in s.entries && Consult(cfg, s, fam, at).reason != ReviewRequired
    ensures var o := Consult(cfg, s, fam, at); fam in o.state.entries && o.state.entries[fam].observed == WallOnly(at)
  {
    hide Reusable, CacheValidAt, Before, IsZero;
  }

  lemma OwnTicket(cfg: Settings, s: State, fam: Family, at: Instant)
    requires fam in s.entries
    ensures Consult(cfg, s, fam, at).ticket == Some(s.entries[fam].ticket)
  {
    hide Reusable, CacheValidAt, Before, IsZero;
  }

  lemma ObservationIsStamped(cfg: Settings, s: State, t: Ticket, e: Event, at: Instant)
    requires Inv(cfg, s) && 0 < cfg.capacity
    requires Sight(cfg, s, e, at).ticket == Some(t) && Sight(cfg, s, e, at).reason != ReviewRequired
    ensures var s1 := Sight(cfg, s, e, at).state; t.family in s1.entries && s1.entries[t.family].observed == WallOnly(at)
  {
    hide Admitted, Consult, Identify, Inv;
    var fam := Identify(cfg, e, at).family;
    AdmittedOwn(cfg, s, fam);
    ConsultStamps(cfg, Admitted(cfg, s, fam), fam, at);
    OwnTicket(cfg, Admitted(cfg, s, fam), fam, at);
  }

  /** An answer that arrives when the wall clock is behind the last observation of its family is not published. */
  lemma {:induction false} NothingPublishedBehind(
      cfg: Settings, s: State, t: Ticket, e: Event, at: Instant, j: Judgment, now: Instant)
    requires Inv(cfg, s) && 0 < cfg.capacity && Reading(at) && now.wall < at.wall
    requires Sight(cfg, s, e, at).ticket == Some(t) && Sight(cfg, s, e, at).reason != ReviewRequired
    ensures !Publishes(Sight(cfg, s, e, at).state, t, j, now)
  {
    ObservationIsStamped(cfg, s, t, e, at);
    hide Sight, Reusable, CacheValidAt;
  }

  // ----- a veto -----

  lemma DoVetoed(cfg: Settings, s: State, op: Op, fam: Family)
    requires fam in s.review
    ensures fam in Do(cfg, s, op).review
  {
    hide Reusable, CacheValidAt, Before, IsZero, Identify, Admitted, Publishes;
    match op {
      case DoObserve(e, now) =>
        match Identify(cfg, e, now) {
          case Unidentified(_) =>
          case Identified(f) => AdmittedObserved(cfg, s, f);
        }
      case _ =>
    }
  }

  lemma {:induction false} RunVetoed(cfg: Settings, s: State, ops: seq<Op>, fam: Family)
    requires fam in s.review
    ensures fam in DoAll(cfg, s, ops).review
  {
    hide Do;
    if ops != [] {
      RunVetoed(cfg, s, ops[..|ops| - 1], fam);
      DoVetoed(cfg, DoAll(cfg, s, ops[..|ops| - 1]), ops[|ops| - 1], fam);
    }
  }

  /** A veto is for good: the family is never served again and nothing is published for it. */
  lemma {:induction false} VetoIsForGood(
      cfg: Settings, s: State, ids: set<Family>, fam: Family, ops: seq<Op>, e: Event, now: Instant, j: Judgment)
    requires fam in ids && Inv(cfg, s) && 0 < cfg.capacity && Identify(cfg, e, now) == Identified(fam)
    ensures var s' := DoAll(cfg, Vetoed(s, ids), ops);
            && Sight(cfg, s', e, now).cached.None? && Sight(cfg, s', e, now).reason == ReviewRequired
            && forall t: Ticket :: t.family == fam ==> !Publishes(s', t, j, now)
  {
    hide DoAll, Inv, Sight, Reusable, CacheValidAt;
    var s1 := Vetoed(s, ids);
    VetoedSound(cfg, s, ids);
    RunVetoed(cfg, s1, ops, fam);
    RunKeeps(cfg, s1, ops, Ticket(fam, 0));
    MissesAreTold(cfg, DoAll(cfg, s1, ops), e, now, fam);
  }

  lemma VetoedSound(cfg: Settings, s: State, ids: set<Family>)
    requires Inv(cfg, s)
    ensures Inv(cfg, Vetoed(s, ids))
  {
    assert SameResidents(s, Vetoed(s, ids));
    SameResidentsKeepInv(cfg, s, Vetoed(s, ids));
  }

  // ----- which lines share a family -----

  /** Two sources are one workload. */
  ghost predicate SameWorkload(a: Source, b: Source) {
    && "type" in a && a["type"] == "kubernetes" && "type" in b && b["type"] == "kubernetes"
    && forall k :: k in {"type", "cluster_id", "context", "namespace", "container", "kind", "previous", "restart_count"} ==>
         (k in a <==> k in b) && (k in a ==> a[k] == b[k])
  }

  lemma ScopeIsWorkload(a: Event, b: Event)
    ensures Scope(a, true) == Scope(b, true) <==> a.source == b.source || SameWorkload(a.source, b.source)
    ensures Scope(a, false) == Scope(b, false) <==> a.source == b.source
  {
    var x, y := Scope(a, true), Scope(b, true);
    assert DRAIN_SCOPE == {"type", "cluster_id", "context", "namespace", "container", "kind", "previous", "restart_count"};
    if x == y {
      ScopeType(a);
      ScopeType(b);
      if "type" in a.source && a.source["type"] == "kubernetes" {
        forall k | k in DRAIN_SCOPE ensures (k in a.source <==> k in b.source) && (k in a.source ==> a.source[k] == b.source[k]) {
          assert k in x <==> k in a.source;
          assert k in y <==> k in b.source;
        }
      }
    }
  }

  lemma ScopeType(e: Event)
    ensures "type" in Scope(e, true) <==> "type" in e.source
    ensures "type" in e.source ==> Scope(e, true)["type"] == e.source["type"]
  {
  }

  /**
   Lines share a family exactly when both are eligible, the local rules think alike of
   them, and either the same reviewed template applies to both in one source, or none
   does and they have one masked text in one workload (drain), or one text in one source.
   */
  lemma {:induction false} FamiliesAre(cfg: Settings, a: Event, b: Event, now: Instant)
    requires cfg.strategy != Off && cfg.strategy != Semantic
    ensures var reviewed := (e: Event) => if cfg.rules.None? then None else cfg.rules.value(e, Unix(now));
            (Identify(cfg, a, now).Identified? && Identify(cfg, a, now) == Identify(cfg, b, now)) <==>
              && Eligible(cfg.pats, a) && Eligible(cfg.pats, b) && a.important == b.important
              && reviewed(a) == reviewed(b)
              && (if reviewed(a).Some? then a.source == b.source
                  else if cfg.strategy == Drain
                  then cfg.pats.masked(a.text, cfg.classic) == cfg.pats.masked(b.text, cfg.classic)
                       && (a.source == b.source || SameWorkload(a.source, b.source))
                  else a.text == b.text && a.source == b.source)
  {
    ScopeIsWorkload(a, b);
    hide Eligible, Scope, SameWorkload;
  }

  /** Something is wrong with the line, or it is too much to be one line. */
  predicate Unfit(cfg: Settings, e: Event) {
    e.truncated || e.sensitive || e.parseUncertain || cfg.pats.securityShaped(e.text) || !cfg.pats.small(e.text)
  }

  /**
   A line has a family exactly when grouping is on, the line is fit for it and, under the
   semantic strategy, a reviewed template applies; otherwise the reason says which.
   */
  lemma {:induction false} LinesWithoutFamily(cfg: Settings, e: Event, now: Instant)
    ensures var reviewed := cfg.rules.Some? && cfg.rules.value(e, Unix(now)).Some?;
            var i := Identify(cfg, e, now);
            && (i.Identified? <==> cfg.strategy != Off && !Unfit(cfg, e) && (cfg.strategy == Semantic ==> reviewed))
            && (cfg.strategy == Off || Unfit(cfg, e) ==> i == Unidentified(Ineligible))
            && (cfg.strategy == Semantic && !Unfit(cfg, e) && cfg.rules.None? ==> i == Unidentified(ShadowOnly))
            && (cfg.strategy == Semantic && !Unfit(cfg, e) && cfg.rules.Some? && !reviewed ==> i == Unidentified(ReviewedMiss))
  {
  }
}
