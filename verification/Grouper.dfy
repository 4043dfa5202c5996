/**
 The bounded in-memory table of line families and the verdicts they may reuse.

 `State` and the functions on it say what each operation does; class `Grouper`
 is the code and refines them.
 */
module Grouper {
  import opened Wrappers
  import opened Clock
  import opened Verdict
  import opened Events

  /** Reviewed normalization rules: the template of an event at a Unix second, if one applies. */
  type Rules = (Event, int) -> Option<string>

  datatype Settings = Settings(
    strategy: Strategy, classic: bool, capacity: nat, ttl: Duration,
    adaptive: bool, maxInterval: nat, rules: Option<Rules>, pats: Patterns)

  /** Generations belong to one grouper; a family keeps its name across restarts. */
  datatype Ticket = Ticket(family: Family, generation: nat)

  datatype Partition = Partition(
    ticket: Ticket, seen: nat, verdict: Judgment, expires: Instant, observed: Instant, refresh: bool,
    representative: string, last: nat, auditAt: nat, interval: nat)

  datatype State = State(
    entries: map<Family, Partition>, generation: nat, sequence: nat, observed: Instant, review: set<Family>)

  const EMPTY: State := State(map[], 0, 0, ZERO, {})

  datatype Identity = Unidentified(reason: Reason) | Identified(family: Family)

  function Identify(cfg: Settings, e: Event, now: Instant): Identity {
    if cfg.strategy == Off || !Eligible(cfg.pats, e) then Unidentified(Ineligible)
    else if cfg.strategy == Semantic && cfg.rules.None? then Unidentified(ShadowOnly)
    else
      var reviewed := if cfg.rules.None? then None else cfg.rules.value(e, Unix(now));
      if cfg.strategy == Semantic && reviewed.None? then Unidentified(ReviewedMiss)
      else if reviewed.Some? then
        Identified(Family(e.source, Version(cfg.strategy, cfg.classic, Reviewed, reviewed.value), e.important))
      else
        var template := if cfg.strategy == Drain then cfg.pats.masked(e.text, cfg.classic) else e.text;
        Identified(Family(Scope(e, cfg.strategy == Drain),
                          Version(cfg.strategy, cfg.classic, ByStrategy(cfg.strategy), template), e.important))
  }

  function NewPartition(t: Ticket): Partition {
    Partition(t, 0, NO_JUDGMENT, ZERO, ZERO, false, "", 0, 0, 16)
  }

  /** `k` was used longest ago. */
  predicate Oldest(entries: map<Family, Partition>, k: Family) {
    k in entries && forall other :: other in entries ==> entries[k].last <= entries[other].last
  }

  ghost function Evicted(entries: map<Family, Partition>): map<Family, Partition> {
    if k :| Oldest(entries, k) then entries - {k} else entries
  }

  /** Count one more line of a family, after making room for it if it is not resident. */
  ghost function Admitted(cfg: Settings, s: State, fam: Family): (s': State)
    ensures fam in s'.entries
  {
    var absent := fam !in s.entries;
    var kept := if absent && cfg.capacity <= |s.entries| then Evicted(s.entries) else s.entries;
    var generation := if absent then s.generation + 1 else s.generation;
    var p := if absent then NewPartition(Ticket(fam, generation)) else s.entries[fam];
    s.(entries := kept[fam := p.(last := s.sequence + 1, seen := p.seen + 1)],
       generation := generation, sequence := s.sequence + 1)
  }

  datatype Sighting = Sighting(state: State, ticket: Option<Ticket>, cached: Option<Judgment>, reason: Reason)

  function Forget(p: Partition): Partition {
    p.(verdict := Unknown(NoError))
  }

  /** The verdict part of an observation, on a family that is resident. */
  function Consult(cfg: Settings, s: State, fam: Family, now: Instant): Sighting
    requires fam in s.entries
  {
    var p := s.entries[fam];
    if p.ticket.family in s.review then
      Sighting(s.(entries := s.entries[fam := Forget(p)]), Some(p.ticket), None, ReviewRequired)
    else
      var wall := WallOnly(now);
      var rollback := !IsZero(s.observed) && Before(wall, s.observed);
      var s1 := s.(observed := if IsZero(s.observed) || Before(s.observed, wall) then wall else s.observed);
      var p1 := p.(observed := wall);
      if rollback then
        Sighting(s1.(entries := s.entries[fam := Forget(p1.(refresh := true))]), Some(p.ticket), None, ClockRollback)
      else if p.refresh || (Reusable(p.verdict.opinion) && (!Before(now, p.expires) || !CacheValidAt(p.verdict, now))) then
        Sighting(s1.(entries := s.entries[fam := Forget(p1.(refresh := true))]), Some(p.ticket), None, CacheExpired)
      else if Reusable(p.verdict.opinion) then
        if !cfg.adaptive || p.seen < p.auditAt then
          Sighting(s1.(entries := s.entries[fam := p1]), Some(p.ticket), Some(p.verdict), Cached)
        else
          Sighting(s1.(entries := s.entries[fam := Forget(p1)]), Some(p.ticket), None, StableAudit)
      else
        Sighting(s1.(entries := s.entries[fam := p1]), Some(p.ticket), None, NewOrExpired)
  }

  ghost function Sight(cfg: Settings, s: State, e: Event, now: Instant): Sighting {
    match Identify(cfg, e, now)
    case Unidentified(reason) => Sighting(s, None, None, reason)
    case Identified(fam) => Consult(cfg, Admitted(cfg, s, fam), fam, now)
  }

  predicate IsCurrent(s: State, t: Ticket) {
    t.family in s.entries && s.entries[t.family].ticket == t
  }

  function Min(a: nat, b: nat): nat { if a < b then a else b }
  function Max(a: nat, b: nat): nat { if a < b then b else a }

  /** Whether a judgment becomes the reusable verdict of its family. */
  predicate Publishes(s: State, t: Ticket, j: Judgment, now: Instant) {
    && IsCurrent(s, t) && t.family !in s.review && Reusable(j.opinion)
    && (IsZero(s.entries[t.family].observed) || !Before(WallOnly(now), s.entries[t.family].observed))
    && CacheValidAt(j, now)
  }

  function Published(cfg: Settings, s: State, t: Ticket, j: Judgment, rep: string, now: Instant): State {
    if !IsCurrent(s, t) || t.family in s.review then s
    else
      var p := Forget(s.entries[t.family]);
      s.(entries := s.entries[t.family :=
        if !Reusable(j.opinion) then p.(interval := 16)
        else if !Publishes(s, t, j, now) then p.(refresh := true)
        else
          var interval := if j.opinion.importance == Routine then Min(cfg.maxInterval, Max(32, p.interval * 2)) else 32;
          var expires := Add(now, cfg.ttl);
          p.(refresh := false, verdict := j, observed := WallOnly(now), representative := rep,
             expires := if IsZero(j.deadline) then expires else MinTime(expires, j.deadline),
             interval := interval, auditAt := p.seen + interval)])
  }

  function Invalidated(s: State, t: Ticket): State {
    if IsCurrent(s, t) then s.(entries := s.entries[t.family := Forget(s.entries[t.family])]) else s
  }

  function Vetoed(s: State, ids: set<Family>): State {
    s.(review := s.review + ids)
  }

  // ----- what every operation keeps -----

  ghost predicate Inv(cfg: Settings, s: State) {
    |s.entries| <= cfg.capacity && Numbered(s.entries, s.generation, s.sequence) && Distinct(s.entries)
  }

  ghost predicate Numbered(entries: map<Family, Partition>, generation: nat, sequence: nat) {
    forall k :: k in entries ==>
      && entries[k].ticket.family == k
      && entries[k].ticket.generation <= generation
      && entries[k].last <= sequence
  }

  ghost predicate Distinct(entries: map<Family, Partition>) {
    forall k, l :: k in entries && l in entries && k != l ==>
      && entries[k].ticket.generation != entries[l].ticket.generation
      && entries[k].last != entries[l].last
  }

  /** The partition of a resident family before and after an operation that only changes its verdict. */
  ghost predicate SameResidents(s: State, s': State) {
    && s'.entries.Keys == s.entries.Keys && s'.generation == s.generation && s'.sequence == s.sequence
    && forall k :: k in s.entries ==>
         s'.entries[k].ticket == s.entries[k].ticket && s'.entries[k].last == s.entries[k].last
  }

  lemma SameResidentsKeepInv(cfg: Settings, s: State, s': State)
    requires Inv(cfg, s) && SameResidents(s, s')
    ensures Inv(cfg, s')
  {
    assert |s'.entries| == |s'.entries.Keys| == |s.entries.Keys| == |s.entries|;
  }

  lemma ConsultSameResidents(cfg: Settings, s: State, fam: Family, now: Instant)
    requires fam in s.entries
    ensures SameResidents(s, Consult(cfg, s, fam, now).state)
  {
    hide CacheValidAt, Reusable, Before, IsZero;
  }

  lemma PublishedSameResidents(cfg: Settings, s: State, t: Ticket, j: Judgment, rep: string, now: Instant)
    ensures SameResidents(s, Published(cfg, s, t, j, rep, now))
  {
    hide CacheValidAt, Reusable, Before, IsZero, Publishes;
  }

  lemma {:induction false} OldestExists(entries: map<Family, Partition>)
    requires entries != map[]
    ensures exists k :: Oldest(entries, k)
  {
    var k :| k in entries;
    var rest := entries - {k};
    if rest == map[] {
      assert forall other :: other in entries ==> other == k || other in rest;
      assert Oldest(entries, k);
    } else {
      assert |rest| < |entries|;
      OldestExists(rest);
      var m :| Oldest(rest, m);
      assert forall other :: other in entries ==> other == k || other in rest;
      if entries[m].last <= entries[k].last {
        assert Oldest(entries, m);
      } else {
        assert Oldest(entries, k);
      }
    }
  }

  /** Eviction removes the one family that was used longest ago. */
  lemma EvictedOne(cfg: Settings, s: State, k: Family)
    requires Inv(cfg, s) && Oldest(s.entries, k)
    ensures Evicted(s.entries) == s.entries - {k}
  {
    assert exists m :: Oldest(s.entries, m);
    var m :| Oldest(s.entries, m) && Evicted(s.entries) == s.entries - {m};
    assert m == k;
  }

  lemma EvictedSmaller(entries: map<Family, Partition>)
    requires entries != map[]
    ensures |Evicted(entries)| == |entries| - 1
    ensures forall k :: k in Evicted(entries) ==> k in entries && Evicted(entries)[k] == entries[k]
  {
    OldestExists(entries);
    var k :| Oldest(entries, k) && Evicted(entries) == entries - {k};
    assert (entries - {k}).Keys == entries.Keys - {k};
  }

  /** The partitions that stay when a family is admitted. */
  ghost function Kept(cfg: Settings, s: State, fam: Family): map<Family, Partition> {
    if fam !in s.entries && cfg.capacity <= |s.entries| then Evicted(s.entries) else s.entries
  }

  lemma KeptFits(cfg: Settings, s: State, fam: Family)
    requires Inv(cfg, s) && 0 < cfg.capacity
    ensures var kept := Kept(cfg, s, fam);
            && (forall k :: k in kept ==> k in s.entries && kept[k] == s.entries[k])
            && (fam in kept <==> fam in s.entries)
            && |kept.Keys + {fam}| <= cfg.capacity
  {
    hide Numbered, Distinct, Evicted;
    if fam !in s.entries && cfg.capacity <= |s.entries| {
      EvictedSmaller(s.entries);
    }
    var kept := Kept(cfg, s, fam);
    assert |kept| == |kept.Keys|;
    if fam in kept {
      assert kept.Keys + {fam} == kept.Keys;
    }
  }

  lemma AdmittedEntries(cfg: Settings, s: State, fam: Family)
    ensures var s' := Admitted(cfg, s, fam);
            && s'.entries.Keys == Kept(cfg, s, fam).Keys + {fam}
            && (forall k :: k in Kept(cfg, s, fam) && k != fam ==> s'.entries[k] == Kept(cfg, s, fam)[k])
            && s'.entries[fam].last == s'.sequence == s.sequence + 1
            && s'.entries[fam].ticket ==
                 (if fam in s.entries then s.entries[fam].ticket else Ticket(fam, s.generation + 1))
            && s'.generation == (if fam in s.entries then s.generation else s.generation + 1)
            && s'.review == s.review && s'.observed == s.observed
  {
    hide Evicted;
  }

  /** The family `fam` was counted once more, and every other family of `kept` stayed as it was in `before`. */
  ghost predicate Touched(before: map<Family, Partition>, after: map<Family, Partition>, fam: Family, generation: nat, sequence: nat) {
    && fam in after && after[fam].last == sequence + 1
    && after[fam].ticket == (if fam in before then before[fam].ticket else Ticket(fam, generation + 1))
    && forall k :: k in after && k != fam ==> k in before && after[k] == before[k]
  }

  lemma TouchedNumbered(before: map<Family, Partition>, after: map<Family, Partition>, fam: Family, g: nat, q: nat)
    requires Touched(before, after, fam, g, q) && Numbered(before, g, q)
    ensures Numbered(after, if fam in before then g else g + 1, q + 1)
  {
  }

  lemma TouchedPair(before: map<Family, Partition>, after: map<Family, Partition>, fam: Family, g: nat, q: nat, l: Family)
    requires Touched(before, after, fam, g, q) && Numbered(before, g, q) && Distinct(before)
    requires l in after && l != fam
    ensures after[fam].ticket.generation != after[l].ticket.generation
    ensures after[fam].last != after[l].last
  {
  }

  lemma TouchedDistinct(before: map<Family, Partition>, after: map<Family, Partition>, fam: Family, g: nat, q: nat)
    requires Touched(before, after, fam, g, q) && Numbered(before, g, q) && Distinct(before)
    ensures Distinct(after)
  {
    forall l | l in after && l != fam
      ensures after[fam].ticket.generation != after[l].ticket.generation
      ensures after[fam].last != after[l].last
    {
      TouchedPair(before, after, fam, g, q, l);
    }
    hide Numbered;
  }

  /**
   Admission keeps the residents within capacity and hands out generations in
   increasing order: every ticket that exists afterwards existed before or is new.
   */
  lemma AdmittedKeepsInv(cfg: Settings, s: State, fam: Family)
    requires Inv(cfg, s) && 0 < cfg.capacity
    ensures Inv(cfg, Admitted(cfg, s, fam))
    ensures s.generation <= Admitted(cfg, s, fam).generation
    ensures Touched(s.entries, Admitted(cfg, s, fam).entries, fam, s.generation, s.sequence)
  {
    hide Admitted, Kept, Distinct, Numbered;
    KeptFits(cfg, s, fam);
    AdmittedEntries(cfg, s, fam);
    var s' := Admitted(cfg, s, fam);
    assert |s'.entries| == |s'.entries.Keys|;
    TouchedNumbered(s.entries, s'.entries, fam, s.generation, s.sequence);
    TouchedDistinct(s.entries, s'.entries, fam, s.generation, s.sequence);
  }

  // ----- whole runs -----

  datatype Op =
    | DoObserve(e: Event, now: Instant)
    | DoPublish(ticket: Ticket, j: Judgment, rep: string, now: Instant)
    | DoInvalidate(ticket: Ticket)
    | DoVeto(ids: set<Family>)

  ghost function Do(cfg: Settings, s: State, op: Op): State {
    match op
    case DoObserve(e, now) => Sight(cfg, s, e, now).state
    case DoPublish(t, j, rep, now) => Published(cfg, s, t, j, rep, now)
    case DoInvalidate(t) => Invalidated(s, t)
    case DoVeto(ids) => Vetoed(s, ids)
  }

  ghost function DoAll(cfg: Settings, s: State, ops: seq<Op>): State {
    if ops == [] then s else Do(cfg, DoAll(cfg, s, ops[..|ops| - 1]), ops[|ops| - 1])
  }

  lemma DoKeeps(cfg: Settings, s: State, op: Op, t: Ticket)
    requires Inv(cfg, s) && 0 < cfg.capacity
    ensures Inv(cfg, Do(cfg, s, op))
    ensures s.generation <= Do(cfg, s, op).generation
    ensures t.generation <= s.generation && IsCurrent(Do(cfg, s, op), t) ==> IsCurrent(s, t)
  {
    hide CacheValidAt, Reusable, Before, IsZero, Publishes, Inv, Consult, Admitted, Published, Identify;
    match op {
      case DoObserve(e, now) =>
        match Identify(cfg, e, now) {
          case Unidentified(_) =>
          case Identified(fam) =>
            var s1 := Admitted(cfg, s, fam);
            AdmittedKeepsInv(cfg, s, fam);
            ConsultSameResidents(cfg, s1, fam, now);
            SameResidentsKeepInv(cfg, s1, Consult(cfg, s1, fam, now).state);
        }
      case DoPublish(u, j, rep, now) =>
        PublishedSameResidents(cfg, s, u, j, rep, now);
        SameResidentsKeepInv(cfg, s, Published(cfg, s, u, j, rep, now));
      case DoInvalidate(u) =>
        assert SameResidents(s, Invalidated(s, u));
        SameResidentsKeepInv(cfg, s, Invalidated(s, u));
      case DoVeto(ids) =>
        assert SameResidents(s, Vetoed(s, ids));
        SameResidentsKeepInv(cfg, s, Vetoed(s, ids));
    }
  }

  lemma {:induction false} RunKeeps(cfg: Settings, s: State, ops: seq<Op>, t: Ticket)
    requires Inv(cfg, s) && 0 < cfg.capacity
    ensures Inv(cfg, DoAll(cfg, s, ops))
    ensures s.generation <= DoAll(cfg, s, ops).generation
    ensures t.generation <= s.generation && IsCurrent(DoAll(cfg, s, ops), t) ==> IsCurrent(s, t)
  {
    hide Inv, Do, IsCurrent;
    if ops != [] {
      var front := ops[..|ops| - 1];
      RunKeeps(cfg, s, front, t);
      DoKeeps(cfg, DoAll(cfg, s, front), ops[|ops| - 1], t);
    }
  }

  /**
   No stale ticket comes back.  A ticket that has been handed out and is no longer
   current stays so for every run that follows, and publishing or invalidating
   with it changes nothing; the table never exceeds its capacity.
   */
  lemma {:induction false} StaleForever(cfg: Settings, s: State, ops: seq<Op>, t: Ticket, j: Judgment, rep: string, now: Instant)
    requires Inv(cfg, s) && 0 < cfg.capacity
    requires t.generation <= s.generation && !IsCurrent(s, t)
    ensures var s' := DoAll(cfg, s, ops);
            && !IsCurrent(s', t) && |s'.entries| <= cfg.capacity
            && Published(cfg, s', t, j, rep, now) == s' && Invalidated(s', t) == s'
  {
    RunKeeps(cfg, s, ops, t);
  }

  // ----- the wall-clock high-water mark -----

  lemma DoHighWater(cfg: Settings, s: State, op: Op)
    ensures s.observed.mono.None? ==> Do(cfg, s, op).observed.mono.None?
    ensures s.observed.mono.None? && !IsZero(s.observed) ==> s.observed.wall <= Do(cfg, s, op).observed.wall
  {
    hide CacheValidAt, Reusable, Publishes, Identify, Admitted;
    match op {
      case DoObserve(e, now) =>
        match Identify(cfg, e, now) {
          case Unidentified(_) =>
          case Identified(fam) =>
            assert Admitted(cfg, s, fam).observed == s.observed by { AdmittedObserved(cfg, s, fam); }
        }
      case _ =>
    }
  }

  lemma AdmittedObserved(cfg: Settings, s: State, fam: Family)
    ensures Admitted(cfg, s, fam).observed == s.observed
    ensures Admitted(cfg, s, fam).review == s.review
  {
  }

  /** The mark stands at or above a wall reading after year 1. */
  ghost predicate MarkedAt(s: State, wall: int) {
    s.observed.mono.None? && ZERO.wall < wall <= s.observed.wall
  }

  lemma {:induction false} MarkStays(cfg: Settings, s: State, ops: seq<Op>, wall: int)
    requires MarkedAt(s, wall)
    ensures MarkedAt(DoAll(cfg, s, ops), wall)
  {
    if ops != [] {
      MarkStays(cfg, s, ops[..|ops| - 1], wall);
      DoHighWater(cfg, DoAll(cfg, s, ops[..|ops| - 1]), ops[|ops| - 1]);
    }
  }

  /** An observation of a family that is not vetoed leaves the mark at its wall reading or above. */
  lemma ObservationMarks(cfg: Settings, s: State, e: Event, at: Instant)
    requires s.observed.mono.None? && Reading(at)
    requires Sight(cfg, s, e, at).ticket.Some? && Sight(cfg, s, e, at).reason != ReviewRequired
    ensures MarkedAt(Sight(cfg, s, e, at).state, at.wall)
  {
    hide CacheValidAt, Reusable, Identify, Admitted;
    var fam := Identify(cfg, e, at).family;
    AdmittedObserved(cfg, s, fam);
  }

  /**
   Rollback.  Once an observation of a family that is not vetoed has seen a wall
   time, no later observation with an earlier wall reading is served from the
   table, whatever happened in between: evicted and recreated families included.
   It is told to reassess because of the clock, unless a person vetoed it or it
   has no family.
   */
  lemma {:induction false} RollbackNeverReuses(cfg: Settings, s: State, first: Event, at: Instant, ops: seq<Op>, e: Event, now: Instant)
    requires s.observed.mono.None? && Reading(at)
    requires Sight(cfg, s, first, at).ticket.Some? && Sight(cfg, s, first, at).reason != ReviewRequired
    requires now.wall < at.wall
    ensures var s' := DoAll(cfg, Sight(cfg, s, first, at).state, ops);
            var o := Sight(cfg, s', e, now);
            && o.cached.None?
            && (o.ticket.Some? ==> o.reason == ClockRollback || o.reason == ReviewRequired)
  {
    hide CacheValidAt, Reusable, Identify, Admitted;
    var seen := Sight(cfg, s, first, at).state;
    ObservationMarks(cfg, s, first, at);
    MarkStays(cfg, seen, ops, at.wall);
    var s' := DoAll(cfg, seen, ops);
    match Identify(cfg, e, now) {
      case Unidentified(_) =>
      case Identified(fam) => AdmittedObserved(cfg, s', fam);
    }
  }

  // ----- the code -----

  class Grouper {
    const cfg: Settings
    var entries: map<Family, Partition>
    var generation: nat
    var sequence: nat
    var review: set<Family>
    // The wall-clock high-water mark; it survives eviction.
    var observed: Instant

    ghost function Model(): State
      reads this
    {
      State(entries, generation, sequence, observed, review)
    }

    ghost predicate Valid()
      reads this
    {
      0 < cfg.capacity && Inv(cfg, Model())
    }

    constructor (cfg: Settings)
      requires 0 < cfg.capacity
      ensures this.cfg == cfg && Model() == EMPTY && Valid()
    {
      this.cfg := cfg;
      entries, generation, sequence, review, observed := map[], 0, 0, {}, ZERO;
    }

    method Veto(ids: seq<Family>)
      requires Valid()
      modifies this
      ensures Valid() && Model() == Vetoed(old(Model()), set id | id in ids)
    {
      for i := 0 to |ids|
        invariant Model() == Vetoed(old(Model()), set id | id in ids[..i])
      {
        assert ids[..i + 1] == ids[..i] + [ids[i]];
        review := review + {ids[i]};
      }
      assert ids[..|ids|] == ids;
      assert SameResidents(old(Model()), Model());
      SameResidentsKeepInv(cfg, old(Model()), Model());
    }

    /** The resident that was used longest ago. */
    method FindOldest() returns (oldest: Family)
      requires entries != map[]
      ensures Oldest(entries, oldest)
    {
      var keys := entries.Keys;
      oldest :| oldest in keys;
      keys := keys - {oldest};
      while keys != {}
        invariant keys <= entries.Keys && oldest in entries
        invariant forall k :: k in entries && k !in keys ==> entries[oldest].last <= entries[k].last
        decreases |keys|
      {
        var k :| k in keys;
        if entries[k].last < entries[oldest].last {
          oldest := k;
        }
        keys := keys - {k};
      }
    }

    method Admit(key: Family)
      requires Valid()
      modifies this
      ensures Valid() && Model() == Admitted(cfg, old(Model()), key)
    {
      hide Numbered, Distinct, Touched, Evicted, Oldest;
      ghost var before := Model();
      sequence := sequence + 1;
      if key !in entries {
        if cfg.capacity <= |entries| {
          var oldest := FindOldest();
          EvictedOne(cfg, before, oldest);
          entries := entries - {oldest};
        }
        generation := generation + 1;
        entries := entries[key := NewPartition(Ticket(key, generation))];
      }
      var p := entries[key];
      entries := entries[key := p.(last := sequence, seen := p.seen + 1)];
      assert Model() == Admitted(cfg, before, key);
      AdmittedKeepsInv(cfg, before, key);
    }

    method Observe(e: Event, now: Instant) returns (ticket: Option<Ticket>, cached: Option<Judgment>, reason: Reason)
      requires Valid()
      modifies this
      ensures Valid() && Sighting(Model(), ticket, cached, reason) == Sight(cfg, old(Model()), e, now)
    {
      var id := Identify(cfg, e, now);
      if id.Unidentified? {
        return None, None, id.reason;
      }
      var key := id.family;
      Admit(key);
      ticket, cached, reason := ConsultVerdict(key, now);
    }

    method ConsultVerdict(key: Family, now: Instant) returns (ticket: Option<Ticket>, cached: Option<Judgment>, reason: Reason)
      requires Valid() && key in entries
      modifies this
      ensures Valid() && Sighting(Model(), ticket, cached, reason) == Consult(cfg, old(Model()), key, now)
    {
      hide Numbered, Distinct, SameResidents, Reusable, CacheValidAt, Before, IsZero, WallOnly;
      ghost var before := Model();
      ConsultSameResidents(cfg, before, key, now);
      SameResidentsKeepInv(cfg, before, Consult(cfg, before, key, now).state);
      var p := entries[key];
      if p.ticket.family in review {
        entries := entries[key := p.(verdict := Unknown(NoError))];
        return Some(p.ticket), None, ReviewRequired;
      }
      var wall := WallOnly(now);
      var rollback := !IsZero(observed) && Before(wall, observed);
      if IsZero(observed) || Before(observed, wall) {
        observed := wall;
      }
      p := p.(observed := wall);
      if rollback {
        entries := entries[key := p.(refresh := true, verdict := Unknown(NoError))];
        return Some(p.ticket), None, ClockRollback;
      }
      if p.refresh || (Reusable(p.verdict.opinion) && (!Before(now, p.expires) || !CacheValidAt(p.verdict, now))) {
        entries := entries[key := p.(verdict := Unknown(NoError), refresh := true)];
        return Some(p.ticket), None, CacheExpired;
      }
      if Reusable(p.verdict.opinion) {
        if !cfg.adaptive || p.seen < p.auditAt {
          entries := entries[key := p];
          return Some(p.ticket), Some(p.verdict), Cached;
        }
        entries := entries[key := p.(verdict := Unknown(NoError))];
        return Some(p.ticket), None, StableAudit;
      }
      entries := entries[key := p];
      return Some(p.ticket), None, NewOrExpired;
    }

    method Publish(t: Ticket, j: Judgment, representative: string, now: Instant) returns (ok: bool)
      requires Valid()
      modifies this
      ensures Valid() && Model() == Published(cfg, old(Model()), t, j, representative, now)
      ensures ok == Publishes(old(Model()), t, j, now)
    {
      hide Numbered, Distinct, SameResidents, Reusable, CacheValidAt, Before, IsZero, MinTime, Add, WallOnly;
      ghost var before := Model();
      PublishedSameResidents(cfg, before, t, j, representative, now);
      SameResidentsKeepInv(cfg, before, Published(cfg, before, t, j, representative, now));
      if t.family !in entries || entries[t.family].ticket != t || t.family in review {
        return false;
      }
      var p := entries[t.family].(verdict := Unknown(NoError));
      if !Reusable(j.opinion) {
        entries := entries[t.family := p.(interval := 16)];
        return false;
      }
      if (!IsZero(p.observed) && Before(WallOnly(now), p.observed)) || !CacheValidAt(j, now) {
        entries := entries[t.family := p.(refresh := true)];
        return false;
      }
      var expires := Add(now, cfg.ttl);
      if !IsZero(j.deadline) {
        expires := MinTime(expires, j.deadline);
      }
      p := p.(refresh := false, verdict := j, observed := WallOnly(now), representative := representative,
              expires := expires);
      if j.opinion.importance == Routine {
        p := p.(interval := Min(cfg.maxInterval, Max(32, p.interval * 2)));
      } else {
        p := p.(interval := 32);
      }
      p := p.(auditAt := p.seen + p.interval);
      entries := entries[t.family := p];
      return true;
    }

    predicate Current(t: Ticket)
      reads this
    {
      t.family in entries && entries[t.family].ticket == t
    }

    method Invalidate(t: Ticket)
      requires Valid()
      modifies this
      ensures Valid() && Model() == Invalidated(old(Model()), t)
    {
      if t.family in entries && entries[t.family].ticket == t {
        entries := entries[t.family := entries[t.family].(verdict := Unknown(NoError))];
      }
      assert SameResidents(old(Model()), Model());
      SameResidentsKeepInv(cfg, old(Model()), Model());
    }
  }
}
