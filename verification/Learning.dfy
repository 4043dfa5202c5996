/**
 The second, slower lane: a teacher looks at families that recur and may raise
 what the first lane said about them.

 `Purged`, `LearnAll` and `ConsiderAll` are the three phases of a pass on values;
 class `Learning` is the code.
 */
module Learning {
  import opened Wrappers
  import opened Clock
  import opened Verdict
  import opened Events

  const MAX_SAMPLES: nat := 8
  const MAX_DECISIONS: nat := 1000
  const MAX_REVIEWS: nat := 2

  datatype Explanation = NoChange | FreeText | PatternBurst | InsufficientEvidence
    | AuthenticationFailures | PrivilegedAction | CredentialMaterial | Scanning | UpstreamFailure
    | ResourceExhaustion | OtherExplanation(name: string)

  /** A teacher's opinion of a family; the flag says that its field names are well formed. */
  datatype Lesson = Lesson(
    importance: Importance, severity: Severity, category: Category, confidence: Option<real>,
    explanation: Explanation, fieldsOk: bool)

  datatype Proposal = Proposal(name: string, confidence: Option<real>)

  /** What groups lines for learning: their family, or the shape of their JSON. */
  datatype Key = ByFamily(family: Family) | ByShape(scope: Source, shape: string, important: bool)
  datatype VersionId = OfFamily(version: Version) | OfShape(shape: string)

  datatype Evidence = Evidence(scope: Source, key: Key, samples: seq<string>, occurrences: nat, current: Judgment)

  datatype Learned = Learned(
    evidence: Evidence, version: VersionId, expires: Instant, escalation: Option<Judgment>, next: nat)

  datatype Outcome = Rejected | ReplayPassed | FieldsNeedReview | Escalated
  datatype Decision = Decision(
    key: Key, version: VersionId, seen: nat, outcome: Outcome, proposal: Option<Proposal>, lesson: Option<Lesson>)

  datatype Config = Config(
    strategy: Strategy, pats: Patterns, minSamples: nat, confidence: real, ttl: Duration, capacity: nat,
    // The shape of a text that is a JSON object.
    shapeOf: string -> Option<string>,
    // Whether a proposal holds for all samples.
    replays: (Proposal, seq<string>) -> bool)

  /** The teacher's answers to the questions of one pass, by their number. */
  datatype Teacher = Teacher(review: (nat, Evidence) -> Option<Lesson>, propose: (nat, Evidence) -> Option<Proposal>)

  datatype State = State(observed: Option<Instant>, entries: map<Key, Learned>, decisions: seq<Decision>)

  const FRESH: State := State(None, map[], [])

  // ----- upgrades -----

  predicate ValidLesson(r: Lesson) {
    && r.confidence.Some? && 0.0 <= r.confidence.value <= 1.0 && r.fieldsOk
    && (r.importance == Important || r.importance == Routine || r.importance == Uncertain)
    && !r.severity.OtherSeverity? && !r.category.OtherCategory? && !r.explanation.OtherExplanation?
  }

  function Escalation(current: Judgment, r: Lesson): (j: Option<Judgment>)
    ensures j.Some? ==>
      && current.opinion.importance != Important && j.value.opinion.importance == Important
      && j.value.opinion.error == NoError && Verdict.Valid(j.value.opinion)
  {
    if || !ValidLesson(r) || current.opinion.importance == Important || r.importance != Important
       || r.confidence.value < 0.75
       || r.category == RoutineCategory || r.category == UnknownCategory
       || r.severity == Noise || r.severity == UnknownSeverity
       || r.explanation == PatternBurst || r.explanation == NoChange || r.explanation == FreeText
       || r.explanation == InsufficientEvidence
    then None
    else Some(Unbounded(Opinion(r.importance, r.severity, r.category, r.confidence, r.confidence, r.confidence, NoError)))
  }

  /** The second lane never overrides a safety decision of the first, nor a person. */
  predicate LearningEligible(cfg: Config, veto: set<Family>, e: Event) {
    && !e.review && Eligible(cfg.pats, e) && e.judgment.opinion.error != StaleGeneration
    && match e.assessment
       case None => true
       case Some(a) =>
         a.reason != ReviewRequired && !(a.family.Some? && a.family.value in veto) && !a.evidenceLimited && !a.samplesLimited
  }

  predicate IsImportant(e: Event) {
    e.judgment.opinion.importance == Important
  }

  // ----- first phase: forget -----

  predicate RolledBack(s: State, now: Instant) {
    s.observed.Some? && Before(now, s.observed.value)
  }

  function Purged(s: State, now: Instant): State {
    State(Some(now),
          if RolledBack(s, now) then map[] else map k | k in s.entries && Before(now, s.entries[k].expires) :: s.entries[k],
          s.decisions)
  }

  // ----- second phase: take in the lines -----

  function KeyOf(cfg: Config, e: Event): Option<(Key, VersionId)> {
    if cfg.strategy == Semantic then
      match cfg.shapeOf(e.text)
      case None => None
      case Some(shape) => Some((ByShape(Scope(e, true), shape, e.important), OfShape(shape)))
    else if e.assessment.None? || e.assessment.value.family.None? then None
    else
      var fam := e.assessment.value.family.value;
      Some((ByFamily(fam), OfFamily(fam.version)))
  }

  function NewEntry(cfg: Config, key: Key, version: VersionId, e: Event, now: Instant): Learned {
    Learned(Evidence(Scope(e, true), key, [], 0, NO_JUDGMENT), version, Add(now, cfg.ttl), None, 0)
  }

  function Noted(p: Learned, e: Event): Learned {
    var v := p.evidence;
    p.(evidence := v.(
      occurrences := v.occurrences + 1, current := e.judgment,
      samples := if e.text in v.samples || MAX_SAMPLES <= |v.samples| then v.samples else v.samples + [e.text]))
  }

  function Raised(e: Event, j: Option<Judgment>): Event {
    if j.Some? && !IsImportant(e) then e.(judgment := j.value) else e
  }

  datatype Pass = Pass(entries: map<Key, Learned>, touched: seq<Key>, out: seq<Event>)

  /** The entry that takes a line in: its family's, or a new one if there is room. */
  function EntryFor(cfg: Config, entries: map<Key, Learned>, e: Event, now: Instant): (r: Option<Learned>)
    ensures r.Some? ==> KeyOf(cfg, e).Some?
    ensures r.Some? && KeyOf(cfg, e).value.0 !in entries ==>
      && |entries| < cfg.capacity && r.value.escalation == None && r.value.next == 0
      && r.value.evidence.samples == [] && r.value.expires == Add(now, cfg.ttl)
    ensures r.Some? && KeyOf(cfg, e).value.0 in entries ==> r.value == entries[KeyOf(cfg, e).value.0]
  {
    if KeyOf(cfg, e).None? then None
    else
      var (key, version) := KeyOf(cfg, e).value;
      if key !in entries && cfg.capacity <= |entries| then None
      else
        var entry := if key in entries then entries[key] else NewEntry(cfg, key, version, e, now);
        if entry.version != version then None else Some(entry)
  }

  function Learn(cfg: Config, veto: set<Family>, p: Pass, e: Event, now: Instant): Pass {
    var entry := EntryFor(cfg, p.entries, e, now);
    if !LearningEligible(cfg, veto, e) || entry.None? then p.(out := p.out + [e])
    else
      var key := KeyOf(cfg, e).value.0;
      Pass(p.entries[key := Noted(entry.value, e)],
           if key in p.touched then p.touched else p.touched + [key],
           p.out + [Raised(e, entry.value.escalation)])
  }

  function LearnAll(cfg: Config, veto: set<Family>, entries: map<Key, Learned>, events: seq<Event>, now: Instant): Pass {
    if events == [] then Pass(entries, [], [])
    else Learn(cfg, veto, LearnAll(cfg, veto, entries, events[..|events| - 1], now), events[|events| - 1], now)
  }

  // ----- third phase: ask the teacher -----

  function Thresholds(cfg: Config): seq<nat> {
    [cfg.minSamples, 32, 256, 2048]
  }

  function Logged(ds: seq<Decision>, d: Decision): seq<Decision> {
    (if |ds| == MAX_DECISIONS then ds[1..] else ds) + [d]
  }

  /** The lines of the family that the second lane may speak about. */
  predicate Concerned(cfg: Config, veto: set<Family>, key: Key, version: VersionId, e: Event) {
    && e.assessment.Some? && e.assessment.value.family.Some?
    && ByFamily(e.assessment.value.family.value) == key && OfFamily(e.assessment.value.family.value.version) == version
    && LearningEligible(cfg, veto, e)
  }

  function RaisedAll(cfg: Config, veto: set<Family>, key: Key, version: VersionId, events: seq<Event>, j: Judgment): (r: seq<Event>)
    ensures |r| == |events|
  {
    seq(|events|, i requires 0 <= i < |events| =>
      if Concerned(cfg, veto, key, version, events[i]) then Raised(events[i], Some(j)) else events[i])
  }

  datatype Round = Round(entries: map<Key, Learned>, decisions: seq<Decision>, out: seq<Event>, reviews: nat)

  predicate Due(cfg: Config, p: Learned, reviews: nat) {
    p.next < 4 && Thresholds(cfg)[p.next] <= p.evidence.occurrences && reviews < MAX_REVIEWS
  }

  /** What one question leaves: the entry, the log line, and the judgment that raises lines. */
  datatype Asked = Asked(entry: Learned, decision: Decision, raise: Option<Judgment>)

  function Ask(cfg: Config, t: Teacher, n: nat, key: Key, p: Learned): (a: Asked)
    ensures a.entry == p.(next := p.next + 1, escalation := a.entry.escalation)
    ensures a.entry.escalation == if a.raise.Some? then a.raise else p.escalation
    ensures a.raise.Some? ==>
      && cfg.strategy != Semantic && a.raise.value.opinion.importance == Important && a.raise.value.opinion.error == NoError
  {
    var q := p.(next := p.next + 1);
    var d := Decision(key, p.version, p.evidence.occurrences, Rejected, None, None);
    if cfg.strategy == Semantic then
      var a := t.propose(n, p.evidence);
      if a.Some? && a.value.confidence.Some? && cfg.confidence <= a.value.confidence.value
         && cfg.replays(a.value, p.evidence.samples)
      then Asked(q, d.(proposal := a, outcome := ReplayPassed), None)
      else Asked(q, d, None)
    else
      var a := t.review(n, p.evidence);
      if a.None? || !ValidLesson(a.value) then Asked(q, d, None)
      else
        var j := Escalation(p.evidence.current, a.value);
        if j.None? then Asked(q, d.(lesson := a, outcome := FieldsNeedReview), None)
        else Asked(q.(escalation := j), d.(lesson := a, outcome := Escalated), j)
  }

  function Considered(cfg: Config, veto: set<Family>, t: Teacher, r: Round, key: Key): Round
    requires key in r.entries
  {
    var p := r.entries[key];
    if !Due(cfg, p, r.reviews) then r
    else
      var a := Ask(cfg, t, r.reviews, key, p);
      Round(r.entries[key := a.entry], Logged(r.decisions, a.decision),
            if a.raise.Some? then RaisedAll(cfg, veto, key, p.version, r.out, a.raise.value) else r.out,
            r.reviews + 1)
  }

  function ConsiderAll(cfg: Config, veto: set<Family>, t: Teacher, r: Round, keys: seq<Key>): (r': Round)
    requires forall k :: k in keys ==> k in r.entries
    ensures r'.entries.Keys == r.entries.Keys
  {
    if keys == [] then r else Considered(cfg, veto, t, ConsiderAll(cfg, veto, t, r, keys[..|keys| - 1]), keys[|keys| - 1])
  }

  lemma {:induction false} TouchedAreKept(cfg: Config, veto: set<Family>, entries: map<Key, Learned>, events: seq<Event>, now: Instant)
    ensures var p := LearnAll(cfg, veto, entries, events, now);
            (forall k :: k in p.touched ==> k in p.entries) && |p.out| == |events|
    decreases |events|
  {
    if events != [] {
      TouchedAreKept(cfg, veto, entries, events[..|events| - 1], now);
      hide LearningEligible, KeyOf, Noted, NewEntry, Raised;
    }
  }

  datatype Taught = Taught(state: State, out: seq<Event>)

  /** One pass after a batch. */
  function Teach(cfg: Config, veto: set<Family>, t: Teacher, s: State, events: seq<Event>, now: Instant): Taught {
    var s1 := Purged(s, now);
    var p := LearnAll(cfg, veto, s1.entries, events, now);
    TouchedAreKept(cfg, veto, s1.entries, events, now);
    var r := ConsiderAll(cfg, veto, t, Round(p.entries, s.decisions, p.out, 0), p.touched);
    Taught(State(Some(now), r.entries, r.decisions), r.out)
  }

  // ----- only upgrades -----

  /** A line is left alone, or it was open to learning and has become important. */
  predicate OnlyRaised(cfg: Config, veto: set<Family>, before: Event, after: Event) {
    || after == before
    || (&& cfg.strategy != Semantic && LearningEligible(cfg, veto, before) && !IsImportant(before)
        && IsImportant(after) && after == before.(judgment := after.judgment))
  }

  ghost predicate AllRaised(cfg: Config, veto: set<Family>, before: seq<Event>, after: seq<Event>) {
    |after| == |before| && forall i :: 0 <= i < |before| ==> OnlyRaised(cfg, veto, before[i], after[i])
  }

  /** Every saved escalation says important, and there is none while learning shapes. */
  ghost predicate Upgrades(cfg: Config, entries: map<Key, Learned>) {
    forall k :: k in entries && entries[k].escalation.Some? ==>
      && cfg.strategy != Semantic
      && entries[k].escalation.value.opinion.importance == Important
      && entries[k].escalation.value.opinion.error == NoError
  }

  lemma LearnStepRaises(cfg: Config, veto: set<Family>, p: Pass, e: Event, now: Instant)
    requires Upgrades(cfg, p.entries)
    ensures var p' := Learn(cfg, veto, p, e, now);
            && Upgrades(cfg, p'.entries) && |p'.out| == |p.out| + 1 && p'.out == p.out + [p'.out[|p.out|]]
            && OnlyRaised(cfg, veto, e, p'.out[|p.out|])
  {
    hide LearningEligible, KeyOf, EntryFor;
  }

  lemma {:induction false} LearnOnlyRaises(
      cfg: Config, veto: set<Family>, entries: map<Key, Learned>, events: seq<Event>, now: Instant)
    requires Upgrades(cfg, entries)
    ensures var p := LearnAll(cfg, veto, entries, events, now);
            Upgrades(cfg, p.entries) && AllRaised(cfg, veto, events, p.out)
    decreases |events|
  {
    if events != [] {
      var n := |events| - 1;
      LearnOnlyRaises(cfg, veto, entries, events[..n], now);
      var p := LearnAll(cfg, veto, entries, events[..n], now);
      LearnStepRaises(cfg, veto, p, events[n], now);
      assert events == events[..n] + [events[n]];
      hide Learn, OnlyRaised, Upgrades;
    }
  }

  lemma ConsiderOnlyRaises(cfg: Config, veto: set<Family>, t: Teacher, r: Round, key: Key)
    requires key in r.entries && Upgrades(cfg, r.entries)
    ensures var r' := Considered(cfg, veto, t, r, key);
            Upgrades(cfg, r'.entries) && AllRaised(cfg, veto, r.out, r'.out)
  {
    hide LearningEligible, Ask, Logged, Due;
  }

  lemma RaisedTwice(cfg: Config, veto: set<Family>, a: Event, b: Event, c: Event)
    requires OnlyRaised(cfg, veto, a, b) && OnlyRaised(cfg, veto, b, c)
    ensures OnlyRaised(cfg, veto, a, c)
  {
    hide LearningEligible;
  }

  lemma AllRaisedTwice(cfg: Config, veto: set<Family>, a: seq<Event>, b: seq<Event>, c: seq<Event>)
    requires AllRaised(cfg, veto, a, b) && AllRaised(cfg, veto, b, c)
    ensures AllRaised(cfg, veto, a, c)
  {
    forall i | 0 <= i < |a| ensures OnlyRaised(cfg, veto, a[i], c[i]) {
      RaisedTwice(cfg, veto, a[i], b[i], c[i]);
    }
    hide OnlyRaised;
  }

  lemma {:induction false} RoundsOnlyRaise(cfg: Config, veto: set<Family>, t: Teacher, r: Round, keys: seq<Key>)
    requires (forall k :: k in keys ==> k in r.entries) && Upgrades(cfg, r.entries)
    ensures var r' := ConsiderAll(cfg, veto, t, r, keys);
            Upgrades(cfg, r'.entries) && AllRaised(cfg, veto, r.out, r'.out)
    decreases |keys|
  {
    if keys != [] {
      var mid := ConsiderAll(cfg, veto, t, r, keys[..|keys| - 1]);
      RoundsOnlyRaise(cfg, veto, t, r, keys[..|keys| - 1]);
      ConsiderOnlyRaises(cfg, veto, t, mid, keys[|keys| - 1]);
      AllRaisedTwice(cfg, veto, r.out, mid.out, Considered(cfg, veto, t, mid, keys[|keys| - 1]).out);
      hide Considered, AllRaised, Upgrades;
    }
  }

  /**
   Learning only raises judgments to important.  Lines that a person reviewed, that
   are vetoed, stale, limited or ineligible, and lines already important stay as they
   are, and no line changes in anything but its judgment.  Learning shapes changes
   no line at all.
   */
  lemma {:induction false} TeachingOnlyRaises(
      cfg: Config, veto: set<Family>, t: Teacher, s: State, events: seq<Event>, now: Instant)
    requires Upgrades(cfg, s.entries)
    ensures var r := Teach(cfg, veto, t, s, events, now);
            Upgrades(cfg, r.state.entries) && AllRaised(cfg, veto, events, r.out)
  {
    var s1 := Purged(s, now);
    assert Upgrades(cfg, s1.entries);
    var p := LearnAll(cfg, veto, s1.entries, events, now);
    LearnOnlyRaises(cfg, veto, s1.entries, events, now);
    TouchedAreKept(cfg, veto, s1.entries, events, now);
    var r := Round(p.entries, s.decisions, p.out, 0);
    RoundsOnlyRaise(cfg, veto, t, r, p.touched);
    AllRaisedTwice(cfg, veto, events, p.out, ConsiderAll(cfg, veto, t, r, p.touched).out);
    hide LearnAll, ConsiderAll, AllRaised, Upgrades, Purged;
  }

  // ----- bounds -----

  ghost predicate Bounded(cfg: Config, s: State) {
    && |s.entries| <= cfg.capacity && |s.decisions| <= MAX_DECISIONS
    && forall k :: k in s.entries ==> s.entries[k].next <= 4 && |s.entries[k].evidence.samples| <= MAX_SAMPLES
  }

  lemma LearnKeepsBounds(cfg: Config, veto: set<Family>, p: Pass, e: Event, now: Instant, ds: seq<Decision>)
    requires Bounded(cfg, State(None, p.entries, ds))
    ensures Bounded(cfg, State(None, Learn(cfg, veto, p, e, now).entries, ds))
  {
    hide LearningEligible, KeyOf;
  }

  lemma {:induction false} LearnAllKeepsBounds(
      cfg: Config, veto: set<Family>, entries: map<Key, Learned>, events: seq<Event>, now: Instant, ds: seq<Decision>)
    requires Bounded(cfg, State(None, entries, ds))
    ensures Bounded(cfg, State(None, LearnAll(cfg, veto, entries, events, now).entries, ds))
    decreases |events|
  {
    if events != [] {
      LearnAllKeepsBounds(cfg, veto, entries, events[..|events| - 1], now, ds);
      LearnKeepsBounds(cfg, veto, LearnAll(cfg, veto, entries, events[..|events| - 1], now), events[|events| - 1], now, ds);
      hide Learn, Bounded;
    }
  }

  lemma ConsiderKeepsBounds(cfg: Config, veto: set<Family>, t: Teacher, r: Round, key: Key)
    requires key in r.entries && Bounded(cfg, State(None, r.entries, r.decisions)) && r.reviews <= MAX_REVIEWS
    ensures var r' := Considered(cfg, veto, t, r, key);
            && Bounded(cfg, State(None, r'.entries, r'.decisions)) && r.reviews <= r'.reviews <= MAX_REVIEWS
            && (r'.reviews == r.reviews ==> r' == r)
  {
    hide Ask, RaisedAll;
    var p := r.entries[key];
    if Due(cfg, p, r.reviews) {
      var q := Ask(cfg, t, r.reviews, key, p).entry;
      assert r.entries[key := q].Keys == r.entries.Keys;
      assert |r.entries[key := q].Keys| == |r.entries[key := q]| && |r.entries.Keys| == |r.entries|;
    }
  }

  lemma {:induction false} RoundsKeepBounds(cfg: Config, veto: set<Family>, t: Teacher, r: Round, keys: seq<Key>)
    requires (forall k :: k in keys ==> k in r.entries) && Bounded(cfg, State(None, r.entries, r.decisions))
    requires r.reviews <= MAX_REVIEWS
    ensures var r' := ConsiderAll(cfg, veto, t, r, keys);
            Bounded(cfg, State(None, r'.entries, r'.decisions)) && r'.reviews <= MAX_REVIEWS
    decreases |keys|
  {
    if keys != [] {
      RoundsKeepBounds(cfg, veto, t, r, keys[..|keys| - 1]);
      ConsiderKeepsBounds(cfg, veto, t, ConsiderAll(cfg, veto, t, r, keys[..|keys| - 1]), keys[|keys| - 1]);
      hide Considered, Bounded;
    }
  }

  /** The table, the samples, the questions and the decision log stay bounded. */
  lemma {:induction false} TeachingIsBounded(cfg: Config, veto: set<Family>, t: Teacher, s: State, events: seq<Event>, now: Instant)
    requires Bounded(cfg, s)
    ensures Bounded(cfg, Teach(cfg, veto, t, s, events, now).state)
  {
    var s1 := Purged(s, now);
    PurgeShrinks(s, now);
    LearnAllKeepsBounds(cfg, veto, s1.entries, events, now, s.decisions);
    TouchedAreKept(cfg, veto, s1.entries, events, now);
    var p := LearnAll(cfg, veto, s1.entries, events, now);
    RoundsKeepBounds(cfg, veto, t, Round(p.entries, s.decisions, p.out, 0), p.touched);
    hide LearnAll, ConsiderAll;
  }

  lemma PurgeShrinks(s: State, now: Instant)
    ensures |Purged(s, now).entries| <= |s.entries|
  {
    var m := Purged(s, now).entries;
    assert m.Keys <= s.entries.Keys;
    Subset(m.Keys, s.entries.Keys);
  }

  lemma Subset(a: set<Key>, b: set<Key>)
    requires a <= b
    ensures |a| <= |b|
  {
    assert b == a + (b - a);
  }

  // ----- the lifetime of what was learned -----

  /** Entries keep their expiry as long as they live. */
  ghost predicate KeepsExpiry(was: map<Key, Learned>, now: map<Key, Learned>) {
    forall k :: k in was ==> k in now && now[k].expires == was[k].expires
  }

  /** They do, and every new entry has the given expiry. */
  ghost predicate Carries(was: map<Key, Learned>, now: map<Key, Learned>, expiry: Instant) {
    KeepsExpiry(was, now) && forall k :: k in now && k !in was ==> now[k].expires == expiry
  }

  /** A changed line has an entry of its own family. */
  ghost predicate HasEntry(cfg: Config, entries: map<Key, Learned>, before: Event, after: Event) {
    after != before ==> KeyOf(cfg, before).Some? && KeyOf(cfg, before).value.0 in entries
  }

  ghost predicate AllHaveEntry(cfg: Config, entries: map<Key, Learned>, before: seq<Event>, after: seq<Event>) {
    |after| == |before| && forall i :: 0 <= i < |before| ==> HasEntry(cfg, entries, before[i], after[i])
  }

  lemma LearnStepLives(cfg: Config, veto: set<Family>, p: Pass, e: Event, now: Instant)
    ensures var p' := Learn(cfg, veto, p, e, now);
            && Carries(p.entries, p'.entries, Add(now, cfg.ttl))
            && |p'.out| == |p.out| + 1 && p'.out == p.out + [p'.out[|p.out|]]
            && HasEntry(cfg, p'.entries, e, p'.out[|p.out|])
  {
    hide LearningEligible, KeyOf, EntryFor, Add;
  }

  lemma HasEntryStill(cfg: Config, a: map<Key, Learned>, b: map<Key, Learned>, before: Event, after: Event)
    requires KeepsExpiry(a, b) && HasEntry(cfg, a, before, after)
    ensures HasEntry(cfg, b, before, after)
  {
    hide KeyOf;
  }

  lemma AllHaveEntryStill(cfg: Config, a: map<Key, Learned>, b: map<Key, Learned>, before: seq<Event>, after: seq<Event>)
    requires KeepsExpiry(a, b) && AllHaveEntry(cfg, a, before, after)
    ensures AllHaveEntry(cfg, b, before, after)
  {
    hide HasEntry, KeepsExpiry;
    forall i | 0 <= i < |before| ensures HasEntry(cfg, b, before[i], after[i]) {
      HasEntryStill(cfg, a, b, before[i], after[i]);
    }
  }

  lemma AllHaveEntryAfter(
      cfg: Config, entries: map<Key, Learned>, before: seq<Event>, after: seq<Event>, e: Event, x: Event)
    requires AllHaveEntry(cfg, entries, before, after) && HasEntry(cfg, entries, e, x)
    ensures AllHaveEntry(cfg, entries, before + [e], after + [x]) && |after| == |before|
  {
    hide HasEntry;
  }

  lemma NothingLives(cfg: Config, entries: map<Key, Learned>, expiry: Instant)
    ensures Carries(entries, entries, expiry) && AllHaveEntry(cfg, entries, [], [])
  {
  }

  lemma CarriesTwice(a: map<Key, Learned>, b: map<Key, Learned>, c: map<Key, Learned>, expiry: Instant)
    requires Carries(a, b, expiry) && Carries(b, c, expiry)
    ensures Carries(a, c, expiry)
  {
  }

  lemma {:induction false} LearnLives(
      cfg: Config, veto: set<Family>, entries: map<Key, Learned>, events: seq<Event>, now: Instant)
    ensures var p := LearnAll(cfg, veto, entries, events, now);
            Carries(entries, p.entries, Add(now, cfg.ttl)) && AllHaveEntry(cfg, p.entries, events, p.out)
    decreases |events|
  {
    hide Learn, HasEntry, Add, AllHaveEntry, KeepsExpiry;
    if events == [] {
      NothingLives(cfg, entries, Add(now, cfg.ttl));
    } else {
      var n := |events| - 1;
      LearnLives(cfg, veto, entries, events[..n], now);
      var p := LearnAll(cfg, veto, entries, events[..n], now);
      var p' := Learn(cfg, veto, p, events[n], now);
      LearnStepLives(cfg, veto, p, events[n], now);
      CarriesTwice(entries, p.entries, p'.entries, Add(now, cfg.ttl));
      AllHaveEntryStill(cfg, p.entries, p'.entries, events[..n], p.out);
      AllHaveEntryAfter(cfg, p'.entries, events[..n], p.out, events[n], p'.out[|p.out|]);
      assert events == events[..n] + [events[n]];
      hide Carries;
    }
  }

  lemma ConsiderLives(cfg: Config, veto: set<Family>, t: Teacher, r: Round, key: Key, expiry: Instant)
    requires key in r.entries
    ensures Carries(r.entries, Considered(cfg, veto, t, r, key).entries, expiry)
  {
    hide Ask, Logged, Due, RaisedAll;
  }

  lemma ConsiderHasEntry(cfg: Config, veto: set<Family>, t: Teacher, r: Round, key: Key)
    requires key in r.entries
    ensures AllHaveEntry(cfg, r.entries, r.out, Considered(cfg, veto, t, r, key).out)
  {
    hide LearningEligible, Logged, Due, Raised;
  }

  /** Whatever decides the entry of a line, its judgment does not. */
  lemma HasEntryTwice(cfg: Config, veto: set<Family>, entries: map<Key, Learned>, a: Event, b: Event, c: Event)
    requires OnlyRaised(cfg, veto, a, b)
    requires HasEntry(cfg, entries, a, b) && HasEntry(cfg, entries, b, c)
    ensures HasEntry(cfg, entries, a, c)
  {
    hide LearningEligible;
    assert Scope(a, true) == Scope(b, true);
  }

  lemma AllHaveEntryTwice(cfg: Config, veto: set<Family>, entries: map<Key, Learned>, a: seq<Event>, b: seq<Event>, c: seq<Event>)
    requires AllRaised(cfg, veto, a, b) && AllHaveEntry(cfg, entries, a, b) && AllHaveEntry(cfg, entries, b, c)
    ensures AllHaveEntry(cfg, entries, a, c)
  {
    hide HasEntry, OnlyRaised;
    forall i | 0 <= i < |a| ensures HasEntry(cfg, entries, a[i], c[i]) {
      HasEntryTwice(cfg, veto, entries, a[i], b[i], c[i]);
    }
  }

  lemma NothingChanged(cfg: Config, entries: map<Key, Learned>, events: seq<Event>, expiry: Instant)
    ensures Carries(entries, entries, expiry) && AllHaveEntry(cfg, entries, events, events)
  {
    hide KeyOf;
  }

  lemma {:induction false} RoundsLive(cfg: Config, veto: set<Family>, t: Teacher, r: Round, keys: seq<Key>, expiry: Instant)
    requires (forall k :: k in keys ==> k in r.entries) && Upgrades(cfg, r.entries)
    ensures var r' := ConsiderAll(cfg, veto, t, r, keys);
            Carries(r.entries, r'.entries, expiry) && AllHaveEntry(cfg, r'.entries, r.out, r'.out)
    decreases |keys|
  {
    hide Considered, AllHaveEntry, Upgrades, AllRaised;
    if keys == [] {
      NothingChanged(cfg, r.entries, r.out, expiry);
    } else {
      var front, key := keys[..|keys| - 1], keys[|keys| - 1];
      var mid := ConsiderAll(cfg, veto, t, r, front);
      var r' := Considered(cfg, veto, t, mid, key);
      RoundsLive(cfg, veto, t, r, front, expiry);
      RoundsOnlyRaise(cfg, veto, t, r, front);
      ConsiderLives(cfg, veto, t, mid, key, expiry);
      CarriesTwice(r.entries, mid.entries, r'.entries, expiry);
      ConsiderHasEntry(cfg, veto, t, mid, key);
      AllHaveEntryTwice(cfg, veto, mid.entries, r.out, mid.out, r'.out);
      AllHaveEntryStill(cfg, mid.entries, r'.entries, r.out, r'.out);
      hide Carries, KeepsExpiry;
    }
  }

  /** One pass: what it does not purge keeps its expiry, what it opens expires a TTL later, and a changed line has an entry. */
  lemma {:induction false} TeachingLives(cfg: Config, veto: set<Family>, t: Teacher, s: State, events: seq<Event>, now: Instant)
    requires Upgrades(cfg, s.entries)
    ensures var r := Teach(cfg, veto, t, s, events, now);
            && Carries(Purged(s, now).entries, r.state.entries, Add(now, cfg.ttl))
            && AllHaveEntry(cfg, r.state.entries, events, r.out)
  {
    hide LearnAll, ConsiderAll, AllRaised, AllHaveEntry, Add;
    var s1 := Purged(s, now);
    assert Upgrades(cfg, s1.entries);
    hide Upgrades, Purged;
    var p := LearnAll(cfg, veto, s1.entries, events, now);
    LearnLives(cfg, veto, s1.entries, events, now);
    LearnOnlyRaises(cfg, veto, s1.entries, events, now);
    TouchedAreKept(cfg, veto, s1.entries, events, now);
    var r := Round(p.entries, s.decisions, p.out, 0);
    var r' := ConsiderAll(cfg, veto, t, r, p.touched);
    RoundsLive(cfg, veto, t, r, p.touched, Add(now, cfg.ttl));
    CarriesTwice(s1.entries, p.entries, r'.entries, Add(now, cfg.ttl));
    AllHaveEntryStill(cfg, p.entries, r'.entries, events, p.out);
    AllHaveEntryTwice(cfg, veto, r'.entries, events, p.out, r'.out);
    hide Carries, KeepsExpiry;
  }

  // ----- runs -----

  datatype Call = Call(veto: set<Family>, teacher: Teacher, events: seq<Event>, now: Instant)

  function StateAfter(cfg: Config, s: State, c: Call): State {
    Teach(cfg, c.veto, c.teacher, s, c.events, c.now).state
  }

  /** The state after a run of passes. */
  function Run(cfg: Config, calls: seq<Call>): State {
    if calls == [] then FRESH else StateAfter(cfg, Run(cfg, calls[..|calls| - 1]), calls[|calls| - 1])
  }

  ghost predicate Sound(cfg: Config, s: State) {
    Upgrades(cfg, s.entries) && Bounded(cfg, s)
  }

  lemma FreshIsSound(cfg: Config)
    ensures Sound(cfg, FRESH)
  {
    assert |FRESH.entries| == 0;
  }

  lemma PassIsSound(cfg: Config, s: State, c: Call)
    requires Sound(cfg, s)
    ensures Sound(cfg, StateAfter(cfg, s, c))
  {
    hide Teach, Upgrades, Bounded, AllRaised;
    TeachingOnlyRaises(cfg, c.veto, c.teacher, s, c.events, c.now);
    TeachingIsBounded(cfg, c.veto, c.teacher, s, c.events, c.now);
  }

  lemma {:induction false} RunIsSound(cfg: Config, calls: seq<Call>)
    ensures Sound(cfg, Run(cfg, calls))
    decreases |calls|
  {
    hide Sound, StateAfter;
    if calls == [] {
      FreshIsSound(cfg);
    } else {
      RunIsSound(cfg, calls[..|calls| - 1]);
      PassIsSound(cfg, Run(cfg, calls[..|calls| - 1]), calls[|calls| - 1]);
    }
  }

  /** The table that pass `n` of the run starts from, once it has purged it. */
  function TableAt(cfg: Config, calls: seq<Call>, n: nat): map<Key, Learned>
    requires n < |calls|
  {
    Purged(Run(cfg, calls[..n]), calls[n].now).entries
  }

  /**
   Pass `m` opened the entry that the run ends with: it found none, no later pass purged
   it, and its expiry has been the one of its opening ever since.
   */
  ghost predicate OpenedBy(cfg: Config, calls: seq<Call>, k: Key, m: nat) {
    && m < |calls| && k !in TableAt(cfg, calls, m)
    && (forall n: nat :: m < n < |calls| ==> k in TableAt(cfg, calls, n))
    && (forall n: nat :: m < n <= |calls| ==> StandsAt(cfg, calls, n, k, Add(calls[m].now, cfg.ttl)))
  }

  ghost predicate StandsAt(cfg: Config, calls: seq<Call>, n: nat, k: Key, expiry: Instant)
    requires n <= |calls|
  {
    var entries := Run(cfg, calls[..n]).entries;
    k in entries && entries[k].expires == expiry
  }

  /** One more pass either keeps the entry with its opening, or has opened it itself. */
  lemma OpenedNext(cfg: Config, front: seq<Call>, c: Call, k: Key)
    requires var calls := front + [c]; k in Run(cfg, calls).entries
    requires k in Run(cfg, front).entries ==> exists m: nat :: OpenedBy(cfg, front, k, m)
    ensures exists m: nat :: OpenedBy(cfg, front + [c], k, m)
  {
    hide Upgrades, Bounded, StateAfter, AllHaveEntry, Add, OpenedBy, Carries;
    var calls, last := front + [c], |front|;
    assert calls[..last] == front;
    assert Run(cfg, calls) == StateAfter(cfg, Run(cfg, front), c);
    PassCarries(cfg, front, c);
    if k in TableAt(cfg, calls, last) {
      assert k in Run(cfg, front).entries;
      var m: nat :| OpenedBy(cfg, front, k, m);
      OpenedStill(cfg, front, c, k, m);
    } else {
      OpenedNow(cfg, front, c, k);
    }
  }

  lemma PassCarries(cfg: Config, front: seq<Call>, c: Call)
    ensures Carries(Purged(Run(cfg, front), c.now).entries, StateAfter(cfg, Run(cfg, front), c).entries, Add(c.now, cfg.ttl))
  {
    hide Upgrades, Bounded, Teach, AllHaveEntry, Add, Carries, Purged, Run;
    RunIsSound(cfg, front);
    TeachingLives(cfg, c.veto, c.teacher, Run(cfg, front), c.events, c.now);
  }

  lemma OpenedNow(cfg: Config, front: seq<Call>, c: Call, k: Key)
    requires var calls := front + [c];
             && k !in TableAt(cfg, calls, |front|) && k in Run(cfg, calls).entries
             && Carries(TableAt(cfg, calls, |front|), Run(cfg, calls).entries, Add(c.now, cfg.ttl))
    ensures OpenedBy(cfg, front + [c], k, |front|)
  {
    hide Run, Add, Purged;
    var calls := front + [c];
    assert calls[..|front| + 1] == calls && calls[|front|] == c;
    assert StandsAt(cfg, calls, |front| + 1, k, Add(c.now, cfg.ttl));
  }

  lemma OpenedStill(cfg: Config, front: seq<Call>, c: Call, k: Key, m: nat)
    requires OpenedBy(cfg, front, k, m) && k in TableAt(cfg, front + [c], |front|)
    requires var calls := front + [c];
             Carries(TableAt(cfg, calls, |front|), Run(cfg, calls).entries, Add(c.now, cfg.ttl))
    ensures OpenedBy(cfg, front + [c], k, m)
  {
    hide Run, Add;
    var calls, last := front + [c], |front|;
    var expiry := Add(front[m].now, cfg.ttl);
    forall n: nat | n <= last ensures calls[..n] == front[..n] {
    }
    assert calls[..last + 1] == calls && calls[..last] == front[..last];
    assert TableAt(cfg, calls, m) == TableAt(cfg, front, m);
    forall n: nat | m < n < |calls| ensures k in TableAt(cfg, calls, n) {
      if n < last {
        assert TableAt(cfg, calls, n) == TableAt(cfg, front, n);
      }
    }
    forall n: nat | m < n <= |calls| ensures StandsAt(cfg, calls, n, k, expiry) {
      assert StandsAt(cfg, front, if n <= last then n else last, k, expiry);
    }
  }

  lemma {:induction false} EntriesAreOpened(cfg: Config, calls: seq<Call>, k: Key)
    requires k in Run(cfg, calls).entries
    ensures exists m: nat :: OpenedBy(cfg, calls, k, m)
    decreases |calls|
  {
    hide StateAfter, OpenedBy;
    if calls != [] {
      var front, c := calls[..|calls| - 1], calls[|calls| - 1];
      assert front + [c] == calls;
      if k in Run(cfg, front).entries {
        EntriesAreOpened(cfg, front, k);
      }
      OpenedNext(cfg, front, c, k);
    }
  }

  /** Whether a pass made at `now` is less than the time to live after the pass that opened an entry. */
  predicate WithinTtl(cfg: Config, opening: Instant, now: Instant) {
    opening.mono.Some? && now.mono.Some? && now.mono.value < opening.mono.value + cfg.ttl
  }

  /**
   What the second lane may ever do.  After any run of passes, the next pass leaves a
   line alone or raises an eligible one to important.  It raises a line only under the
   entry of that line's own family, less than the time to live after the pass that
   opened this entry; in between no pass has dropped it, opened it anew or moved its
   expiry.
   */
  lemma {:induction false} TeacherAuthorityExpires(cfg: Config, calls: seq<Call>, c: Call, i: nat)
    requires 0 < cfg.ttl && i < |c.events|
    requires c.now.mono.Some? && forall n :: 0 <= n < |calls| ==> calls[n].now.mono.Some?
    ensures var r := Teach(cfg, c.veto, c.teacher, Run(cfg, calls), c.events, c.now);
            && |r.out| == |c.events| && OnlyRaised(cfg, c.veto, c.events[i], r.out[i])
            && (r.out[i] != c.events[i] ==>
                  && KeyOf(cfg, c.events[i]).Some?
                  && exists m: nat ::
                       && OpenedBy(cfg, calls + [c], KeyOf(cfg, c.events[i]).value.0, m)
                       && WithinTtl(cfg, (calls + [c])[m].now, c.now))
  {
    var s, all := Run(cfg, calls), calls + [c];
    RunIsSound(cfg, calls);
    hide Teach, Bounded, OnlyRaised, KeyOf, Upgrades;
    TeachingOnlyRaises(cfg, c.veto, c.teacher, s, c.events, c.now);
    TeachingLives(cfg, c.veto, c.teacher, s, c.events, c.now);
    hide Carries, OpenedBy, Add;
    assert all[..|calls|] == calls;
    var r := Teach(cfg, c.veto, c.teacher, s, c.events, c.now);
    assert Run(cfg, all) == r.state;
    if r.out[i] != c.events[i] {
      assert HasEntry(cfg, r.state.entries, c.events[i], r.out[i]);
      var k := KeyOf(cfg, c.events[i]).value.0;
      EntriesAreOpened(cfg, all, k);
      var m: nat :| OpenedBy(cfg, all, k, m);
      OpenedInTime(cfg, calls, c, k, m);
    }
  }

  lemma OpenedInTime(cfg: Config, calls: seq<Call>, c: Call, k: Key, m: nat)
    requires 0 < cfg.ttl && OpenedBy(cfg, calls + [c], k, m)
    requires c.now.mono.Some? && forall n :: 0 <= n < |calls| ==> calls[n].now.mono.Some?
    requires Carries(TableAt(cfg, calls + [c], |calls|), Run(cfg, calls + [c]).entries, Add(c.now, cfg.ttl))
    ensures WithinTtl(cfg, (calls + [c])[m].now, c.now)
  {
    hide Run;
    var all, last := calls + [c], |calls|;
    if m < last {
      assert all[..|all|] == all && all[last] == c;
      assert StandsAt(cfg, all, |all|, k, Add(all[m].now, cfg.ttl));
      assert k in TableAt(cfg, all, last);
      assert Before(c.now, TableAt(cfg, all, last)[k].expires);
    }
  }

  /** Readings of one running process never look rolled back, so only expiry clears the table. */
  lemma {:induction false} MonotoneReadingsNeverRollBack(cfg: Config, calls: seq<Call>, now: Instant)
    requires calls != [] && now.mono.Some? && calls[|calls| - 1].now.mono.Some?
    requires calls[|calls| - 1].now.mono.value <= now.mono.value
    ensures !RolledBack(Run(cfg, calls), now)
  {
    hide LearnAll, ConsiderAll;
  }

  // ----- the code -----

  class Learning {
    const cfg: Config
    var observed: Option<Instant>
    var entries: map<Key, Learned>
    var decisions: seq<Decision>

    ghost function Model(): State
      reads this
    {
      State(observed, entries, decisions)
    }

    constructor (cfg: Config)
      ensures this.cfg == cfg && Model() == FRESH
    {
      this.cfg := cfg;
      observed, entries, decisions := None, map[], [];
    }

    /** A pass over the lines of a batch; a cancelled pass does nothing. */
    method TeachLines(veto: set<Family>, t: Teacher, events: array<Event>, now: Instant, cancelled: bool)
      modifies this, events
      ensures Taught(Model(), events[..])
           == if cancelled then old(Taught(Model(), events[..])) else Teach(cfg, veto, t, old(Model()), old(events[..]), now)
    {
      if cancelled {
        return;
      }
      hide LearnAll, ConsiderAll, Purged;
      Forget(now);
      ghost var start, lines := entries, events[..];
      TouchedAreKept(cfg, veto, start, lines, now);
      var touched := TakeIn(veto, events, now);
      AskAll(veto, t, events, touched);
    }

    /** A wall clock that went back ends all saved authority; expired entries go one by one. */
    method Forget(now: Instant)
      modifies this
      ensures Model() == Purged(old(Model()), now)
    {
      if observed.Some? && Before(now, observed.value) {
        entries := map[];
      }
      observed := Some(now);
      DropExpired(now);
    }

    method DropExpired(now: Instant)
      modifies `entries
      ensures entries == map k | k in old(entries) && Before(now, old(entries)[k].expires) :: old(entries)[k]
    {
      ghost var before := entries;
      var todo := entries.Keys;
      while todo != {}
        invariant todo <= before.Keys && todo <= entries.Keys
        invariant forall k :: k in entries <==> k in before && (k in todo || Before(now, before[k].expires))
        invariant forall k :: k in entries ==> entries[k] == before[k]
        decreases |todo|
      {
        var k :| k in todo;
        if !Before(now, entries[k].expires) {
          entries := entries - {k};
        }
        todo := todo - {k};
      }
    }

    /** Every eligible line is noted in its entry, and raised if the entry says so. */
    method TakeIn(veto: set<Family>, events: array<Event>, now: Instant) returns (touched: seq<Key>)
      modifies `entries, events
      ensures Pass(entries, touched, events[..]) == LearnAll(cfg, veto, old(entries), old(events[..]), now)
    {
      touched := [];
      ghost var start, lines := entries, events[..];
      for i := 0 to events.Length
        invariant Pass(entries, touched, events[..i]) == LearnAll(cfg, veto, start, lines[..i], now)
        invariant forall j :: i <= j < events.Length ==> events[j] == lines[j]
      {
        hide Learn;
        ghost var p := Pass(entries, touched, events[..i]);
        assert lines[..i + 1][..i] == lines[..i];
        var e := events[i];
        var more, out := Take(veto, touched, e, now, events[..i]);
        touched := more;
        events[i] := out;
        assert events[..i + 1] == p.out + [out];
      }
      assert events[..events.Length] == events[..] && lines[..events.Length] == lines;
    }

    method Take(veto: set<Family>, touched: seq<Key>, e: Event, now: Instant, ghost front: seq<Event>)
      returns (more: seq<Key>, out: Event)
      modifies `entries
      ensures Pass(entries, more, front + [out]) == Learn(cfg, veto, Pass(old(entries), touched, front), e, now)
    {
      hide LearningEligible, KeyOf, EntryFor;
      more, out := touched, e;
      var entry := EntryFor(cfg, entries, e, now);
      if !LearningEligible(cfg, veto, e) || entry.None? {
        return;
      }
      var key := KeyOf(cfg, e).value.0;
      entries := entries[key := Noted(entry.value, e)];
      if entry.value.escalation.Some? && !IsImportant(e) {
        out := e.(judgment := entry.value.escalation.value);
      }
      if key !in touched {
        more := touched + [key];
      }
    }

    /** At most two questions a pass, each at a threshold the entry has not asked at before. */
    method AskAll(veto: set<Family>, t: Teacher, events: array<Event>, touched: seq<Key>)
      requires forall k :: k in touched ==> k in entries
      modifies `entries, `decisions, events
      ensures var r := ConsiderAll(cfg, veto, t, Round(old(entries), old(decisions), old(events[..]), 0), touched);
              entries == r.entries && decisions == r.decisions && events[..] == r.out
    {
      var reviews := 0;
      ghost var start := Round(entries, decisions, events[..], 0);
      for i := 0 to |touched|
        invariant entries.Keys == start.entries.Keys
        invariant Round(entries, decisions, events[..], reviews) == ConsiderAll(cfg, veto, t, start, touched[..i])
      {
        hide Ask, Due, Thresholds;
        assert touched[..i + 1][..i] == touched[..i];
        var p := entries[touched[i]];
        if Due(cfg, p, reviews) {
          var a := Ask(cfg, t, reviews, touched[i], p);
          entries := entries[touched[i] := a.entry];
          Log(a.decision);
          if a.raise.Some? {
            RaiseAll(veto, events, touched[i], p.version, a.raise.value);
          }
          reviews := reviews + 1;
        }
      }
      assert touched[..|touched|] == touched;
    }

    method Log(d: Decision)
      modifies `decisions
      ensures decisions == Logged(old(decisions), d)
    {
      if |decisions| == MAX_DECISIONS {
        decisions := decisions[1..];
      }
      decisions := decisions + [d];
    }

    method RaiseAll(veto: set<Family>, events: array<Event>, key: Key, version: VersionId, j: Judgment)
      modifies events
      ensures events[..] == RaisedAll(cfg, veto, key, version, old(events[..]), j)
    {
      hide Concerned;
      for i := 0 to events.Length
        invariant events[..i] == RaisedAll(cfg, veto, key, version, old(events[..]), j)[..i]
        invariant forall k :: i <= k < events.Length ==> events[k] == old(events[k])
      {
        if Concerned(cfg, veto, key, version, events[i]) && !IsImportant(events[i]) {
          events[i] := events[i].(judgment := j);
        }
      }
    }
  }
}
