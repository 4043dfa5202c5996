/** What the second lane must do: whom it hears, when it asks, and what an answer changes. */
module Teaching {
  import opened Wrappers
  import opened Clock
  import opened Verdict
  import opened Events
  import opened Learning

  // ----- the answers of a teacher -----

  /** The confidence is given and lies between `least` and one. */
  ghost predicate Between(least: real, c: Option<real>) {
    exists x: real :: c == Some(x) && least <= x && x <= 1.0
  }

  const NAMED_CAUSES: set<Explanation> := {
    AuthenticationFailures, PrivilegedAction, CredentialMaterial, Scanning, UpstreamFailure, ResourceExhaustion}
  const EXPLANATIONS: set<Explanation> := NAMED_CAUSES + {NoChange, FreeText, PatternBurst, InsufficientEvidence}
  const SEVERITIES: set<Severity> := {Noise, Info, Degraded, Impact, Outage, UnknownSeverity}
  const CATEGORIES: set<Category> := {
    Deploy, Capacity, Dependency, Security, Fraud, Data, Category.Config, Transient, RoutineCategory, UnknownCategory}

  /** The answer follows the schema. */
  ghost predicate WellFormed(r: Lesson) {
    && Between(0.0, r.confidence) && r.fieldsOk && r.importance in {Important, Routine, Uncertain}
    && r.severity in SEVERITIES && r.category in CATEGORIES && r.explanation in EXPLANATIONS
  }

  lemma ValidIsWellFormed(r: Lesson)
    ensures ValidLesson(r) <==> WellFormed(r)
  {
  }

  /** The answer names a cause, a severity and a kind that justify calling a person. */
  ghost predicate CallsForAttention(r: Lesson) {
    && r.importance == Important && Between(0.75, r.confidence) && r.fieldsOk
    && r.severity in {Info, Degraded, Impact, Outage}
    && r.category in CATEGORIES - {RoutineCategory, UnknownCategory}
    && r.explanation in NAMED_CAUSES
  }

  /** The judgment that an answer raises lines to. */
  function Lifted(r: Lesson): Judgment {
    Unbounded(Opinion(Important, r.severity, r.category, r.confidence, r.confidence, r.confidence, NoError))
  }

  /** The answer is well formed, calls for attention and says something new. */
  ghost predicate Lifts(p: Learned, a: Option<Lesson>) {
    a.Some? && CallsForAttention(a.value) && p.evidence.current.opinion.importance != Important
  }

  ghost predicate Understood(a: Option<Lesson>) {
    a.Some? && WellFormed(a.value)
  }

  /**
   An answer escalates exactly when it says important with enough confidence, names a real
   severity, kind and cause, and the lines are not important already; the judgment then
   says what the answer said, with the answer's confidence three times.
   */
  lemma {:induction false} EscalationExactly(current: Judgment, r: Lesson)
    ensures Escalation(current, r).Some? <==> CallsForAttention(r) && current.opinion.importance != Important
    ensures Escalation(current, r).Some? ==> Escalation(current, r).value == Lifted(r)
  {
  }

  // ----- whom it hears -----

  /** A person, the first lane or the evidence has closed the line to the second lane. */
  predicate ClosedLine(cfg: Config, veto: set<Family>, e: Event) {
    || e.review || !Eligible(cfg.pats, e) || e.judgment.opinion.error == StaleGeneration
    || (e.assessment.Some?
        && (e.assessment.value.reason == ReviewRequired || e.assessment.value.evidenceLimited || e.assessment.value.samplesLimited
            || (e.assessment.value.family.Some? && e.assessment.value.family.value in veto)))
  }

  /** The line belongs to `key` in this version. */
  predicate BelongsTo(cfg: Config, e: Event, key: Key, version: VersionId) {
    KeyOf(cfg, e) == Some((key, version))
  }

  /** The line is heard for an entry of the table. */
  predicate HeardFor(cfg: Config, veto: set<Family>, e: Event, key: Key, version: VersionId) {
    !ClosedLine(cfg, veto, e) && BelongsTo(cfg, e, key, version)
  }

  lemma EligibleIsOpen(cfg: Config, veto: set<Family>, e: Event)
    ensures LearningEligible(cfg, veto, e) <==> !ClosedLine(cfg, veto, e)
  {
    hide Eligible;
  }

  /** Lines are grouped by the family the first lane gave them; under the semantic strategy by the shape of their JSON, within scope and local rules. */
  lemma KeysAre(cfg: Config, e: Event)
    ensures cfg.strategy != Semantic ==>
              (KeyOf(cfg, e).Some? <==> e.assessment.Some? && e.assessment.value.family.Some?)
              && (KeyOf(cfg, e).Some? ==>
                    KeyOf(cfg, e).value.0 == ByFamily(e.assessment.value.family.value)
                    && KeyOf(cfg, e).value.1 == OfFamily(e.assessment.value.family.value.version))
    ensures cfg.strategy == Semantic ==>
              (KeyOf(cfg, e).Some? <==> cfg.shapeOf(e.text).Some?)
              && (KeyOf(cfg, e).Some? ==>
                    KeyOf(cfg, e).value == (ByShape(Scope(e, true), cfg.shapeOf(e.text).value, e.important), OfShape(cfg.shapeOf(e.text).value)))
  {
  }

  /** How many of the lines are heard for the entry. */
  function Heard(cfg: Config, veto: set<Family>, events: seq<Event>, key: Key, version: VersionId): nat {
    if events == [] then 0
    else
      var n := |events| - 1;
      Heard(cfg, veto, events[..n], key, version) + if HeardFor(cfg, veto, events[n], key, version) then 1 else 0
  }

  /** The samples of an entry after more lines: each different text once, the first eight. */
  function SamplesAfter(cfg: Config, veto: set<Family>, start: seq<string>, events: seq<Event>, key: Key, version: VersionId): seq<string> {
    if events == [] then start
    else
      var n := |events| - 1;
      var before := SamplesAfter(cfg, veto, start, events[..n], key, version);
      if HeardFor(cfg, veto, events[n], key, version) && events[n].text !in before && |before| < 8
      then before + [events[n].text] else before
  }

  /** The judgment that the last line heard for the entry had. */
  function LastHeard(cfg: Config, veto: set<Family>, start: Judgment, events: seq<Event>, key: Key, version: VersionId): Judgment {
    if events == [] then start
    else
      var n := |events| - 1;
      if HeardFor(cfg, veto, events[n], key, version) then events[n].judgment
      else LastHeard(cfg, veto, start, events[..n], key, version)
  }

  ghost predicate TakesIn(cfg: Config, veto: set<Family>, before: Learned, after: Learned, events: seq<Event>, key: Key) {
    var v := before.version;
    && after.version == v && after.expires == before.expires && after.escalation == before.escalation && after.next == before.next
    && after.evidence.occurrences == before.evidence.occurrences + Heard(cfg, veto, events, key, v)
    && after.evidence.samples == SamplesAfter(cfg, veto, before.evidence.samples, events, key, v)
    && after.evidence.current == LastHeard(cfg, veto, before.evidence.current, events, key, v)
    && after.evidence.scope == before.evidence.scope && after.evidence.key == before.evidence.key
  }

  /** One line: what happens to an entry that exists, and to the line. */
  lemma OneLine(cfg: Config, veto: set<Family>, p: Pass, e: Event, now: Instant, key: Key)
    requires key in p.entries
    ensures var p' := Learn(cfg, veto, p, e, now);
            var heard := HeardFor(cfg, veto, e, key, p.entries[key].version);
            && key in p'.entries && p'.entries[key] == (if heard then Noted(p.entries[key], e) else p.entries[key])
            && (heard ==> p'.out == p.out + [Raised(e, p.entries[key].escalation)])
            && (heard ==> key in p'.touched)
            && (forall k :: k in p.touched ==> k in p'.touched)
  {
    EligibleIsOpen(cfg, veto, e);
    hide LearningEligible, ClosedLine, Noted, Raised, NewEntry;
  }

  /**
   An entry hears every open line of its family and version, and no other: it counts
   them, keeps their first eight different texts and the last judgment, and a question is
   then open for it.  Each of them that is not important yet leaves with the judgment the
   entry was escalated to, if it was.
   */
  lemma {:induction false} EntryHearsItsLines(
      cfg: Config, veto: set<Family>, entries: map<Key, Learned>, events: seq<Event>, now: Instant, key: Key, i: nat)
    requires key in entries && i < |events|
    ensures var p := LearnAll(cfg, veto, entries, events, now);
            && |p.out| == |events| && key in p.entries && TakesIn(cfg, veto, entries[key], p.entries[key], events, key)
            && (HeardFor(cfg, veto, events[i], key, entries[key].version) ==>
                  key in p.touched
                  && p.out[i] == if entries[key].escalation.Some? && !IsImportant(events[i])
                                 then events[i].(judgment := entries[key].escalation.value) else events[i])
            && (ClosedLine(cfg, veto, events[i]) || KeyOf(cfg, events[i]).None? ==> p.out[i] == events[i])
    decreases |events|
  {
    hide Learn, HeardFor, ClosedLine, KeyOf;
    var n := |events| - 1;
    var front := events[..n];
    var before := LearnAll(cfg, veto, entries, front, now);
    TouchedAreKept(cfg, veto, entries, front, now);
    TouchedAreKept(cfg, veto, entries, events, now);
    if n == 0 {
      assert front == [];
      assert TakesIn(cfg, veto, entries[key], before.entries[key], front, key);
    } else {
      EntryHearsItsLines(cfg, veto, entries, front, now, key, if i < n then i else 0);
    }
    OneLine(cfg, veto, before, events[n], now, key);
    DeafLine(cfg, veto, before, events[n], now);
    if i < n {
      assert front[i] == events[i];
    }
  }

  lemma DeafLine(cfg: Config, veto: set<Family>, p: Pass, e: Event, now: Instant)
    ensures var p' := Learn(cfg, veto, p, e, now);
            && |p'.out| == |p.out| + 1 && p'.out[..|p.out|] == p.out
            && (ClosedLine(cfg, veto, e) || KeyOf(cfg, e).None? ==> p'.out[|p.out|] == e)
  {
    EligibleIsOpen(cfg, veto, e);
    hide LearningEligible, ClosedLine, Noted, NewEntry;
  }

  /** An open line of a family that is not known opens an entry when there is room, and is its first line. */
  lemma {:induction false} NewFamilyIsTakenIn(cfg: Config, veto: set<Family>, p: Pass, e: Event, now: Instant, key: Key, version: VersionId)
    requires key !in p.entries && HeardFor(cfg, veto, e, key, version)
    ensures var p' := Learn(cfg, veto, p, e, now);
            && p'.out == p.out + [e]
            && (key in p'.entries <==> |p.entries| < cfg.capacity)
            && (key in p'.entries ==>
                  && p'.entries[key] == Learned(Evidence(Scope(e, true), key, [e.text], 1, e.judgment), version, Add(now, cfg.ttl), None, 0)
                  && key in p'.touched)
  {
    EligibleIsOpen(cfg, veto, e);
    hide LearningEligible, ClosedLine, KeyOf;
    if |p.entries| < cfg.capacity {
      FirstNoted(cfg, key, version, e, now);
    }
  }

  lemma FirstNoted(cfg: Config, key: Key, version: VersionId, e: Event, now: Instant)
    ensures Noted(NewEntry(cfg, key, version, e, now), e)
         == Learned(Evidence(Scope(e, true), key, [e.text], 1, e.judgment), version, Add(now, cfg.ttl), None, 0)
  {
    assert [] + [e.text] == [e.text];
  }

  /** A pass forgets exactly the entries that expired, or all when the clock is behind the pass before. */
  lemma {:induction false} ForgottenExactly(s: State, now: Instant, key: Key)
    requires key in s.entries
    ensures var behind := s.observed.Some? && Before(now, s.observed.value);
            && (key in Purged(s, now).entries <==> !behind && Before(now, s.entries[key].expires))
            && (key in Purged(s, now).entries ==> Purged(s, now).entries[key] == s.entries[key])
            && Purged(s, now).decisions == s.decisions && Purged(s, now).observed == Some(now)
  {
    hide Before;
  }

  // ----- when it asks -----

  /** How many lines an entry must have heard for its next question: the configured number, then 32, 256 and 2048. */
  function Needed(cfg: Config, asked: nat): Option<nat> {
    if asked == 0 then Some(cfg.minSamples)
    else if asked == 1 then Some(32)
    else if asked == 2 then Some(256)
    else if asked == 3 then Some(2048)
    else None
  }

  predicate MustAsk(cfg: Config, p: Learned, questions: nat) {
    questions < 2 && Needed(cfg, p.next).Some? && p.evidence.occurrences >= Needed(cfg, p.next).value
  }

  lemma DueIsMust(cfg: Config, p: Learned, questions: nat)
    ensures Due(cfg, p, questions) <==> MustAsk(cfg, p, questions)
  {
  }

  /** The line is one of the family, open and not important yet. */
  predicate MayRise(cfg: Config, veto: set<Family>, e: Event, key: Key, version: VersionId) {
    && e.assessment.Some? && e.assessment.value.family.Some?
    && ByFamily(e.assessment.value.family.value) == key && OfFamily(e.assessment.value.family.value.version) == version
    && !ClosedLine(cfg, veto, e) && e.judgment.opinion.importance != Important
  }

  /** The log after one more decision: the oldest of a thousand is dropped. */
  function LogAfter(ds: seq<Decision>, d: Decision): seq<Decision> {
    if |ds| == 1000 then ds[1..] + [d] else ds + [d]
  }

  /**
   A question is asked exactly when the entry has heard enough lines for its next one and
   fewer than two were asked in the pass.  It is counted and logged with what it led to.
   Only an escalating answer changes anything else: the entry is escalated, and every open
   line of the family in the batch that is not important yet leaves with that judgment.
   */
  lemma {:induction false} QuestionsAre(cfg: Config, veto: set<Family>, t: Teacher, r: Round, key: Key, i: nat)
    requires key in r.entries && cfg.strategy != Semantic && i < |r.out|
    ensures var p := r.entries[key];
            var r' := Considered(cfg, veto, t, r, key);
            var a := t.review(r.reviews, p.evidence);
            && |r'.out| == |r.out|
            && (!MustAsk(cfg, p, r.reviews) ==> r' == r)
            && (MustAsk(cfg, p, r.reviews) ==>
                  && r'.reviews == r.reviews + 1
                  && r'.entries == r.entries[key := p.(next := p.next + 1,
                                                       escalation := if Lifts(p, a) then Some(Lifted(a.value)) else p.escalation)]
                  && r'.decisions == LogAfter(r.decisions, Decision(
                       key, p.version, p.evidence.occurrences,
                       if Lifts(p, a) then Escalated else if Understood(a) then FieldsNeedReview else Rejected,
                       None, if Understood(a) then a else None))
                  && r'.out[i] == if Lifts(p, a) && MayRise(cfg, veto, r.out[i], key, p.version)
                                  then r.out[i].(judgment := Lifted(a.value)) else r.out[i])
  {
    var p := r.entries[key];
    DueIsMust(cfg, p, r.reviews);
    EligibleIsOpen(cfg, veto, r.out[i]);
    hide Due, MustAsk, ValidLesson, WellFormed, CallsForAttention, LearningEligible, ClosedLine, Escalation, Lifted;
    if t.review(r.reviews, p.evidence).Some? {
      ValidIsWellFormed(t.review(r.reviews, p.evidence).value);
      EscalationExactly(p.evidence.current, t.review(r.reviews, p.evidence).value);
    }
    AskedAnswer(cfg, t, r.reviews, key, p);
    hide Ask;
  }

  lemma AskedAnswer(cfg: Config, t: Teacher, n: nat, key: Key, p: Learned)
    requires cfg.strategy != Semantic
    ensures var a := t.review(n, p.evidence);
            var good := a.Some? && ValidLesson(a.value);
            var j := if good then Escalation(p.evidence.current, a.value) else None;
            Ask(cfg, t, n, key, p) == Asked(
              p.(next := p.next + 1, escalation := if j.Some? then j else p.escalation),
              Decision(key, p.version, p.evidence.occurrences,
                       if j.Some? then Escalated else if good then FieldsNeedReview else Rejected, None, if good then a else None),
              j)
  {
    hide ValidLesson, Escalation;
  }

  /** Under the semantic strategy an answer is only logged: as passed exactly when it is sure enough and holds for all samples. */
  lemma {:induction false} ProposalsAreOnlyLogged(cfg: Config, veto: set<Family>, t: Teacher, r: Round, key: Key)
    requires key in r.entries && cfg.strategy == Semantic && MustAsk(cfg, r.entries[key], r.reviews)
    ensures var p := r.entries[key];
            var r' := Considered(cfg, veto, t, r, key);
            var a := t.propose(r.reviews, p.evidence);
            var passed := a.Some? && (exists x: real :: a.value.confidence == Some(x) && x >= cfg.confidence)
                          && cfg.replays(a.value, p.evidence.samples);
            && r'.out == r.out && r'.reviews == r.reviews + 1
            && r'.entries == r.entries[key := p.(next := p.next + 1)]
            && r'.decisions == LogAfter(r.decisions, Decision(
                 key, p.version, p.evidence.occurrences, if passed then ReplayPassed else Rejected, if passed then a else None, None))
  {
    DueIsMust(cfg, r.entries[key], r.reviews);
    hide Due, MustAsk;
  }

  /**
   A saved escalation is applied for as long as it lives: in a whole pass, every open line
   of its family and version that is not important yet leaves with that very judgment,
   whatever is asked in the pass; a closed line leaves as it came.
   */
  lemma {:induction false} SavedEscalationsApply(
      cfg: Config, veto: set<Family>, t: Teacher, s: State, events: seq<Event>, now: Instant, key: Key, i: nat)
    requires Upgrades(cfg, s.entries) && key in Purged(s, now).entries && i < |events|
    ensures var r, p := Teach(cfg, veto, t, s, events, now), Purged(s, now).entries[key];
            && |r.out| == |events|
            && (ClosedLine(cfg, veto, events[i]) ==> r.out[i] == events[i])
            && (p.escalation.Some? && HeardFor(cfg, veto, events[i], key, p.version) && !IsImportant(events[i]) ==>
                  r.out[i] == events[i].(judgment := p.escalation.value))
            && (IsImportant(events[i]) ==> r.out[i] == events[i])
  {
    hide LearnAll, ConsiderAll, HeardFor, ClosedLine, LearningEligible, TakesIn;
    var s1 := Purged(s, now);
    assert Upgrades(cfg, s1.entries);
    var p := LearnAll(cfg, veto, s1.entries, events, now);
    EntryHearsItsLines(cfg, veto, s1.entries, events, now, key, i);
    LearnOnlyRaises(cfg, veto, s1.entries, events, now);
    TouchedAreKept(cfg, veto, s1.entries, events, now);
    var r := Round(p.entries, s.decisions, p.out, 0);
    RoundsOnlyRaise(cfg, veto, t, r, p.touched);
    EligibleIsOpen(cfg, veto, events[i]);
    assert OnlyRaised(cfg, veto, events[i], p.out[i]);
    assert OnlyRaised(cfg, veto, p.out[i], ConsiderAll(cfg, veto, t, r, p.touched).out[i]);
  }
}
