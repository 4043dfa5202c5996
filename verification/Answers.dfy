/** Which judgment each line of a batch leaves with, told from what the judge answered. */
module Answers {
  import opened Wrappers
  import opened Clock
  import opened Verdict
  import opened Events
  import opened Dossiers
  import opened Grouper
  import opened Engine
  import opened Batches
  import opened Evidence
  import VerdictStore
  import CachedJudge
  import Serving
  import Asked

  /** The opinion as it was given, except that routine becomes uncertain when nothing supports it. */
  predicate Carries(unsafe: bool, given: Opinion, o: Opinion) {
    var unsupported := unsafe || given.importanceConfidence.None? || given.importanceConfidence.value < 0.7;
    if given.importance == Routine && unsupported then o == given.(importance := Uncertain) else o == given
  }

  /** The judgment answers the dossier; without a usable answer it says why there is none. */
  ghost predicate AnswersFor(unsafe: bool, js: Option<seq<Judgment>>, n: nat, j: Judgment)
    requires js.Some? ==> n < |js.value|
  {
    if js.None? then j == Unknown(Unavailable)
    else if !Valid(js.value[n].opinion) then j == Unknown(InvalidJudgment)
    else Carries(unsafe, js.value[n].opinion, j.opinion)
  }

  lemma SettledAnswers(cfg: Config, s: State, g: Group, js: Option<seq<Judgment>>, n: nat, now: Instant)
    requires js.Some? ==> n < |js.value|
    requires g.ticket.Some? ==> IsCurrent(s, g.ticket.value)
    ensures AnswersFor(Unsafe(g.d), js, n, Settled(cfg, s, g, ReplyFor(js, n), now))
    ensures Settled(cfg, s, g, ReplyFor(js, n), now) != Unknown(NoError)
  {
    hide Unsafe, IsZero, IsCurrent, Confident, UnitInterval;
  }

  // ----- what the table holds afterwards -----

  ghost predicate OneTicketEach(groups: seq<Group>) {
    forall m, n :: 0 <= m < n < |groups| && groups[m].ticket.Some? ==> groups[n].ticket != groups[m].ticket
  }

  lemma OthersKeepEntry(cfg: Config, st: Settlement, n: nat, g: Group, reply: Option<Judgment>, inputs: Inputs, t: Ticket)
    requires InRange(g, |st.out|) && g.ticket != Some(t) && IsCurrent(st.state, t)
    ensures var s' := SettleOne(cfg, st, n, g, reply, inputs).state;
            IsCurrent(s', t) && s'.entries[t.family] == st.state.entries[t.family] && s'.review == st.state.review
  {
    if g.ticket.Some? {
      var j := Settled(cfg, st.state, g, reply, inputs.now);
      Serving.PublishedOthers(cfg.settings, st.state, t, g.ticket.value, j, st.out[g.indices[0]].id, inputs.later(n));
    }
    hide Settled, Published, MayPublish, Reuses, Fan;
  }

  lemma {:induction false} EntryKept(cfg: Config, st: Settlement, groups: seq<Group>, js: Option<seq<Judgment>>, inputs: Inputs, t: Ticket)
    requires AllInRange(groups, |st.out|) && IsCurrent(st.state, t)
    requires forall m :: 0 <= m < |groups| ==> groups[m].ticket != Some(t)
    ensures var s' := SettleAll(cfg, st, groups, js, inputs).state;
            IsCurrent(s', t) && s'.entries[t.family] == st.state.entries[t.family] && s'.review == st.state.review
  {
    hide SettleOne, InRange, IsCurrent;
    if groups != [] {
      var n := |groups| - 1;
      EntryKept(cfg, st, groups[..n], js, inputs, t);
      OthersKeepEntry(cfg, SettleAll(cfg, st, groups[..n], js, inputs), n, groups[n], ReplyFor(js, n), inputs, t);
    }
  }

  /** The table holds no verdict for the ticket; unless it is vetoed, it saw the reading of the batch. */
  ghost predicate Waiting(s: State, t: Ticket, now: Instant) {
    IsCurrent(s, t) ==>
      && !Reusable(s.entries[t.family].verdict.opinion)
      && (t.family !in s.review ==> s.entries[t.family].observed == WallOnly(now))
  }

  lemma ConsultWaits(cfg: Settings, s: State, fam: Family, now: Instant)
    requires fam in s.entries && s.entries[fam].ticket.family == fam && Consult(cfg, s, fam, now).cached.None?
    ensures var o := Consult(cfg, s, fam, now);
            o.ticket == Some(s.entries[fam].ticket) && Waiting(o.state, s.entries[fam].ticket, now)
  {
    assert !Reusable(Unknown(NoError).opinion);
    hide CacheValidAt, Before, IsZero, Reusable, WallOnly;
  }

  lemma SightWaits(cfg: Settings, s: State, e: Event, now: Instant, t: Ticket)
    requires Waiting(s, t, now) && t.generation <= s.generation && Inv(cfg, s) && 0 < cfg.capacity
    ensures var o := Sight(cfg, s, e, now);
            && Waiting(o.state, t, now)
            && (o.ticket == Some(t) ==> o.cached.None?)
  {
    match Identify(cfg, e, now) {
      case Unidentified(_) =>
      case Identified(fam) =>
        var s1 := Admitted(cfg, s, fam);
        Serving.AdmittedOwn(cfg, s, fam);
        AdmittedKeepsInv(cfg, s, fam);
        if fam in s.entries {
          Serving.AdmittedSame(cfg, s, fam);
        }
        if s1.entries[fam].ticket == t {
          ConsultOwnWaits(cfg, s1, fam, now);
        } else {
          ConsultOthersWait(cfg, s, s1, fam, now, t);
        }
    }
    hide Admitted, Consult, Identify, Inv, Reusable, Touched;
  }

  lemma ConsultOwnWaits(cfg: Settings, s: State, fam: Family, now: Instant)
    requires fam in s.entries && s.entries[fam].ticket.family == fam && !Reusable(s.entries[fam].verdict.opinion)
    ensures var o := Consult(cfg, s, fam, now);
            o.cached.None? && o.ticket == Some(s.entries[fam].ticket) && Waiting(o.state, s.entries[fam].ticket, now)
  {
    assert !Reusable(Unknown(NoError).opinion);
    hide CacheValidAt, Before, IsZero, Reusable, WallOnly;
  }

  lemma ConsultOthersWait(cfg: Settings, s: State, s1: State, fam: Family, now: Instant, t: Ticket)
    requires fam in s1.entries && s1.entries[fam].ticket != t && s1.review == s.review
    requires Waiting(s, t, now) && Touched(s.entries, s1.entries, fam, s.generation, s.sequence)
    ensures var o := Consult(cfg, s1, fam, now); Waiting(o.state, t, now) && o.ticket != Some(t)
  {
    hide CacheValidAt, Before, IsZero, Reusable, WallOnly;
  }

  /** All tickets of the scan so far wait for the judge. */
  ghost predicate AllWait(cfg: Config, sc: Scan, now: Instant) {
    && Inv(cfg.settings, sc.state)
    && forall n :: 0 <= n < |sc.groups| && sc.groups[n].ticket.Some? ==>
         sc.groups[n].ticket.value.generation <= sc.state.generation
         && Waiting(sc.state, sc.groups[n].ticket.value, now)
  }

  lemma SightTicket(cfg: Settings, s: State, e: Event, now: Instant)
    requires Inv(cfg, s) && 0 < cfg.capacity && Sight(cfg, s, e, now).ticket.Some? && Sight(cfg, s, e, now).cached.None?
    ensures var o := Sight(cfg, s, e, now);
            Inv(cfg, o.state) && o.ticket.value.generation <= o.state.generation && Waiting(o.state, o.ticket.value, now)
  {
    var fam := Identify(cfg, e, now).family;
    var s1 := Admitted(cfg, s, fam);
    Serving.AdmittedOwn(cfg, s, fam);
    Serving.OwnGeneration(cfg, s1, fam);
    ConsultWaits(cfg, s1, fam, now);
    ConsultSameResidents(cfg, s1, fam, now);
    SameResidentsKeepInv(cfg, s1, Consult(cfg, s1, fam, now).state);
    hide Admitted, Consult, Identify, Inv, Reusable, Waiting;
  }

  lemma SightKeeps(cfg: Settings, s: State, e: Event, now: Instant)
    requires Inv(cfg, s) && 0 < cfg.capacity
    ensures var s' := Sight(cfg, s, e, now).state; Inv(cfg, s') && s.generation <= s'.generation
  {
    var op := DoObserve(e, now);
    var t: Ticket :| true;
    DoKeeps(cfg, s, op, t);
    hide Inv, Sight;
  }

  /** The tickets stay as they are; one observation adds at most its own. */
  lemma ScanOneTickets(cfg: Config, sc: Scan, entry: Entry, now: Instant, n: nat)
    requires n < |ScanOne(cfg, sc, entry, now).groups|
    ensures var ticket := ScanOne(cfg, sc, entry, now).groups[n].ticket;
            || (n < |sc.groups| && ticket == sc.groups[n].ticket)
            || (!entry.reviewed && ticket == Sight(cfg.settings, sc.state, entry.e, now).ticket
                && (ticket.Some? ==> Sight(cfg.settings, sc.state, entry.e, now).cached.None?))
  {
    var o := Sight(cfg.settings, sc.state, entry.e, now);
    NewGroupTicket(cfg, entry.e, |sc.out|, o.ticket, o.reason);
    if n < |sc.groups| {
      JoinedTicket(cfg, sc.groups[n], entry.e, |sc.out|);
    }
    hide Sight, NewGroup, Joined, FromCache;
  }

  lemma ScanOneWaits(cfg: Config, sc: Scan, entry: Entry, now: Instant)
    requires AllWait(cfg, sc, now) && 0 < cfg.settings.capacity
    ensures AllWait(cfg, ScanOne(cfg, sc, entry, now), now)
  {
    hide Sight, Inv, Waiting, NewGroup, Joined, FromCache;
    var sc' := ScanOne(cfg, sc, entry, now);
    var o := Sight(cfg.settings, sc.state, entry.e, now);
    if entry.reviewed {
      assert sc'.groups == sc.groups && sc'.state == sc.state;
    } else {
      assert sc'.state == o.state;
      SightKeeps(cfg.settings, sc.state, entry.e, now);
      forall n | 0 <= n < |sc'.groups| && sc'.groups[n].ticket.Some?
        ensures sc'.groups[n].ticket.value.generation <= sc'.state.generation
        ensures Waiting(sc'.state, sc'.groups[n].ticket.value, now)
      {
        ScanOneTickets(cfg, sc, entry, now, n);
        hide ScanOne;
        if n < |sc.groups| && sc'.groups[n].ticket == sc.groups[n].ticket {
          SightWaits(cfg.settings, sc.state, entry.e, now, sc.groups[n].ticket.value);
        } else {
          SightTicket(cfg.settings, sc.state, entry.e, now);
        }
      }
    }
  }

  lemma {:induction false} ScanWaits(cfg: Config, s: State, entries: seq<Entry>, now: Instant)
    requires Inv(cfg.settings, s) && 0 < cfg.settings.capacity
    ensures AllWait(cfg, ScanAll(cfg, s, entries, now), now)
  {
    hide ScanOne, Waiting, Inv;
    if entries != [] {
      ScanWaits(cfg, s, entries[..|entries| - 1], now);
      ScanOneWaits(cfg, ScanAll(cfg, s, entries[..|entries| - 1], now), entries[|entries| - 1], now);
    }
  }

  /** The group's own settlement leaves its judgment in the table when it may be reused, and none otherwise. */
  lemma OwnEntry(cfg: Config, st: Settlement, n: nat, g: Group, reply: Option<Judgment>, inputs: Inputs)
    requires InRange(g, |st.out|) && g.ticket.Some? && IsCurrent(st.state, g.ticket.value)
    requires !Reusable(st.state.entries[g.ticket.value.family].verdict.opinion)
    ensures var t := g.ticket.value;
            var s' := SettleOne(cfg, st, n, g, reply, inputs).state;
            var reused := Reuses(cfg, st.state, g, reply, inputs.now, inputs.later(n));
            && IsCurrent(s', t)
            && (Reusable(s'.entries[t.family].verdict.opinion) <==> reused)
            && (reused ==> s'.entries[t.family].verdict == Settled(cfg, st.state, g, reply, inputs.now))
  {
    assert !Reusable(Unknown(NoError).opinion);
    hide Settled, Fan, Reusable, Unsafe, CacheValidAt, Before, IsZero;
  }

  /** After the batch the table holds a verdict for the ticket exactly when the group may reuse its own. */
  lemma {:induction false} FinalEntry(
      cfg: Config, st: Settlement, groups: seq<Group>, js: Option<seq<Judgment>>, inputs: Inputs, n: nat)
    requires AllInRange(groups, |st.out|) && n < |groups| && groups[n].ticket.Some?
    requires forall m :: 0 <= m < |groups| && m != n ==> groups[m].ticket != groups[n].ticket
    requires IsCurrent(st.state, groups[n].ticket.value)
    requires !Reusable(st.state.entries[groups[n].ticket.value.family].verdict.opinion)
    ensures var t := groups[n].ticket.value;
            var s' := SettleAll(cfg, st, groups, js, inputs).state;
            && IsCurrent(s', t)
            && (Reusable(s'.entries[t.family].verdict.opinion) <==> GroupReused(cfg, st, groups, js, inputs, n))
            && (GroupReused(cfg, st, groups, js, inputs, n) ==>
                  s'.entries[t.family].verdict == GroupJudgment(cfg, st, groups, js, inputs, n))
    decreases |groups|
  {
    hide SettleOne, InRange, Reusable, Reuses, Settled;
    var last := |groups| - 1;
    var front := groups[..last];
    var t := groups[n].ticket.value;
    var mid := SettleAll(cfg, st, front, js, inputs);
    if n == last {
      EntryKept(cfg, st, front, js, inputs, t);
      OwnEntry(cfg, mid, n, groups[n], ReplyFor(js, n), inputs);
    } else {
      FinalEntry(cfg, st, front, js, inputs, n);
      assert front[..n] == groups[..n];
      OthersKeepEntry(cfg, mid, last, groups[last], ReplyFor(js, last), inputs, t);
    }
  }

  // ----- the lines of one dossier -----

  /** The table now holds the judgment of the group for its family. */
  ghost predicate Holds(s: State, g: Group, j: Judgment) {
    g.ticket.Some? && IsCurrent(s, g.ticket.value) && Reusable(s.entries[g.ticket.value.family].verdict.opinion)
    && s.entries[g.ticket.value.family].verdict == j
  }

  /** A line leaves as `e`; `j` is the judgment of the first line, which is called `rep`, and `own` was its representative. */
  ghost predicate FollowsFirst(e: Event, held: bool, j: Judgment, rep: string, own: string) {
    && e.reused == held
    && (if held then e.judgment == j && e.representative == rep
        else e.judgment == Unknown(NeedsReview) && e.representative == own)
  }

  lemma FannedFirst(cfg: Config, st: Settlement, groups: seq<Group>, js: Option<seq<Judgment>>, inputs: Inputs, n: nat, i: nat)
    requires AllInRange(groups, |st.out|) && n < |groups| && i < |st.out| && i in groups[n].indices
    requires FannedOut(cfg, st, groups, js, inputs, n, i)
    ensures var e := SettleAll(cfg, st, groups, js, inputs).out[i];
            var first := groups[n].indices[0];
            var j, reused := GroupJudgment(cfg, st, groups, js, inputs, n), GroupReused(cfg, st, groups, js, inputs, n);
            if i == first then e.judgment == j && !e.reused && e.representative == st.out[i].representative
            else FollowsFirst(e, reused, j, st.out[first].id, st.out[i].representative)
  {
    hide SettleAll, Settled, Reuses;
  }

  lemma NotReusedWithoutTicket(cfg: Config, st: Settlement, groups: seq<Group>, js: Option<seq<Judgment>>, inputs: Inputs, n: nat)
    requires AllInRange(groups, |st.out|) && n < |groups|
    requires GroupReused(cfg, st, groups, js, inputs, n)
    ensures groups[n].ticket.Some?
  {
  }

  lemma AnswerSize(cfg: Config, s: State, store: VerdictStore.State, events: seq<Event>, inputs: Inputs)
    ensures var js := Replies(cfg, s, store, events, inputs);
            js.Some? ==> |js.value| == |ScanAll(cfg, s, ReviewAll(cfg, events), inputs.now).groups|
  {
    hide ScanAll, CachedJudge.Judged;
  }

  lemma DossierLines(cfg: Config, sc: Scan, js: Option<seq<Judgment>>, inputs: Inputs, n: nat, i: nat)
    requires Shaped(sc) && AllInRange(sc.groups, |sc.out|) && Disjoint(sc.groups) && OneEach(sc) && AllWait(cfg, sc, inputs.now)
    requires js.Some? ==> |js.value| == |sc.groups|
    requires Owns(sc.groups, n, i) && i < |sc.out|
    requires sc.groups[n].ticket.Some? ==> IsCurrent(sc.state, sc.groups[n].ticket.value)
    ensures var st := Settlement(sc.state, sc.out);
            var g, r := sc.groups[n], SettleAll(cfg, st, sc.groups, js, inputs);
            var first := g.indices[0];
            && first < |sc.out|
            && (i == first ==> AnswersFor(Unsafe(g.d), js, n, r.out[i].judgment) && !r.out[i].reused)
            && (i != first ==>
                  FollowsFirst(r.out[i], Holds(r.state, g, r.out[first].judgment), r.out[first].judgment,
                               sc.out[first].id, sc.out[i].representative))
  {
    hide SettleAll, Disjoint, Unsafe, Settled, Reuses, AnswersFor, FollowsFirst, Waiting, GroupShape, Reusable;
    var st := Settlement(sc.state, sc.out);
    var g := sc.groups[n];
    var first := g.indices[0];
    assert Owns(sc.groups, n, first);
    SettleFansOut(cfg, st, sc.groups, js, inputs, n, i);
    SettleFansOut(cfg, st, sc.groups, js, inputs, n, first);
    FannedFirst(cfg, st, sc.groups, js, inputs, n, i);
    FannedFirst(cfg, st, sc.groups, js, inputs, n, first);
    var mid := SettleAll(cfg, st, sc.groups[..n], js, inputs);
    if g.ticket.Some? {
      SettleCurrent(cfg, st, sc.groups[..n], js, inputs, g.ticket.value);
      OneTicket(sc, n);
      WaitsForJudge(cfg, sc, inputs.now, n);
      FinalEntry(cfg, st, sc.groups, js, inputs, n);
    } else if GroupReused(cfg, st, sc.groups, js, inputs, n) {
      NotReusedWithoutTicket(cfg, st, sc.groups, js, inputs, n);
    }
    SettledAnswers(cfg, mid.state, g, js, n, inputs.now);
  }

  lemma OneTicket(sc: Scan, n: nat)
    requires OneEach(sc) && n < |sc.groups| && sc.groups[n].ticket.Some?
    ensures forall m :: 0 <= m < |sc.groups| && m != n ==> sc.groups[m].ticket != sc.groups[n].ticket
  {
  }

  lemma WaitsForJudge(cfg: Config, sc: Scan, now: Instant, n: nat)
    requires AllWait(cfg, sc, now) && n < |sc.groups| && sc.groups[n].ticket.Some?
    requires IsCurrent(sc.state, sc.groups[n].ticket.value)
    ensures !Reusable(sc.state.entries[sc.groups[n].ticket.value.family].verdict.opinion)
  {
  }

  /**
   The lines of one dossier.  The first line of a group whose ticket is current, or that
   has none, carries the opinion that was answered for its own dossier: unchanged, unless
   it is a routine one that the evidence or its confidence does not support; an answer that
   is missing or invalid gives the judgment that says so.  Every other line of the group
   carries the very same judgment, and is called reused, exactly when the table now holds
   that judgment for the family; otherwise it asks for review.
   */
  lemma {:induction false} LinesGetTheAnswer(
      cfg: Config, s: State, store: VerdictStore.State, events: seq<Event>, inputs: Inputs, n: nat, i: nat)
    requires Inv(cfg.settings, s) && 0 < cfg.settings.capacity && i < |events|
    requires var sc := ScanAll(cfg, s, ReviewAll(cfg, events), inputs.now);
             Owns(sc.groups, n, i) && (sc.groups[n].ticket.Some? ==> IsCurrent(sc.state, sc.groups[n].ticket.value))
    ensures var sc := ScanAll(cfg, s, ReviewAll(cfg, events), inputs.now);
            var js := Replies(cfg, s, store, events, inputs);
            var g, r := sc.groups[n], Batched(cfg, s, store, events, inputs);
            var first := g.indices[0];
            && |r.out| == |events| && first < |events| == |ReviewAll(cfg, events)| && (js.Some? ==> |js.value| == |sc.groups|)
            && (i == first ==> AnswersFor(Unsafe(g.d), js, n, r.out[i].judgment) && !r.out[i].reused)
            && (i != first ==>
                  FollowsFirst(r.out[i], Holds(r.state, g, r.out[first].judgment), r.out[first].judgment,
                               ReviewAll(cfg, events)[first].e.id, ReviewAll(cfg, events)[i].e.representative))
  {
    hide Batched, SettleAll, ScanAll, ReviewAll, Replies, Disjoint, OneEach, AllWait, AllGather, Shaped, Holds, FollowsFirst,
         AnswersFor, Unsafe, IsCurrent, Inv, GroupShape, Served, FromCache;
    var entries := ReviewAll(cfg, events);
    var sc := ScanAll(cfg, s, entries, inputs.now);
    ScanShape(cfg, s, entries, inputs.now);
    ScanDisjoint(cfg, s, entries, inputs.now);
    ScanGathers(cfg, s, entries, inputs.now);
    ScanWaits(cfg, s, entries, inputs.now);
    BatchedIsFinal(cfg, s, store, events, inputs);
    AnswerSize(cfg, s, store, events, inputs);
    DossierLines(cfg, sc, Replies(cfg, s, store, events, inputs), inputs, n, i);
    FirstIsOwned(sc.groups, n);
    ScanPlaces(cfg, s, entries, sc.groups[n].indices[0], inputs.now);
    assert Owned(sc.groups, i);
    ScanPlaces(cfg, s, entries, i, inputs.now);
  }

  lemma FirstIsOwned(groups: seq<Group>, n: nat)
    requires n < |groups| && groups[n].indices != []
    ensures Owned(groups, groups[n].indices[0])
  {
    assert Owns(groups, n, groups[n].indices[0]);
  }

  /** What is noted on every line of a dossier. */
  ghost predicate Notes(cfg: Config, entries: seq<Entry>, g: Group, cancelled: bool, e: Event)
    requires Below(g.indices, |entries|)
  {
    var samples := SamplesOf(cfg.settings.pats, LinesOf(entries, g.indices));
    && e.assessment.Some?
    && var a := e.assessment.value;
       && a.dispatched == !cancelled
       && a.family == (if g.ticket.Some? then Some(g.ticket.value.family) else None)
       && a.windowOccurrences == |g.indices|
       && a.sampleCount == (if |samples| < MAX_SAMPLES then |samples| else MAX_SAMPLES)
       && (a.samplesLimited <==> |samples| > MAX_SAMPLES)
  }

  lemma SampledCounts(d: Dossier, all: set<string>)
    requires Sampled(d, all)
    ensures |d.samples| == (if |all| < MAX_SAMPLES then |all| else MAX_SAMPLES)
    ensures d.samplesLimited <==> |all| > MAX_SAMPLES
  {
  }

  /**
   Every line of a dossier tells how many lines and different samples its judgment rests on.
   The lines of a group whose ticket was evicted within the batch are given no judgment:
   the first says that it is stale and the others ask for review.
   */
  lemma {:induction false} LinesTellTheirEvidence(
      cfg: Config, s: State, store: VerdictStore.State, events: seq<Event>, inputs: Inputs, n: nat, i: nat)
    requires i < |events| && Owns(ScanAll(cfg, s, ReviewAll(cfg, events), inputs.now).groups, n, i)
    ensures var entries := ReviewAll(cfg, events);
            var sc := ScanAll(cfg, s, entries, inputs.now);
            var g, out := sc.groups[n], Batched(cfg, s, store, events, inputs).out;
            && |out| == |events| && Below(g.indices, |entries|) && Notes(cfg, entries, g, inputs.cancelled, out[i])
            && (g.ticket.Some? && !IsCurrent(sc.state, g.ticket.value) ==>
                  !out[i].reused && out[i].judgment == Unknown(if i == g.indices[0] then StaleGeneration else NeedsReview))
  {
    hide Batched, SettleAll, ScanAll, ReviewAll, Replies, Disjoint, OneEach, Shaped, IsCurrent, Unsafe, Served, FromCache,
         Sampled, Gathered, SamplesOf, Settled, Reuses, SightAt;
    var entries := ReviewAll(cfg, events);
    var sc := ScanAll(cfg, s, entries, inputs.now);
    var st := Settlement(sc.state, sc.out);
    var js := Replies(cfg, s, store, events, inputs);
    ScanShape(cfg, s, entries, inputs.now);
    ScanDisjoint(cfg, s, entries, inputs.now);
    ScanGathers(cfg, s, entries, inputs.now);
    BatchedIsFinal(cfg, s, store, events, inputs);
    var g := sc.groups[n];
    assert Gathers(cfg, s, entries, inputs.now, g);
    SampledCounts(g.d, SamplesOf(cfg.settings.pats, LinesOf(entries, g.indices)));
    KeptCounts(cfg.settings.pats, g.d, LinesOf(entries, g.indices));
    SettleFansOut(cfg, st, sc.groups, js, inputs, n, i);
    if g.ticket.Some? && !IsCurrent(sc.state, g.ticket.value) {
      SettleCurrent(cfg, st, sc.groups[..n], js, inputs, g.ticket.value);
      StaleGroup(cfg, st, sc.groups, js, inputs, n);
    }
  }

  lemma KeptCounts(pats: Patterns, d: Dossier, lines: seq<Event>)
    requires Gathered(pats, d, lines)
    ensures d.occurrences == |lines|
  {
  }

  lemma StaleGroup(cfg: Config, st: Settlement, groups: seq<Group>, js: Option<seq<Judgment>>, inputs: Inputs, n: nat)
    requires AllInRange(groups, |st.out|) && n < |groups| && groups[n].ticket.Some?
    requires !IsCurrent(SettleAll(cfg, st, groups[..n], js, inputs).state, groups[n].ticket.value)
    ensures GroupJudgment(cfg, st, groups, js, inputs, n) == Unknown(StaleGeneration)
    ensures !GroupReused(cfg, st, groups, js, inputs, n)
  {
    hide SettleAll, Downgraded, Reusable, Unsafe;
  }

  // ----- when lines must share their judgment -----

  /** The later reading is not behind the batch and inside a window of `ttl` that began with it. */
  predicate Inside(now: Instant, later: Instant, ttl: Duration) {
    && Reading(now) && Reading(later)
    && now.wall <= later.wall < now.wall + ttl && later.mono.value < now.mono.value + ttl
  }

  /** The answer's own bounds, or the window that began with the batch, contain the reading. */
  predicate StillGood(j: Judgment, now: Instant, later: Instant, ttl: Duration) {
    Reading(now) && Reading(later) && now.wall <= later.wall
    && if IsZero(j.expiresAt) then Inside(now, later, ttl) else CacheValidAt(j, later)
  }

  lemma FreshIsValid(j: Judgment, now: Instant, later: Instant, ttl: Duration)
    requires StillGood(j, now, later, ttl)
    ensures CacheValidAt(FromDispatch(j, now, ttl), later)
  {
  }

  lemma MustPublish(cfg: Config, s: State, g: Group, j: Judgment, now: Instant, later: Instant)
    requires g.ticket.Some? && IsCurrent(s, g.ticket.value) && g.ticket.value.family !in s.review
    requires s.entries[g.ticket.value.family].observed == WallOnly(now)
    requires !Unsafe(g.d) && Valid(j.opinion) && Reusable(j.opinion) && StillGood(j, now, later, cfg.settings.ttl)
    ensures Reuses(cfg, s, g, Some(j), now, later)
  {
    FreshIsValid(j, now, later, cfg.settings.ttl);
    ConfidentStays(g.d, j);
    hide CacheValidAt, IsCurrent, Unsafe, Valid, Confident, FromDispatch, StillGood;
    FromDispatchOpinion(j, now, cfg.settings.ttl);
    assert !Before(WallOnly(later), WallOnly(now)) by { NotBehind(j, now, later, cfg.settings.ttl); }
    hide Before, WallOnly, Reusable;
  }

  lemma NotBehind(j: Judgment, now: Instant, later: Instant, ttl: Duration)
    requires StillGood(j, now, later, ttl)
    ensures !Before(WallOnly(later), WallOnly(now))
  {
  }

  lemma FromDispatchOpinion(j: Judgment, now: Instant, ttl: Duration)
    ensures FromDispatch(j, now, ttl).opinion == j.opinion
  {
  }

  lemma ConfidentStays(d: Dossier, j: Judgment)
    requires !Unsafe(d) && Reusable(j.opinion)
    ensures Downgraded(d, j) == j
  {
  }

  /**
   Safe answers are shared.  When the dossier is safe, its ticket current and not vetoed,
   and the answer valid, reusable and still good at the reading of publication, every
   other line of the group leaves with the judgment of the first and the table holds it.
   */
  lemma {:induction false} SafeAnswersAreShared(
      cfg: Config, s: State, store: VerdictStore.State, events: seq<Event>, inputs: Inputs, n: nat, i: nat)
    requires Inv(cfg.settings, s) && 0 < cfg.settings.capacity && i < |events|
    requires var sc := ScanAll(cfg, s, ReviewAll(cfg, events), inputs.now);
             var js := Replies(cfg, s, store, events, inputs);
             && Owns(sc.groups, n, i) && sc.groups[n].ticket.Some? && IsCurrent(sc.state, sc.groups[n].ticket.value)
             && sc.groups[n].ticket.value.family !in sc.state.review && !Unsafe(sc.groups[n].d)
             && js.Some? && n < |js.value| && Valid(js.value[n].opinion) && Reusable(js.value[n].opinion)
             && StillGood(js.value[n], inputs.now, inputs.later(n), cfg.settings.ttl)
    ensures var g := ScanAll(cfg, s, ReviewAll(cfg, events), inputs.now).groups[n];
            var r := Batched(cfg, s, store, events, inputs);
            && |r.out| == |events| && g.indices[0] < |events|
            && r.out[i].judgment == r.out[g.indices[0]].judgment && (r.out[i].reused <==> i != g.indices[0])
            && Holds(r.state, g, r.out[i].judgment)
            && r.out[i].judgment.opinion == Replies(cfg, s, store, events, inputs).value[n].opinion
  {
    hide Batched, SettleAll, ScanAll, ReviewAll, Replies, Disjoint, OneEach, AllWait, AllGather, Shaped, Holds,
         Unsafe, IsCurrent, Inv, GroupShape, Served, FromCache, Valid, Reusable, StillGood;
    var entries := ReviewAll(cfg, events);
    var sc := ScanAll(cfg, s, entries, inputs.now);
    ScanShape(cfg, s, entries, inputs.now);
    ScanDisjoint(cfg, s, entries, inputs.now);
    ScanGathers(cfg, s, entries, inputs.now);
    ScanWaits(cfg, s, entries, inputs.now);
    BatchedIsFinal(cfg, s, store, events, inputs);
    SharedLine(cfg, sc, Replies(cfg, s, store, events, inputs), inputs, n, i);
  }

  lemma SharedLine(cfg: Config, sc: Scan, js: Option<seq<Judgment>>, inputs: Inputs, n: nat, i: nat)
    requires Shaped(sc) && AllInRange(sc.groups, |sc.out|) && Disjoint(sc.groups) && OneEach(sc) && AllWait(cfg, sc, inputs.now)
    requires Owns(sc.groups, n, i) && i < |sc.out|
    requires sc.groups[n].ticket.Some? && IsCurrent(sc.state, sc.groups[n].ticket.value)
    requires sc.groups[n].ticket.value.family !in sc.state.review && !Unsafe(sc.groups[n].d)
    requires js.Some? && n < |js.value| && Valid(js.value[n].opinion) && Reusable(js.value[n].opinion)
    requires StillGood(js.value[n], inputs.now, inputs.later(n), cfg.settings.ttl)
    ensures var st := Settlement(sc.state, sc.out);
            var g, r := sc.groups[n], SettleAll(cfg, st, sc.groups, js, inputs);
            var first := g.indices[0];
            && first < |sc.out|
            && r.out[i].judgment == r.out[first].judgment && (r.out[i].reused <==> i != first)
            && Holds(r.state, g, r.out[i].judgment)
            && r.out[i].judgment.opinion == js.value[n].opinion
  {
    hide SettleAll, Disjoint, Unsafe, Settled, Reuses, Waiting, GroupShape, Reusable, Valid, StillGood;
    var st := Settlement(sc.state, sc.out);
    var g := sc.groups[n];
    var first := g.indices[0];
    var t := g.ticket.value;
    assert Owns(sc.groups, n, first);
    SettleFansOut(cfg, st, sc.groups, js, inputs, n, i);
    SettleFansOut(cfg, st, sc.groups, js, inputs, n, first);
    FannedFirst(cfg, st, sc.groups, js, inputs, n, i);
    FannedFirst(cfg, st, sc.groups, js, inputs, n, first);
    OneTicket(sc, n);
    WaitsForJudge(cfg, sc, inputs.now, n);
    SawTheReading(cfg, sc, inputs.now, n);
    FinalEntry(cfg, st, sc.groups, js, inputs, n);
    EntryKept(cfg, st, sc.groups[..n], js, inputs, t);
    var mid := SettleAll(cfg, st, sc.groups[..n], js, inputs);
    MustPublish(cfg, mid.state, g, js.value[n], inputs.now, inputs.later(n));
    SharedOpinion(cfg, mid.state, g, js.value[n], inputs.now);
  }

  lemma SharedOpinion(cfg: Config, s: State, g: Group, j: Judgment, now: Instant)
    requires g.ticket.Some? && IsCurrent(s, g.ticket.value) && !Unsafe(g.d) && Valid(j.opinion) && Reusable(j.opinion)
    ensures Settled(cfg, s, g, Some(j), now).opinion == j.opinion
  {
    ConfidentStays(g.d, j);
    hide IsCurrent, Unsafe, Valid, Reusable, Downgraded, IsZero;
  }

  lemma SawTheReading(cfg: Config, sc: Scan, now: Instant, n: nat)
    requires AllWait(cfg, sc, now) && n < |sc.groups| && sc.groups[n].ticket.Some?
    requires IsCurrent(sc.state, sc.groups[n].ticket.value) && sc.groups[n].ticket.value.family !in sc.state.review
    ensures sc.state.entries[sc.groups[n].ticket.value.family].observed == WallOnly(now)
  {
  }

  // ----- where the answers come from -----

  /**
   Without a durable cache the answers are the provider's own, one for each dossier in
   order; a cancelled batch, a failing provider or one that answers another number of
   dossiers leaves none.
   */
  lemma {:induction false} AnswersAreTheProviders(cfg: Config, s: State, store: VerdictStore.State, events: seq<Event>, inputs: Inputs)
    requires cfg.cache.None?
    ensures var sc := ScanAll(cfg, s, ReviewAll(cfg, events), inputs.now);
            var os := inputs.provider(SentAll(sc.state, sc.groups));
            var js := Replies(cfg, s, store, events, inputs);
            && (js.Some? <==> !inputs.cancelled && os.Some? && |os.value| == |sc.groups|)
            && (js.Some? ==> |js.value| == |os.value| && forall n :: 0 <= n < |os.value| ==> js.value[n] == Unbounded(os.value[n]))
  {
    hide ScanAll;
  }

  /** The group's ticket was evicted by a later line of the batch. */
  predicate Evicted(s: State, g: Group) {
    g.ticket.Some? && !IsCurrent(s, g.ticket.value)
  }

  /**
   Audits reach the provider.  A dossier whose first line was told to review, to audit, or
   to ask again, or whose ticket was evicted within the batch, is never answered from a
   durable row; the others may be, when their evidence is safe and nothing is rescored.
   Only vetoed and evicted groups keep their answer out of the durable cache.
   */
  lemma {:induction false} AuditsReachTheProvider(
      cfg: Config, s: State, events: seq<Event>, now: Instant, n: nat,
      c: CachedJudge.Config, store: VerdictStore.State, next: Provider, inputs: CachedJudge.Inputs)
    requires n < |ScanAll(cfg, s, ReviewAll(cfg, events), now).groups|
    ensures var entries := ReviewAll(cfg, events);
            var sc := ScanAll(cfg, s, entries, now);
            var g, ds := sc.groups[n], SentAll(sc.state, sc.groups);
            && g.indices != [] && g.indices[0] < |entries|
            && var reason := SightAt(cfg, s, entries, now, g.indices[0]).reason;
               var afresh := reason in {StableAudit, ClockRollback, CacheExpired, ReviewRequired} || Evicted(sc.state, g);
               && (Asked.MayReuse(c, ds[n]) <==> !afresh && !c.rescore && !Unsafe(g.d))
               && (ds[n].mode.CacheBypass? <==> reason == ReviewRequired || Evicted(sc.state, g))
               && ds[n] == g.d.(mode := ds[n].mode)
               && (afresh && CachedJudge.Judged(c, store, ds, next, inputs).judgments.Some? ==>
                     n in CachedJudge.TakeAll(c, store, ds, inputs).indices)
  {
    hide ScanAll, ReviewAll, SightAt, CachedJudge.TakeAll, CachedJudge.Judged, About, Below, IsCurrent, Shaped;
    var entries := ReviewAll(cfg, events);
    var sc := ScanAll(cfg, s, entries, now);
    ScanShape(cfg, s, entries, now);
    ShapeOf(sc, n);
    FirstReason(cfg, s, entries, now, n);
    var ds := SentAll(sc.state, sc.groups);
    if CachedJudge.Judged(c, store, ds, next, inputs).judgments.Some? && !Asked.MayReuse(c, ds[n]) {
      Asked.EachGetsItsOwnAnswer(c, store, ds, next, inputs, n);
    }
  }

  lemma ShapeOf(sc: Scan, n: nat)
    requires Shaped(sc) && n < |sc.groups|
    ensures GroupShape(sc.groups[n], |sc.out|)
  {
  }

  lemma FirstReason(cfg: Config, s: State, entries: seq<Entry>, now: Instant, n: nat)
    requires n < |ScanAll(cfg, s, entries, now).groups|
    ensures var g := ScanAll(cfg, s, entries, now).groups[n];
            g.indices != [] && g.indices[0] < |entries| && g.d.reason == SightAt(cfg, s, entries, now, g.indices[0]).reason
  {
    hide ScanAll, SightAt, Gathered, Sampled;
    ScanGathers(cfg, s, entries, now);
    assert Gathers(cfg, s, entries, now, ScanAll(cfg, s, entries, now).groups[n]);
  }

  lemma ReusedIsValid(cfg: Config, s: State, g: Group, reply: Option<Judgment>, now: Instant, later: Instant)
    requires Reuses(cfg, s, g, reply, now, later)
    ensures CacheValidAt(Settled(cfg, s, g, reply, now), later) && !Unsafe(g.d)
  {
    hide CacheValidAt, Unsafe, Reusable, Settled, IsCurrent;
  }

  /** Provider latency uses up the window: what a line reuses was still valid when it was published, and is safe to share. */
  lemma {:induction false} NothingStaleIsShared(
      cfg: Config, s: State, store: VerdictStore.State, events: seq<Event>, inputs: Inputs, n: nat, i: nat)
    requires i < |events| && Owns(ScanAll(cfg, s, ReviewAll(cfg, events), inputs.now).groups, n, i)
    ensures var g := ScanAll(cfg, s, ReviewAll(cfg, events), inputs.now).groups[n];
            var out := Batched(cfg, s, store, events, inputs).out;
            && |out| == |events|
            && (out[i].reused ==> CacheValidAt(out[i].judgment, inputs.later(n)) && !Unsafe(g.d) && g.ticket.Some?)
  {
    hide Batched, SettleAll, ScanAll, ReviewAll, Replies, Disjoint, Shaped, IsCurrent, Unsafe, Settled, Reuses, CacheValidAt;
    var entries := ReviewAll(cfg, events);
    var sc := ScanAll(cfg, s, entries, inputs.now);
    var st := Settlement(sc.state, sc.out);
    var js := Replies(cfg, s, store, events, inputs);
    ScanShape(cfg, s, entries, inputs.now);
    ScanDisjoint(cfg, s, entries, inputs.now);
    BatchedIsFinal(cfg, s, store, events, inputs);
    SettleFansOut(cfg, st, sc.groups, js, inputs, n, i);
    if GroupReused(cfg, st, sc.groups, js, inputs, n) {
      ReusedIsValid(cfg, SettleAll(cfg, st, sc.groups[..n], js, inputs).state, sc.groups[n], ReplyFor(js, n), inputs.now, inputs.later(n));
      NotReusedWithoutTicket(cfg, st, sc.groups, js, inputs, n);
    }
  }

  /** Without a provider a line is important when the local rules say so, and uncertain otherwise: never routine, never reusable. */
  lemma OfflineIsCautious(e: Event)
    ensures var o := OfflineJudgment(e).opinion;
            && (o.importance == Important <==> e.important) && (o.importance == Uncertain <==> !e.important)
            && (o.severity == Degraded <==> e.important) && (o.severity == Info <==> !e.important)
            && !Reusable(o) && OfflineJudgment(e) == Unbounded(o)
  {
  }
}
