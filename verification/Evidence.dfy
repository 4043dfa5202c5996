/** What a dossier says about the lines of its group. */
module Evidence {
  import opened Wrappers
  import opened Clock
  import opened Verdict
  import opened Events
  import opened Dossiers
  import opened Grouper
  import opened Engine
  import opened Batches

  /** A line that nothing may be concluded from for the lines to come. */
  predicate Doubtful(pats: Patterns, e: Event) {
    || e.truncated || e.sensitive || e.parseUncertain || pats.securityShaped(e.text)
    || pats.changed(e.text) || pats.overlong(pats.redacted(e.text))
  }

  function Sample(pats: Patterns, e: Event): string {
    pats.clipped(pats.redacted(e.text))
  }

  /** The different samples of the first lines of a group. */
  function SamplesOf(pats: Patterns, lines: seq<Event>): set<string> {
    set e | e in lines :: Sample(pats, e)
  }

  /** The parts that one more line changes. */
  ghost predicate Gathered(pats: Patterns, d: Dossier, lines: seq<Event>) {
    && d.occurrences == |lines|
    && (d.sensitive <==> exists e :: e in lines && (e.sensitive || pats.changed(e.text)))
    && (d.truncated <==> exists e :: e in lines && e.truncated)
    && (d.securitySignal <==> exists e :: e in lines && pats.securityShaped(e.text))
    && (d.evidenceLimited <==>
          exists e :: e in lines && (e.truncated || e.parseUncertain || pats.overlong(pats.redacted(e.text))))
    && (d.baselineImportant <==> exists e :: e in lines && e.important)
  }

  /** The dossier is about exactly these lines. */
  ghost predicate About(pats: Patterns, d: Dossier, lines: seq<Event>) {
    && Gathered(pats, d, lines)
    && (Unsafe(d) <==> (exists e :: e in lines && Doubtful(pats, e)) || |SamplesOf(pats, lines)| > MAX_SAMPLES)
    && (forall x :: x in d.samples ==> x in SamplesOf(pats, lines))
    && (|SamplesOf(pats, lines)| <= MAX_SAMPLES ==> forall x :: x in SamplesOf(pats, lines) ==> x in d.samples)
    && |d.samples| == (if |SamplesOf(pats, lines)| < MAX_SAMPLES then |SamplesOf(pats, lines)| else MAX_SAMPLES)
    && (forall i, j :: 0 <= i < j < |d.samples| ==> d.samples[i] != d.samples[j])
  }

  ghost predicate Sampled(d: Dossier, all: set<string>) {
    && (set x | x in d.samples) <= all
    && (forall i, j :: 0 <= i < j < |d.samples| ==> d.samples[i] != d.samples[j])
    && (d.samplesLimited ==> |d.samples| == MAX_SAMPLES && |all| > MAX_SAMPLES)
    && (!d.samplesLimited ==> (set x | x in d.samples) == all && |d.samples| == |all| <= MAX_SAMPLES)
  }

  lemma KeptNext(pats: Patterns, d: Dossier, lines: seq<Event>, e: Event)
    requires Gathered(pats, d, lines)
    ensures Gathered(pats, Observed(pats, d, e), lines + [e])
  {
    assert e in lines + [e];
    assert forall x :: x in lines + [e] <==> x in lines || x == e;
  }

  /** The marks of a dossier together say whether any line is doubtful. */
  lemma DoubtsAdd(pats: Patterns, d: Dossier, lines: seq<Event>)
    requires Gathered(pats, d, lines)
    ensures d.sensitive || d.truncated || d.evidenceLimited || d.securitySignal <==> exists e :: e in lines && Doubtful(pats, e)
  {
    if d.sensitive || d.truncated || d.evidenceLimited || d.securitySignal {
      var e :| e in lines && (e.truncated || e.sensitive || e.parseUncertain || pats.securityShaped(e.text)
                              || pats.changed(e.text) || pats.overlong(pats.redacted(e.text)));
      assert Doubtful(pats, e);
    }
  }

  lemma DistinctSize(xs: seq<string>)
    requires forall i, j :: 0 <= i < j < |xs| ==> xs[i] != xs[j]
    ensures |set x | x in xs| == |xs|
  {
    if xs != [] {
      var front, last := xs[..|xs| - 1], xs[|xs| - 1];
      DistinctSize(front);
      assert xs == front + [last];
      assert (set x | x in xs) == (set x | x in front) + {last};
      assert last !in front;
    }
  }

  lemma SampledNext(pats: Patterns, d: Dossier, all: set<string>, e: Event)
    requires Sampled(d, all)
    ensures Sampled(Observed(pats, d, e), all + {Sample(pats, e)})
  {
    var x := Sample(pats, e);
    DistinctSize(d.samples);
    if x in d.samples {
      assert all + {x} == all;
    } else if |d.samples| < MAX_SAMPLES {
      SampleAdded(pats, d, all, e);
    } else {
      SubsetSize((set y | y in d.samples) + {x}, all + {x});
    }
  }

  lemma SampleAdded(pats: Patterns, d: Dossier, all: set<string>, e: Event)
    requires Sampled(d, all) && Sample(pats, e) !in d.samples && |d.samples| < MAX_SAMPLES
    ensures Sampled(Observed(pats, d, e), all + {Sample(pats, e)})
  {
    var x := Sample(pats, e);
    var d' := Observed(pats, d, e);
    assert d'.samples == d.samples + [x] && !d.samplesLimited && !d'.samplesLimited;
    assert (set y | y in d'.samples) == (set y | y in d.samples) + {x};
    assert x !in all;
  }

  lemma SubsetSize(a: set<string>, b: set<string>)
    requires a <= b
    ensures |a| <= |b|
  {
    assert b == a + (b - a);
  }

  // ----- the groups of a batch -----

  ghost predicate Below(indices: seq<nat>, n: nat) {
    forall k :: 0 <= k < |indices| ==> indices[k] < n
  }

  ghost function LinesOf(entries: seq<Entry>, indices: seq<nat>): (lines: seq<Event>)
    requires Below(indices, |entries|)
    ensures |lines| == |indices|
  {
    seq(|indices|, k requires 0 <= k < |indices| => entries[indices[k]].e)
  }

  /** What the table answered line `i`. */
  ghost function SightAt(cfg: Config, s: State, entries: seq<Entry>, now: Instant, i: nat): Sighting
    requires i < |entries|
  {
    Sight(cfg.settings, ScanAll(cfg, s, entries[..i], now).state, entries[i].e, now)
  }

  /** A group holds lines with one ticket, or a single line without, and its dossier is about them. */
  ghost predicate Gathers(cfg: Config, s: State, entries: seq<Entry>, now: Instant, g: Group) {
    && g.indices != [] && Below(g.indices, |entries|)
    && Gathered(cfg.settings.pats, g.d, LinesOf(entries, g.indices))
    && Sampled(g.d, SamplesOf(cfg.settings.pats, LinesOf(entries, g.indices)))
    && (forall k :: 0 <= k < |g.indices| ==> SightAt(cfg, s, entries, now, g.indices[k]).ticket == g.ticket)
    && (g.ticket.None? ==> |g.indices| == 1)
    && g.d.reason == SightAt(cfg, s, entries, now, g.indices[0]).reason
    && g.d.evidenceId == entries[g.indices[0]].e.id
    && g.d.scope == Scope(entries[g.indices[0]].e, true)
  }

  /** No two groups have one ticket. */
  ghost predicate OneEach(sc: Scan) {
    forall n :: 0 <= n < |sc.groups| && sc.groups[n].ticket.Some? ==>
      sc.groups[n].ticket.value in sc.byTicket && sc.byTicket[sc.groups[n].ticket.value] == n
  }

  lemma GathersLonger(cfg: Config, s: State, entries: seq<Entry>, now: Instant, g: Group)
    requires entries != [] && Gathers(cfg, s, entries[..|entries| - 1], now, g)
    ensures Gathers(cfg, s, entries, now, g)
  {
    hide Gathered, Sampled, Sight;
    var front := entries[..|entries| - 1];
    assert LinesOf(front, g.indices) == LinesOf(entries, g.indices);
    forall k | 0 <= k < |g.indices|
      ensures SightAt(cfg, s, entries, now, g.indices[k]) == SightAt(cfg, s, front, now, g.indices[k])
    {
      assert front[..g.indices[k]] == entries[..g.indices[k]];
    }
  }

  lemma SamplesNext(pats: Patterns, lines: seq<Event>, e: Event)
    ensures SamplesOf(pats, lines + [e]) == SamplesOf(pats, lines) + {Sample(pats, e)}
  {
    assert forall x :: x in lines + [e] <==> x in lines || x == e;
    hide Sample;
  }

  lemma JoinedGathers(cfg: Config, s: State, entries: seq<Entry>, now: Instant, g: Group)
    requires entries != []
    requires var last := |entries| - 1;
             && Gathers(cfg, s, entries, now, g) && g.ticket.Some?
             && SightAt(cfg, s, entries, now, last).ticket == g.ticket
    ensures Gathers(cfg, s, entries, now, Joined(cfg, g, entries[|entries| - 1].e, |entries| - 1))
  {
    hide Sight, Gathered, Sampled, SamplesOf, ScanAll;
    var last := |entries| - 1;
    var e := entries[last].e;
    var g' := Joined(cfg, g, e, last);
    var lines := LinesOf(entries, g.indices);
    assert LinesOf(entries, g'.indices) == lines + [e];
    KeptNext(cfg.settings.pats, g.d, lines, e);
    SamplesNext(cfg.settings.pats, lines, e);
    SampledNext(cfg.settings.pats, g.d, SamplesOf(cfg.settings.pats, lines), e);
  }

  lemma NewGathers(cfg: Config, s: State, entries: seq<Entry>, now: Instant)
    requires entries != []
    ensures var last := |entries| - 1;
            var o := SightAt(cfg, s, entries, now, last);
            Gathers(cfg, s, entries, now, NewGroup(cfg, entries[last].e, last, o.ticket, o.reason))
  {
    hide Sight, Gathered, Sampled, SamplesOf, ScanAll, Observed, NewDossier, ModeFor;
    var last := |entries| - 1;
    var e := entries[last].e;
    var pats := cfg.settings.pats;
    var o := SightAt(cfg, s, entries, now, last);
    var fam := if o.ticket.Some? then Some(o.ticket.value.family) else None;
    assert LinesOf(entries, [last]) == [e];
    FirstLine(pats, fam, Scope(e, true), ModeFor(o.reason), o.reason, e);
  }

  lemma FirstLine(pats: Patterns, fam: Option<Family>, scope: Source, mode: CacheMode, reason: Reason, e: Event)
    ensures var d := Observed(pats, NewDossier(fam, scope, mode, reason, e.id), e);
            && Gathered(pats, d, [e]) && Sampled(d, SamplesOf(pats, [e]))
            && d.reason == reason && d.evidenceId == e.id && d.scope == scope
  {
    var d := NewDossier(fam, scope, mode, reason, e.id);
    var none: seq<Event> := [];
    assert none + [e] == [e];
    assert Gathered(pats, d, none) && Sampled(d, SamplesOf(pats, none));
    KeptNext(pats, d, none, e);
    SamplesNext(pats, none, e);
    SampledNext(pats, d, SamplesOf(pats, none), e);
    hide Gathered, Sampled, SamplesOf;
  }

  ghost predicate AllGather(cfg: Config, s: State, entries: seq<Entry>, now: Instant, groups: seq<Group>) {
    forall n :: 0 <= n < |groups| ==> Gathers(cfg, s, entries, now, groups[n])
  }

  lemma ScanOneGathers(cfg: Config, s: State, entries: seq<Entry>, now: Instant)
    requires entries != []
    requires var front := entries[..|entries| - 1];
             var sc := ScanAll(cfg, s, front, now);
             Shaped(sc) && |sc.out| == |front| && OneEach(sc) && AllGather(cfg, s, entries, now, sc.groups)
    ensures var sc := ScanAll(cfg, s, entries, now); OneEach(sc) && AllGather(cfg, s, entries, now, sc.groups)
  {
    hide Sight, Gathers, NewGroup, Joined, GroupShape, FromCache;
    var last := |entries| - 1;
    var sc := ScanAll(cfg, s, entries[..last], now);
    var o := SightAt(cfg, s, entries, now, last);
    SightFacts(cfg.settings, sc.state, entries[last].e, now);
    NewGathers(cfg, s, entries, now);
    NewGroupTicket(cfg, entries[last].e, last, o.ticket, o.reason);
    if o.ticket.Some? && o.ticket.value in sc.byTicket {
      var n := sc.byTicket[o.ticket.value];
      JoinedGathers(cfg, s, entries, now, sc.groups[n]);
      JoinedTicket(cfg, sc.groups[n], entries[last].e, last);
    }
  }

  lemma JoinedTicket(cfg: Config, g: Group, e: Event, i: nat)
    ensures Joined(cfg, g, e, i).ticket == g.ticket
  {
  }

  lemma {:induction false} ScanGathers(cfg: Config, s: State, entries: seq<Entry>, now: Instant)
    ensures var sc := ScanAll(cfg, s, entries, now); OneEach(sc) && AllGather(cfg, s, entries, now, sc.groups)
  {
    if entries != [] {
      var front := entries[..|entries| - 1];
      ScanGathers(cfg, s, front, now);
      ScanShape(cfg, s, front, now);
      var sc := ScanAll(cfg, s, front, now);
      forall n | 0 <= n < |sc.groups| ensures Gathers(cfg, s, entries, now, sc.groups[n]) {
        GathersLonger(cfg, s, entries, now, sc.groups[n]);
      }
      ScanOneGathers(cfg, s, entries, now);
      hide ScanAll, OneEach, AllGather, Shaped;
    }
  }

  lemma KeptIsAbout(pats: Patterns, d: Dossier, lines: seq<Event>)
    requires Gathered(pats, d, lines) && Sampled(d, SamplesOf(pats, lines))
    ensures About(pats, d, lines)
  {
    DistinctSize(d.samples);
    DoubtsAdd(pats, d, lines);
    hide Doubtful, SamplesOf, Gathered;
  }

  /**
   A dossier is about its lines and all of them: it counts them, keeps their different
   samples up to eight, is unsafe exactly when some line is doubtful or there are more
   samples than that, and is sent with the scope, identity and reason of the first line.
   Lines that the table gave one ticket share a dossier; a line without a ticket has its own.
   */
  lemma {:induction false} DossiersAreAboutLines(cfg: Config, s: State, entries: seq<Entry>, now: Instant, n: nat, i: nat, m: nat, k: nat)
    requires n < |ScanAll(cfg, s, entries, now).groups| && Owns(ScanAll(cfg, s, entries, now).groups, n, i)
    requires Owns(ScanAll(cfg, s, entries, now).groups, m, k)
    ensures var g := ScanAll(cfg, s, entries, now).groups[n];
            && Below(g.indices, |entries|) && About(cfg.settings.pats, g.d, LinesOf(entries, g.indices))
            && g.indices != [] && g.d.evidenceId == entries[g.indices[0]].e.id && g.d.scope == Scope(entries[g.indices[0]].e, true)
            && g.d.reason == SightAt(cfg, s, entries, now, g.indices[0]).reason
    ensures i < |entries| && k < |entries|
    ensures SightAt(cfg, s, entries, now, i).ticket.Some? ==>
              (m == n <==> SightAt(cfg, s, entries, now, i).ticket == SightAt(cfg, s, entries, now, k).ticket)
    ensures SightAt(cfg, s, entries, now, i).ticket.None? && m == n ==> i == k
  {
    ScanGathers(cfg, s, entries, now);
    var groups := ScanAll(cfg, s, entries, now).groups;
    assert Gathers(cfg, s, entries, now, groups[n]) && Gathers(cfg, s, entries, now, groups[m]);
    KeptIsAbout(cfg.settings.pats, groups[n].d, LinesOf(entries, groups[n].indices));
    hide ScanAll, AllGather, About, Gathered, Sampled, SightAt;
  }
}
