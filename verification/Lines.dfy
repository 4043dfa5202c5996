/** How the lines leave a batch that no dossier of it is about: marked by a person, served from the table, or judged offline. */
module Lines {
  import opened Wrappers
  import opened Clock
  import opened Verdict
  import opened Events
  import opened Grouper
  import opened Engine
  import Answers
  import Batches
  import Evidence
  import Lifetime
  import Serving
  import VerdictStore

  /** What a person made of the line, and whether they marked it. */
  function Looked(cfg: Config, e: Event): (Event, bool) {
    if cfg.human.Some? then cfg.human.value(e) else (e, false)
  }

  lemma {:induction false} EntryIsLooked(cfg: Config, events: seq<Event>, i: nat)
    requires i < |events|
    ensures var entry := ReviewAll(cfg, events)[i]; (entry.e, entry.reviewed) == Looked(cfg, events[i])
    decreases |events|
  {
    if i < |events| - 1 {
      EntryIsLooked(cfg, events[..|events| - 1], i);
    }
  }

  lemma ServedOne(cfg: Config, sc: Scan, entry: Entry, now: Instant)
    requires !entry.reviewed && Sight(cfg.settings, sc.state, entry.e, now).cached.Some?
    ensures var o := Sight(cfg.settings, sc.state, entry.e, now);
            && o.ticket.Some?
            && ScanOne(cfg, sc, entry, now).out == sc.out + [FromCache(entry.e, o.ticket.value.family, o.cached.value)]
  {
    hide Sight, FromCache;
    SightFacts(cfg.settings, sc.state, entry.e, now);
  }

  lemma {:induction false} ScanServes(cfg: Config, s: State, entries: seq<Entry>, now: Instant, i: nat)
    requires i < |entries| && !entries[i].reviewed && Evidence.SightAt(cfg, s, entries, now, i).cached.Some?
    ensures var sc, o := ScanAll(cfg, s, entries, now), Evidence.SightAt(cfg, s, entries, now, i);
            && |sc.out| == |entries| && o.ticket.Some?
            && sc.out[i] == FromCache(entries[i].e, o.ticket.value.family, o.cached.value)
    decreases |entries|
  {
    hide Sight, FromCache, ScanOne, Shaped;
    var last := |entries| - 1;
    var front := entries[..last];
    ScanShape(cfg, s, front, now);
    ScanShape(cfg, s, entries, now);
    assert ScanAll(cfg, s, entries, now) == ScanOne(cfg, ScanAll(cfg, s, front, now), entries[last], now);
    if i == last {
      ServedOne(cfg, ScanAll(cfg, s, front, now), entries[last], now);
    } else {
      assert front[..i] == entries[..i] && front[i] == entries[i];
      ScanServes(cfg, s, front, now, i);
      Batches.ScanOneOut(cfg, ScanAll(cfg, s, front, now), entries[last], now);
      assert ScanAll(cfg, s, entries, now).out[..last][i] == ScanAll(cfg, s, front, now).out[i];
    }
  }

  /**
   A line that a person marked leaves as they left it.  A line that the table serves leaves
   with exactly that judgment, as reused, assessed as one cached line of its own family that
   nobody was asked about.  Nothing else of either changes.
   */
  lemma {:induction false} LinesOutsideDossiers(
      cfg: Config, s: State, store: VerdictStore.State, events: seq<Event>, inputs: Inputs, i: nat)
    requires Inv(cfg.settings, s) && 0 < cfg.settings.capacity && i < |events|
    ensures var out := Batched(cfg, s, store, events, inputs).out;
            var (e, marked) := Looked(cfg, events[i]);
            var o := Evidence.SightAt(cfg, s, ReviewAll(cfg, events), inputs.now, i);
            && |out| == |events|
            && (marked ==> out[i] == e)
            && (!marked && o.cached.Some? ==>
                  && Identify(cfg.settings, e, inputs.now).Identified?
                  && out[i] == e.(judgment := o.cached.value, reused := true,
                                  assessment := Some(Assessment(false, Some(Identify(cfg.settings, e, inputs.now).family),
                                                                1, 0, false, false, Cached))))
  {
    hide ScanAll, Batched, ReviewAll, Sight, Batches.Disjoint, Batches.Occurrences, Batches.Uncached, Batches.LeavesAs;
    hide Batches.Owned, Batches.Served, Looked;
    var entries := ReviewAll(cfg, events);
    EntryIsLooked(cfg, events, i);
    Batches.BatchAccountsFor(cfg, s, store, events, inputs, i);
    MarkedLeaves(entries[i], Batches.Served(cfg, s, entries, i, inputs.now), ScanAll(cfg, s, entries, inputs.now).groups,
                 i, Batched(cfg, s, store, events, inputs).out[i]);
    if !entries[i].reviewed && Evidence.SightAt(cfg, s, entries, inputs.now, i).cached.Some? {
      ScanServes(cfg, s, entries, inputs.now, i);
      Answers.ScanWaits(cfg, s, entries[..i], inputs.now);
      OwnFamily(cfg.settings, ScanAll(cfg, s, entries[..i], inputs.now).state, entries[i].e, inputs.now);
      assert Batches.Served(cfg, s, entries, i, inputs.now).Some? by { ServedIs(cfg, s, entries, i, inputs.now); }
      Lifetime.UntouchedLine(Lifetime.World(cfg, 0, s, store, {}), events, inputs, i);
    }
  }

  lemma MarkedLeaves(entry: Entry, served: Option<Judgment>, groups: seq<Group>, i: nat, e: Event)
    requires Batches.LeavesAs(entry, served, groups, i, e)
    ensures entry.reviewed ==> e == entry.e
    ensures served.Some? ==> !Batches.Owned(groups, i)
  {
  }

  lemma ServedIs(cfg: Config, s: State, entries: seq<Entry>, i: nat, now: Instant)
    requires i < |entries| && !entries[i].reviewed
    ensures Batches.Served(cfg, s, entries, i, now) == Evidence.SightAt(cfg, s, entries, now, i).cached
  {
  }

  lemma OwnFamily(cfg: Settings, s: State, e: Event, now: Instant)
    requires Inv(cfg, s) && 0 < cfg.capacity && Sight(cfg, s, e, now).cached.Some?
    ensures var o, id := Sight(cfg, s, e, now), Identify(cfg, e, now);
            id.Identified? && o.ticket.Some? && o.ticket.value.family == id.family
  {
    hide Admitted, Consult, Identify, Inv;
    match Identify(cfg, e, now) {
      case Unidentified(_) =>
      case Identified(fam) =>
        Serving.AdmittedOwn(cfg, s, fam);
        Serving.OwnTicket(cfg, Admitted(cfg, s, fam), fam, now);
    }
  }
}
