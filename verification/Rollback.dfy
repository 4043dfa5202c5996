/**
 The wall-clock high-water mark over whole runs of batches.

 The table's mark survives every batch of its process, so a verdict that a set-back
 clock would make look young is neither served nor read from its row.
 */
module Rollback {
  import opened Wrappers
  import opened Clock
  import opened Verdict
  import opened Events
  import opened Grouper
  import opened Engine
  import opened Batches
  import opened Lifetime
  import VerdictStore
  import CachedJudge

  /** The mark has no monotonic part, and it stands at the wall reading or above if there is one. */
  ghost predicate Keeps(s: State, wall: Option<int>) {
    s.observed.mono.None? && (wall.Some? ==> MarkedAt(s, wall.value))
  }

  lemma DoKeeps(cfg: Settings, s: State, op: Op, wall: Option<int>)
    requires Keeps(s, wall)
    ensures Keeps(Do(cfg, s, op), wall)
  {
    hide Do;
    DoHighWater(cfg, s, op);
  }

  lemma ScanOneKeeps(cfg: Config, sc: Scan, entry: Entry, now: Instant, wall: Option<int>)
    requires Keeps(sc.state, wall)
    ensures Keeps(ScanOne(cfg, sc, entry, now).state, wall)
  {
    DoKeeps(cfg.settings, sc.state, DoObserve(entry.e, now), wall);
    hide Sight, Keeps, FromCache, Joined, NewGroup;
  }

  lemma {:induction false} ScanKeeps(cfg: Config, s: State, entries: seq<Entry>, now: Instant, wall: Option<int>)
    requires Keeps(s, wall)
    ensures Keeps(ScanAll(cfg, s, entries, now).state, wall)
    decreases |entries|
  {
    hide Keeps, ScanOne;
    if entries != [] {
      ScanKeeps(cfg, s, entries[..|entries| - 1], now, wall);
      ScanOneKeeps(cfg, ScanAll(cfg, s, entries[..|entries| - 1], now), entries[|entries| - 1], now, wall);
    }
  }

  lemma SettleOneKeeps(cfg: Config, st: Settlement, n: nat, g: Group, reply: Option<Judgment>, inputs: Inputs, wall: Option<int>)
    requires InRange(g, |st.out|) && Keeps(st.state, wall)
    ensures Keeps(SettleOne(cfg, st, n, g, reply, inputs).state, wall)
  {
    var j := Settled(cfg, st.state, g, reply, inputs.now);
    if g.ticket.Some? {
      DoKeeps(cfg.settings, st.state, DoPublish(g.ticket.value, j, st.out[g.indices[0]].id, inputs.later(n)), wall);
      DoKeeps(cfg.settings, st.state, DoInvalidate(g.ticket.value), wall);
    }
    hide Keeps, Settled, MayPublish, Published, Invalidated, Fan, Reuses;
  }

  lemma {:induction false} SettleKeeps(
      cfg: Config, st: Settlement, groups: seq<Group>, js: Option<seq<Judgment>>, inputs: Inputs, wall: Option<int>)
    requires (forall n :: 0 <= n < |groups| ==> InRange(groups[n], |st.out|)) && Keeps(st.state, wall)
    ensures Keeps(SettleAll(cfg, st, groups, js, inputs).state, wall)
    decreases |groups|
  {
    hide Keeps, SettleOne, InRange;
    if groups != [] {
      var n := |groups| - 1;
      SettleKeeps(cfg, st, groups[..n], js, inputs, wall);
      SettleOneKeeps(cfg, SettleAll(cfg, st, groups[..n], js, inputs), n, groups[n], ReplyFor(js, n), inputs, wall);
    }
  }

  /** What the scan leaves, the rest of the batch keeps. */
  lemma BatchKeeps(cfg: Config, s: State, store: VerdictStore.State, events: seq<Event>, inputs: Inputs, wall: Option<int>)
    requires Keeps(ScanAll(cfg, s, ReviewAll(cfg, events), inputs.now).state, wall)
    ensures Keeps(Batched(cfg, s, store, events, inputs).state, wall)
  {
    hide Keeps, ScanAll, SettleAll, Answered, ReviewAll, GroupShape;
    var entries := ReviewAll(cfg, events);
    var sc := ScanAll(cfg, s, entries, inputs.now);
    ScanShape(cfg, s, entries, inputs.now);
    if sc.groups != [] {
      ShapedInRange(sc);
      SettleKeeps(cfg, Settlement(sc.state, sc.out), sc.groups, Answered(cfg, store, SentAll(sc.state, sc.groups), inputs).judgments,
                  inputs, wall);
    }
  }

  lemma ShapedInRange(sc: Scan)
    requires Shaped(sc)
    ensures forall n :: 0 <= n < |sc.groups| ==> InRange(sc.groups[n], |sc.out|)
  {
    forall n | 0 <= n < |sc.groups| ensures InRange(sc.groups[n], |sc.out|) {
      assert GroupShape(sc.groups[n], |sc.out|);
    }
  }

  ghost predicate OneProcess(steps: seq<Step>) {
    forall i :: 0 <= i < |steps| ==> steps[i].BatchStep?
  }

  lemma {:induction false} ProcessKeeps(w: World, steps: seq<Step>, wall: Option<int>)
    requires OneProcess(steps) && Keeps(w.table, wall)
    ensures Keeps(Run(w, steps).table, wall) && Run(w, steps).cfg == w.cfg
    decreases |steps|
  {
    if steps != [] {
      var w' := Run(w, steps[..|steps| - 1]);
      ProcessKeeps(w, steps[..|steps| - 1], wall);
      hide Keeps, Batched, BatchDispatches, ReviewAll;
      match steps[|steps| - 1] {
        case BatchStep(events, inputs) =>
          ScanKeeps(w'.cfg, w'.table, ReviewAll(w'.cfg, events), inputs.now, wall);
          BatchKeeps(w'.cfg, w'.table, w'.store, events, inputs, wall);
      }
    }
  }

  lemma {:induction false} RunKeepsWallMark(cfg: Config, vetoed: set<Family>, steps: seq<Step>)
    ensures Keeps(Run(Start(cfg, vetoed), steps).table, None)
    decreases |steps|
  {
    if steps != [] {
      var w := Run(Start(cfg, vetoed), steps[..|steps| - 1]);
      RunKeepsWallMark(cfg, vetoed, steps[..|steps| - 1]);
      hide Batched, BatchDispatches, ReviewAll;
      match steps[|steps| - 1] {
        case BatchStep(events, inputs) =>
          ScanKeeps(w.cfg, w.table, ReviewAll(w.cfg, events), inputs.now, None);
          BatchKeeps(w.cfg, w.table, w.store, events, inputs, None);
        case Restart(_, _) =>
      }
    }
  }

  /** Line `i` of the batch is identified, not marked by a person and not vetoed when it is looked at. */
  ghost predicate Observes(w: World, events: seq<Event>, now: Instant, i: nat)
    requires i < |events|
  {
    var entries := ReviewAll(w.cfg, events);
    var o := Sight(w.cfg.settings, ScanAll(w.cfg, w.table, entries[..i], now).state, entries[i].e, now);
    !entries[i].reviewed && o.ticket.Some? && o.reason != ReviewRequired
  }

  lemma LineMarks(cfg: Config, s: State, entries: seq<Entry>, now: Instant, i: nat)
    requires Keeps(s, None) && Reading(now) && i < |entries| && !entries[i].reviewed
    requires var o := Sight(cfg.settings, ScanAll(cfg, s, entries[..i], now).state, entries[i].e, now);
             o.ticket.Some? && o.reason != ReviewRequired
    ensures Keeps(ScanAll(cfg, s, entries[..i + 1], now).state, Some(now.wall))
  {
    hide Sight;
    var front := ScanAll(cfg, s, entries[..i], now);
    ScanKeeps(cfg, s, entries[..i], now, None);
    ObservationMarks(cfg.settings, front.state, entries[i].e, now);
    assert entries[..i + 1][..i] == entries[..i];
    assert ScanAll(cfg, s, entries[..i + 1], now) == ScanOne(cfg, front, entries[i], now);
  }

  /** A batch that observes a line leaves the mark at its wall reading or above. */
  lemma BatchMarks(w: World, events: seq<Event>, inputs: Inputs, i: nat)
    requires Keeps(w.table, None) && Reading(inputs.now) && i < |events| && Observes(w, events, inputs.now, i)
    ensures Keeps(AfterBatch(w, events, inputs).table, Some(inputs.now.wall))
  {
    hide Sight, ReviewAll, Batched, BatchDispatches, ScanAll, Keeps;
    var entries := ReviewAll(w.cfg, events);
    LineMarks(w.cfg, w.table, entries, inputs.now, i);
    LaterLinesKeep(w.cfg, w.table, entries, i + 1, inputs.now, Some(inputs.now.wall));
    BatchKeeps(w.cfg, w.table, w.store, events, inputs, Some(inputs.now.wall));
  }

  lemma {:induction false} LaterLinesKeep(cfg: Config, s: State, entries: seq<Entry>, i: nat, now: Instant, wall: Option<int>)
    requires i <= |entries| && Keeps(ScanAll(cfg, s, entries[..i], now).state, wall)
    ensures Keeps(ScanAll(cfg, s, entries, now).state, wall)
    decreases |entries|
  {
    hide Keeps, ScanOne;
    if i == |entries| {
      assert entries[..i] == entries;
    } else {
      var n := |entries| - 1;
      assert entries[..n][..i] == entries[..i];
      LaterLinesKeep(cfg, s, entries[..n], i, now, wall);
      ScanOneKeeps(cfg, ScanAll(cfg, s, entries[..n], now), entries[n], now, wall);
    }
  }

  /**
   Rollback over runs.  Take any run, a batch in which some line is observed, and any
   further batches of the same process.  A later batch with an earlier wall reading
   serves no line from the table, and each of its dossiers with a family has its
   durable row deleted before the provider is asked and is not answered from it.
   */
  lemma {:induction false} RollbackOverRuns(
      cfg: Config, vetoed: set<Family>, before: seq<Step>, seen: seq<Event>, at: Inputs, i: nat,
      between: seq<Step>, events: seq<Event>, now: Instant,
      judge: CachedJudge.Config, inputs: CachedJudge.Inputs, n: nat)
    requires var w := Run(Start(cfg, vetoed), before);
             Reading(at.now) && i < |seen| && Observes(w, seen, at.now, i)
    requires OneProcess(between) && now.wall < at.now.wall
    requires var w := Run(AfterBatch(Run(Start(cfg, vetoed), before), seen, at), between);
             var sc := ScanAll(w.cfg, w.table, ReviewAll(w.cfg, events), now);
             n < |sc.groups| && sc.groups[n].ticket.Some?
             && CachedJudge.TakeAll(judge, w.store, SentAll(sc.state, sc.groups), inputs).ok
    ensures var w := Run(AfterBatch(Run(Start(cfg, vetoed), before), seen, at), between);
            var sc := ScanAll(w.cfg, w.table, ReviewAll(w.cfg, events), now);
            var ds := SentAll(sc.state, sc.groups);
            var it := CachedJudge.TakeAll(judge, w.store, ds, inputs);
            && (forall k :: 0 <= k < |events| ==> Served(w.cfg, w.table, ReviewAll(w.cfg, events), k, now).None?)
            && n in it.indices
            && CachedJudge.DurableKey(judge, ds[n]).Some?
            && CachedJudge.DurableKey(judge, ds[n]).value !in it.store.verdicts.rows
  {
    hide Observes, AfterBatch, ScanAll, Served, CachedJudge.TakeAll, ReviewAll, Run, MarkedAt, Start;
    var w0 := Run(Start(cfg, vetoed), before);
    RunKeepsWallMark(cfg, vetoed, before);
    BatchMarks(w0, seen, at, i);
    var w1 := AfterBatch(w0, seen, at);
    ProcessKeeps(w1, between, Some(at.now.wall));
    var w := Run(w1, between);
    RollbackReassesses(w.cfg, w.table, events, now, at.now.wall, judge, w.store, inputs, n);
  }
}
