/**
 Lifetimes do not slide, over whole runs.

 A run is any sequence of batches and restarts, over the in-memory table, the
 cached judge and the durable store.  The wall clock may jump either way between
 and within batches; rows, tickets and authority come and go with eviction,
 faults and latency.  Whatever is reused is justified by a dispatch.
 */
module Lifetime {
  import opened Wrappers
  import opened Clock
  import opened Verdict
  import opened Events
  import opened Dossiers
  import opened Grouper
  import opened Engine
  import opened History
  import Batches
  import VerdictStore
  import CachedJudge
  import Tables

  // ----- the table keeps only grounded verdicts -----

  ghost predicate EntryGrounded(history: set<Dispatch>, process: nat, fam: Family, p: Partition) {
    Reusable(p.verdict.opinion) ==> Grounded(history, process, fam, p.verdict)
  }

  ghost predicate EntriesGrounded(history: set<Dispatch>, process: nat, s: State) {
    forall fam :: fam in s.entries ==> EntryGrounded(history, process, fam, s.entries[fam])
  }

  lemma UnknownNotReusable(e: Error)
    ensures !Reusable(Unknown(e).opinion) && !Reusable(NO_JUDGMENT.opinion)
  {
  }

  lemma AdmittedGrounded(history: set<Dispatch>, process: nat, cfg: Settings, s: State, fam: Family)
    requires EntriesGrounded(history, process, s) && Inv(cfg, s) && 0 < cfg.capacity
    ensures EntriesGrounded(history, process, Admitted(cfg, s, fam))
  {
    hide Grounded, Reusable, Inv;
    UnknownNotReusable(NoError);
    AdmittedKeepsInv(cfg, s, fam);
    var s' := Admitted(cfg, s, fam);
    forall k | k in s'.entries ensures EntryGrounded(history, process, k, s'.entries[k]) {
      if k in s.entries {
        assert EntryGrounded(history, process, k, s.entries[k]);
      }
    }
  }

  /** Consulting an entry keeps the table grounded; what it serves is grounded and valid now. */
  lemma ConsultGrounded(history: set<Dispatch>, process: nat, cfg: Settings, s: State, fam: Family, now: Instant)
    requires EntriesGrounded(history, process, s) && fam in s.entries && s.entries[fam].ticket.family == fam
    ensures var o := Consult(cfg, s, fam, now);
            && EntriesGrounded(history, process, o.state)
            && (o.cached.Some? ==>
                  o.ticket.Some? && o.ticket.value.family == fam
                  && Grounded(history, process, fam, o.cached.value) && CacheValidAt(o.cached.value, now))
  {
    hide Grounded, Reusable, CacheValidAt, IsZero, Before;
    UnknownNotReusable(NoError);
    assert EntryGrounded(history, process, fam, s.entries[fam]);
  }

  lemma SightGrounded(history: set<Dispatch>, process: nat, cfg: Settings, s: State, e: Event, now: Instant)
    requires EntriesGrounded(history, process, s) && Inv(cfg, s) && 0 < cfg.capacity && Reading(now)
    ensures var o := Sight(cfg, s, e, now);
            && EntriesGrounded(history, process, o.state) && Inv(cfg, o.state)
            && (o.cached.Some? ==>
                  o.ticket.Some? && Justified(history, process, o.ticket.value.family, o.cached.value.opinion, now))
  {
    hide EntriesGrounded, Justified, Identify, Consult, CacheValidAt, Grounded;
    match Identify(cfg, e, now) {
      case Unidentified(_) =>
      case Identified(fam) =>
        AdmittedGrounded(history, process, cfg, s, fam);
        AdmittedKeepsInv(cfg, s, fam);
        var s1 := Admitted(cfg, s, fam);
        ConsultSameResidents(cfg, s1, fam, now);
        SameResidentsKeepInv(cfg, s1, Consult(cfg, s1, fam, now).state);
        assert s1.entries[fam].ticket.family == fam;
        ConsultGrounded(history, process, cfg, s1, fam, now);
        var o := Consult(cfg, s1, fam, now);
        if o.cached.Some? {
          ValidIsJustified(history, process, fam, o.cached.value, now);
        }
    }
  }

  lemma PublishedGrounded(history: set<Dispatch>, process: nat, cfg: Settings, s: State, t: Ticket, j: Judgment, rep: string, now: Instant)
    requires EntriesGrounded(history, process, s)
    requires Reusable(j.opinion) ==> Grounded(history, process, t.family, j)
    ensures EntriesGrounded(history, process, Published(cfg, s, t, j, rep, now))
    ensures EntriesGrounded(history, process, Invalidated(s, t))
  {
    hide Grounded, Reusable, CacheValidAt, IsZero, Before;
    UnknownNotReusable(NoError);
  }

  lemma EntriesGroundedGrows(history: set<Dispatch>, more: set<Dispatch>, process: nat, s: State)
    requires EntriesGrounded(history, process, s) && history <= more
    ensures EntriesGrounded(more, process, s)
  {
    hide Grounded, Reusable;
    forall fam | fam in s.entries ensures EntryGrounded(more, process, fam, s.entries[fam]) {
      assert EntryGrounded(history, process, fam, s.entries[fam]);
      if Reusable(s.entries[fam].verdict.opinion) {
        GroundedGrows(history, more, process, fam, s.entries[fam].verdict);
      }
    }
  }

  // ----- first phase -----

  ghost predicate ServedJustified(history: set<Dispatch>, process: nat, served: Option<Judgment>, e: Event, now: Instant) {
    served.Some? ==>
      && e.assessment.Some? && e.assessment.value.family.Some?
      && Justified(history, process, e.assessment.value.family.value, served.value.opinion, now)
  }

  lemma ScanOneGrounded(history: set<Dispatch>, process: nat, cfg: Config, sc: Scan, entry: Entry, now: Instant)
    requires EntriesGrounded(history, process, sc.state) && Inv(cfg.settings, sc.state)
    requires 0 < cfg.settings.capacity && Reading(now) && Shaped(sc)
    ensures var sc' := ScanOne(cfg, sc, entry, now);
            && EntriesGrounded(history, process, sc'.state) && Inv(cfg.settings, sc'.state)
            && |sc'.out| == |sc.out| + 1
            && ServedJustified(history, process, ServedNext(cfg, sc, entry, now), sc'.out[|sc.out|], now)
  {
    hide EntriesGrounded, Inv, Justified, Sight, Observed, NewGroup, GroupShape;
    SightGrounded(history, process, cfg.settings, sc.state, entry.e, now);
  }

  lemma {:induction false} ScanGrounded(history: set<Dispatch>, process: nat, cfg: Config, s: State, entries: seq<Entry>, now: Instant)
    requires EntriesGrounded(history, process, s) && Inv(cfg.settings, s)
    requires 0 < cfg.settings.capacity && Reading(now)
    ensures var sc := ScanAll(cfg, s, entries, now);
            EntriesGrounded(history, process, sc.state) && Inv(cfg.settings, sc.state)
  {
    hide EntriesGrounded, Inv, ScanOne, Shaped;
    if entries != [] {
      var front := entries[..|entries| - 1];
      ScanGrounded(history, process, cfg, s, front, now);
      ScanShape(cfg, s, front, now);
      ScanOneGrounded(history, process, cfg, ScanAll(cfg, s, front, now), entries[|entries| - 1], now);
    }
  }

  /** Line `i`, if the table served it, was served what a dispatch justifies. */
  lemma {:induction false} ScanServesJustified(history: set<Dispatch>, process: nat, cfg: Config, s: State, entries: seq<Entry>, i: nat, now: Instant)
    requires EntriesGrounded(history, process, s) && Inv(cfg.settings, s) && i < |entries|
    requires 0 < cfg.settings.capacity && Reading(now)
    ensures |ScanAll(cfg, s, entries, now).out| == |entries|
    ensures ServedJustified(history, process, Batches.Served(cfg, s, entries, i, now), ScanAll(cfg, s, entries, now).out[i], now)
    decreases |entries|
  {
    hide EntriesGrounded, Inv, ScanOne, Shaped, ServedJustified, ServedNext;
    var last := |entries| - 1;
    var front := entries[..last];
    var sc := ScanAll(cfg, s, front, now);
    ScanGrounded(history, process, cfg, s, front, now);
    ScanShape(cfg, s, front, now);
    ScanShape(cfg, s, entries, now);
    ScanOneGrounded(history, process, cfg, sc, entries[last], now);
    if i < last {
      Batches.ScanOneOut(cfg, sc, entries[last], now);
      assert ScanOne(cfg, sc, entries[last], now).out[i] == sc.out[i];
      ScanServesJustified(history, process, cfg, s, front, i, now);
      assert front[..i] == entries[..i];
    }
  }

  // ----- second phase -----

  /** A provider's answer without durable bounds runs from the start of the batch. */
  function DirectDispatch(process: nat, fam: Family, o: Opinion, now: Instant, ttl: Duration): Dispatch {
    Dispatch(process, fam, None, o, now, ttl, now.wall, now.wall + ttl)
  }

  /** The dispatches behind the answers that came from the provider without bounds. */
  function DirectDispatches(process: nat, groups: seq<Group>, js: Option<seq<Judgment>>, now: Instant, ttl: Duration): set<Dispatch> {
    set n | 0 <= n < |groups| && groups[n].ticket.Some?
            && ReplyFor(js, n).Some? && ReplyFor(js, n).value == Unbounded(ReplyFor(js, n).value.opinion)
      :: DirectDispatch(process, groups[n].ticket.value.family, ReplyFor(js, n).value.opinion, now, ttl)
  }

  function DurableDispatches(cfg: Config, process: nat, store: VerdictStore.State, ds: seq<Dossier>, inputs: Inputs): set<Dispatch> {
    match cfg.cache
    case None => {}
    case Some(c) =>
      if inputs.cancelled then {} else CachedJudge.CallDispatches(c, process, store, ds, inputs.provider, inputs.judge)
  }

  /** What the judge may say about a group. */
  ghost predicate ReplySourced(history: set<Dispatch>, process: nat, g: Group, reply: Option<Judgment>) {
    reply.Some? && g.ticket.Some? && reply.value != Unbounded(reply.value.opinion) ==>
      Grounded(history, process, g.ticket.value.family, reply.value)
  }

  ghost predicate ConfigOk(cfg: Config) {
    && 0 < cfg.settings.capacity && 0 < cfg.settings.ttl
    && (cfg.cache.Some? ==> 0 < cfg.cache.value.ttl && Tables.Injective(cfg.cache.value.ord))
  }

  lemma AnsweredGrounded(
      history: set<Dispatch>, process: nat, cfg: Config, store: VerdictStore.State, s: State, groups: seq<Group>, inputs: Inputs, width: nat)
    requires ConfigOk(cfg) && Reading(inputs.judge.now)
    requires VerdictStore.Inv(store) && RowsGrounded(history, process, store)
    requires forall n :: 0 <= n < |groups| ==> GroupShape(groups[n], width)
    ensures var ds := SentAll(s, groups);
            var r := Answered(cfg, store, ds, inputs);
            var more := history + DurableDispatches(cfg, process, store, ds, inputs);
            && VerdictStore.Inv(r.store) && RowsGrounded(more, process, r.store)
            && forall n :: 0 <= n < |groups| ==> ReplySourced(more, process, groups[n], ReplyFor(r.judgments, n))
  {
    var ds := SentAll(s, groups);
    var more := history + DurableDispatches(cfg, process, store, ds, inputs);
    var r := Answered(cfg, store, ds, inputs);
    hide RowsGrounded, VerdictStore.Inv, CachedJudge.CallDispatches, CachedJudge.Judged, Grounded, IsCurrent;
    RowsGroundedGrows(history, more, process, store);
    if !inputs.cancelled && cfg.cache.Some? {
      CachedJudge.JudgedGrounded(history, process, cfg.cache.value, store, ds, inputs.provider, inputs.judge);
    }
    forall n | 0 <= n < |groups| ensures ReplySourced(more, process, groups[n], ReplyFor(r.judgments, n)) {
      assert GroupShape(groups[n], width) && ds[n].family == groups[n].d.family;
      if ReplyFor(r.judgments, n).Some? && cfg.cache.Some? && !inputs.cancelled {
        assert CachedJudge.Sourced(more, process, ds[n], r.judgments.value[n]);
      }
    }
  }

  // ----- third phase -----

  lemma DirectFits(process: nat, fam: Family, o: Opinion, now: Instant, ttl: Duration)
    requires Reading(now) && 0 < ttl
    ensures LeftOf(DirectDispatch(process, fam, o, now, ttl), process, fam, FromDispatch(Unbounded(o), now, ttl))
  {
  }

  lemma GroundedBounded(history: set<Dispatch>, process: nat, fam: Family, j: Judgment)
    requires Grounded(history, process, fam, j)
    ensures !IsZero(j.expiresAt)
  {
  }

  /** A reusable judgment passes the downgrade unchanged. */
  lemma DowngradeKeepsReusable(d: Dossier, reply: Option<Judgment>)
    requires Reusable(Downgraded(d, Accepted(reply)).opinion)
    ensures reply.Some? && Downgraded(d, Accepted(reply)) == reply.value
  {
  }

  lemma SettledGrounded(
      history: set<Dispatch>, process: nat, cfg: Config, s: State, g: Group, reply: Option<Judgment>, now: Instant)
    requires Reading(now) && 0 < cfg.settings.ttl && g.ticket.Some?
    requires ReplySourced(history, process, g, reply)
    requires reply.Some? && reply.value == Unbounded(reply.value.opinion) ==>
               DirectDispatch(process, g.ticket.value.family, reply.value.opinion, now, cfg.settings.ttl) in history
    requires MayPublish(s, g, Settled(cfg, s, g, reply, now))
    ensures Grounded(history, process, g.ticket.value.family, Settled(cfg, s, g, reply, now))
  {
    var j := Downgraded(g.d, Accepted(reply));
    var fam := g.ticket.value.family;
    assert Reusable(j.opinion) by {
      hide Downgraded, Accepted, Unsafe, IsCurrent;
      UnknownNotReusable(StaleGeneration);
    }
    DowngradeKeepsReusable(g.d, reply);
    hide Downgraded, Accepted, Unsafe, Reusable, Grounded;
    if j == Unbounded(j.opinion) {
      DirectFits(process, fam, j.opinion, now, cfg.settings.ttl);
      hide LeftOf, DirectDispatch, FromDispatch;
      FoundIn(history, process, fam, DirectDispatch(process, fam, j.opinion, now, cfg.settings.ttl),
              FromDispatch(Unbounded(j.opinion), now, cfg.settings.ttl));
    } else {
      GroundedBounded(history, process, fam, j);
    }
  }

  lemma FoundIn(history: set<Dispatch>, process: nat, fam: Family, d: Dispatch, j: Judgment)
    requires d in history && LeftOf(d, process, fam, j)
    ensures Grounded(history, process, fam, j)
  {
  }

  lemma SettleOneInv(cfg: Config, st: Settlement, n: nat, g: Group, reply: Option<Judgment>, inputs: Inputs)
    requires InRange(g, |st.out|) && Inv(cfg.settings, st.state)
    ensures Inv(cfg.settings, SettleOne(cfg, st, n, g, reply, inputs).state)
  {
    hide Inv, Settled, Fan, Reuses, IsCurrent, Reusable, Unsafe, SameResidents, Published, Invalidated;
    var s, j := st.state, Settled(cfg, st.state, g, reply, inputs.now);
    if g.ticket.Some? {
      var t, rep := g.ticket.value, st.out[g.indices[0]].id;
      PublishedSameResidents(cfg.settings, s, t, j, rep, inputs.later(n));
      SameResidentsKeepInv(cfg.settings, s, Published(cfg.settings, s, t, j, rep, inputs.later(n)));
      InvalidatedSame(s, t);
      SameResidentsKeepInv(cfg.settings, s, Invalidated(s, t));
    }
  }

  lemma InvalidatedSame(s: State, t: Ticket)
    ensures SameResidents(s, Invalidated(s, t))
  {
  }

  lemma SettleOneGrounded(
      history: set<Dispatch>, process: nat, cfg: Config, st: Settlement, n: nat, g: Group, reply: Option<Judgment>, inputs: Inputs)
    requires InRange(g, |st.out|) && Reading(inputs.now) && 0 < cfg.settings.ttl
    requires EntriesGrounded(history, process, st.state)
    requires ToldAt(history, process, cfg, g, reply, inputs.now)
    ensures EntriesGrounded(history, process, SettleOne(cfg, st, n, g, reply, inputs).state)
  {
    hide EntriesGrounded, Published, Invalidated, Settled, Fan, Reuses, IsCurrent, Reusable, Unsafe, ReplySourced, DirectDispatch, Grounded;
    var s, j := st.state, Settled(cfg, st.state, g, reply, inputs.now);
    if g.ticket.Some? {
      var t, rep := g.ticket.value, st.out[g.indices[0]].id;
      if MayPublish(s, g, j) {
        SettledGrounded(history, process, cfg, s, g, reply, inputs.now);
        PublishedGrounded(history, process, cfg.settings, s, t, j, rep, inputs.later(n));
      } else {
        UnknownNotReusable(NoError);
        PublishedGrounded(history, process, cfg.settings, s, t, Unknown(NoError), rep, inputs.later(n));
      }
    }
  }

  /** Everything the judge said about these groups is in the history. */
  ghost predicate Told(history: set<Dispatch>, process: nat, cfg: Config, groups: seq<Group>, js: Option<seq<Judgment>>, now: Instant) {
    forall n :: 0 <= n < |groups| ==> ToldAt(history, process, cfg, groups[n], ReplyFor(js, n), now)
  }

  ghost predicate ToldAt(history: set<Dispatch>, process: nat, cfg: Config, g: Group, reply: Option<Judgment>, now: Instant) {
    && ReplySourced(history, process, g, reply)
    && (g.ticket.Some? && reply.Some? && reply.value == Unbounded(reply.value.opinion) ==>
          DirectDispatch(process, g.ticket.value.family, reply.value.opinion, now, cfg.settings.ttl) in history)
  }

  lemma {:induction false} SettleGrounded(
      history: set<Dispatch>, process: nat, cfg: Config, st: Settlement, groups: seq<Group>, js: Option<seq<Judgment>>, inputs: Inputs)
    requires Batches.AllInRange(groups, |st.out|) && Reading(inputs.now) && 0 < cfg.settings.ttl
    requires EntriesGrounded(history, process, st.state) && Inv(cfg.settings, st.state)
    requires Told(history, process, cfg, groups, js, inputs.now)
    ensures var st' := SettleAll(cfg, st, groups, js, inputs);
            EntriesGrounded(history, process, st'.state) && Inv(cfg.settings, st'.state)
  {
    hide EntriesGrounded, Inv, SettleOne, InRange, ReplySourced, DirectDispatch;
    if groups != [] {
      var n := |groups| - 1;
      assert forall m :: 0 <= m < n ==> groups[..n][m] == groups[m];
      assert Told(history, process, cfg, groups[..n], js, inputs.now);
      SettleGrounded(history, process, cfg, st, groups[..n], js, inputs);
      assert ToldAt(history, process, cfg, groups[n], ReplyFor(js, n), inputs.now);
      SettleOneGrounded(history, process, cfg, SettleAll(cfg, st, groups[..n], js, inputs), n, groups[n], ReplyFor(js, n), inputs);
      SettleOneInv(cfg, SettleAll(cfg, st, groups[..n], js, inputs), n, groups[n], ReplyFor(js, n), inputs);
    }
  }

  // ----- runs -----

  /** One process over the durable rows, and every dispatch of all processes so far. */
  datatype World = World(cfg: Config, process: nat, table: State, store: VerdictStore.State, history: set<Dispatch>)

  datatype Step =
    | BatchStep(events: seq<Event>, inputs: Inputs)
    // A new process, possibly configured differently, opens the same rows.
    | Restart(cfg: Config, vetoed: set<Family>)

  ghost function AfterBatch(w: World, events: seq<Event>, inputs: Inputs): World {
    var o := Batched(w.cfg, w.table, w.store, events, inputs);
    w.(table := o.state, store := o.store, history := w.history + BatchDispatches(w, events, inputs))
  }

  ghost function BatchDispatches(w: World, events: seq<Event>, inputs: Inputs): set<Dispatch> {
    var sc := ScanAll(w.cfg, w.table, ReviewAll(w.cfg, events), inputs.now);
    var ds := SentAll(sc.state, sc.groups);
    var js := Batches.Replies(w.cfg, w.table, w.store, events, inputs);
    DurableDispatches(w.cfg, w.process, w.store, ds, inputs)
    + DirectDispatches(w.process, sc.groups, js, inputs.now, w.cfg.settings.ttl)
  }

  ghost function Next(w: World, step: Step): World {
    match step
    case BatchStep(events, inputs) => AfterBatch(w, events, inputs)
    case Restart(cfg, vetoed) =>
      World(cfg, w.process + 1, Vetoed(EMPTY, vetoed), w.store.(lifetimes := map[]), w.history)
  }

  ghost function Run(w: World, steps: seq<Step>): World {
    if steps == [] then w else Next(Run(w, steps[..|steps| - 1]), steps[|steps| - 1])
  }

  /** Clocks are read, and configurations are validated; nothing else is assumed of a step. */
  ghost predicate StepOk(step: Step) {
    match step
    case BatchStep(_, inputs) => Reading(inputs.now) && Reading(inputs.judge.now)
    case Restart(cfg, _) => ConfigOk(cfg)
  }

  /** The first process over empty tables. */
  function Start(cfg: Config, vetoed: set<Family>): World {
    World(cfg, 0, Vetoed(EMPTY, vetoed), VerdictStore.State(Tables.Table(map[], 0, 0), map[]), {})
  }

  ghost predicate Sound(w: World) {
    && ConfigOk(w.cfg)
    && Inv(w.cfg.settings, w.table) && EntriesGrounded(w.history, w.process, w.table)
    && VerdictStore.Inv(w.store) && RowsGrounded(w.history, w.process, w.store)
    && forall d :: d in w.history ==> d.process <= w.process
  }

  lemma DispatchesOfProcess(w: World, events: seq<Event>, inputs: Inputs)
    ensures forall d :: d in BatchDispatches(w, events, inputs) ==> d.process == w.process
  {
    hide ScanAll, SentAll, Batches.Replies, CachedJudge.TakeAll;
  }

  /** Every group, and what the judge said about it, is in the history with the batch's dispatches. */
  lemma GroupsTold(
      history: set<Dispatch>, process: nat, cfg: Config, store: VerdictStore.State, s: State, groups: seq<Group>, inputs: Inputs, width: nat)
    requires ConfigOk(cfg) && Reading(inputs.judge.now)
    requires VerdictStore.Inv(store) && RowsGrounded(history, process, store)
    requires forall n :: 0 <= n < |groups| ==> GroupShape(groups[n], width)
    ensures var ds := SentAll(s, groups);
            var r := Answered(cfg, store, ds, inputs);
            var more := history + (DurableDispatches(cfg, process, store, ds, inputs)
                                   + DirectDispatches(process, groups, r.judgments, inputs.now, cfg.settings.ttl));
            && Told(more, process, cfg, groups, r.judgments, inputs.now)
            && VerdictStore.Inv(r.store) && RowsGrounded(more, process, r.store)
  {
    AnsweredGrounded(history, process, cfg, store, s, groups, inputs, width);
    hide Answered, ReplySourced, RowsGrounded, VerdictStore.Inv, DurableDispatches, DirectDispatch, DirectDispatches, GroupShape, SentAll;
    var ds := SentAll(s, groups);
    var r := Answered(cfg, store, ds, inputs);
    var some := history + DurableDispatches(cfg, process, store, ds, inputs);
    var direct := DirectDispatches(process, groups, r.judgments, inputs.now, cfg.settings.ttl);
    var more := history + (DurableDispatches(cfg, process, store, ds, inputs) + direct);
    RowsGroundedGrows(some, more, process, r.store);
    forall n | 0 <= n < |groups|
      ensures ToldAt(more, process, cfg, groups[n], ReplyFor(r.judgments, n), inputs.now)
    {
      ReplySourcedGrows(some, more, process, groups[n], ReplyFor(r.judgments, n));
      GroupTold(more, process, cfg, groups, r.judgments, inputs.now, n);
    }
  }

  lemma GroupTold(history: set<Dispatch>, process: nat, cfg: Config, groups: seq<Group>, js: Option<seq<Judgment>>, now: Instant, n: nat)
    requires n < |groups| && ReplySourced(history, process, groups[n], ReplyFor(js, n))
    requires DirectDispatches(process, groups, js, now, cfg.settings.ttl) <= history
    ensures ToldAt(history, process, cfg, groups[n], ReplyFor(js, n), now)
  {
    hide ReplySourced, DirectDispatches, DirectDispatch, ReplyFor;
    var reply := ReplyFor(js, n);
    if groups[n].ticket.Some? && reply.Some? && reply.value == Unbounded(reply.value.opinion) {
      DirectIsDispatch(process, groups, js, now, cfg.settings.ttl, n);
    }
  }

  lemma BatchTold(w: World, events: seq<Event>, inputs: Inputs)
    requires Sound(w) && Reading(inputs.judge.now)
    ensures var sc := ScanAll(w.cfg, w.table, ReviewAll(w.cfg, events), inputs.now);
            var more := w.history + BatchDispatches(w, events, inputs);
            var r := Answered(w.cfg, w.store, SentAll(sc.state, sc.groups), inputs);
            && Told(more, w.process, w.cfg, sc.groups, r.judgments, inputs.now)
            && VerdictStore.Inv(r.store) && RowsGrounded(more, w.process, r.store)
  {
    var entries := ReviewAll(w.cfg, events);
    var sc := ScanAll(w.cfg, w.table, entries, inputs.now);
    ScanShape(w.cfg, w.table, entries, inputs.now);
    GroupsTold(w.history, w.process, w.cfg, w.store, sc.state, sc.groups, inputs, |sc.out|);
    hide ScanAll, Answered, ReviewAll, SentAll, RowsGrounded, VerdictStore.Inv, Told, DurableDispatches, DirectDispatches, GroupShape, EntriesGrounded, Inv;
  }

  lemma DirectIsDispatch(process: nat, groups: seq<Group>, js: Option<seq<Judgment>>, now: Instant, ttl: Duration, n: nat)
    requires n < |groups| && groups[n].ticket.Some?
    requires ReplyFor(js, n).Some? && ReplyFor(js, n).value == Unbounded(ReplyFor(js, n).value.opinion)
    ensures DirectDispatch(process, groups[n].ticket.value.family, ReplyFor(js, n).value.opinion, now, ttl)
         in DirectDispatches(process, groups, js, now, ttl)
  {
  }

  lemma ReplySourcedGrows(history: set<Dispatch>, more: set<Dispatch>, process: nat, g: Group, reply: Option<Judgment>)
    requires ReplySourced(history, process, g, reply) && history <= more
    ensures ReplySourced(more, process, g, reply)
  {
    hide Grounded;
    if reply.Some? && g.ticket.Some? && reply.value != Unbounded(reply.value.opinion) {
      GroundedGrows(history, more, process, g.ticket.value.family, reply.value);
    }
  }

  lemma BatchKeepsSound(w: World, events: seq<Event>, inputs: Inputs)
    requires Sound(w) && Reading(inputs.now) && Reading(inputs.judge.now)
    ensures Sound(AfterBatch(w, events, inputs))
  {
    hide ScanAll, Answered, RowsGrounded, VerdictStore.Inv, Inv, EntriesGrounded, Told, SettleAll, BatchDispatches, InRange, SentAll, ReviewAll;
    var entries := ReviewAll(w.cfg, events);
    var sc := ScanAll(w.cfg, w.table, entries, inputs.now);
    var st := Settlement(sc.state, sc.out);
    var js := Batches.Replies(w.cfg, w.table, w.store, events, inputs);
    var more := w.history + BatchDispatches(w, events, inputs);
    BatchTold(w, events, inputs);
    DispatchesOfProcess(w, events, inputs);
    ScanShape(w.cfg, w.table, entries, inputs.now);
    ScanGrounded(w.history, w.process, w.cfg, w.table, entries, inputs.now);
    Batches.BatchedIsFinal(w.cfg, w.table, w.store, events, inputs);
    hide Shaped, ConfigOk;
    EntriesGroundedGrows(w.history, more, w.process, sc.state);
    RowsGroundedGrows(w.history, more, w.process, w.store);
    SettleGrounded(more, w.process, w.cfg, st, sc.groups, js, inputs);
  }

  lemma EmptySound(cfg: Settings, vetoed: set<Family>, history: set<Dispatch>, process: nat)
    ensures Inv(cfg, Vetoed(EMPTY, vetoed)) && EntriesGrounded(history, process, Vetoed(EMPTY, vetoed))
  {
  }

  lemma ForgottenStore(s: VerdictStore.State)
    requires VerdictStore.Inv(s)
    ensures VerdictStore.Inv(s.(lifetimes := map[]))
  {
    hide Tables.Counted, VerdictStore.Dated;
  }

  lemma RestartKeepsSound(w: World, cfg: Config, vetoed: set<Family>)
    requires Sound(w) && ConfigOk(cfg)
    ensures Sound(Next(w, Restart(cfg, vetoed)))
  {
    hide RowsGrounded, Inv, EntriesGrounded, VerdictStore.Inv;
    RestartGrounded(w.history, w.process, w.store);
    EmptySound(cfg.settings, vetoed, w.history, w.process + 1);
    ForgottenStore(w.store);
    hide ConfigOk;
  }

  lemma {:induction false} RunSound(cfg: Config, vetoed: set<Family>, steps: seq<Step>)
    requires ConfigOk(cfg) && forall i :: 0 <= i < |steps| ==> StepOk(steps[i])
    ensures Sound(Run(Start(cfg, vetoed), steps))
  {
    if steps != [] {
      var last := steps[|steps| - 1];
      assert StepOk(last);
      RunSound(cfg, vetoed, steps[..|steps| - 1]);
      var w := Run(Start(cfg, vetoed), steps[..|steps| - 1]);
      hide Sound, AfterBatch, ConfigOk;
      match last {
        case BatchStep(events, inputs) => BatchKeepsSound(w, events, inputs);
        case Restart(cfg', vetoed') => RestartKeepsSound(w, cfg', vetoed');
      }
    }
  }

  /**
   In-memory reuse does not slide.  After any run, a line that leaves a batch as
   served from the table carries the opinion of a dispatch for its own family
   whose created/expires window contains the wall reading of the batch and, if
   this process made it, whose TTL has not elapsed on the monotonic clock.
   */
  lemma {:induction false} CachedReuseIsJustified(
      cfg: Config, vetoed: set<Family>, steps: seq<Step>, events: seq<Event>, inputs: Inputs, i: nat)
    requires ConfigOk(cfg) && forall k :: 0 <= k < |steps| ==> StepOk(steps[k])
    requires Reading(inputs.now) && i < |events|
    ensures var w := Run(Start(cfg, vetoed), steps);
            var out := Batched(w.cfg, w.table, w.store, events, inputs).out;
            && |out| == |events|
            && (!ReviewAll(w.cfg, events)[i].reviewed && out[i].assessment.Some? && out[i].assessment.value.reason == Cached ==>
                  && out[i].assessment.value.family.Some?
                  && Justified(w.history, w.process, out[i].assessment.value.family.value, out[i].judgment.opinion, inputs.now))
  {
    RunSound(cfg, vetoed, steps);
    var w := Run(Start(cfg, vetoed), steps);
    ServedLine(w, events, inputs, i);
    hide Run, Batched, Sound;
  }

  lemma ServedLine(w: World, events: seq<Event>, inputs: Inputs, i: nat)
    requires Sound(w) && Reading(inputs.now) && i < |events|
    ensures var out := Batched(w.cfg, w.table, w.store, events, inputs).out;
            && |out| == |events|
            && (!ReviewAll(w.cfg, events)[i].reviewed && out[i].assessment.Some? && out[i].assessment.value.reason == Cached ==>
                  && out[i].assessment.value.family.Some?
                  && Justified(w.history, w.process, out[i].assessment.value.family.value, out[i].judgment.opinion, inputs.now))
  {
    var entries := ReviewAll(w.cfg, events);
    var sc := ScanAll(w.cfg, w.table, entries, inputs.now);
    var served := Batches.Served(w.cfg, w.table, entries, i, inputs.now);
    ScanServesJustified(w.history, w.process, w.cfg, w.table, entries, i, inputs.now);
    hide Batched, ScanAll, Sound, ServedJustified, Batches.Served, Batches.Disjoint, Batches.Occurrences, Batches.Uncached, Batches.LeavesAs, Batches.Owned, ReviewAll;
    Batches.BatchAccountsFor(w.cfg, w.table, w.store, events, inputs, i);
    UntouchedLine(w, events, inputs, i);
    var e := Batched(w.cfg, w.table, w.store, events, inputs).out[i];
    LineOrigin(w, entries[i], served, sc, i, e, inputs.now);
  }

  /** A line in no group leaves as it was scanned. */
  lemma UntouchedLine(w: World, events: seq<Event>, inputs: Inputs, i: nat)
    requires i < |events|
    ensures var sc := ScanAll(w.cfg, w.table, ReviewAll(w.cfg, events), inputs.now);
            var out := Batched(w.cfg, w.table, w.store, events, inputs).out;
            |sc.out| == |events| == |out| && (!Batches.Owned(sc.groups, i) ==> out[i] == sc.out[i])
  {
    var entries := ReviewAll(w.cfg, events);
    var sc := ScanAll(w.cfg, w.table, entries, inputs.now);
    var js := Batches.Replies(w.cfg, w.table, w.store, events, inputs);
    ScanShape(w.cfg, w.table, entries, inputs.now);
    Batches.BatchedIsFinal(w.cfg, w.table, w.store, events, inputs);
    hide Batched, ScanAll, SettleAll, ReviewAll, Batches.Replies, Shaped, InRange;
    Batches.SettleKeepsId(w.cfg, Settlement(sc.state, sc.out), sc.groups, js, inputs, i);
  }

  lemma LineOrigin(w: World, entry: Entry, served: Option<Judgment>, sc: Scan, i: nat, e: Event, now: Instant)
    requires Batches.LeavesAs(entry, served, sc.groups, i, e) && i < |sc.out|
    requires ServedJustified(w.history, w.process, served, sc.out[i], now)
    requires !Batches.Owned(sc.groups, i) ==> e == sc.out[i]
    ensures !entry.reviewed && e.assessment.Some? && e.assessment.value.reason == Cached ==>
              && e.assessment.value.family.Some?
              && Justified(w.history, w.process, e.assessment.value.family.value, e.judgment.opinion, now)
  {
    hide Justified, Unsafe;
    if Batches.Owned(sc.groups, i) {
      var n: nat :| Batches.Owns(sc.groups, n, i);
      assert Batches.LeavesGroup(sc.groups[n], e);
    }
  }

  /**
   Durable reuse does not slide either.  After any run, every answer that the
   cached judge takes from a durable row is the opinion of a dispatch for the
   dossier's own family, inside its wall window and, within the process that made
   it, inside its TTL on the monotonic clock, at the reading of the call.
   */
  lemma {:induction false} DurableReuseIsJustified(
      cfg: Config, vetoed: set<Family>, steps: seq<Step>, c: CachedJudge.Config, ds: seq<Dossier>,
      inputs: CachedJudge.Inputs, i: nat)
    requires ConfigOk(cfg) && forall k :: 0 <= k < |steps| ==> StepOk(steps[k])
    requires Reading(inputs.now) && i < |ds|
    requires var it := CachedJudge.TakeAll(c, Run(Start(cfg, vetoed), steps).store, ds, inputs);
             it.ok && i !in it.indices
    ensures var w := Run(Start(cfg, vetoed), steps);
            var it := CachedJudge.TakeAll(c, w.store, ds, inputs);
            && |it.out| == |ds| && ds[i].family.Some?
            && Justified(w.history, w.process, ds[i].family.value, it.out[i].opinion, inputs.now)
  {
    RunSound(cfg, vetoed, steps);
    var w := Run(Start(cfg, vetoed), steps);
    CachedJudge.DurableHitsJustified(w.history, w.process, c, w.store, ds, inputs, i);
  }
}
