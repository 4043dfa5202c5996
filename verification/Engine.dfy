/**
 One batch of the analysis lane: group the lines, ask the judge once for each
 group that has no reusable verdict, downgrade what is unsafe, publish what may
 be reused and fan the judgments out to the lines.

 `ScanAll`, `Answered` and `SettleAll` are the three phases of `Batch` on values;
 class `Engine` is the code.
 */
module Engine {
  import opened Wrappers
  import opened Clock
  import opened Verdict
  import opened Events
  import opened Dossiers
  import opened Grouper
  import VerdictStore
  import CachedJudge

  datatype Config = Config(
    settings: Settings, offline: bool,
    // Applies a person's review; the flag says that the event was marked as expected.
    human: Option<Event -> (Event, bool)>,
    // The durable verdict cache in front of the provider, if there is one.
    cache: Option<CachedJudge.Config>)

  /** The clock readings, the provider and the faults met by one batch. */
  datatype Inputs = Inputs(
    now: Instant, later: nat -> Instant, cancelled: bool, provider: Provider, judge: CachedJudge.Inputs)

  /** An event after review, and whether a person marked it. */
  datatype Entry = Entry(e: Event, reviewed: bool)

  function Review(cfg: Config, e: Event): Entry {
    match cfg.human
    case None => Entry(e, false)
    case Some(f) => var (e', marked) := f(e); Entry(e', marked)
  }

  function ReviewAll(cfg: Config, events: seq<Event>): (entries: seq<Entry>)
    ensures |entries| == |events|
  {
    if events == [] then [] else ReviewAll(cfg, events[..|events| - 1]) + [Review(cfg, events[|events| - 1])]
  }

  function OfflineJudgment(e: Event): Judgment {
    Unbounded(
      if e.important then Opinion(Important, Degraded, UnknownCategory, None, None, None, NoError)
      else Opinion(Uncertain, Info, UnknownCategory, None, None, None, NoError))
  }

  // ----- first phase: group the lines -----

  /** Lines judged together; `ticket` is absent for a line that can share nothing. */
  datatype Group = Group(ticket: Option<Ticket>, d: Dossier, indices: seq<nat>)

  datatype Scan = Scan(state: State, out: seq<Event>, groups: seq<Group>, byTicket: map<Ticket, nat>)

  function ModeFor(r: Reason): CacheMode {
    match r
    case StableAudit => CacheRefresh
    case ClockRollback => CacheRefresh
    case CacheExpired => CacheRefresh
    case ReviewRequired => CacheBypass
    case _ => CacheDefault
  }

  function FromCache(e: Event, fam: Family, j: Judgment): Event {
    e.(judgment := j, assessment := Some(Assessment(false, Some(fam), 1, 0, false, false, Cached)), reused := true)
  }

  function NewGroup(cfg: Config, e: Event, i: nat, ticket: Option<Ticket>, reason: Reason): Group {
    var fam := if ticket.Some? then Some(ticket.value.family) else None;
    var d := NewDossier(fam, Scope(e, true), ModeFor(reason), reason, e.id);
    Group(ticket, Observed(cfg.settings.pats, d, e), [i])
  }

  function Joined(cfg: Config, g: Group, e: Event, i: nat): Group {
    g.(d := Observed(cfg.settings.pats, g.d, e), indices := g.indices + [i])
  }

  /** Whether line number `|sc.out|` is served from the table. */
  ghost function ServedNext(cfg: Config, sc: Scan, entry: Entry, now: Instant): Option<Judgment> {
    if entry.reviewed then None else Sight(cfg.settings, sc.state, entry.e, now).cached
  }

  ghost function ScanOne(cfg: Config, sc: Scan, entry: Entry, now: Instant): Scan {
    var i, e := |sc.out|, entry.e;
    if entry.reviewed then sc.(out := sc.out + [e])
    else
      var o := Sight(cfg.settings, sc.state, e, now);
      if o.cached.Some? && o.ticket.Some? then
        sc.(state := o.state, out := sc.out + [FromCache(e, o.ticket.value.family, o.cached.value)])
      else if o.ticket.Some? && o.ticket.value in sc.byTicket && sc.byTicket[o.ticket.value] < |sc.groups| then
        var n := sc.byTicket[o.ticket.value];
        sc.(state := o.state, out := sc.out + [e], groups := sc.groups[n := Joined(cfg, sc.groups[n], e, i)])
      else
        Scan(o.state, sc.out + [e], sc.groups + [NewGroup(cfg, e, i, o.ticket, o.reason)],
             if o.ticket.Some? then sc.byTicket[o.ticket.value := |sc.groups|] else sc.byTicket)
  }

  ghost function ScanAll(cfg: Config, s: State, entries: seq<Entry>, now: Instant): Scan {
    if entries == [] then Scan(s, [], [], map[])
    else ScanOne(cfg, ScanAll(cfg, s, entries[..|entries| - 1], now), entries[|entries| - 1], now)
  }

  // ----- second phase: ask the judge -----

  /** A group whose ticket was evicted by a later line must not reach the durable cache. */
  function Sent(s: State, g: Group): Dossier {
    if g.ticket.Some? && !IsCurrent(s, g.ticket.value) then g.d.(mode := CacheBypass) else g.d
  }

  function SentAll(s: State, groups: seq<Group>): (ds: seq<Dossier>)
    ensures |ds| == |groups|
  {
    seq(|groups|, n requires 0 <= n < |groups| => Sent(s, groups[n]))
  }

  datatype Reply = Reply(store: VerdictStore.State, judgments: Option<seq<Judgment>>)

  ghost function Answered(cfg: Config, store: VerdictStore.State, ds: seq<Dossier>, inputs: Inputs): Reply {
    if inputs.cancelled then Reply(store, None)
    else
      match cfg.cache
      case Some(c) =>
        var a := CachedJudge.Judged(c, store, ds, inputs.provider, inputs.judge);
        Reply(a.store, if a.judgments.Some? && |a.judgments.value| == |ds| then a.judgments else None)
      case None =>
        match inputs.provider(ds)
        case None => Reply(store, None)
        case Some(os) =>
          Reply(store, if |os| != |ds| then None else Some(seq(|os|, n requires 0 <= n < |os| => Unbounded(os[n]))))
  }

  // ----- third phase: downgrade, publish, fan out -----

  function Accepted(reply: Option<Judgment>): Judgment {
    match reply
    case None => Unknown(Unavailable)
    case Some(j) => if Valid(j.opinion) then j else Unknown(InvalidJudgment)
  }

  function Doubted(j: Judgment): Judgment {
    j.(opinion := j.opinion.(importance := Uncertain))
  }

  /** Routine needs safe evidence and confidence. */
  function Downgraded(d: Dossier, j: Judgment): Judgment {
    var j1 := if Unsafe(d) && j.opinion.importance == Routine then Doubted(j) else j;
    var c := j1.opinion.importanceConfidence;
    if j1.opinion.importance == Routine && (c.None? || c.value < 0.7) then Doubted(j1) else j1
  }

  /** A fresh judgment's lifetime started when the batch began. */
  function FromDispatch(j: Judgment, now: Instant, ttl: Duration): Judgment {
    if !IsZero(j.expiresAt) then j
    else Judgment(WallOnly(now), Add(WallOnly(now), ttl), WallOnly(now), Add(now, ttl), j.opinion)
  }

  /** The judgment of a group, before and after it was considered for reuse. */
  function Settled(cfg: Config, s: State, g: Group, reply: Option<Judgment>, now: Instant): Judgment {
    var j := Downgraded(g.d, Accepted(reply));
    if g.ticket.Some? && !IsCurrent(s, g.ticket.value) then Unknown(StaleGeneration)
    else if MayPublish(s, g, j) then FromDispatch(j, now, cfg.settings.ttl)
    else j
  }

  predicate MayPublish(s: State, g: Group, j: Judgment) {
    !Unsafe(g.d) && g.ticket.Some? && IsCurrent(s, g.ticket.value) && Reusable(j.opinion)
  }

  /** The verdict of a group became reusable for its family. */
  predicate Reuses(cfg: Config, s: State, g: Group, reply: Option<Judgment>, now: Instant, later: Instant) {
    var j := Settled(cfg, s, g, reply, now);
    MayPublish(s, g, j) && Publishes(s, g.ticket.value, j, later)
  }

  function AfterSettle(cfg: Config, s: State, g: Group, reply: Option<Judgment>, rep: string, now: Instant, later: Instant): State {
    var j := Settled(cfg, s, g, reply, now);
    if MayPublish(s, g, j) then Published(cfg.settings, s, g.ticket.value, j, rep, later)
    else if g.ticket.Some? then Invalidated(s, g.ticket.value)
    else s
  }

  function FanOne(e: Event, g: Group, j: Judgment, reused: bool, rep: string, first: bool, cancelled: bool): Event {
    e.(judgment := if first || reused then j else Unknown(NeedsReview),
       reused := !first && reused,
       representative := if !first && reused then rep else e.representative,
       assessment := Some(Assessment(
         !cancelled, if g.ticket.Some? then Some(g.ticket.value.family) else None,
         g.d.occurrences, |g.d.samples|, g.d.evidenceLimited, g.d.samplesLimited, g.d.reason)))
  }

  function Fan(out: seq<Event>, g: Group, j: Judgment, reused: bool, cancelled: bool): (out': seq<Event>)
    requires g.indices != [] && forall k :: 0 <= k < |g.indices| ==> g.indices[k] < |out|
    ensures |out'| == |out|
  {
    seq(|out|, i requires 0 <= i < |out| =>
      if i in g.indices then FanOne(out[i], g, j, reused, out[g.indices[0]].id, i == g.indices[0], cancelled) else out[i])
  }

  datatype Settlement = Settlement(state: State, out: seq<Event>)

  predicate InRange(g: Group, n: nat) {
    g.indices != [] && forall k :: 0 <= k < |g.indices| ==> g.indices[k] < n
  }

  function SettleOne(cfg: Config, st: Settlement, n: nat, g: Group, reply: Option<Judgment>, inputs: Inputs): (st': Settlement)
    requires InRange(g, |st.out|)
    ensures |st'.out| == |st.out|
  {
    var j := Settled(cfg, st.state, g, reply, inputs.now);
    Settlement(
      AfterSettle(cfg, st.state, g, reply, st.out[g.indices[0]].id, inputs.now, inputs.later(n)),
      Fan(st.out, g, j, Reuses(cfg, st.state, g, reply, inputs.now, inputs.later(n)), inputs.cancelled))
  }

  function ReplyFor(js: Option<seq<Judgment>>, n: nat): Option<Judgment> {
    if js.Some? && n < |js.value| then Some(js.value[n]) else None
  }

  function SettleAll(cfg: Config, st: Settlement, groups: seq<Group>, js: Option<seq<Judgment>>, inputs: Inputs): (st': Settlement)
    requires forall n :: 0 <= n < |groups| ==> InRange(groups[n], |st.out|)
    ensures |st'.out| == |st.out|
  {
    if groups == [] then st
    else
      var n := |groups| - 1;
      SettleOne(cfg, SettleAll(cfg, st, groups[..n], js, inputs), n, groups[n], ReplyFor(js, n), inputs)
  }

  datatype Outcome = Outcome(state: State, store: VerdictStore.State, out: seq<Event>)

  ghost function Batched(cfg: Config, s: State, store: VerdictStore.State, events: seq<Event>, inputs: Inputs): Outcome {
    var entries := ReviewAll(cfg, events);
    var sc := ScanAll(cfg, s, entries, inputs.now);
    if sc.groups == [] then Outcome(sc.state, store, sc.out)
    else
      ScanShape(cfg, s, entries, inputs.now);
      var r := Answered(cfg, store, SentAll(sc.state, sc.groups), inputs);
      var st := SettleAll(cfg, Settlement(sc.state, sc.out), sc.groups, r.judgments, inputs);
      Outcome(st.state, r.store, st.out)
  }

  // ----- the scan partitions the lines -----

  /** A group's evidence counts its lines, and its lines are in order. */
  ghost predicate GroupShape(g: Group, n: nat) {
    && InRange(g, n) && g.d.occurrences == |g.indices|
    && (forall k, l :: 0 <= k < l < |g.indices| ==> g.indices[k] < g.indices[l])
    && g.d.family == (if g.ticket.Some? then Some(g.ticket.value.family) else None)
    && g.d.reason != Cached && g.d.mode == ModeFor(g.d.reason)
  }

  ghost predicate Shaped(sc: Scan) {
    && (forall n :: 0 <= n < |sc.groups| ==> GroupShape(sc.groups[n], |sc.out|))
    && (forall t :: t in sc.byTicket ==> sc.byTicket[t] < |sc.groups| && sc.groups[sc.byTicket[t]].ticket == Some(t))
  }

  lemma SightFacts(cfg: Settings, s: State, e: Event, now: Instant)
    ensures var o := Sight(cfg, s, e, now);
            && (o.cached.Some? ==> o.ticket.Some?)
            && (o.cached.None? ==> o.reason != Cached)
            && (o.cached.Some? ==> o.reason == Cached)
  {
    hide Admitted, CacheValidAt, Reusable, Before, IsZero, Identify;
    match Identify(cfg, e, now) {
      case Unidentified(r) => UnidentifiedReason(cfg, e, now);
      case Identified(_) =>
    }
  }

  lemma UnidentifiedReason(cfg: Settings, e: Event, now: Instant)
    ensures Identify(cfg, e, now).Unidentified? ==> Identify(cfg, e, now).reason != Cached
  {
  }

  lemma NewGroupShape(cfg: Config, e: Event, i: nat, ticket: Option<Ticket>, reason: Reason)
    requires reason != Cached
    ensures GroupShape(NewGroup(cfg, e, i, ticket, reason), i + 1)
  {
  }

  lemma JoinedShape(cfg: Config, g: Group, e: Event, i: nat)
    requires GroupShape(g, i)
    ensures GroupShape(Joined(cfg, g, e, i), i + 1) && Joined(cfg, g, e, i).ticket == g.ticket
  {
  }

  lemma WiderShape(g: Group, n: nat)
    requires GroupShape(g, n)
    ensures GroupShape(g, n + 1)
  {
  }

  lemma ScanOneShape(cfg: Config, sc: Scan, entry: Entry, now: Instant)
    requires Shaped(sc)
    ensures Shaped(ScanOne(cfg, sc, entry, now)) && |ScanOne(cfg, sc, entry, now).out| == |sc.out| + 1
  {
    hide GroupShape, Sight, Joined, NewGroup;
    SightFacts(cfg.settings, sc.state, entry.e, now);
    var o := Sight(cfg.settings, sc.state, entry.e, now);
    var i := |sc.out|;
    forall n | 0 <= n < |sc.groups|
      ensures GroupShape(sc.groups[n], i + 1)
      ensures GroupShape(Joined(cfg, sc.groups[n], entry.e, i), i + 1)
      ensures Joined(cfg, sc.groups[n], entry.e, i).ticket == sc.groups[n].ticket
    {
      WiderShape(sc.groups[n], i);
      JoinedShape(cfg, sc.groups[n], entry.e, i);
    }
    if o.cached.None? {
      NewGroupShape(cfg, entry.e, i, o.ticket, o.reason);
      assert NewGroup(cfg, entry.e, i, o.ticket, o.reason).ticket == o.ticket by { NewGroupTicket(cfg, entry.e, i, o.ticket, o.reason); }
    }
  }

  lemma NewGroupTicket(cfg: Config, e: Event, i: nat, ticket: Option<Ticket>, reason: Reason)
    ensures NewGroup(cfg, e, i, ticket, reason).ticket == ticket
    ensures NewGroup(cfg, e, i, ticket, reason).indices == [i]
  {
  }

  lemma {:induction false} ScanShape(cfg: Config, s: State, entries: seq<Entry>, now: Instant)
    ensures var sc := ScanAll(cfg, s, entries, now);
            && Shaped(sc) && |sc.out| == |entries|
            && forall n :: 0 <= n < |sc.groups| ==> InRange(sc.groups[n], |sc.out|)
  {
    hide ScanOne;
    if entries != [] {
      var front := entries[..|entries| - 1];
      ScanShape(cfg, s, front, now);
      ScanOneShape(cfg, ScanAll(cfg, s, front, now), entries[|entries| - 1], now);
    }
    var sc := ScanAll(cfg, s, entries, now);
    assert forall n :: 0 <= n < |sc.groups| ==> GroupShape(sc.groups[n], |sc.out|);
  }

  // ----- the code -----

  lemma SettleNone(cfg: Config, st: Settlement, groups: seq<Group>, js: Option<seq<Judgment>>, inputs: Inputs)
    ensures SettleAll(cfg, st, groups[..0], js, inputs) == st
  {
  }

  lemma SettleNext(cfg: Config, st: Settlement, groups: seq<Group>, js: Option<seq<Judgment>>, inputs: Inputs, n: nat)
    requires n < |groups| && forall m :: 0 <= m < |groups| ==> InRange(groups[m], |st.out|)
    ensures SettleAll(cfg, st, groups[..n + 1], js, inputs)
         == SettleOne(cfg, SettleAll(cfg, st, groups[..n], js, inputs), n, groups[n], ReplyFor(js, n), inputs)
  {
    hide SettleOne, InRange, ReplyFor;
    assert groups[..n + 1][..n] == groups[..n];
  }

  class Engine {
    const cfg: Config
    const groups: Grouper
    const store: VerdictStore.Store

    ghost predicate Valid()
      reads this, groups, store
    {
      && groups.Valid() && groups.cfg == cfg.settings && store.Valid()
      && (cfg.cache.Some? ==> store.ord == cfg.cache.value.ord && 0 < cfg.cache.value.ttl)
    }

    constructor (cfg: Config, store: VerdictStore.Store, vetoed: seq<Family>)
      requires 0 < cfg.settings.capacity && store.Valid()
      requires cfg.cache.Some? ==> store.ord == cfg.cache.value.ord && 0 < cfg.cache.value.ttl
      ensures Valid() && this.cfg == cfg && this.store == store && fresh(groups)
      ensures groups.Model() == Vetoed(EMPTY, set id | id in vetoed)
    {
      this.cfg, this.store := cfg, store;
      this.groups := new Grouper(cfg.settings);
      new;
      groups.Veto(vetoed);
    }

    method ReviewEvents(events: seq<Event>) returns (entries: seq<Entry>)
      ensures entries == ReviewAll(cfg, events)
    {
      entries := [];
      for i := 0 to |events|
        invariant entries == ReviewAll(cfg, events[..i])
      {
        assert events[..i + 1][..i] == events[..i];
        var entry := Entry(events[i], false);
        if cfg.human.Some? {
          var (e, marked) := cfg.human.value(events[i]);
          entry := Entry(e, marked);
        }
        entries := entries + [entry];
      }
      assert events[..|events|] == events;
    }

    method ScanLines(entries: seq<Entry>, now: Instant)
      returns (out: seq<Event>, found: seq<Group>, byTicket: map<Ticket, nat>)
      requires Valid()
      modifies groups
      ensures Valid() && unchanged(store)
      ensures Scan(groups.Model(), out, found, byTicket) == ScanAll(cfg, old(groups.Model()), entries, now)
    {
      ghost var before := groups.Model();
      out, found, byTicket := [], [], map[];
      for i := 0 to |entries|
        invariant Valid() && unchanged(store)
        invariant Scan(groups.Model(), out, found, byTicket) == ScanAll(cfg, before, entries[..i], now)
      {
        hide ScanOne, Inv, VerdictStore.Inv;
        assert entries[..i + 1][..i] == entries[..i];
        ScanShape(cfg, before, entries[..i], now);
        out, found, byTicket := ScanLine(entries[i], now, out, found, byTicket);
      }
      assert entries[..|entries|] == entries;
    }

    method ScanLine(entry: Entry, now: Instant, out: seq<Event>, found: seq<Group>, byTicket: map<Ticket, nat>)
      returns (out': seq<Event>, found': seq<Group>, byTicket': map<Ticket, nat>)
      requires Valid() && Shaped(Scan(groups.Model(), out, found, byTicket))
      modifies groups
      ensures Valid() && unchanged(store)
      ensures Scan(groups.Model(), out', found', byTicket')
           == ScanOne(cfg, Scan(old(groups.Model()), out, found, byTicket), entry, now)
    {
      hide Sight, Inv, NewGroup, Joined, FromCache, GroupShape, VerdictStore.Inv;
      var e := entry.e;
      out', found', byTicket' := out + [e], found, byTicket;
      if entry.reviewed {
        return;
      }
      SightFacts(cfg.settings, groups.Model(), e, now);
      var ticket, cached, reason := groups.Observe(e, now);
      if cached.Some? {
        out' := out + [FromCache(e, ticket.value.family, cached.value)];
        return;
      }
      if ticket.Some? && ticket.value in byTicket {
        var n := byTicket[ticket.value];
        found' := found[n := Joined(cfg, found[n], e, |out|)];
        return;
      }
      if ticket.Some? {
        byTicket' := byTicket[ticket.value := |found|];
      }
      found' := found + [NewGroup(cfg, e, |out|, ticket, reason)];
    }

    method AskJudge(ds: seq<Dossier>, inputs: Inputs) returns (js: Option<seq<Judgment>>)
      requires Valid() && Reading(inputs.judge.now)
      modifies store
      ensures Valid() && unchanged(groups)
      ensures Reply(store.Model(), js) == Answered(cfg, old(store.Model()), ds, inputs)
    {
      hide CachedJudge.Judged, VerdictStore.Inv;
      if inputs.cancelled {
        return None;
      }
      if cfg.cache.Some? {
        js := CachedJudge.Judge(cfg.cache.value, store, ds, inputs.provider, inputs.judge);
      } else {
        var reply := inputs.provider(ds);
        if reply.None? {
          return None;
        }
        js := Some(seq(|reply.value|, n requires 0 <= n < |reply.value| => Unbounded(reply.value[n])));
      }
      if js.Some? && |js.value| != |ds| {
        js := None;
      }
    }

    method FanOut(out: seq<Event>, g: Group, j: Judgment, reused: bool, cancelled: bool) returns (out': seq<Event>)
      requires InRange(g, |out|) && forall k, l :: 0 <= k < l < |g.indices| ==> g.indices[k] < g.indices[l]
      ensures out' == Fan(out, g, j, reused, cancelled)
    {
      out' := out;
      for k := 0 to |g.indices|
        invariant |out'| == |out|
        invariant forall i :: 0 <= i < |out| ==>
          out'[i] == if i in g.indices[..k]
                     then FanOne(out[i], g, j, reused, out[g.indices[0]].id, i == g.indices[0], cancelled) else out[i]
      {
        hide FanOne;
        var i := g.indices[k];
        assert g.indices[..k + 1] == g.indices[..k] + [i];
        assert i !in g.indices[..k];
        assert k == 0 <==> i == g.indices[0];
        out' := out'[i := FanOne(out'[i], g, j, reused, out[g.indices[0]].id, k == 0, cancelled)];
      }
      assert g.indices[..|g.indices|] == g.indices;
    }

    method SettleGroup(out: seq<Event>, n: nat, g: Group, reply: Option<Judgment>, inputs: Inputs) returns (out': seq<Event>)
      requires Valid() && GroupShape(g, |out|)
      modifies groups
      ensures Valid() && unchanged(store)
      ensures Settlement(groups.Model(), out') == SettleOne(cfg, Settlement(old(groups.Model()), out), n, g, reply, inputs)
    {
      hide Inv, Published, Publishes, Invalidated, Fan, Unsafe, Reusable, Downgraded;
      ghost var s := groups.Model();
      var j := Downgraded(g.d, Accepted(reply));
      var current := g.ticket.Some? && groups.Current(g.ticket.value);
      if g.ticket.Some? && !current {
        j := Unknown(StaleGeneration);
      }
      var reusable := !Unsafe(g.d) && current && Reusable(j.opinion);
      assert current == (g.ticket.Some? && IsCurrent(s, g.ticket.value));
      assert reusable == MayPublish(s, g, Downgraded(g.d, Accepted(reply)));
      if reusable {
        j := FromDispatch(j, inputs.now, cfg.settings.ttl);
        reusable := groups.Publish(g.ticket.value, j, out[g.indices[0]].id, inputs.later(n));
      } else if g.ticket.Some? {
        groups.Invalidate(g.ticket.value);
      }
      out' := FanOut(out, g, j, reusable, inputs.cancelled);
    }

    method Batch(events: seq<Event>, inputs: Inputs) returns (out: seq<Event>)
      requires Valid() && Reading(inputs.judge.now)
      modifies groups, store
      ensures Valid()
      ensures !cfg.offline ==>
        Outcome(groups.Model(), store.Model(), out) == Batched(cfg, old(groups.Model()), old(store.Model()), events, inputs)
      ensures cfg.offline ==>
        var entries := ReviewAll(cfg, events);
        && groups.Model() == old(groups.Model()) && store.Model() == old(store.Model()) && |out| == |events|
        && forall i :: 0 <= i < |events| ==>
             out[i] == if entries[i].reviewed then entries[i].e else entries[i].e.(judgment := OfflineJudgment(entries[i].e))
    {
      hide ScanAll, Answered, SettleAll, Inv, VerdictStore.Inv, Shaped;
      var entries := ReviewEvents(events);
      if cfg.offline {
        out := seq(|entries|, i requires 0 <= i < |entries| =>
          if entries[i].reviewed then entries[i].e else entries[i].e.(judgment := OfflineJudgment(entries[i].e)));
        return;
      }
      ghost var s, before := groups.Model(), store.Model();
      var found, byTicket;
      out, found, byTicket := ScanLines(entries, inputs.now);
      ghost var sc := ScanAll(cfg, s, entries, inputs.now);
      ScanShape(cfg, s, entries, inputs.now);
      if |found| == 0 {
        return;
      }
      var ds := Dossiers(found);
      var js := AskJudge(ds, inputs);
      out := SettleGroups(out, found, js, inputs, sc);
    }

    method Dossiers(found: seq<Group>) returns (ds: seq<Dossier>)
      requires Valid()
      ensures ds == SentAll(groups.Model(), found)
    {
      ds := [];
      for n := 0 to |found|
        invariant |ds| == n && forall m :: 0 <= m < n ==> ds[m] == Sent(groups.Model(), found[m])
      {
        var d := found[n].d;
        if found[n].ticket.Some? && !groups.Current(found[n].ticket.value) {
          // Durable caching runs before the final stale-ticket check.
          d := d.(mode := CacheBypass);
        }
        ds := ds + [d];
      }
    }

    method SettleGroups(out: seq<Event>, found: seq<Group>, js: Option<seq<Judgment>>, inputs: Inputs, ghost sc: Scan)
      returns (out': seq<Event>)
      requires Valid() && Shaped(sc) && sc == Scan(groups.Model(), out, found, sc.byTicket)
      requires forall n :: 0 <= n < |found| ==> InRange(found[n], |out|)
      modifies groups
      ensures Valid() && unchanged(store)
      ensures Settlement(groups.Model(), out') == SettleAll(cfg, Settlement(old(groups.Model()), out), found, js, inputs)
    {
      hide Inv, SettleOne, SettleAll, InRange, GroupShape, VerdictStore.Inv, ReplyFor;
      ghost var st := Settlement(groups.Model(), out);
      out' := out;
      SettleNone(cfg, st, found, js, inputs);
      for n := 0 to |found|
        invariant Valid() && unchanged(store) && |out'| == |out|
        invariant Settlement(groups.Model(), out') == SettleAll(cfg, st, found[..n], js, inputs)
      {
        SettleNext(cfg, st, found, js, inputs, n);
        assert GroupShape(sc.groups[n], |out|);
        out' := SettleGroup(out', n, found[n], ReplyFor(js, n), inputs);
      }
      assert found[..|found|] == found;
    }
  }
}
