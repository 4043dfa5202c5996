/**
 What a batch does to its lines: it partitions them among the table and the
 dossiers, keeps what they say, and never lets unsafe evidence look routine.
 */
module Batches {
  import opened Wrappers
  import opened Clock
  import opened Verdict
  import opened Events
  import opened Dossiers
  import opened Grouper
  import opened Engine
  import VerdictStore
  import CachedJudge

  // ----- where the next line goes -----

  /** The group that takes line number `|sc.out|`, if any. */
  ghost function Target(cfg: Config, sc: Scan, entry: Entry, now: Instant): Option<nat> {
    var o := Sight(cfg.settings, sc.state, entry.e, now);
    if entry.reviewed || o.cached.Some? then None
    else if o.ticket.Some? && o.ticket.value in sc.byTicket then Some(sc.byTicket[o.ticket.value])
    else Some(|sc.groups|)
  }

  lemma ScanOneIndices(cfg: Config, sc: Scan, entry: Entry, now: Instant)
    requires Shaped(sc)
    ensures var sc' := ScanOne(cfg, sc, entry, now);
            var t := Target(cfg, sc, entry, now);
            && |sc.groups| <= |sc'.groups| <= |sc.groups| + 1
            && (t.Some? ==> t.value < |sc'.groups|)
            && (t.None? || t.value < |sc.groups| ==> |sc'.groups| == |sc.groups|)
            && forall n :: 0 <= n < |sc'.groups| ==>
                 sc'.groups[n].indices ==
                   (if n < |sc.groups| then sc.groups[n].indices else []) + (if t == Some(n) then [|sc.out|] else [])
  {
    hide GroupShape, Sight, Observed;
    SightFacts(cfg.settings, sc.state, entry.e, now);
  }

  lemma ScanOneOut(cfg: Config, sc: Scan, entry: Entry, now: Instant)
    requires Shaped(sc)
    ensures var sc' := ScanOne(cfg, sc, entry, now);
            var served := ServedNext(cfg, sc, entry, now);
            && |sc'.out| == |sc.out| + 1 && sc'.out[..|sc.out|] == sc.out
            && (served.None? ==> sc'.out[|sc.out|] == entry.e)
            && (served.Some? ==> exists fam :: sc'.out[|sc.out|] == FromCache(entry.e, fam, served.value))
            && (served.None? && !entry.reviewed <==> Target(cfg, sc, entry, now).Some?)
  {
    hide GroupShape, Sight, Observed, NewGroup, Joined, FromCache;
    SightFacts(cfg.settings, sc.state, entry.e, now);
    if ServedNext(cfg, sc, entry, now).Some? {
      var fam := Sight(cfg.settings, sc.state, entry.e, now).ticket.value.family;
      assert ScanOne(cfg, sc, entry, now).out[|sc.out|]
          == FromCache(entry.e, fam, ServedNext(cfg, sc, entry, now).value);
    }
  }

  /** What the table served to line `i`. */
  ghost function Served(cfg: Config, s: State, entries: seq<Entry>, i: nat, now: Instant): Option<Judgment>
    requires i < |entries|
  {
    ServedNext(cfg, ScanAll(cfg, s, entries[..i], now), entries[i], now)
  }

  ghost predicate Owns(groups: seq<Group>, n: nat, i: nat) {
    n < |groups| && i in groups[n].indices
  }

  ghost predicate Owned(groups: seq<Group>, i: nat) {
    exists n :: Owns(groups, n, i)
  }

  /** No line is in two groups. */
  ghost predicate Disjoint(groups: seq<Group>) {
    forall m, n, i :: Owns(groups, m, i) && Owns(groups, n, i) ==> m == n
  }

  lemma OwnsNext(cfg: Config, sc: Scan, entry: Entry, now: Instant, n: nat, i: nat)
    requires Shaped(sc)
    ensures Owns(ScanOne(cfg, sc, entry, now).groups, n, i) <==>
              Owns(sc.groups, n, i) || (i == |sc.out| && Target(cfg, sc, entry, now) == Some(n))
  {
    ScanOneIndices(cfg, sc, entry, now);
  }

  lemma OwnsBelow(sc: Scan, n: nat, i: nat)
    requires Shaped(sc) && Owns(sc.groups, n, i)
    ensures i < |sc.out|
  {
    assert GroupShape(sc.groups[n], |sc.out|);
  }

  lemma DisjointNext(cfg: Config, sc: Scan, entry: Entry, now: Instant)
    requires Shaped(sc) && Disjoint(sc.groups)
    ensures Disjoint(ScanOne(cfg, sc, entry, now).groups)
  {
    hide Shaped, ScanOne, Target, Owns;
    var after := ScanOne(cfg, sc, entry, now).groups;
    forall m, n, i | Owns(after, m, i) && Owns(after, n, i) ensures m == n {
      OwnsNext(cfg, sc, entry, now, m, i);
      OwnsNext(cfg, sc, entry, now, n, i);
      if Owns(sc.groups, m, i) {
        OwnsBelow(sc, m, i);
      }
      if Owns(sc.groups, n, i) {
        OwnsBelow(sc, n, i);
      }
    }
  }

  /**
   Line `i` is in no group when a person marked it or the table served it, and in
   exactly one otherwise; only the table changes a line before it is judged.
   */
  ghost predicate Placed(cfg: Config, s: State, entries: seq<Entry>, i: nat, now: Instant)
    requires i < |entries|
  {
    var sc := ScanAll(cfg, s, entries, now);
    var served := Served(cfg, s, entries, i, now);
    && |sc.out| == |entries|
    && (served.Some? ==> exists fam :: sc.out[i] == FromCache(entries[i].e, fam, served.value))
    && (served.None? ==> sc.out[i] == entries[i].e)
    && (Owned(sc.groups, i) <==> served.None? && !entries[i].reviewed)
  }

  lemma {:induction false} ScanPlaces(cfg: Config, s: State, entries: seq<Entry>, i: nat, now: Instant)
    requires i < |entries|
    ensures Placed(cfg, s, entries, i, now)
    ensures Disjoint(ScanAll(cfg, s, entries, now).groups)
    decreases |entries|
  {
    hide ScanOne, Owns, Owned, Disjoint, ServedNext, Target, FromCache, Shaped, InRange, GroupShape;
    var last := |entries| - 1;
    var front := entries[..last];
    var before, after := ScanAll(cfg, s, front, now), ScanAll(cfg, s, entries, now);
    assert after == ScanOne(cfg, before, entries[last], now);
    ScanShape(cfg, s, front, now);
    ScanOneOut(cfg, before, entries[last], now);
    ScanDisjoint(cfg, s, front, now);
    DisjointNext(cfg, before, entries[last], now);
    OwnedNext(cfg, before, entries[last], now, i);
    if i < last {
      ScanPlaces(cfg, s, front, i, now);
      assert front[..i] == entries[..i] && front[i] == entries[i];
      assert after.out[i] == before.out[i];
    }
  }

  lemma OwnedNext(cfg: Config, sc: Scan, entry: Entry, now: Instant, i: nat)
    requires Shaped(sc)
    ensures i < |sc.out| ==> (Owned(ScanOne(cfg, sc, entry, now).groups, i) <==> Owned(sc.groups, i))
    ensures i == |sc.out| ==>
              (Owned(ScanOne(cfg, sc, entry, now).groups, i) <==> Target(cfg, sc, entry, now).Some?)
  {
    hide Owns, ScanOne, Shaped, Target;
    var after := ScanOne(cfg, sc, entry, now).groups;
    if Owned(after, i) {
      var n :| Owns(after, n, i);
      OwnsNext(cfg, sc, entry, now, n, i);
      if Owns(sc.groups, n, i) {
        OwnsBelow(sc, n, i);
      }
    }
    if Owned(sc.groups, i) {
      var n :| Owns(sc.groups, n, i);
      OwnsNext(cfg, sc, entry, now, n, i);
    }
    if i == |sc.out| && Target(cfg, sc, entry, now).Some? {
      OwnsNext(cfg, sc, entry, now, Target(cfg, sc, entry, now).value, i);
    }
  }

  lemma {:induction false} ScanDisjoint(cfg: Config, s: State, entries: seq<Entry>, now: Instant)
    ensures Disjoint(ScanAll(cfg, s, entries, now).groups)
  {
    hide ScanOne;
    if entries != [] {
      var front := entries[..|entries| - 1];
      ScanDisjoint(cfg, s, front, now);
      ScanShape(cfg, s, front, now);
      DisjointNext(cfg, ScanAll(cfg, s, front, now), entries[|entries| - 1], now);
    }
  }

  // ----- window occurrences add up -----

  function Occurrences(groups: seq<Group>): nat {
    if groups == [] then 0 else Occurrences(groups[..|groups| - 1]) + groups[|groups| - 1].d.occurrences
  }

  ghost function Uncached(cfg: Config, s: State, entries: seq<Entry>, now: Instant): nat {
    if entries == [] then 0
    else
      var last := |entries| - 1;
      Uncached(cfg, s, entries[..last], now)
      + (if !entries[last].reviewed && Served(cfg, s, entries, last, now).None? then 1 else 0)
  }

  lemma {:induction false} OccurrencesJoin(groups: seq<Group>, n: nat, g: Group)
    requires n < |groups| && g.d.occurrences == groups[n].d.occurrences + 1
    ensures Occurrences(groups[n := g]) == Occurrences(groups) + 1
  {
    var last := |groups| - 1;
    if n == last {
      assert groups[n := g][..last] == groups[..last];
    } else {
      assert groups[n := g][..last] == groups[..last][n := g];
      OccurrencesJoin(groups[..last], n, g);
    }
  }

  /** The dossiers' window occurrences sum to the lines that were neither marked nor served. */
  lemma {:induction false} OccurrencesSum(cfg: Config, s: State, entries: seq<Entry>, now: Instant)
    ensures Occurrences(ScanAll(cfg, s, entries, now).groups) == Uncached(cfg, s, entries, now)
  {
    hide Sight;
    if entries != [] {
      var last := |entries| - 1;
      var entry := entries[last];
      OccurrencesSum(cfg, s, entries[..last], now);
      ScanShape(cfg, s, entries[..last], now);
      var before := ScanAll(cfg, s, entries[..last], now);
      SightFacts(cfg.settings, before.state, entry.e, now);
      OccurrencesNext(cfg, before, entry, now);
    }
  }

  lemma OccurrencesNext(cfg: Config, sc: Scan, entry: Entry, now: Instant)
    requires Shaped(sc)
    ensures Occurrences(ScanOne(cfg, sc, entry, now).groups)
         == Occurrences(sc.groups) + (if !entry.reviewed && ServedNext(cfg, sc, entry, now).None? then 1 else 0)
  {
    hide Sight, GroupShape;
    var o := Sight(cfg.settings, sc.state, entry.e, now);
    SightFacts(cfg.settings, sc.state, entry.e, now);
    if !entry.reviewed && o.cached.None? {
      if o.ticket.Some? && o.ticket.value in sc.byTicket {
        var n := sc.byTicket[o.ticket.value];
        OccurrencesJoin(sc.groups, n, Joined(cfg, sc.groups[n], entry.e, |sc.out|));
      } else {
        var g := NewGroup(cfg, entry.e, |sc.out|, o.ticket, o.reason);
        assert (sc.groups + [g])[..|sc.groups|] == sc.groups;
      }
    }
  }

  // ----- what settling does to one line -----

  ghost predicate AllInRange(groups: seq<Group>, n: nat) {
    forall k :: 0 <= k < |groups| ==> InRange(groups[k], n)
  }

  /** The judgment that settles group `n`. */
  function GroupJudgment(cfg: Config, st: Settlement, groups: seq<Group>, js: Option<seq<Judgment>>, inputs: Inputs, n: nat): Judgment
    requires AllInRange(groups, |st.out|) && n < |groups|
  {
    Settled(cfg, SettleAll(cfg, st, groups[..n], js, inputs).state, groups[n], ReplyFor(js, n), inputs.now)
  }

  predicate GroupReused(cfg: Config, st: Settlement, groups: seq<Group>, js: Option<seq<Judgment>>, inputs: Inputs, n: nat)
    requires AllInRange(groups, |st.out|) && n < |groups|
  {
    Reuses(cfg, SettleAll(cfg, st, groups[..n], js, inputs).state, groups[n], ReplyFor(js, n), inputs.now, inputs.later(n))
  }

  /** What became of line `i` of group `n`. */
  ghost predicate FannedOut(cfg: Config, st: Settlement, groups: seq<Group>, js: Option<seq<Judgment>>, inputs: Inputs, n: nat, i: nat)
    requires AllInRange(groups, |st.out|) && n < |groups| && i < |st.out|
  {
    var first := groups[n].indices[0];
    SettleAll(cfg, st, groups, js, inputs).out[i]
      == FanOne(st.out[i], groups[n], GroupJudgment(cfg, st, groups, js, inputs, n),
                GroupReused(cfg, st, groups, js, inputs, n), st.out[first].id, i == first, inputs.cancelled)
  }

  lemma FanAt(out: seq<Event>, g: Group, j: Judgment, reused: bool, cancelled: bool, i: nat)
    requires InRange(g, |out|) && i < |out|
    ensures i in g.indices ==>
              Fan(out, g, j, reused, cancelled)[i]
                == FanOne(out[i], g, j, reused, out[g.indices[0]].id, i == g.indices[0], cancelled)
    ensures i !in g.indices ==> Fan(out, g, j, reused, cancelled)[i] == out[i]
    ensures Fan(out, g, j, reused, cancelled)[i].id == out[i].id
  {
  }

  lemma {:induction false} SettleKeepsId(cfg: Config, st: Settlement, groups: seq<Group>, js: Option<seq<Judgment>>, inputs: Inputs, i: nat)
    requires AllInRange(groups, |st.out|) && i < |st.out|
    ensures SettleAll(cfg, st, groups, js, inputs).out[i].id == st.out[i].id
    ensures !Owned(groups, i) ==> SettleAll(cfg, st, groups, js, inputs).out[i] == st.out[i]
  {
    hide Fan, AfterSettle, Reuses, Settled, FanOne, InRange;
    if groups != [] {
      var n := |groups| - 1;
      SettleKeepsId(cfg, st, groups[..n], js, inputs, i);
      var mid := SettleAll(cfg, st, groups[..n], js, inputs);
      var g := groups[n];
      FanAt(mid.out, g, Settled(cfg, mid.state, g, ReplyFor(js, n), inputs.now),
            Reuses(cfg, mid.state, g, ReplyFor(js, n), inputs.now, inputs.later(n)), inputs.cancelled, i);
      if Owned(groups[..n], i) {
        var m :| Owns(groups[..n], m, i);
        assert Owns(groups, m, i);
      }
      if i in g.indices {
        assert Owns(groups, n, i);
      }
    }
  }

  lemma {:induction false} SettleFansOut(cfg: Config, st: Settlement, groups: seq<Group>, js: Option<seq<Judgment>>, inputs: Inputs, n: nat, i: nat)
    requires AllInRange(groups, |st.out|) && i < |st.out| && Disjoint(groups) && Owns(groups, n, i)
    ensures FannedOut(cfg, st, groups, js, inputs, n, i)
    decreases |groups|
  {
    hide Fan, AfterSettle, Reuses, Settled, FanOne;
    var last := |groups| - 1;
    var front := groups[..last];
    var mid := SettleAll(cfg, st, front, js, inputs);
    var g := groups[last];
    FanAt(mid.out, g, Settled(cfg, mid.state, g, ReplyFor(js, last), inputs.now),
          Reuses(cfg, mid.state, g, ReplyFor(js, last), inputs.now, inputs.later(last)), inputs.cancelled, i);
    assert forall m, k :: Owns(front, m, k) ==> Owns(groups, m, k);
    if n == last {
      assert !Owned(front, i);
      SettleKeepsId(cfg, st, front, js, inputs, i);
      SettleKeepsId(cfg, st, front, js, inputs, g.indices[0]);
    } else {
      assert front[n] == groups[n] && Owns(front, n, i);
      assert !Owns(groups, last, i);
      SettleFansOut(cfg, st, front, js, inputs, n, i);
      assert front[..n] == groups[..n];
    }
  }

  // ----- the whole batch -----

  /** The settlement of an online batch. */
  ghost function Final(cfg: Config, s: State, store: VerdictStore.State, events: seq<Event>, inputs: Inputs): Settlement {
    var entries := ReviewAll(cfg, events);
    var sc := ScanAll(cfg, s, entries, inputs.now);
    ScanShape(cfg, s, entries, inputs.now);
    SettleAll(cfg, Settlement(sc.state, sc.out), sc.groups, Replies(cfg, s, store, events, inputs), inputs)
  }

  ghost function Replies(cfg: Config, s: State, store: VerdictStore.State, events: seq<Event>, inputs: Inputs): Option<seq<Judgment>> {
    var sc := ScanAll(cfg, s, ReviewAll(cfg, events), inputs.now);
    Answered(cfg, store, SentAll(sc.state, sc.groups), inputs).judgments
  }

  lemma BatchedIsFinal(cfg: Config, s: State, store: VerdictStore.State, events: seq<Event>, inputs: Inputs)
    ensures Batched(cfg, s, store, events, inputs).out == Final(cfg, s, store, events, inputs).out
    ensures Batched(cfg, s, store, events, inputs).state == Final(cfg, s, store, events, inputs).state
  {
  }

  predicate SameEvidence(a: Event, b: Event) {
    a.id == b.id && a.source == b.source && a.text == b.text
  }

  lemma UnsafeNeverRoutine(cfg: Config, s: State, g: Group, reply: Option<Judgment>, now: Instant, later: Instant)
    requires Unsafe(g.d)
    ensures Settled(cfg, s, g, reply, now).opinion.importance != Routine
    ensures !Reuses(cfg, s, g, reply, now, later)
  {
  }

  /** How a line of a dossier leaves a batch. */
  ghost predicate LeavesGroup(g: Group, e: Event) {
    && e.assessment.Some? && e.assessment.value.reason == g.d.reason != Cached
    && (Unsafe(g.d) ==> e.judgment.opinion.importance != Routine && !e.reused)
  }

  /** How line `i` leaves a batch as `e`. */
  ghost predicate LeavesAs(entry: Entry, served: Option<Judgment>, groups: seq<Group>, i: nat, e: Event) {
    && SameEvidence(e, entry.e)
    && (entry.reviewed ==> e == entry.e)
    && (served.Some? ==> e.judgment == served.value && e.reused
                         && e.assessment.Some? && e.assessment.value.reason == Cached)
    && (Owned(groups, i) <==> served.None? && !entry.reviewed)
    && (forall n: nat :: Owns(groups, n, i) ==> LeavesGroup(groups[n], e))
  }

  /**
   A batch partitions its lines.  The output has the input's length and order.
   Every line keeps its identity, source and text, and exactly one of these
   holds: a person marked it, the table served it, or it is in exactly one
   dossier.  The dossiers' occurrences sum to the lines that were neither marked
   nor served, and no line of an unsafe dossier leaves as routine or reused.
   */
  lemma {:induction false} BatchAccountsFor(
      cfg: Config, s: State, store: VerdictStore.State, events: seq<Event>, inputs: Inputs, i: nat)
    requires i < |events|
    ensures |Batched(cfg, s, store, events, inputs).out| == |events|
    ensures var entries := ReviewAll(cfg, events);
            var groups := ScanAll(cfg, s, entries, inputs.now).groups;
            && LeavesAs(entries[i], Served(cfg, s, entries, i, inputs.now), groups, i,
                        Batched(cfg, s, store, events, inputs).out[i])
            && Disjoint(groups)
            && Occurrences(groups) == Uncached(cfg, s, entries, inputs.now)
  {
    hide Batched, SettleAll, ScanAll, Occurrences, Uncached, Disjoint, LeavesAs, Shaped, Replies;
    var entries := ReviewAll(cfg, events);
    var sc := ScanAll(cfg, s, entries, inputs.now);
    var js := Replies(cfg, s, store, events, inputs);
    OccurrencesSum(cfg, s, entries, inputs.now);
    ScanShape(cfg, s, entries, inputs.now);
    ScanPlaces(cfg, s, entries, i, inputs.now);
    BatchedIsFinal(cfg, s, store, events, inputs);
    SettledLine(cfg, sc, js, inputs, entries[i], Served(cfg, s, entries, i, inputs.now), i);
  }

  lemma SettledLine(
      cfg: Config, sc: Scan, js: Option<seq<Judgment>>, inputs: Inputs,
      entry: Entry, served: Option<Judgment>, i: nat)
    requires Shaped(sc) && AllInRange(sc.groups, |sc.out|) && Disjoint(sc.groups) && i < |sc.out|
    requires served.Some? ==> exists fam :: sc.out[i] == FromCache(entry.e, fam, served.value)
    requires served.None? ==> sc.out[i] == entry.e
    requires Owned(sc.groups, i) <==> served.None? && !entry.reviewed
    requires served.Some? ==> !entry.reviewed
    ensures LeavesAs(entry, served, sc.groups, i,
                     SettleAll(cfg, Settlement(sc.state, sc.out), sc.groups, js, inputs).out[i])
  {
    hide SettleAll, Shaped, Disjoint, LeavesGroup, InRange;
    var st := Settlement(sc.state, sc.out);
    SettleKeepsId(cfg, st, sc.groups, js, inputs, i);
    forall n: nat | Owns(sc.groups, n, i)
      ensures LeavesGroup(sc.groups[n], SettleAll(cfg, st, sc.groups, js, inputs).out[i])
      ensures SameEvidence(SettleAll(cfg, st, sc.groups, js, inputs).out[i], sc.out[i])
    {
      GroupLine(cfg, sc, st, js, inputs, n, i);
    }
  }

  lemma GroupLine(cfg: Config, sc: Scan, st: Settlement, js: Option<seq<Judgment>>, inputs: Inputs, n: nat, i: nat)
    requires Shaped(sc) && AllInRange(sc.groups, |sc.out|) && Disjoint(sc.groups)
    requires st == Settlement(sc.state, sc.out) && i < |sc.out| && Owns(sc.groups, n, i)
    ensures LeavesGroup(sc.groups[n], SettleAll(cfg, st, sc.groups, js, inputs).out[i])
    ensures SameEvidence(SettleAll(cfg, st, sc.groups, js, inputs).out[i], sc.out[i])
  {
    SettleFansOut(cfg, st, sc.groups, js, inputs, n, i);
    assert GroupShape(sc.groups[n], |sc.out|);
    if Unsafe(sc.groups[n].d) {
      var mid := SettleAll(cfg, st, sc.groups[..n], js, inputs);
      UnsafeNeverRoutine(cfg, mid.state, sc.groups[n], ReplyFor(js, n), inputs.now, inputs.later(n));
    }
    hide SettleAll, Unsafe, Settled, Reuses, Disjoint, Shaped, InRange;
  }

  // ----- stale tickets -----

  /** Settling never makes a ticket current or stale. */
  lemma SettleOneCurrent(cfg: Config, st: Settlement, n: nat, g: Group, reply: Option<Judgment>, inputs: Inputs, t: Ticket)
    requires InRange(g, |st.out|)
    ensures IsCurrent(SettleOne(cfg, st, n, g, reply, inputs).state, t) == IsCurrent(st.state, t)
  {
    var j := Settled(cfg, st.state, g, reply, inputs.now);
    if g.ticket.Some? {
      PublishedSameResidents(cfg.settings, st.state, g.ticket.value, j, st.out[g.indices[0]].id, inputs.later(n));
      assert SameResidents(st.state, Invalidated(st.state, g.ticket.value));
    }
    hide Published, Invalidated, Settled, MayPublish, Fan, Reuses;
  }

  lemma {:induction false} SettleCurrent(cfg: Config, st: Settlement, groups: seq<Group>, js: Option<seq<Judgment>>, inputs: Inputs, t: Ticket)
    requires AllInRange(groups, |st.out|)
    ensures IsCurrent(SettleAll(cfg, st, groups, js, inputs).state, t) == IsCurrent(st.state, t)
  {
    hide IsCurrent, SettleOne, InRange;
    if groups != [] {
      var n := |groups| - 1;
      SettleCurrent(cfg, st, groups[..n], js, inputs, t);
      SettleOneCurrent(cfg, SettleAll(cfg, st, groups[..n], js, inputs), n, groups[n], ReplyFor(js, n), inputs, t);
    }
  }

  /**
   A group whose ticket a later line of the same batch evicted is sent in bypass
   mode, so its answer can neither be taken from nor become a durable row, and
   its lines leave marked as stale or for independent review.
   */
  lemma {:induction false} StaleGroupsStayOut(
      cfg: Config, s: State, store: VerdictStore.State, events: seq<Event>, inputs: Inputs, n: nat, i: nat,
      judge: CachedJudge.Config)
    requires i < |events|
    requires var sc := ScanAll(cfg, s, ReviewAll(cfg, events), inputs.now);
             Owns(sc.groups, n, i) && sc.groups[n].ticket.Some? && !IsCurrent(sc.state, sc.groups[n].ticket.value)
    ensures var sc := ScanAll(cfg, s, ReviewAll(cfg, events), inputs.now);
            && CachedJudge.PublishKey(judge, SentAll(sc.state, sc.groups)[n]).None?
            && CachedJudge.Reassesses(judge, SentAll(sc.state, sc.groups)[n])
    ensures var out := Batched(cfg, s, store, events, inputs).out;
            && |out| == |events|
            && (out[i].judgment == Unknown(StaleGeneration) || out[i].judgment == Unknown(NeedsReview))
            && !out[i].reused
  {
    var entries := ReviewAll(cfg, events);
    var sc := ScanAll(cfg, s, entries, inputs.now);
    var st := Settlement(sc.state, sc.out);
    var js := Replies(cfg, s, store, events, inputs);
    ScanShape(cfg, s, entries, inputs.now);
    ScanPlaces(cfg, s, entries, i, inputs.now);
    BatchedIsFinal(cfg, s, store, events, inputs);
    SettleFansOut(cfg, st, sc.groups, js, inputs, n, i);
    SettleCurrent(cfg, st, sc.groups[..n], js, inputs, sc.groups[n].ticket.value);
    hide Batched, SettleAll, ScanAll, Answered, Disjoint, Shaped, InRange, IsCurrent, Reusable, Downgraded;
  }

  // ----- the clock was set back -----

  lemma AdmittedMark(cfg: Config, s: State, e: Event, now: Instant, wall: int)
    requires MarkedAt(s, wall) && now.wall < wall
    ensures var o := Sight(cfg.settings, s, e, now);
            && MarkedAt(o.state, wall) && o.cached.None?
            && (o.ticket.Some? ==> o.reason == ClockRollback || o.reason == ReviewRequired)
  {
    hide CacheValidAt, Reusable, Identify, Admitted;
    match Identify(cfg.settings, e, now) {
      case Unidentified(_) =>
      case Identified(fam) => AdmittedObserved(cfg.settings, s, fam);
    }
  }

  ghost predicate Reassessing(groups: seq<Group>) {
    forall n :: 0 <= n < |groups| && groups[n].ticket.Some? ==> groups[n].d.mode != CacheDefault
  }

  lemma {:induction false} RollbackScan(cfg: Config, s: State, entries: seq<Entry>, now: Instant, wall: int)
    requires MarkedAt(s, wall) && now.wall < wall
    ensures var sc := ScanAll(cfg, s, entries, now);
            MarkedAt(sc.state, wall) && Reassessing(sc.groups)
  {
    if entries != [] {
      var last := |entries| - 1;
      var front := entries[..last];
      RollbackScan(cfg, s, front, now, wall);
      ScanShape(cfg, s, front, now);
      var sc := ScanAll(cfg, s, front, now);
      AdmittedMark(cfg, sc.state, entries[last].e, now, wall);
      RollbackScanOne(cfg, sc, entries[last], now);
      hide Sight, MarkedAt, Observed, Reassessing, Shaped, FromCache, NewGroup, Joined;
      assert ScanAll(cfg, s, entries, now) == ScanOne(cfg, sc, entries[last], now);
    }
  }

  lemma RollbackServesNothing(cfg: Config, s: State, entries: seq<Entry>, i: nat, now: Instant, wall: int)
    requires MarkedAt(s, wall) && now.wall < wall && i < |entries|
    ensures Served(cfg, s, entries, i, now).None?
  {
    RollbackScan(cfg, s, entries[..i], now, wall);
    AdmittedMark(cfg, ScanAll(cfg, s, entries[..i], now).state, entries[i].e, now, wall);
    hide ScanAll, Sight, MarkedAt;
  }

  lemma RollbackScanOne(cfg: Config, sc: Scan, entry: Entry, now: Instant)
    requires Shaped(sc) && Reassessing(sc.groups)
    requires var o := Sight(cfg.settings, sc.state, entry.e, now);
             o.cached.None? && (o.ticket.Some? ==> o.reason == ClockRollback || o.reason == ReviewRequired)
    ensures Reassessing(ScanOne(cfg, sc, entry, now).groups)
  {
    hide Sight, GroupShape;
  }

  /**
   After the wall clock was set back behind a time the table has seen, no line of
   a batch is served from the table, and every dossier with a family reaches the
   durable cache in a mode that deletes its row before the provider is asked and
   never looks it up.
   */
  lemma {:induction false} RollbackReassesses(
      cfg: Config, s: State, events: seq<Event>, now: Instant, wall: int,
      judge: CachedJudge.Config, store: VerdictStore.State, inputs: CachedJudge.Inputs, n: nat)
    requires MarkedAt(s, wall) && now.wall < wall
    requires var sc := ScanAll(cfg, s, ReviewAll(cfg, events), now);
             n < |sc.groups| && sc.groups[n].ticket.Some?
             && CachedJudge.TakeAll(judge, store, SentAll(sc.state, sc.groups), inputs).ok
    ensures var sc := ScanAll(cfg, s, ReviewAll(cfg, events), now);
            var ds := SentAll(sc.state, sc.groups);
            var it := CachedJudge.TakeAll(judge, store, ds, inputs);
            && (forall i :: 0 <= i < |events| ==> Served(cfg, s, ReviewAll(cfg, events), i, now).None?)
            && n in it.indices
            && CachedJudge.DurableKey(judge, ds[n]).Some?
            && CachedJudge.DurableKey(judge, ds[n]).value !in it.store.verdicts.rows
  {
    var entries := ReviewAll(cfg, events);
    RollbackScan(cfg, s, entries, now, wall);
    forall i | 0 <= i < |events| ensures Served(cfg, s, entries, i, now).None? {
      RollbackServesNothing(cfg, s, entries, i, now, wall);
    }
    ScanShape(cfg, s, entries, now);
    var sc := ScanAll(cfg, s, entries, now);
    assert GroupShape(sc.groups[n], |sc.out|);
    var ds := SentAll(sc.state, sc.groups);
    CachedJudge.ReassessedRowsAreGone(judge, store, ds, inputs);
    hide ScanAll, Shaped, MarkedAt, IsCurrent, CachedJudge.TakeAll, Served;
    assert CachedJudge.Reassesses(judge, ds[n]);
  }
}
