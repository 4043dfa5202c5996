/** One call of the judge with a durable cache, step by step: what it leaves in the store, and when it succeeds. */
module Calls {
  import opened Wrappers
  import opened Clock
  import opened Verdict
  import opened Events
  import opened Tables
  import opened Dossiers
  import opened VerdictStore
  import opened CachedJudge
  import opened Asked
  import Lasting

  // ----- the intake -----

  /** What one dossier does to the store: nothing, a lookup of its row or the deletion of it. */
  ghost predicate Intaken(cfg: Config, d: Dossier, s: State, s': State, now: Instant, db: Db) {
    if d.family.None? then s' == s
    else exists key :: RowFor(cfg, d, key) && LooksOrDeletes(cfg, d, key, s, s', now, db)
  }

  ghost predicate LooksOrDeletes(cfg: Config, d: Dossier, key: Key, s: State, s': State, now: Instant, db: Db) {
    if MayReuse(cfg, d) then Found(s, key, now, cfg.ttl, db).ok && Found(s, key, now, cfg.ttl, db).state == s'
    else db != WriteFails && key !in s'.verdicts.rows && key !in s'.lifetimes && Lasting.OthersStay(s, s', key)
  }

  lemma ServedMoves(cfg: Config, s: State, d: Dossier, i: nat, inputs: Inputs)
    requires Served(cfg, s, d, i, inputs).ok
    ensures Intaken(cfg, d, s, Served(cfg, s, d, i, inputs).state, inputs.now, inputs.readDb(i))
  {
    if d.family.Some? {
      var key := DurableKey(cfg, d).value;
      assert RowFor(cfg, d, key);
      Lasting.RemovedIsGone(s, key, inputs.readDb(i));
      assert LooksOrDeletes(cfg, d, key, s, Served(cfg, s, d, i, inputs).state, inputs.now, inputs.readDb(i));
    }
    hide Found, Removed, Lasting.OthersStay, RowFor;
  }

  /**
   In a call whose intake succeeds every dossier moves the store once, in order: one that may
   be answered from its row looks it up, any other one with a family deletes it first, and
   none of the statements failed.
   */
  lemma {:induction false} IntakeMoves(cfg: Config, s: State, ds: seq<Dossier>, inputs: Inputs, i: nat)
    requires TakeAll(cfg, s, ds, inputs).ok && i < |ds|
    ensures Intaken(cfg, ds[i], Asked.Before(cfg, s, ds, inputs, i), Asked.Before(cfg, s, ds, inputs, i + 1), inputs.now, inputs.readDb(i))
    ensures Asked.Before(cfg, s, ds, inputs, 0) == s && Asked.Before(cfg, s, ds, inputs, |ds|) == TakeAll(cfg, s, ds, inputs).store
    decreases |ds|
  {
    hide Served, Intaken, PublishKey;
    var front, last := ds[..|ds| - 1], |ds| - 1;
    assert ds[..|ds|] == ds;
    if i == last {
      IntakeShape(cfg, s, front, inputs);
      ServedMoves(cfg, TakeAll(cfg, s, front, inputs).store, ds[last], last, inputs);
    } else {
      IntakeMoves(cfg, s, front, inputs, i);
      assert front[..i] == ds[..i] && front[..i + 1] == ds[..i + 1];
    }
  }

  // ----- the answers -----

  /** The dossier's answers may be kept at all. */
  predicate MayKeep(d: Dossier) {
    d.family.Some? && !d.mode.CacheBypass?
    && !d.sensitive && !d.truncated && !d.evidenceLimited && !d.samplesLimited && !d.securitySignal
  }

  /** The judgment that a provider's opinion becomes: with the lifetime that began at the question, or without bounds. */
  function Given(cfg: Config, d: Dossier, o: Opinion, asked: Instant): Judgment {
    if MayKeep(d) && Valid(o) && Reusable(o) then Stamped(o, asked, cfg.ttl) else Unbounded(o)
  }

  lemma FreshIsGiven(cfg: Config, d: Dossier, o: Opinion, asked: Instant)
    ensures Fresh(cfg, o, PublishKey(cfg, d), asked) == Given(cfg, d, o, asked)
  {
    hide Stamped, Valid, Reusable;
  }

  /** A dossier that was asked about leaves with the provider's opinion, and with bounds exactly if it may be reused. */
  lemma {:induction false} AnswersAreBounded(cfg: Config, s: State, ds: seq<Dossier>, next: Provider, inputs: Inputs, n: nat)
    requires Judged(cfg, s, ds, next, inputs).judgments.Some? && n < |TakeAll(cfg, s, ds, inputs).indices|
    ensures var it, js := TakeAll(cfg, s, ds, inputs), Judged(cfg, s, ds, next, inputs).judgments.value;
            && |it.indices| == |it.pending| && next(it.pending).Some? && |next(it.pending).value| == |it.pending|
            && it.indices[n] < |ds| == |js|
            && js[it.indices[n]] == Given(cfg, ds[it.indices[n]], next(it.pending).value[n], inputs.now)
  {
    hide TakeAll, GiveAll, PublishKey, Fresh, Given;
    var it := TakeAll(cfg, s, ds, inputs);
    IntakeOk(cfg, s, ds, next, inputs);
    JudgedLength(cfg, s, ds, next, inputs);
    IntakeQueue(cfg, s, ds, inputs);
    assert QueuedAt(cfg, it, ds, n);
    GivenJudgments(cfg, it, next(it.pending).value, inputs);
    FreshIsGiven(cfg, ds[it.indices[n]], next(it.pending).value[n], inputs.now);
  }

  /** The store before answer number `n` is kept. */
  ghost function KeptBefore(cfg: Config, it: Intake, opinions: seq<Opinion>, inputs: Inputs, n: nat): State
    requires Indexed(it) && n <= |opinions| <= |it.pending|
  {
    GiveAll(cfg, it, opinions[..n], inputs).store
  }

  /** Every answer moves the store once, in order, by what keeping it means, and no statement failed. */
  lemma {:induction false} AnswersMove(cfg: Config, it: Intake, opinions: seq<Opinion>, inputs: Inputs, n: nat)
    requires Indexed(it) && n < |opinions| <= |it.pending| && GiveAll(cfg, it, opinions, inputs).ok
    ensures var r := CachedJudge.Kept(cfg, KeptBefore(cfg, it, opinions, inputs, n), n, opinions[n], it.keys[n], inputs);
            r.ok && KeptBefore(cfg, it, opinions, inputs, n + 1) == r.state
    ensures KeptBefore(cfg, it, opinions, inputs, 0) == it.store
    ensures KeptBefore(cfg, it, opinions, inputs, |opinions|) == GiveAll(cfg, it, opinions, inputs).store
    decreases |opinions|
  {
    hide CachedJudge.Kept, Fresh;
    var front, last := opinions[..|opinions| - 1], |opinions| - 1;
    assert opinions[..|opinions|] == opinions && opinions[..0] == [];
    if n == last {
      assert opinions[..last + 1] == opinions;
    } else {
      AnswersMove(cfg, it, front, inputs, n);
      assert front[..n] == opinions[..n] && front[..n + 1] == opinions[..n + 1];
    }
  }

  // ----- when a call succeeds -----

  /** No statement of the call fails. */
  ghost predicate Healthy(inputs: Inputs) {
    && Reading(inputs.now)
    && (forall i :: inputs.readDb(i) == Up) && (forall n :: inputs.writeDb(n) == Up)
  }

  lemma ServedWorks(cfg: Config, s: State, d: Dossier, i: nat, inputs: Inputs)
    requires Inv(s) && Healthy(inputs)
    ensures Served(cfg, s, d, i, inputs).ok && Inv(Served(cfg, s, d, i, inputs).state)
  {
    if d.family.Some? {
      var key := DurableKey(cfg, d).value;
      LookupKeepsInv(s, key, inputs.now, cfg.ttl, Up);
      RemovedKeepsInv(s, key, Up);
    }
    hide Inv, RowLive, CacheValidAt, Reusable, Anchored, Narrowed, IsZero;
  }

  lemma {:induction false} IntakeWorks(cfg: Config, s: State, ds: seq<Dossier>, inputs: Inputs)
    requires Inv(s) && Healthy(inputs)
    ensures TakeAll(cfg, s, ds, inputs).ok && Inv(TakeAll(cfg, s, ds, inputs).store)
  {
    hide Served, Inv, PublishKey;
    if ds != [] {
      IntakeWorks(cfg, s, ds[..|ds| - 1], inputs);
      ServedWorks(cfg, TakeAll(cfg, s, ds[..|ds| - 1], inputs).store, ds[|ds| - 1], |TakeAll(cfg, s, ds[..|ds| - 1], inputs).out|, inputs);
    }
  }

  lemma KeptWorks(cfg: Config, s: State, n: nat, o: Opinion, key: Option<Key>, inputs: Inputs)
    requires Inv(s) && Injective(cfg.ord) && Healthy(inputs) && TtlAllowed(cfg.ttl)
    ensures var r := CachedJudge.Kept(cfg, s, n, o, key, inputs); r.ok && Inv(r.state)
  {
    if key.Some? && Valid(o) && Reusable(o) {
      var j := Stamped(o, inputs.now, cfg.ttl);
      PutRoom(cfg.ord, s, key.value);
      Lasting.StampedIs(o, inputs.now, cfg.ttl);
      PutKeepsInv(cfg.ord, s, key.value, j, Unix(inputs.now), cfg.ttl, Up);
    }
    hide Inv, MadeRoom, Stamped, Valid, Reusable, CacheValidAt, Injective, Proper;
  }

  lemma {:induction false} AnswersWork(cfg: Config, it: Intake, opinions: seq<Opinion>, inputs: Inputs)
    requires Indexed(it) && |opinions| <= |it.pending| && Inv(it.store)
    requires Injective(cfg.ord) && Healthy(inputs) && TtlAllowed(cfg.ttl)
    ensures GiveAll(cfg, it, opinions, inputs).ok && Inv(GiveAll(cfg, it, opinions, inputs).store)
  {
    hide CachedJudge.Kept, Inv, Fresh;
    if opinions != [] {
      var n := |opinions| - 1;
      AnswersWork(cfg, it, opinions[..n], inputs);
      KeptWorks(cfg, GiveAll(cfg, it, opinions[..n], inputs).store, n, opinions[n], it.keys[n], inputs);
    }
  }

  /**
   With a healthy store a call succeeds exactly when nothing is left to ask, or the
   provider answers each question once.
   */
  lemma {:induction false} HealthyCallsSucceed(cfg: Config, s: State, ds: seq<Dossier>, next: Provider, inputs: Inputs)
    requires Inv(s) && Injective(cfg.ord) && Healthy(inputs) && TtlAllowed(cfg.ttl)
    ensures var asked := TakeAll(cfg, s, ds, inputs).pending;
            Judged(cfg, s, ds, next, inputs).judgments.Some? <==>
              asked == [] || (next(asked).Some? && |next(asked).value| == |asked|)
  {
    IntakeWorks(cfg, s, ds, inputs);
    IntakeShape(cfg, s, ds, inputs);
    var it := TakeAll(cfg, s, ds, inputs);
    if next(it.pending).Some? && |next(it.pending).value| == |it.pending| {
      AnswersWork(cfg, it, next(it.pending).value, inputs);
    }
    hide TakeAll, GiveAll, Inv, Injective;
  }
}
