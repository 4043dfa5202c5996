/** Which dossiers a judge with a durable cache asks about, and whose answer each of them gets. */
module Asked {
  import opened Wrappers
  import opened Clock
  import opened Verdict
  import opened Events
  import opened Dossiers
  import opened VerdictStore
  import opened CachedJudge

  /** The store before dossier number `i` is taken in. */
  function Before(cfg: Config, s: State, ds: seq<Dossier>, inputs: Inputs, i: nat): State
    requires i <= |ds|
  {
    TakeAll(cfg, s, ds[..i], inputs).store
  }

  /** The durable row that may answer the dossier: same contract, scope, family and local rules. */
  predicate RowFor(cfg: Config, d: Dossier, key: Key) {
    && d.family.Some? && key.contract == cfg.contract && key.scope == d.scope
    && key.family == d.family.value && key.version == d.family.value.version && key.important == d.baselineImportant
  }

  /** Whether the code may use a row at all: nothing asks for a fresh judgment. */
  predicate MayReuse(cfg: Config, d: Dossier) {
    !cfg.rescore && d.mode.CacheDefault?
    && !d.sensitive && !d.truncated && !d.evidenceLimited && !d.samplesLimited && !d.securitySignal
  }

  lemma FoundRow(s: State, key: Key, now: Instant, ttl: Duration, db: Db)
    requires Found(s, key, now, ttl, db).hit.Some?
    ensures key in s.verdicts.rows && Found(s, key, now, ttl, db).hit.value.opinion == s.verdicts.rows[key].opinion
  {
    hide RowLive, Reusable, CacheValidAt, IsZero;
  }

  /** All rows of the second store were rows of the first. */
  ghost predicate FewerRows(s: State, s': State) {
    forall k :: k in s'.verdicts.rows ==> k in s.verdicts.rows && s'.verdicts.rows[k] == s.verdicts.rows[k]
  }

  lemma LookupKeepsRows(s: State, key: Key, now: Instant, ttl: Duration, db: Db)
    ensures FewerRows(s, Removed(s, key, db).state) && FewerRows(s, Found(s, key, now, ttl, db).state)
  {
    hide RowLive, Reusable, CacheValidAt, Anchored, Narrowed, IsZero;
  }

  lemma TakeOneKeepsRows(cfg: Config, it: Intake, d: Dossier, inputs: Inputs)
    ensures FewerRows(it.store, TakeOne(cfg, it, d, inputs).store)
  {
    hide Reassesses, PublishKey, Removed, Found;
    if d.family.Some? {
      var i := |it.out|;
      LookupKeepsRows(it.store, DurableKey(cfg, d).value, inputs.now, cfg.ttl, inputs.readDb(i));
    }
  }

  lemma {:induction false} IntakeKeepsRows(cfg: Config, s: State, ds: seq<Dossier>, inputs: Inputs)
    ensures forall k :: k in TakeAll(cfg, s, ds, inputs).store.verdicts.rows ==>
              k in s.verdicts.rows && TakeAll(cfg, s, ds, inputs).store.verdicts.rows[k] == s.verdicts.rows[k]
  {
    hide TakeOne;
    if ds != [] {
      IntakeKeepsRows(cfg, s, ds[..|ds| - 1], inputs);
      TakeOneKeepsRows(cfg, TakeAll(cfg, s, ds[..|ds| - 1], inputs), ds[|ds| - 1], inputs);
    }
  }

  /** Dossier `i` was taken from the row `key`, as the store was then. */
  ghost predicate FromRow(cfg: Config, s: State, ds: seq<Dossier>, inputs: Inputs, i: nat, j: Judgment)
    requires i < |ds|
  {
    exists key :: RowFor(cfg, ds[i], key)
      && Found(Before(cfg, s, ds, inputs, i), key, inputs.now, cfg.ttl, inputs.readDb(i)).hit == Some(j)
  }

  /** What the intake decided about dossier `i`. */
  ghost predicate Decided(cfg: Config, s: State, ds: seq<Dossier>, inputs: Inputs, i: nat)
    requires i < |ds| && |TakeAll(cfg, s, ds, inputs).out| == |ds|
  {
    var it := TakeAll(cfg, s, ds, inputs);
    && (i !in it.indices ==> MayReuse(cfg, ds[i]) && FromRow(cfg, s, ds, inputs, i, it.out[i]))
    && (i in it.indices && MayReuse(cfg, ds[i]) ==>
          forall key :: RowFor(cfg, ds[i], key) ==>
            Found(Before(cfg, s, ds, inputs, i), key, inputs.now, cfg.ttl, inputs.readDb(i)).hit.None?)
  }

  lemma ServedIs(cfg: Config, s: State, d: Dossier, i: nat, inputs: Inputs)
    ensures var r := Served(cfg, s, d, i, inputs);
            && (r.hit.Some? ==> MayReuse(cfg, d))
            && (r.hit.Some? ==> exists key ::
                  RowFor(cfg, d, key) && Found(s, key, inputs.now, cfg.ttl, inputs.readDb(i)).hit == r.hit)
            && (r.hit.None? && MayReuse(cfg, d) ==> forall key :: RowFor(cfg, d, key) ==>
                  Found(s, key, inputs.now, cfg.ttl, inputs.readDb(i)).hit.None?)
  {
    hide Found;
    var key := DurableKey(cfg, d);
    assert forall k :: RowFor(cfg, d, k) ==> Some(k) == key;
    assert key.Some? ==> RowFor(cfg, d, key.value);
  }

  lemma {:induction false} IntakeDecides(cfg: Config, s: State, ds: seq<Dossier>, inputs: Inputs, i: nat)
    requires TakeAll(cfg, s, ds, inputs).ok && i < |ds|
    ensures |TakeAll(cfg, s, ds, inputs).out| == |ds| && Decided(cfg, s, ds, inputs, i)
    decreases |ds|
  {
    hide Served, Found, MayReuse, RowFor, PublishKey;
    var front, last := ds[..|ds| - 1], |ds| - 1;
    var before := TakeAll(cfg, s, front, inputs);
    var it := TakeAll(cfg, s, ds, inputs);
    IntakeShape(cfg, s, ds, inputs);
    IntakeShape(cfg, s, front, inputs);
    assert it == TakeOne(cfg, before, ds[last], inputs) && before.ok;
    assert forall n :: 0 <= n < |before.indices| ==> before.indices[n] < last;
    ServedIs(cfg, before.store, ds[last], last, inputs);
    if i == last {
      assert ds[..i] == front;
    } else {
      IntakeDecides(cfg, s, front, inputs, i);
      assert front[..i] == ds[..i] && front[i] == ds[i];
      assert i in it.indices <==> i in before.indices;
      assert Before(cfg, s, ds, inputs, i) == Before(cfg, s, front, inputs, i);
    }
  }

  /**
   Every dossier gets its own answer.  In a call that succeeds, dossier `i` was either
   asked about, and carries what the provider said at its place in the queue, or was
   not, and carries the opinion of its own durable row, which nothing asked to judge anew.
   A dossier whose row may be used and is found is not asked about.
   */
  lemma {:induction false} EachGetsItsOwnAnswer(cfg: Config, s: State, ds: seq<Dossier>, next: Provider, inputs: Inputs, i: nat)
    requires Judged(cfg, s, ds, next, inputs).judgments.Some? && i < |ds|
    ensures var it, js := TakeAll(cfg, s, ds, inputs), Judged(cfg, s, ds, next, inputs).judgments.value;
            && |js| == |ds| == |it.out| && |it.indices| == |it.pending|
            && (i in it.indices <==> !(MayReuse(cfg, ds[i]) && exists j :: FromRow(cfg, s, ds, inputs, i, j)))
            && (i !in it.indices ==> exists key :: RowFor(cfg, ds[i], key) && key in s.verdicts.rows
                                       && js[i].opinion == s.verdicts.rows[key].opinion)
            && (i in it.indices ==>
                  && next(it.pending).Some? && |next(it.pending).value| == |it.pending|
                  && exists n :: 0 <= n < |it.indices| && it.indices[n] == i && it.pending[n] == ds[i]
                                 && js[i].opinion == next(it.pending).value[n])
  {
    hide TakeAll, GiveAll, Found, MayReuse, RowFor, PublishKey, DurableKey, Reassesses;
    var it := TakeAll(cfg, s, ds, inputs);
    IntakeOk(cfg, s, ds, next, inputs);
    JudgedLength(cfg, s, ds, next, inputs);
    IntakeQueue(cfg, s, ds, inputs);
    IntakeDecides(cfg, s, ds, inputs, i);
    if i in it.indices {
      var n :| 0 <= n < |it.indices| && it.indices[n] == i;
      AskedAnswer(cfg, s, ds, next, inputs, n);
    } else {
      HitsStay(cfg, s, ds, next, inputs, i);
      RowAnswer(cfg, s, ds, inputs, i, it.out[i]);
    }
  }

  lemma RowAnswer(cfg: Config, s: State, ds: seq<Dossier>, inputs: Inputs, i: nat, j: Judgment)
    requires i < |ds| && FromRow(cfg, s, ds, inputs, i, j)
    ensures exists key :: RowFor(cfg, ds[i], key) && key in s.verdicts.rows && j.opinion == s.verdicts.rows[key].opinion
  {
    hide Found, RowFor, TakeAll;
    var key :| RowFor(cfg, ds[i], key)
      && Found(Before(cfg, s, ds, inputs, i), key, inputs.now, cfg.ttl, inputs.readDb(i)).hit == Some(j);
    FoundRow(Before(cfg, s, ds, inputs, i), key, inputs.now, cfg.ttl, inputs.readDb(i));
    IntakeKeepsRows(cfg, s, ds[..i], inputs);
  }

  lemma AskedAnswer(cfg: Config, s: State, ds: seq<Dossier>, next: Provider, inputs: Inputs, n: nat)
    requires Judged(cfg, s, ds, next, inputs).judgments.Some?
    requires Queued(cfg, TakeAll(cfg, s, ds, inputs), ds) && n < |TakeAll(cfg, s, ds, inputs).indices|
    ensures var it, js := TakeAll(cfg, s, ds, inputs), Judged(cfg, s, ds, next, inputs).judgments.value;
            && next(it.pending).Some? && |next(it.pending).value| == |it.pending|
            && it.indices[n] < |ds| == |js| && it.pending[n] == ds[it.indices[n]]
            && js[it.indices[n]].opinion == next(it.pending).value[n]
  {
    hide TakeAll, GiveAll, PublishKey, DurableKey, Reassesses, Fresh;
    var it := TakeAll(cfg, s, ds, inputs);
    assert QueuedAt(cfg, it, ds, n);
    GivenJudgments(cfg, it, next(it.pending).value, inputs);
    FreshOpinion(cfg, next(it.pending).value[n], it.keys[n], inputs.now);
  }

  lemma FreshOpinion(cfg: Config, o: Opinion, key: Option<Key>, now: Instant)
    ensures Fresh(cfg, o, key, now).opinion == o
  {
  }

  // ----- what is kept -----

  /** The provider's answer number `n` is written down: it may be reused and came in time. */
  predicate WorthKeeping(cfg: Config, d: Dossier, o: Opinion, now: Instant, later: Instant) {
    && d.family.Some? && !d.mode.CacheBypass?
    && !d.sensitive && !d.truncated && !d.evidenceLimited && !d.samplesLimited && !d.securitySignal
    && Valid(o) && Reusable(o) && CacheValidAt(Stamped(o, now, cfg.ttl), later)
  }

  /**
   An answer is stored exactly when it is worth keeping: for a safe dossier with a family
   that is not bypassed, reusable, and given before its own window ran out.  It is stored
   under the dossier's row with the lifetime that began when the provider was asked.
   */
  lemma {:induction false} KeptExactly(cfg: Config, s: State, n: nat, d: Dossier, o: Opinion, inputs: Inputs)
    ensures var r := CachedJudge.Kept(cfg, s, n, o, PublishKey(cfg, d), inputs);
            if WorthKeeping(cfg, d, o, inputs.now, inputs.later(n))
            then exists key :: RowFor(cfg, d, key)
                   && r == Stored(cfg.ord, s, key, Stamped(o, inputs.now, cfg.ttl), Unix(inputs.now), cfg.ttl, inputs.writeDb(n))
            else r == Reply(s, true, None)
  {
    hide Stored, Valid, Reusable, CacheValidAt, Stamped;
    if d.family.Some? {
      assert RowFor(cfg, d, DurableKey(cfg, d).value);
    }
  }
}
