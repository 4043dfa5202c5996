/**
 A judge that answers from durable verdicts where it may and asks the provider
 for the rest.  Sensitive or incomplete evidence always bypasses durable reuse.

 `Dispatch` records when a verdict was asked for.  The invariant `RowsGrounded`
 says that every durable row, and the authority this process holds over it, goes
 back to such a dispatch; it is what makes lifetimes not slide.
 */
module CachedJudge {
  import opened Wrappers
  import opened Clock
  import opened Verdict
  import opened Events
  import opened Tables
  import opened Dossiers
  import opened VerdictStore
  import opened History

  datatype Config = Config(ord: Order<Key>, contract: string, ttl: Duration, rescore: bool)

  /** Readings of the clock and database faults during one call, by position. */
  datatype Inputs = Inputs(now: Instant, later: nat -> Instant, readDb: nat -> Db, writeDb: nat -> Db)

  function DurableKey(cfg: Config, d: Dossier): Option<Key> {
    match d.family
    case None => None
    case Some(fam) => Some(Key(cfg.contract, d.scope, fam, fam.version, d.baselineImportant))
  }

  /** The durable verdict must be deleted before the provider is asked. */
  predicate Reassesses(cfg: Config, d: Dossier) {
    cfg.rescore || d.mode != CacheDefault || Unsafe(d)
  }

  /** Where a fresh opinion on a dossier may be stored. */
  function PublishKey(cfg: Config, d: Dossier): Option<Key> {
    if Unsafe(d) || d.mode == CacheBypass then None else DurableKey(cfg, d)
  }

  datatype Intake = Intake(
    store: State, ok: bool, out: seq<Judgment>, pending: seq<Dossier>, indices: seq<nat>, keys: seq<Option<Key>>)

  /** Dossier number `i`: delete its durable verdict if it is to be reassessed, or else look it up. */
  function Served(cfg: Config, s: State, d: Dossier, i: nat, inputs: Inputs): Reply {
    match DurableKey(cfg, d)
    case None => Reply(s, true, None)
    case Some(key) =>
      if Reassesses(cfg, d) then Removed(s, key, inputs.readDb(i))
      else Found(s, key, inputs.now, cfg.ttl, inputs.readDb(i))
  }

  /** Answer dossier number `|it.out|` from its row, or queue it for the provider. */
  function TakeOne(cfg: Config, it: Intake, d: Dossier, inputs: Inputs): Intake {
    var i := |it.out|;
    var r := Served(cfg, it.store, d, i, inputs);
    if !it.ok then it
    else if !r.ok then it.(store := r.state, ok := false)
    else if r.hit.Some? then it.(store := r.state, out := it.out + [r.hit.value])
    else Intake(r.state, true, it.out + [NO_JUDGMENT],
                it.pending + [d], it.indices + [i], it.keys + [PublishKey(cfg, d)])
  }

  function TakeAll(cfg: Config, s: State, ds: seq<Dossier>, inputs: Inputs): Intake {
    if ds == [] then Intake(s, true, [], [], [], [])
    else TakeOne(cfg, TakeAll(cfg, s, ds[..|ds| - 1], inputs), ds[|ds| - 1], inputs)
  }

  /** A fresh opinion with the lifetime that began when the provider was asked. */
  function Stamped(o: Opinion, now: Instant, ttl: Duration): Judgment {
    var expires := FromUnix(Unix(now) + WholeSeconds(ttl));
    Judgment(FromUnix(Unix(now)), expires, WallOnly(now), Add(now, expires.wall - now.wall), o)
  }

  function Fresh(cfg: Config, o: Opinion, key: Option<Key>, now: Instant): Judgment {
    if key.Some? && Valid(o) && Reusable(o) then Stamped(o, now, cfg.ttl) else Unbounded(o)
  }

  datatype Output = Output(store: State, ok: bool, out: seq<Judgment>)

  /** Answer number `n`: store it if its own window has not failed closed already. */
  ghost function Kept(cfg: Config, s: State, n: nat, opinion: Opinion, key: Option<Key>, inputs: Inputs): Reply {
    var j := Fresh(cfg, opinion, key, inputs.now);
    if key.Some? && Valid(opinion) && Reusable(opinion) && CacheValidAt(j, inputs.later(n))
    then Stored(cfg.ord, s, key.value, j, Unix(inputs.now), cfg.ttl, inputs.writeDb(n))
    else Reply(s, true, None)
  }

  ghost function GiveOne(cfg: Config, o: Output, n: nat, opinion: Opinion, key: Option<Key>, index: nat, inputs: Inputs): (o': Output)
    requires index < |o.out|
    ensures |o'.out| == |o.out|
  {
    var r := Kept(cfg, o.store, n, opinion, key, inputs);
    if !o.ok then o
    else if !r.ok then o.(store := r.state, ok := false)
    else Output(r.state, true, o.out[index := Fresh(cfg, opinion, key, inputs.now)])
  }

  ghost predicate Indexed(it: Intake) {
    && |it.indices| == |it.pending| == |it.keys|
    && forall n :: 0 <= n < |it.indices| ==> it.indices[n] < |it.out|
  }

  ghost function GiveAll(cfg: Config, it: Intake, opinions: seq<Opinion>, inputs: Inputs): Output
    requires Indexed(it) && |opinions| <= |it.pending|
    ensures |GiveAll(cfg, it, opinions, inputs).out| == |it.out|
  {
    if opinions == [] then Output(it.store, true, it.out)
    else
      var n := |opinions| - 1;
      GiveOne(cfg, GiveAll(cfg, it, opinions[..n], inputs), n, opinions[n], it.keys[n], it.indices[n], inputs)
  }

  datatype Answer = Answer(store: State, judgments: Option<seq<Judgment>>)

  ghost function Judged(cfg: Config, s: State, ds: seq<Dossier>, next: Provider, inputs: Inputs): Answer {
    var it := TakeAll(cfg, s, ds, inputs);
    IntakeShape(cfg, s, ds, inputs);
    if !it.ok then Answer(it.store, None)
    else if it.pending == [] then Answer(it.store, Some(it.out))
    else
      match next(it.pending)
      case None => Answer(it.store, None)
      case Some(opinions) =>
        if |opinions| != |it.pending| then Answer(it.store, None)
        else
          var o := GiveAll(cfg, it, opinions, inputs);
          Answer(o.store, if o.ok then Some(o.out) else None)
  }

  // ----- shape of the intake -----

  lemma {:induction false} IntakeShape(cfg: Config, s: State, ds: seq<Dossier>, inputs: Inputs)
    ensures var it := TakeAll(cfg, s, ds, inputs);
            && Indexed(it)
            && |it.out| <= |ds| && (it.ok ==> |it.out| == |ds|)
  {
    hide Served, PublishKey;
    if ds != [] {
      IntakeShape(cfg, s, ds[..|ds| - 1], inputs);
    }
  }

  /** The pending queue holds, in order, exactly the dossiers that were not answered from a row. */
  ghost predicate Queued(cfg: Config, it: Intake, ds: seq<Dossier>) {
    && Indexed(it) && |it.out| == |ds|
    && (forall n :: 0 <= n < |it.indices| ==> QueuedAt(cfg, it, ds, n))
    && (forall m, n :: 0 <= m < n < |it.indices| ==> it.indices[m] < it.indices[n])
    && (forall i :: 0 <= i < |ds| && i !in it.indices ==> DurableKey(cfg, ds[i]).Some? && !Reassesses(cfg, ds[i]))
  }

  ghost predicate QueuedAt(cfg: Config, it: Intake, ds: seq<Dossier>, n: nat)
    requires Indexed(it) && |it.out| == |ds| && n < |it.indices|
  {
    && it.pending[n] == ds[it.indices[n]]
    && it.keys[n] == PublishKey(cfg, ds[it.indices[n]])
  }

  lemma QueueOne(cfg: Config, before: Intake, after: Intake, ds: seq<Dossier>, d: Dossier, j: Judgment)
    requires Queued(cfg, before, ds)
    requires after.out == before.out + [j]
    requires
      || (&& after.indices == before.indices + [|ds|] && after.pending == before.pending + [d]
          && after.keys == before.keys + [PublishKey(cfg, d)])
      || (&& after.indices == before.indices && after.pending == before.pending && after.keys == before.keys
          && DurableKey(cfg, d).Some? && !Reassesses(cfg, d))
    ensures Queued(cfg, after, ds + [d])
  {
    hide DurableKey, Reassesses, PublishKey;
    var all := ds + [d];
    assert Indexed(after);
    forall n | 0 <= n < |after.indices| ensures QueuedAt(cfg, after, all, n) {
      if n < |before.indices| {
        assert QueuedAt(cfg, before, ds, n);
      }
    }
    if |before.indices| < |after.indices| {
      assert after.indices[|before.indices|] == |ds|;
    }
    forall i | 0 <= i < |all| && i !in after.indices
      ensures DurableKey(cfg, all[i]).Some? && !Reassesses(cfg, all[i])
    {
      if i < |ds| {
        assert i !in before.indices;
      }
    }
  }

  lemma EmptyQueue(cfg: Config, s: State)
    ensures Queued(cfg, Intake(s, true, [], [], [], []), [])
  {
  }

  lemma {:induction false} IntakeQueue(cfg: Config, s: State, ds: seq<Dossier>, inputs: Inputs)
    requires TakeAll(cfg, s, ds, inputs).ok
    ensures Queued(cfg, TakeAll(cfg, s, ds, inputs), ds)
  {
    hide DurableKey, Reassesses, PublishKey, Found, Queued;
    if ds == [] {
      EmptyQueue(cfg, s);
    } else {
      var front, d := ds[..|ds| - 1], ds[|ds| - 1];
      assert ds == front + [d];
      var before, after := TakeAll(cfg, s, front, inputs), TakeAll(cfg, s, ds, inputs);
      IntakeQueue(cfg, s, front, inputs);
      assert |before.out| == |front| by { IntakeShape(cfg, s, front, inputs); }
      QueueOne(cfg, before, after, front, d, after.out[|front|]);
    }
  }

  // ----- an intake serves only what is left of a dispatch -----

  /** Every answer taken from a row is grounded and valid at the reading of the call. */
  ghost predicate HitsGrounded(history: set<Dispatch>, process: nat, it: Intake, ds: seq<Dossier>, now: Instant) {
    forall i :: 0 <= i < |it.out| && i < |ds| && i !in it.indices ==>
      ds[i].family.Some? && HitGrounded1(history, process, ds[i].family.value, it.out[i], now)
  }

  ghost predicate HitGrounded1(history: set<Dispatch>, process: nat, fam: Family, j: Judgment, now: Instant) {
    Grounded(history, process, fam, j) && CacheValidAt(j, now)
  }

  lemma TakeOneGrounded(history: set<Dispatch>, process: nat, cfg: Config, it: Intake, ds: seq<Dossier>, d: Dossier, inputs: Inputs)
    requires Reading(inputs.now) && Inv(it.store) && RowsGrounded(history, process, it.store)
    requires it.ok ==> |it.out| == |ds| && HitsGrounded(history, process, it, ds, inputs.now)
    ensures var it' := TakeOne(cfg, it, d, inputs);
            && Inv(it'.store) && RowsGrounded(history, process, it'.store)
            && (it'.ok ==> HitsGrounded(history, process, it', ds + [d], inputs.now))
  {
    hide Reassesses, PublishKey, Removed, Found, Inv, RowsGrounded, HitsGrounded, Grounded, CacheValidAt;
    var key, db := DurableKey(cfg, d), inputs.readDb(|it.out|);
    if key.Some? && Reassesses(cfg, d) {
      RemovedKeepsInv(it.store, key.value, db);
      RemovedGrounded(history, process, it.store, key.value, db);
    } else if key.Some? {
      LookupKeepsInv(it.store, key.value, inputs.now, cfg.ttl, db);
      FoundGrounded(history, process, it.store, key.value, inputs.now, cfg.ttl, db);
    }
    if TakeOne(cfg, it, d, inputs).ok {
      TakeOneHits(history, process, cfg, it, ds, d, inputs);
    }
  }

  lemma TakeOneHits(history: set<Dispatch>, process: nat, cfg: Config, it: Intake, ds: seq<Dossier>, d: Dossier, inputs: Inputs)
    requires it.ok && |it.out| == |ds| && HitsGrounded(history, process, it, ds, inputs.now)
    requires TakeOne(cfg, it, d, inputs).ok
    requires DurableKey(cfg, d).Some? && !Reassesses(cfg, d) ==>
               var r := Found(it.store, DurableKey(cfg, d).value, inputs.now, cfg.ttl, inputs.readDb(|it.out|));
               r.hit.Some? ==> HitGrounded1(history, process, DurableKey(cfg, d).value.family, r.hit.value, inputs.now)
    ensures HitsGrounded(history, process, TakeOne(cfg, it, d, inputs), ds + [d], inputs.now)
  {
    hide Reassesses, PublishKey, Found, HitGrounded1;
    var it' := TakeOne(cfg, it, d, inputs);
    var all := ds + [d];
    if |it.indices| < |it'.indices| {
      assert it'.indices[|it.indices|] == |ds|;
    }
    forall i | 0 <= i < |it'.out| && i < |all| && i !in it'.indices
      ensures all[i].family.Some? && HitGrounded1(history, process, all[i].family.value, it'.out[i], inputs.now)
    {
      if i < |ds| {
        assert i !in it.indices;
      }
    }
  }

  lemma {:induction false} TakeAllGrounded(history: set<Dispatch>, process: nat, cfg: Config, s: State, ds: seq<Dossier>, inputs: Inputs)
    requires Reading(inputs.now) && Inv(s) && RowsGrounded(history, process, s)
    ensures var it := TakeAll(cfg, s, ds, inputs);
            && Inv(it.store) && RowsGrounded(history, process, it.store)
            && (it.ok ==> HitsGrounded(history, process, it, ds, inputs.now))
  {
    hide TakeOne, Inv, RowsGrounded;
    if ds != [] {
      var front, d := ds[..|ds| - 1], ds[|ds| - 1];
      assert ds == front + [d];
      TakeAllGrounded(history, process, cfg, s, front, inputs);
      IntakeShape(cfg, s, front, inputs);
      TakeOneGrounded(history, process, cfg, TakeAll(cfg, s, front, inputs), front, d, inputs);
    }
  }

  // ----- reassessment comes before the provider -----

  lemma TakeOneRows(cfg: Config, it: Intake, d: Dossier, inputs: Inputs)
    ensures TakeOne(cfg, it, d, inputs).store.verdicts.rows.Keys <= it.store.verdicts.rows.Keys
    ensures TakeOne(cfg, it, d, inputs).ok && DurableKey(cfg, d).Some? && Reassesses(cfg, d) ==>
              DurableKey(cfg, d).value !in TakeOne(cfg, it, d, inputs).store.verdicts.rows
  {
    hide Reassesses, PublishKey, DurableKey, RowLive, Reusable, CacheValidAt, Anchored, Narrowed, IsZero;
  }

  /**
   When the provider is asked, no durable row is left for any dossier that is to
   be reassessed (rescored, refreshed, bypassed or unsafe): a failed or unsafe
   reassessment cannot bring the old verdict back after a restart.  Such a
   dossier is never answered from a row.
   */
  lemma {:induction false} ReassessedRowsAreGone(cfg: Config, s: State, ds: seq<Dossier>, inputs: Inputs)
    requires TakeAll(cfg, s, ds, inputs).ok
    ensures var it := TakeAll(cfg, s, ds, inputs);
            && it.store.verdicts.rows.Keys <= s.verdicts.rows.Keys
            && forall i :: 0 <= i < |ds| && DurableKey(cfg, ds[i]).Some? && Reassesses(cfg, ds[i]) ==>
                 i in it.indices && DurableKey(cfg, ds[i]).value !in it.store.verdicts.rows
  {
    hide TakeOne, DurableKey, Reassesses;
    IntakeQueue(cfg, s, ds, inputs);
    assert Queued(cfg, TakeAll(cfg, s, ds, inputs), ds);
    ReassessedRows(cfg, s, ds, inputs);
  }

  lemma {:induction false} ReassessedRows(cfg: Config, s: State, ds: seq<Dossier>, inputs: Inputs)
    requires TakeAll(cfg, s, ds, inputs).ok
    ensures var it := TakeAll(cfg, s, ds, inputs);
            && it.store.verdicts.rows.Keys <= s.verdicts.rows.Keys
            && forall i :: 0 <= i < |ds| && DurableKey(cfg, ds[i]).Some? && Reassesses(cfg, ds[i]) ==>
                 DurableKey(cfg, ds[i]).value !in it.store.verdicts.rows
  {
    hide DurableKey, Reassesses, TakeOne;
    if ds != [] {
      var front, d := ds[..|ds| - 1], ds[|ds| - 1];
      var before := TakeAll(cfg, s, front, inputs);
      TakeOneRows(cfg, before, d, inputs);
      TakeOneOk(cfg, before, d, inputs);
      ReassessedRows(cfg, s, front, inputs);
      forall i | 0 <= i < |ds| && DurableKey(cfg, ds[i]).Some? && Reassesses(cfg, ds[i])
        ensures DurableKey(cfg, ds[i]).value !in TakeAll(cfg, s, ds, inputs).store.verdicts.rows
      {
        if i < |front| {
          assert ds[i] == front[i];
        }
      }
    }
  }

  lemma TakeOneOk(cfg: Config, it: Intake, d: Dossier, inputs: Inputs)
    ensures TakeOne(cfg, it, d, inputs).ok ==> it.ok
  {
    hide Reassesses, PublishKey, DurableKey, Removed, Found;
  }

  // ----- publication keeps the history -----

  function DispatchOf(cfg: Config, process: nat, key: Key, o: Opinion, now: Instant): Dispatch {
    Dispatch(process, key.family, Some(key), o, now, cfg.ttl,
             Unix(now) * SECOND, (Unix(now) + WholeSeconds(cfg.ttl)) * SECOND)
  }

  /** The dispatches of one call: those whose answers may be stored. */
  function Dispatches(cfg: Config, process: nat, keys: seq<Option<Key>>, opinions: seq<Opinion>, now: Instant): set<Dispatch> {
    set n | 0 <= n < |opinions| && n < |keys| && keys[n].Some? :: DispatchOf(cfg, process, keys[n].value, opinions[n], now)
  }

  lemma StampedFits(cfg: Config, process: nat, key: Key, o: Opinion, now: Instant)
    requires Reading(now) && 0 < cfg.ttl
    ensures var d, j := DispatchOf(cfg, process, key, o, now), Stamped(o, now, cfg.ttl);
            && LeftOf(d, process, key.family, j) && Proper(j) && ZERO.wall < Unix(now) * SECOND
            && RowOf(d, process, map[key := j], key, Row(o, Unix(now), Unix(now) + WholeSeconds(cfg.ttl)))
  {
    UnixFloor(now);
    var secs := WholeSeconds(cfg.ttl);
    assert 0 <= secs && secs * SECOND <= cfg.ttl;
    assert (Unix(now) + secs) * SECOND == Unix(now) * SECOND + secs * SECOND;
    assert ZERO.wall == -62_135_596_800 * SECOND;
  }

  lemma GiveOneGrounded(
      history: set<Dispatch>, process: nat, cfg: Config, o: Output, n: nat, opinion: Opinion,
      key: Option<Key>, index: nat, inputs: Inputs)
    requires index < |o.out| && Reading(inputs.now) && 0 < cfg.ttl && Injective(cfg.ord)
    requires Inv(o.store) && RowsGrounded(history, process, o.store)
    requires key.Some? ==> DispatchOf(cfg, process, key.value, opinion, inputs.now) in history
    ensures var o' := GiveOne(cfg, o, n, opinion, key, index, inputs);
            Inv(o'.store) && RowsGrounded(history, process, o'.store)
  {
    if key.Some? {
      var j := Stamped(opinion, inputs.now, cfg.ttl);
      var d := DispatchOf(cfg, process, key.value, opinion, inputs.now);
      StampedFits(cfg, process, key.value, opinion, inputs.now);
      hide Stamped, Stored, Valid, Reusable, CacheValidAt, RowsGrounded, Inv, RowOf, LeftOf, Proper, DispatchOf;
      assert j.opinion == opinion by { StampedOpinion(opinion, inputs.now, cfg.ttl); }
      PutKeepsInv(cfg.ord, o.store, key.value, j, Unix(inputs.now), cfg.ttl, inputs.writeDb(n));
      StoredGrounded(history, process, cfg.ord, o.store, key.value, j, Unix(inputs.now), cfg.ttl, inputs.writeDb(n), d);
    }
  }

  lemma StampedOpinion(o: Opinion, now: Instant, ttl: Duration)
    ensures Stamped(o, now, ttl).opinion == o
  {
  }

  lemma {:induction false} GiveAllGrounded(
      history: set<Dispatch>, process: nat, cfg: Config, it: Intake, opinions: seq<Opinion>, inputs: Inputs)
    requires Indexed(it) && |opinions| <= |it.pending|
    requires Reading(inputs.now) && 0 < cfg.ttl && Injective(cfg.ord)
    requires Inv(it.store) && RowsGrounded(history, process, it.store)
    requires Dispatches(cfg, process, it.keys, opinions, inputs.now) <= history
    ensures var o := GiveAll(cfg, it, opinions, inputs);
            Inv(o.store) && RowsGrounded(history, process, o.store)
  {
    hide GiveOne, Inv, RowsGrounded, DispatchOf;
    if opinions != [] {
      var n := |opinions| - 1;
      forall m | 0 <= m < n && it.keys[m].Some?
        ensures DispatchOf(cfg, process, it.keys[m].value, opinions[..n][m], inputs.now) in history
      {
        assert DispatchOf(cfg, process, it.keys[m].value, opinions[m], inputs.now)
            in Dispatches(cfg, process, it.keys, opinions, inputs.now);
      }
      assert Dispatches(cfg, process, it.keys, opinions[..n], inputs.now) <= history;
      GiveAllGrounded(history, process, cfg, it, opinions[..n], inputs);
      GiveOneGrounded(history, process, cfg, GiveAll(cfg, it, opinions[..n], inputs), n, opinions[n], it.keys[n], it.indices[n], inputs);
    }
  }

  // ----- what a whole call returns -----

  ghost predicate Increasing(indices: seq<nat>) {
    forall m, n :: 0 <= m < n < |indices| ==> indices[m] < indices[n]
  }

  lemma {:induction false} GivenJudgments(cfg: Config, it: Intake, opinions: seq<Opinion>, inputs: Inputs)
    requires Indexed(it) && |opinions| <= |it.pending| && Increasing(it.indices)
    requires GiveAll(cfg, it, opinions, inputs).ok
    ensures var o := GiveAll(cfg, it, opinions, inputs);
            && (forall n :: 0 <= n < |opinions| ==>
                  o.out[it.indices[n]] == Fresh(cfg, opinions[n], it.keys[n], inputs.now))
            && (forall i :: 0 <= i < |it.out| && i !in it.indices[..|opinions|] ==> o.out[i] == it.out[i])
  {
    hide Fresh, Kept;
    if opinions != [] {
      var n := |opinions| - 1;
      GivenJudgments(cfg, it, opinions[..n], inputs);
      assert it.indices[..n + 1] == it.indices[..n] + [it.indices[n]];
    }
  }

  /** The dispatches that a call makes. */
  function CallDispatches(cfg: Config, process: nat, s: State, ds: seq<Dossier>, next: Provider, inputs: Inputs): set<Dispatch> {
    var it := TakeAll(cfg, s, ds, inputs);
    if !it.ok || it.pending == [] || next(it.pending).None? then {}
    else Dispatches(cfg, process, it.keys, next(it.pending).value, inputs.now)
  }

  /** A judgment is fresh from the provider without bounds, or grounded for the family of its dossier. */
  ghost predicate Sourced(history: set<Dispatch>, process: nat, d: Dossier, j: Judgment) {
    j == Unbounded(j.opinion) || (d.family.Some? && Grounded(history, process, d.family.value, j))
  }

  lemma FreshSourced(history: set<Dispatch>, process: nat, cfg: Config, d: Dossier, o: Opinion, now: Instant)
    requires Reading(now) && 0 < cfg.ttl
    requires PublishKey(cfg, d).Some? ==> DispatchOf(cfg, process, PublishKey(cfg, d).value, o, now) in history
    ensures Sourced(history, process, d, Fresh(cfg, o, PublishKey(cfg, d), now))
  {
    var key := PublishKey(cfg, d);
    if key.Some? {
      StampedFits(cfg, process, key.value, o, now);
      hide Stamped, DispatchOf, LeftOf, Valid, Reusable, Proper, RowOf;
      assert Grounded(history, process, key.value.family, Stamped(o, now, cfg.ttl));
    }
  }

  lemma AllDispatchesOf(cfg: Config, process: nat, keys: seq<Option<Key>>, opinions: seq<Opinion>, now: Instant, n: nat)
    requires n < |opinions| && n < |keys| && keys[n].Some?
    ensures DispatchOf(cfg, process, keys[n].value, opinions[n], now) in Dispatches(cfg, process, keys, opinions, now)
  {
  }

  /** The second loop leaves the answers from rows alone. */
  lemma HitsStay(cfg: Config, s: State, ds: seq<Dossier>, next: Provider, inputs: Inputs, i: nat)
    requires Judged(cfg, s, ds, next, inputs).judgments.Some?
    requires Queued(cfg, TakeAll(cfg, s, ds, inputs), ds)
    requires i < |ds| && i !in TakeAll(cfg, s, ds, inputs).indices
    ensures |Judged(cfg, s, ds, next, inputs).judgments.value| == |ds|
    ensures Judged(cfg, s, ds, next, inputs).judgments.value[i] == TakeAll(cfg, s, ds, inputs).out[i]
  {
    hide TakeAll, GiveAll, QueuedAt, PublishKey, DurableKey, Reassesses;
    var it := TakeAll(cfg, s, ds, inputs);
    if it.pending != [] {
      GivenJudgments(cfg, it, next(it.pending).value, inputs);
      assert i !in it.indices[..|it.pending|];
    }
  }

  lemma HitSourced(
      history: set<Dispatch>, process: nat, cfg: Config, s: State, ds: seq<Dossier>, next: Provider, inputs: Inputs, i: nat)
    requires Reading(inputs.now) && Inv(s) && RowsGrounded(history, process, s)
    requires Judged(cfg, s, ds, next, inputs).judgments.Some? && i < |ds| == |Judged(cfg, s, ds, next, inputs).judgments.value|
    requires i !in TakeAll(cfg, s, ds, inputs).indices
    ensures Sourced(history + CallDispatches(cfg, process, s, ds, next, inputs), process, ds[i],
                    Judged(cfg, s, ds, next, inputs).judgments.value[i])
  {
    var it := TakeAll(cfg, s, ds, inputs);
    var more := history + CallDispatches(cfg, process, s, ds, next, inputs);
    IntakeOk(cfg, s, ds, next, inputs);
    IntakeQueue(cfg, s, ds, inputs);
    HitsStay(cfg, s, ds, next, inputs, i);
    TakeAllGrounded(history, process, cfg, s, ds, inputs);
    hide Judged, TakeAll, Grounded, CacheValidAt, Inv, RowsGrounded, PublishKey, DurableKey, Reassesses, CallDispatches, Sourced, QueuedAt;
    assert HitGrounded1(history, process, ds[i].family.value, it.out[i], inputs.now);
    GroundedGrows(history, more, process, ds[i].family.value, it.out[i]);
    SourcedGrounded(more, process, ds[i], it.out[i]);
  }

  lemma PendingSourced(
      history: set<Dispatch>, process: nat, cfg: Config, s: State, ds: seq<Dossier>, next: Provider, inputs: Inputs, n: nat)
    requires Reading(inputs.now) && 0 < cfg.ttl
    requires Judged(cfg, s, ds, next, inputs).judgments.Some?
    requires Queued(cfg, TakeAll(cfg, s, ds, inputs), ds)
    requires n < |TakeAll(cfg, s, ds, inputs).indices|
    ensures var i := TakeAll(cfg, s, ds, inputs).indices[n];
            && i < |ds| == |Judged(cfg, s, ds, next, inputs).judgments.value|
            && Sourced(history + CallDispatches(cfg, process, s, ds, next, inputs), process, ds[i],
                       Judged(cfg, s, ds, next, inputs).judgments.value[i])
  {
    var it := TakeAll(cfg, s, ds, inputs);
    var more := history + CallDispatches(cfg, process, s, ds, next, inputs);
    assert QueuedAt(cfg, it, ds, n);
    hide TakeAll, GiveAll, PublishKey, DurableKey, Reassesses, Dispatches, DispatchOf, Sourced, Fresh;
    var opinions := next(it.pending).value;
    GivenJudgments(cfg, it, opinions, inputs);
    if it.keys[n].Some? {
      AllDispatchesOf(cfg, process, it.keys, opinions, inputs.now, n);
    }
    FreshSourced(more, process, cfg, ds[it.indices[n]], opinions[n], inputs.now);
  }

  lemma JudgmentSourced(
      history: set<Dispatch>, process: nat, cfg: Config, s: State, ds: seq<Dossier>, next: Provider, inputs: Inputs, i: nat)
    requires Reading(inputs.now) && 0 < cfg.ttl && Inv(s) && RowsGrounded(history, process, s)
    requires Judged(cfg, s, ds, next, inputs).judgments.Some? && i < |ds|
    ensures |Judged(cfg, s, ds, next, inputs).judgments.value| == |ds|
    ensures Sourced(history + CallDispatches(cfg, process, s, ds, next, inputs), process, ds[i],
                    Judged(cfg, s, ds, next, inputs).judgments.value[i])
  {
    hide Judged, Inv, RowsGrounded, Sourced, CallDispatches, QueuedAt;
    JudgedLength(cfg, s, ds, next, inputs);
    var it := TakeAll(cfg, s, ds, inputs);
    if i !in it.indices {
      HitSourced(history, process, cfg, s, ds, next, inputs, i);
    } else {
      IntakeOk(cfg, s, ds, next, inputs);
      IntakeQueue(cfg, s, ds, inputs);
      var n :| 0 <= n < |it.indices| && it.indices[n] == i;
      PendingSourced(history, process, cfg, s, ds, next, inputs, n);
    }
  }

  lemma IntakeOk(cfg: Config, s: State, ds: seq<Dossier>, next: Provider, inputs: Inputs)
    requires Judged(cfg, s, ds, next, inputs).judgments.Some?
    ensures TakeAll(cfg, s, ds, inputs).ok
  {
  }

  lemma SourcedGrounded(history: set<Dispatch>, process: nat, d: Dossier, j: Judgment)
    requires d.family.Some? && Grounded(history, process, d.family.value, j)
    ensures Sourced(history, process, d, j)
  {
  }

  /** A whole call keeps rows and authority grounded and answers only with sourced judgments. */
  lemma JudgedGrounded(
      history: set<Dispatch>, process: nat, cfg: Config, s: State, ds: seq<Dossier>, next: Provider, inputs: Inputs)
    requires Reading(inputs.now) && 0 < cfg.ttl && Injective(cfg.ord) && Inv(s) && RowsGrounded(history, process, s)
    ensures var a := Judged(cfg, s, ds, next, inputs);
            var more := history + CallDispatches(cfg, process, s, ds, next, inputs);
            && Inv(a.store) && RowsGrounded(more, process, a.store)
            && (a.judgments.Some? ==>
                  && |a.judgments.value| == |ds|
                  && forall i :: 0 <= i < |ds| ==> Sourced(more, process, ds[i], a.judgments.value[i]))
  {
    var it := TakeAll(cfg, s, ds, inputs);
    var more := history + CallDispatches(cfg, process, s, ds, next, inputs);
    IntakeShape(cfg, s, ds, inputs);
    TakeAllGrounded(history, process, cfg, s, ds, inputs);
    hide TakeAll, GiveAll, Inv, RowsGrounded, Dispatches, Sourced, HitsGrounded;
    RowsGroundedGrows(history, more, process, it.store);
    if it.ok && it.pending != [] && next(it.pending).Some? && |next(it.pending).value| == |it.pending| {
      GiveAllGrounded(more, process, cfg, it, next(it.pending).value, inputs);
    }
    var a := Judged(cfg, s, ds, next, inputs);
    if a.judgments.Some? {
      JudgedLength(cfg, s, ds, next, inputs);
      forall i | 0 <= i < |ds| ensures Sourced(more, process, ds[i], a.judgments.value[i]) {
        JudgmentSourced(history, process, cfg, s, ds, next, inputs, i);
      }
    }
  }

  lemma JudgedLength(cfg: Config, s: State, ds: seq<Dossier>, next: Provider, inputs: Inputs)
    requires Judged(cfg, s, ds, next, inputs).judgments.Some?
    ensures |Judged(cfg, s, ds, next, inputs).judgments.value| == |ds|
  {
    hide TakeAll, GiveAll;
    IntakeShape(cfg, s, ds, inputs);
  }

  /**
   Durable hits do not slide: every answer that a call takes from a durable row
   is justified at the reading of the call by a dispatch in the history.
   */
  lemma DurableHitsJustified(
      history: set<Dispatch>, process: nat, cfg: Config, s: State, ds: seq<Dossier>, inputs: Inputs, i: nat)
    requires Reading(inputs.now) && Inv(s) && RowsGrounded(history, process, s)
    requires TakeAll(cfg, s, ds, inputs).ok && i < |ds| && i !in TakeAll(cfg, s, ds, inputs).indices
    ensures |TakeAll(cfg, s, ds, inputs).out| == |ds| && ds[i].family.Some?
    ensures Justified(history, process, ds[i].family.value, TakeAll(cfg, s, ds, inputs).out[i].opinion, inputs.now)
  {
    IntakeShape(cfg, s, ds, inputs);
    TakeAllGrounded(history, process, cfg, s, ds, inputs);
    hide TakeAll, Grounded, CacheValidAt, Justified;
    var it := TakeAll(cfg, s, ds, inputs);
    assert HitGrounded1(history, process, ds[i].family.value, it.out[i], inputs.now);
    ValidIsJustified(history, process, ds[i].family.value, it.out[i], inputs.now);
  }

  // ----- the code -----

  /** One call: the first loop clears or looks up rows, the second stores what the provider said. */
  method Judge(cfg: Config, store: Store, ds: seq<Dossier>, next: Provider, inputs: Inputs)
    returns (judgments: Option<seq<Judgment>>)
    requires store.Valid() && store.ord == cfg.ord && Reading(inputs.now) && 0 < cfg.ttl
    modifies store
    ensures store.Valid()
    ensures Answer(store.Model(), judgments) == Judged(cfg, old(store.Model()), ds, next, inputs)
  {
    hide TakeAll, GiveAll, Inv;
    ghost var before := store.Model();
    var ok, out, pending, indices, keys := Queue(cfg, store, ds, inputs);
    ghost var it := TakeAll(cfg, before, ds, inputs);
    IntakeShape(cfg, before, ds, inputs);
    if !ok {
      return None;
    }
    if |pending| == 0 {
      return Some(out);
    }
    var reply := next(pending);
    if reply.None? || |reply.value| != |pending| {
      return None;
    }
    judgments := Give(cfg, store, it, reply.value, out, indices, keys, inputs);
  }

  method Give(cfg: Config, store: Store, ghost it: Intake, opinions: seq<Opinion>, out: seq<Judgment>,
              indices: seq<nat>, keys: seq<Option<Key>>, inputs: Inputs) returns (judgments: Option<seq<Judgment>>)
    requires store.Valid() && store.ord == cfg.ord && Reading(inputs.now) && 0 < cfg.ttl
    requires Indexed(it) && |opinions| == |it.pending|
    requires it.store == store.Model() && it.out == out && it.indices == indices && it.keys == keys
    modifies store
    ensures store.Valid()
    ensures var o := GiveAll(cfg, it, opinions, inputs);
            store.Model() == o.store && judgments == (if o.ok then Some(o.out) else None)
  {
    var given := out;
    for n := 0 to |opinions|
      invariant |given| == |out| && store.Valid() && store.ord == cfg.ord
      invariant Output(store.Model(), true, given) == GiveAll(cfg, it, opinions[..n], inputs)
    {
      hide Kept, Fresh, Inv;
      assert opinions[..n + 1][..n] == opinions[..n];
      var ok, j := Keep(cfg, store, n, opinions[n], keys[n], inputs);
      if !ok {
        StaysFailed(cfg, it, opinions, n + 1, inputs);
        return None;
      }
      given := given[indices[n] := j];
    }
    assert opinions[..|opinions|] == opinions;
    return Some(given);
  }

  method Keep(cfg: Config, store: Store, n: nat, opinion: Opinion, key: Option<Key>, inputs: Inputs)
    returns (ok: bool, j: Judgment)
    requires store.Valid() && store.ord == cfg.ord && Reading(inputs.now) && 0 < cfg.ttl
    modifies store
    ensures store.Valid() && Reply(store.Model(), ok, None) == Kept(cfg, old(store.Model()), n, opinion, key, inputs)
    ensures j == Fresh(cfg, opinion, key, inputs.now)
  {
    hide Stored, Inv, Reusable, Valid, CacheValidAt;
    j := Unbounded(opinion);
    if key.Some? && Valid(opinion) && Reusable(opinion) {
      StampedFits(cfg, 0, key.value, opinion, inputs.now);
      j := Stamped(opinion, inputs.now, cfg.ttl);
      // Provider latency consumes the original window.
      if CacheValidAt(j, inputs.later(n)) {
        ok := store.PutVerdict(key.value, j, Unix(inputs.now), cfg.ttl, inputs.writeDb(n));
        return;
      }
    }
    ok := true;
  }

  /** Once storing failed, the rest of the answers change nothing. */
  lemma {:induction false} StaysFailed(cfg: Config, it: Intake, opinions: seq<Opinion>, n: nat, inputs: Inputs)
    requires Indexed(it) && n <= |opinions| <= |it.pending| && !GiveAll(cfg, it, opinions[..n], inputs).ok
    ensures GiveAll(cfg, it, opinions, inputs) == GiveAll(cfg, it, opinions[..n], inputs)
    decreases |opinions|
  {
    hide Fresh, Kept;
    if n == |opinions| {
      assert opinions[..n] == opinions;
    } else {
      var front := opinions[..|opinions| - 1];
      assert front[..n] == opinions[..n];
      StaysFailed(cfg, it, front, n, inputs);
    }
  }

  lemma {:induction false} IntakeStaysFailed(cfg: Config, s: State, ds: seq<Dossier>, n: nat, inputs: Inputs)
    requires n <= |ds| && !TakeAll(cfg, s, ds[..n], inputs).ok
    ensures TakeAll(cfg, s, ds, inputs) == TakeAll(cfg, s, ds[..n], inputs)
    decreases |ds|
  {
    hide Served, PublishKey;
    if n == |ds| {
      assert ds[..n] == ds;
    } else {
      var front := ds[..|ds| - 1];
      assert front[..n] == ds[..n];
      IntakeStaysFailed(cfg, s, front, n, inputs);
    }
  }

  method Queue(cfg: Config, store: Store, ds: seq<Dossier>, inputs: Inputs)
    returns (ok: bool, out: seq<Judgment>, pending: seq<Dossier>, indices: seq<nat>, keys: seq<Option<Key>>)
    requires store.Valid() && store.ord == cfg.ord && Reading(inputs.now)
    modifies store
    ensures store.Valid()
    ensures Intake(store.Model(), ok, out, pending, indices, keys) == TakeAll(cfg, old(store.Model()), ds, inputs)
  {
    ghost var before := store.Model();
    ok, out, pending, indices, keys := true, [], [], [], [];
    for i := 0 to |ds|
      invariant store.Valid() && store.ord == cfg.ord && |out| == i && ok
      invariant Intake(store.Model(), ok, out, pending, indices, keys) == TakeAll(cfg, before, ds[..i], inputs)
    {
      hide Served, Inv, DurableKey;
      assert ds[..i + 1][..i] == ds[..i];
      var d := ds[i];
      var hit;
      ok, hit := Serve(cfg, store, d, i, inputs);
      if !ok {
        IntakeStaysFailed(cfg, before, ds, i + 1, inputs);
        return;
      }
      if hit.Some? {
        out := out + [hit.value];
      } else {
        out := out + [NO_JUDGMENT];
        pending := pending + [d];
        indices := indices + [i];
        keys := keys + [if Unsafe(d) || d.mode == CacheBypass then None else DurableKey(cfg, d)];
      }
    }
    assert ds[..|ds|] == ds;
  }

  method Serve(cfg: Config, store: Store, d: Dossier, i: nat, inputs: Inputs) returns (ok: bool, hit: Option<Judgment>)
    requires store.Valid() && store.ord == cfg.ord && Reading(inputs.now)
    modifies store
    ensures store.Valid() && Reply(store.Model(), ok, hit) == Served(cfg, old(store.Model()), d, i, inputs)
  {
    hide Found, Removed, Inv;
    var key := DurableKey(cfg, d);
    var unsafe := Unsafe(d);
    if key.Some? && (cfg.rescore || d.mode != CacheDefault || unsafe) {
      // A failed or unsafe reassessment must not bring the old verdict back.
      ok := store.DeleteVerdict(key.value, inputs.readDb(i));
      return ok, None;
    }
    if key.Some? && !cfg.rescore && d.mode == CacheDefault {
      ok, hit := store.Lookup(key.value, inputs.now, cfg.ttl, inputs.readDb(i));
      return;
    }
    return true, None;
  }
}
