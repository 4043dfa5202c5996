/** The history of a run is not made up: every dispatch in it is an answer that the provider gave. */
module Origins {
  import opened Wrappers
  import opened Clock
  import opened Verdict
  import opened Events
  import opened Dossiers
  import opened Grouper
  import opened Engine
  import opened History
  import opened Lifetime
  import Answers
  import Asked
  import Batches
  import CachedJudge
  import VerdictStore

  /** The provider answered question number `n` of `asked`, about the family of the dispatch, with its opinion. */
  predicate Gave(provider: Provider, asked: seq<Dossier>, n: nat, d: Dispatch) {
    && provider(asked).Some? && n < |asked| && n < |provider(asked).value|
    && asked[n].family == Some(d.family) && provider(asked).value[n] == d.opinion
  }

  /** The dispatch was made in this batch, at a reading of it, and was answered. */
  ghost predicate MadeIn(inputs: Inputs, d: Dispatch) {
    && !inputs.cancelled && (d.at == inputs.now || d.at == inputs.judge.now)
    && exists asked: seq<Dossier>, n: nat :: Gave(inputs.provider, asked, n, d)
  }

  lemma {:induction false} CallIsAnswered(
      cfg: CachedJudge.Config, process: nat, s: VerdictStore.State, ds: seq<Dossier>, next: Provider,
      inputs: CachedJudge.Inputs, d: Dispatch)
    requires d in CachedJudge.CallDispatches(cfg, process, s, ds, next, inputs)
    ensures var asked := CachedJudge.TakeAll(cfg, s, ds, inputs).pending;
            d.process == process && d.at == inputs.now && exists n: nat :: Gave(next, asked, n, d)
  {
    hide CachedJudge.TakeAll, CachedJudge.PublishKey;
    var it := CachedJudge.TakeAll(cfg, s, ds, inputs);
    assert it.ok;
    CachedJudge.IntakeShape(cfg, s, ds, inputs);
    CachedJudge.IntakeQueue(cfg, s, ds, inputs);
    var opinions := next(it.pending).value;
    var n :| 0 <= n < |opinions| && n < |it.keys| && it.keys[n].Some?
             && d == CachedJudge.DispatchOf(cfg, process, it.keys[n].value, opinions[n], inputs.now);
    assert CachedJudge.QueuedAt(cfg, it, ds, n);
    KeyNamesFamily(cfg, it.pending[n]);
    assert Gave(next, it.pending, n, d);
  }

  lemma KeyNamesFamily(cfg: CachedJudge.Config, d: Dossier)
    ensures var key := CachedJudge.PublishKey(cfg, d); key.Some? ==> d.family == Some(key.value.family)
  {
  }

  lemma HitHasBounds(s: VerdictStore.State, key: VerdictStore.Key, now: Instant, ttl: Duration, db: VerdictStore.Db)
    requires Reading(now)
    ensures var hit := VerdictStore.Found(s, key, now, ttl, db).hit; hit.Some? ==> hit.value != Unbounded(hit.value.opinion)
  {
    hide VerdictStore.RowLive, Reusable, CacheValidAt;
  }

  /** A judgment without bounds is what the provider said of that dossier. */
  lemma {:induction false} PlainIsAnswered(
      cfg: CachedJudge.Config, s: VerdictStore.State, ds: seq<Dossier>, next: Provider, inputs: CachedJudge.Inputs,
      i: nat, d: Dispatch)
    requires Reading(inputs.now) && i < |ds| && ds[i].family == Some(d.family)
    requires CachedJudge.Judged(cfg, s, ds, next, inputs).judgments.Some?
    requires var js := CachedJudge.Judged(cfg, s, ds, next, inputs).judgments.value;
             i < |js| && js[i] == Unbounded(d.opinion)
    ensures exists n: nat :: Gave(next, CachedJudge.TakeAll(cfg, s, ds, inputs).pending, n, d)
  {
    hide CachedJudge.TakeAll, CachedJudge.Judged, Asked.MayReuse, Asked.RowFor, VerdictStore.Found;
    var it := CachedJudge.TakeAll(cfg, s, ds, inputs);
    Asked.EachGetsItsOwnAnswer(cfg, s, ds, next, inputs, i);
    if i in it.indices {
      var n :| 0 <= n < |it.indices| && it.indices[n] == i && it.pending[n] == ds[i]
               && d.opinion == next(it.pending).value[n];
      assert Gave(next, it.pending, n, d);
    } else {
      CachedJudge.IntakeOk(cfg, s, ds, next, inputs);
      Asked.IntakeDecides(cfg, s, ds, inputs, i);
      CachedJudge.IntakeQueue(cfg, s, ds, inputs);
      CachedJudge.HitsStay(cfg, s, ds, next, inputs, i);
      var key :| Asked.RowFor(cfg, ds[i], key)
        && VerdictStore.Found(Asked.Before(cfg, s, ds, inputs, i), key, inputs.now, cfg.ttl, inputs.readDb(i)).hit == Some(it.out[i]);
      HitHasBounds(Asked.Before(cfg, s, ds, inputs, i), key, inputs.now, cfg.ttl, inputs.readDb(i));
      assert false;
    }
  }

  lemma AnsweredPlainly(cfg: Config, store: VerdictStore.State, ds: seq<Dossier>, inputs: Inputs, i: nat, d: Dispatch)
    requires Reading(inputs.judge.now) && i < |ds| && ds[i].family == Some(d.family)
    requires var js := Answered(cfg, store, ds, inputs).judgments;
             js.Some? && i < |js.value| && js.value[i] == Unbounded(d.opinion)
    ensures !inputs.cancelled && exists asked: seq<Dossier>, n: nat :: Gave(inputs.provider, asked, n, d)
  {
    hide CachedJudge.Judged;
    match cfg.cache {
      case None =>
        assert Gave(inputs.provider, ds, i, d);
      case Some(c) =>
        PlainIsAnswered(c, store, ds, inputs.provider, inputs.judge, i, d);
    }
  }

  /** Every dispatch that a batch adds to the history was made in it and answered for that family. */
  lemma {:induction false} DispatchesAreAnswers(w: World, events: seq<Event>, inputs: Inputs, d: Dispatch)
    requires Reading(inputs.judge.now) && d in BatchDispatches(w, events, inputs)
    ensures d.process == w.process && MadeIn(inputs, d)
  {
    hide ScanAll, Answered, ReviewAll, SentAll, CachedJudge.CallDispatches, Gave;
    var entries := ReviewAll(w.cfg, events);
    var sc := ScanAll(w.cfg, w.table, entries, inputs.now);
    var ds := SentAll(sc.state, sc.groups);
    if d in DurableDispatches(w.cfg, w.process, w.store, ds, inputs) {
      CallIsAnswered(w.cfg.cache.value, w.process, w.store, ds, inputs.provider, inputs.judge, d);
    } else {
      var js := Batches.Replies(w.cfg, w.table, w.store, events, inputs);
      var n :| 0 <= n < |sc.groups| && sc.groups[n].ticket.Some?
               && ReplyFor(js, n).Some? && ReplyFor(js, n).value == Unbounded(ReplyFor(js, n).value.opinion)
               && d == DirectDispatch(w.process, sc.groups[n].ticket.value.family, ReplyFor(js, n).value.opinion, inputs.now, w.cfg.settings.ttl);
      ScanShape(w.cfg, w.table, entries, inputs.now);
      SentFamily(sc, n);
      AnsweredPlainly(w.cfg, w.store, ds, inputs, n, d);
    }
  }

  lemma SentFamily(sc: Scan, n: nat)
    requires Shaped(sc) && n < |sc.groups| && sc.groups[n].ticket.Some?
    ensures SentAll(sc.state, sc.groups)[n].family == Some(sc.groups[n].ticket.value.family)
  {
  }

  /**
   The history of a run holds nothing but answers: every dispatch in it was made in one of
   its batches, and the provider answered it there, about that family, with that opinion.
   */
  lemma {:induction false} HistoryIsAnswers(cfg: Config, vetoed: set<Family>, steps: seq<Step>, d: Dispatch)
    requires forall i :: 0 <= i < |steps| ==> StepOk(steps[i])
    requires d in Run(Start(cfg, vetoed), steps).history
    ensures exists k :: 0 <= k < |steps| && steps[k].BatchStep? && MadeIn(steps[k].inputs, d)
  {
    hide MadeIn, BatchDispatches, Batched;
    var n := |steps| - 1;
    var w := Run(Start(cfg, vetoed), steps[..n]);
    assert StepOk(steps[n]);
    if d in w.history {
      HistoryIsAnswers(cfg, vetoed, steps[..n], d);
    } else {
      DispatchesAreAnswers(w, steps[n].events, steps[n].inputs, d);
    }
  }
}
