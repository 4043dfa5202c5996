/** A batch followed by a pass of the learning lane, which is how every batch ends. */
module Lanes {
  import opened Clock
  import opened Verdict
  import opened Events
  import opened Dossiers
  import opened Grouper
  import opened Engine
  import opened Batches
  import Learning
  import VerdictStore

  /**
   The second lane cannot undo what the first decided for safety: after both, a line
   of an unsafe dossier is neither routine nor reused, a line that a person marked is
   as that person left it, and every line keeps its identity, source and text.
   */
  lemma {:induction false} SafetyOutlivesLearning(
      cfg: Config, s: State, store: VerdictStore.State, events: seq<Event>, inputs: Inputs, i: nat,
      second: Learning.Config, calls: seq<Learning.Call>, teacher: Learning.Teacher, now: Instant)
    requires i < |events|
    ensures var entries := ReviewAll(cfg, events);
            var groups := ScanAll(cfg, s, entries, inputs.now).groups;
            var first := Batched(cfg, s, store, events, inputs);
            var r := Learning.Teach(second, first.state.review, teacher, Learning.Run(second, calls), first.out, now);
            && |r.out| == |events| && SameEvidence(r.out[i], entries[i].e)
            && (entries[i].reviewed && entries[i].e.review ==> r.out[i] == entries[i].e)
            && forall n: nat :: Owns(groups, n, i) && Unsafe(groups[n].d) ==>
                 r.out[i].judgment.opinion.importance != Routine && !r.out[i].reused
  {
    hide ReviewAll, ScanAll, Batched, Served, Disjoint, Occurrences, Uncached, Learning.Teach, Learning.Run,
      Learning.Bounded, Learning.Upgrades, Unsafe;
    var first := Batched(cfg, s, store, events, inputs);
    BatchAccountsFor(cfg, s, store, events, inputs, i);
    Learning.RunIsSound(second, calls);
    Learning.TeachingOnlyRaises(second, first.state.review, teacher, Learning.Run(second, calls), first.out, now);
    var r := Learning.Teach(second, first.state.review, teacher, Learning.Run(second, calls), first.out, now);
    assert Learning.OnlyRaised(second, first.state.review, first.out[i], r.out[i]);
  }
}
