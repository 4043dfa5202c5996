/** The evidence about one group of lines that is sent to a provider. */
module Dossiers {
  import opened Wrappers
  import opened Events
  import opened Verdict

  /** Local scheduling policy, never supplied by a provider. */
  datatype CacheMode = CacheDefault | CacheRefresh | CacheBypass

  datatype Dossier = Dossier(
    mode: CacheMode, family: Option<Family>, scope: Source, occurrences: nat, samples: seq<string>,
    baselineImportant: bool, securitySignal: bool, truncated: bool, sensitive: bool,
    evidenceLimited: bool, samplesLimited: bool, reason: Reason, evidenceId: string)

  const MAX_SAMPLES: nat := 8

  function NewDossier(family: Option<Family>, scope: Source, mode: CacheMode, reason: Reason, id: string): Dossier {
    Dossier(mode, family, scope, 0, [], false, false, false, false, false, false, reason, id)
  }

  /** Add one more line of the group to its evidence. */
  function Observed(pats: Patterns, d: Dossier, e: Event): Dossier {
    var safe := pats.redacted(e.text);
    var sample := pats.clipped(safe);
    d.(occurrences := d.occurrences + 1,
       baselineImportant := d.baselineImportant || e.important,
       securitySignal := d.securitySignal || pats.securityShaped(e.text),
       truncated := d.truncated || e.truncated,
       sensitive := d.sensitive || e.sensitive || pats.changed(e.text),
       evidenceLimited := d.evidenceLimited || pats.overlong(safe) || e.truncated || e.parseUncertain,
       samples := if sample in d.samples || MAX_SAMPLES <= |d.samples| then d.samples else d.samples + [sample],
       samplesLimited := d.samplesLimited || (sample !in d.samples && MAX_SAMPLES <= |d.samples|))
  }

  /** Evidence that can neither use nor become a reusable verdict. */
  predicate Unsafe(d: Dossier) {
    d.sensitive || d.truncated || d.evidenceLimited || d.samplesLimited || d.securitySignal
  }

  /** What a provider answers: one opinion per dossier, or an error. */
  type Provider = seq<Dossier> -> Option<seq<Opinion>>
}
