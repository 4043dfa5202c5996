/** Framed log events and the identities computed from them. */
module Events {
  import opened Wrappers
  import opened Verdict

  type Source = map<string, string>

  datatype Strategy = Off | Exact | Drain | Semantic
  datatype Kind = ByStrategy(strategy: Strategy) | Reviewed

  // Digests are modelled by constructors: a digest determines what was hashed.

  /** Digest of the normalization contract and the normalized text. */
  datatype Version = Version(strategy: Strategy, classic: bool, kind: Kind, template: string)
  /** Digest that names a family of lines which may share a verdict. */
  datatype Family = Family(scope: Source, version: Version, important: bool)

  datatype Reason = Ineligible | ShadowOnly | ReviewedMiss | ReviewRequired | ClockRollback | CacheExpired
    | Cached | StableAudit | NewOrExpired

  datatype Assessment = Assessment(
    dispatched: bool, family: Option<Family>, windowOccurrences: nat, sampleCount: nat,
    evidenceLimited: bool, samplesLimited: bool, reason: Reason)

  datatype Event = Event(
    id: string, source: Source, timestamp: Option<string>, text: string, important: bool,
    truncated: bool, sensitive: bool, parseUncertain: bool,
    judgment: Judgment, reused: bool, assessment: Option<Assessment>, representative: string,
    // A person marked the event as expected.
    review: bool)

  /** What the pattern library says about a text; the patterns themselves are not modelled. */
  datatype Patterns = Patterns(
    // Matches a security-shaped word.
    securityShaped: string -> bool,
    // At most 2048 bytes, 128 fields and one line.
    small: string -> bool,
    // The text with recognizable secrets removed.
    redacted: string -> string,
    // Redaction found a secret; without one it may still spell a JSON text differently.
    changed: string -> bool,
    // The redacted text exceeds the 2048 bytes kept as evidence.
    overlong: string -> bool,
    clipped: string -> string,
    // The masked text of the drain strategy.
    masked: (string, bool) -> string)

  predicate Eligible(pats: Patterns, e: Event) {
    !e.parseUncertain && !e.truncated && !e.sensitive && !pats.securityShaped(e.text) && pats.small(e.text)
  }

  const DRAIN_SCOPE: set<string> :=
    {"type", "cluster_id", "context", "namespace", "container", "kind", "previous", "restart_count"}

  /** Lines of all pods of one workload share a drain scope. */
  function Scope(e: Event, drain: bool): Source {
    if drain && "type" in e.source && e.source["type"] == "kubernetes"
    then map k | k in e.source && k in DRAIN_SCOPE :: e.source[k]
    else e.source
  }
}
