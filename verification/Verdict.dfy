/** Judgments about a log group and the bounds within which one may be reused. */
module Verdict {
  import opened Wrappers
  import opened Clock

  datatype Importance = Important | Routine | Uncertain | UnknownImportance | OtherImportance(name: string)
  datatype Severity = Noise | Info | Degraded | Impact | Outage | UnknownSeverity | OtherSeverity(name: string)
  datatype Category = Deploy | Capacity | Dependency | Security | Fraud | Data | Config | Transient
    | RoutineCategory | UnknownCategory | OtherCategory(name: string)
  datatype Error = NoError | Unavailable | InvalidJudgment | StaleGeneration | NeedsReview | OtherError(reason: string)

  /** What a provider says; this is all that is stored durably. */
  datatype Opinion = Opinion(
    importance: Importance, severity: Severity, category: Category,
    importanceConfidence: Option<real>, severityConfidence: Option<real>, categoryConfidence: Option<real>,
    error: Error)

  /** An opinion with trusted local cache bounds; an unset bound does not constrain. */
  datatype Judgment = Judgment(
    createdAt: Instant, expiresAt: Instant, observedAt: Instant, deadline: Instant, opinion: Opinion)

  function Unbounded(o: Opinion): Judgment {
    Judgment(ZERO, ZERO, ZERO, ZERO, o)
  }

  function UnknownOpinion(e: Error): Opinion {
    Opinion(UnknownImportance, UnknownSeverity, UnknownCategory, None, None, None, e)
  }

  function Unknown(e: Error): Judgment {
    Unbounded(UnknownOpinion(e))
  }

  /** The zero value of a judgment. */
  const NO_JUDGMENT: Judgment :=
    Unbounded(Opinion(OtherImportance(""), OtherSeverity(""), OtherCategory(""), None, None, None, NoError))

  predicate Confident(c: Option<real>) {
    c.Some? && 0.7 <= c.value <= 1.0
  }

  predicate Reusable(o: Opinion) {
    && o.error == NoError
    && (o.importance == Routine || o.importance == Important)
    && o.category != UnknownCategory && o.category != Security && o.category != Fraud
    && Confident(o.importanceConfidence) && Confident(o.severityConfidence) && Confident(o.categoryConfidence)
  }

  predicate UnitInterval(c: Option<real>) {
    c.Some? && 0.0 <= c.value <= 1.0
  }

  /** The typed response schema. */
  predicate Valid(o: Opinion) {
    && (o.importance == Important || o.importance == Routine || o.importance == Uncertain)
    && !o.severity.UnknownSeverity? && !o.severity.OtherSeverity?
    && !o.category.OtherCategory?
    && o.error == NoError
    && UnitInterval(o.importanceConfidence) && UnitInterval(o.severityConfidence) && UnitInterval(o.categoryConfidence)
  }

  /** Wall bounds are checked apart from the elapsed-time deadline. */
  predicate CacheValidAt(j: Judgment, now: Instant) {
    var wall := WallOnly(now);
    && (IsZero(j.createdAt) || !Before(wall, WallOnly(j.createdAt)))
    && (IsZero(j.observedAt) || !Before(wall, WallOnly(j.observedAt)))
    && (IsZero(j.expiresAt) || Before(wall, WallOnly(j.expiresAt)))
    && (IsZero(j.deadline) || Before(now, j.deadline))
  }
}
