/** Which opinions count, which of them may be reused, and when a judgment's bounds contain a reading. */
module Bounds {
  import opened Wrappers
  import opened Clock
  import opened Verdict
  import opened VerdictStore
  import CachedJudge

  const KINDS: set<Category> :=
    {Deploy, Capacity, Dependency, Security, Fraud, Data, Category.Config, Transient, RoutineCategory, UnknownCategory}

  /** The confidence is given and lies between `least` and one. */
  ghost predicate Sure(least: real, c: Option<real>) {
    exists x: real :: c == Some(x) && least <= x && x <= 1.0
  }

  ghost predicate SureOfAll(least: real, o: Opinion) {
    Sure(least, o.importanceConfidence) && Sure(least, o.severityConfidence) && Sure(least, o.categoryConfidence)
  }

  /** What a provider may answer. */
  ghost predicate Answerable(o: Opinion) {
    && o.error == NoError && o.importance in {Important, Routine, Uncertain}
    && o.severity in {Noise, Info, Degraded, Impact, Outage} && o.category in KINDS && SureOfAll(0.0, o)
  }

  /**
   An opinion is valid exactly when the schema can produce it, and a valid one may be
   reused exactly when it is decided, not about safety or an unknown kind, and at least
   0.7 sure three times.
   */
  lemma {:induction false} ValidAndReusable(o: Opinion)
    ensures Valid(o) <==> Answerable(o)
    ensures Valid(o) ==>
              (Reusable(o) <==> o.importance != Uncertain && o.category !in {Security, Fraud, UnknownCategory} && SureOfAll(0.7, o))
  {
  }

  /** An opinion that a provider could not give is reused only for a severity or a kind outside the schema. */
  lemma {:induction false} ReusableOtherwise(o: Opinion)
    requires Reusable(o)
    ensures Valid(o) || o.severity !in {Noise, Info, Degraded, Impact, Outage} || o.category !in KINDS
    ensures o.error == NoError && o.importance in {Important, Routine} && SureOfAll(0.7, o)
  {
  }

  /** All four bounds count, each by its own clock; a judgment without bounds is valid at all times. */
  lemma {:induction false} EveryBoundCounts(j: Judgment, now: Instant)
    requires Reading(now) && !IsZero(j.createdAt) && !IsZero(j.observedAt) && !IsZero(j.expiresAt) && !IsZero(j.deadline)
    ensures CacheValidAt(j, now) <==>
              && j.createdAt.wall <= now.wall && j.observedAt.wall <= now.wall && now.wall < j.expiresAt.wall
              && (if j.deadline.mono.Some? then now.mono.value < j.deadline.mono.value else now.wall < j.deadline.wall)
    ensures CacheValidAt(Unbounded(j.opinion), now)
    ensures CacheValidAt(Unbounded(j.opinion).(deadline := j.deadline), now) <==> Before(now, j.deadline)
  {
  }

  /** A window has no holes: what is valid at two readings is valid at every reading between them. */
  lemma {:induction false} ValidBetween(j: Judgment, a: Instant, b: Instant, c: Instant)
    requires Reading(a) && Reading(b) && Reading(c)
    requires a.wall <= b.wall <= c.wall && a.mono.value <= b.mono.value <= c.mono.value
    requires CacheValidAt(j, a) && CacheValidAt(j, c)
    ensures CacheValidAt(j, b)
  {
  }

  /**
   The lifetime of an answer begins when the provider is asked and ends, by either clock,
   at the whole second of that reading plus the time to live.
   */
  lemma {:induction false} LifetimeOfAnAnswer(o: Opinion, asked: Instant, ttl: Duration, now: Instant)
    requires Reading(asked) && Reading(now) && TtlAllowed(ttl)
    ensures var end := (Unix(asked) + WholeSeconds(ttl)) * SECOND;
            CacheValidAt(CachedJudge.Stamped(o, asked, ttl), now) <==>
              asked.wall <= now.wall < end && now.mono.value - asked.mono.value < end - asked.wall
  {
    UnixFloor(asked);
    var end := (Unix(asked) + WholeSeconds(ttl)) * SECOND;
    assert WholeSeconds(ttl) >= 0;
    assert Unix(asked) * SECOND > ZERO.wall;
  }

  /** An instant lies in the second that `Unix` names and in no other; durations are cut toward zero. */
  lemma {:induction false} SecondsAreWhole(t: Instant, s: int)
    ensures Unix(t) == s <==> FromUnix(s).wall <= t.wall < FromUnix(s + 1).wall
    ensures 0 <= t.wall ==> WholeSeconds(t.wall) == Unix(t) && WholeSeconds(-t.wall) == -Unix(t)
  {
  }
}
