/**
 Instants with a wall reading that may be stepped backwards and, when they were
 read from a running process, a monotonic reading as well.
 */
module Clock {
  import opened Wrappers

  /** Nanoseconds. */
  type Duration = int

  const SECOND: Duration := 1_000_000_000
  const WEEK: Duration := 7 * 24 * 3600 * SECOND

  /** Wall time in nanoseconds since the Unix epoch, and the process-local monotonic reading. */
  datatype Instant = Instant(wall: int, mono: Option<int>)

  /** The unset instant: the first of January of year 1. */
  const ZERO: Instant := Instant(-62_135_596_800 * SECOND, None)

  predicate IsZero(t: Instant) {
    t.wall == ZERO.wall
  }

  /** Drop the monotonic reading. */
  function WallOnly(t: Instant): Instant {
    t.(mono := None)
  }

  /** The monotonic readings decide when both sides have one. */
  predicate Before(a: Instant, b: Instant) {
    if a.mono.Some? && b.mono.Some? then a.mono.value < b.mono.value else a.wall < b.wall
  }

  function Add(t: Instant, d: Duration): Instant {
    Instant(t.wall + d, if t.mono.Some? then Some(t.mono.value + d) else None)
  }

  function MinTime(a: Instant, b: Instant): Instant {
    if Before(a, b) then a else b
  }

  /** Whole seconds since the epoch, rounded down. */
  function Unix(t: Instant): int {
    t.wall / SECOND
  }

  function FromUnix(s: int): Instant {
    Instant(s * SECOND, None)
  }

  /** Whole seconds of a duration, rounded toward zero. */
  function WholeSeconds(d: Duration): int {
    if 0 <= d then d / SECOND else -(-d / SECOND)
  }

  /**
   A reading of a running process: it has a monotonic part and its wall part is
   later than the first second of year 1, which stands for "unset".
   */
  predicate Reading(t: Instant) {
    t.mono.Some? && ZERO.wall + SECOND <= t.wall
  }

  lemma UnixFloor(t: Instant)
    ensures Unix(t) * SECOND <= t.wall < (Unix(t) + 1) * SECOND
  {
  }
}
