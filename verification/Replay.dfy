/**
 The replay filter of a followed pod log.

 A dropped connection is reopened from the whole second of the last accepted
 transport time stamp, so the server sends some lines again.  The cursor must
 let every line through exactly once.  It remembers how often each raw line
 digest was accepted at the latest time stamp and counts those off again.

 `State` and `Accept` describe the filter with multisets; class `Cursor` is the
 code, which keeps maps of counters; `Follow` is the reconnect loop.
 */
module Replay {
  import opened Wrappers

  /** Transport time in nanoseconds. */
  type Stamp = int
  /** SHA-256 of a raw physical line. */
  datatype Digest = Digest(hex: string)

  const SECOND: int := 1_000_000_000
  const CURSOR_CAPACITY: nat := 4096
  const MAX_COUNT: nat := 0xFFFF_FFFF_FFFF_FFFF
  /** An unsigned 64-bit counter. */
  type Count = n: nat | n <= MAX_COUNT

  datatype Gap = Untimestamped | Truncated | OutOfOrder | Overflow
  datatype Line = Line(stamp: Stamp, digest: Digest)
  datatype State = State(last: Option<Stamp>, replaying: bool, counts: multiset<Digest>, replay: multiset<Digest>)
  datatype Outcome = Outcome(state: State, accepted: bool, gaps: seq<Gap>)

  const FRESH: State := State(None, false, multiset{}, multiset{})

  /** The whole second a stamp falls in; times of day never precede the zero time. */
  function WholeSecond(t: Stamp): Stamp {
    t - t % SECOND
  }

  function Distinct(bag: multiset<Digest>): set<Digest> {
    set d | d in bag
  }

  function Reconnected(s: State): State {
    State(s.last, s.last.Some?, s.counts, s.counts)
  }

  /** Whether one more copy of `d` still fits the bounded counters. */
  predicate Fits(counts: multiset<Digest>, d: Digest) {
    (d in counts || |Distinct(counts)| < CURSOR_CAPACITY) && counts[d] < MAX_COUNT
  }

  function Accept(s: State, t: Option<Stamp>, d: Digest, partial: bool): Outcome {
    if t.None? then Outcome(s, true, [Untimestamped])
    else if partial then Outcome(s, true, [Truncated])
    else if s.last.Some? && t.value < s.last.value then
      if s.replaying && WholeSecond(s.last.value) <= t.value
      then Outcome(s, false, [])
      else Outcome(s, true, [OutOfOrder])
    else
      Counted(if s.last == t then s else State(t, false, multiset{}, multiset{}), d)
  }

  /** A line that carries the remembered stamp. */
  function Counted(s: State, d: Digest): Outcome {
    if d in s.replay then
      var rest := s.replay - multiset{d};
      Outcome(s.(replay := rest, replaying := s.replaying && rest != multiset{}), false, [])
    else if !Fits(s.counts, d) then Outcome(s, true, [Overflow])
    else Outcome(s.(counts := s.counts + multiset{d}), true, [])
  }

  // ----- the log, the server and whole runs -----

  predicate Sorted(log: seq<Line>) {
    forall i, j :: 0 <= i < j < |log| ==> log[i].stamp <= log[j].stamp
  }

  /** Where the run of lines that share the stamp of line `r - 1` begins. */
  function GroupStart(log: seq<Line>, r: nat): (f: nat)
    requires 0 < r <= |log|
    ensures f < r
    ensures forall i :: f <= i < r ==> log[i].stamp == log[r - 1].stamp
    ensures 0 < f ==> log[f - 1].stamp != log[r - 1].stamp
  {
    if 1 < r && log[r - 2].stamp == log[r - 1].stamp then GroupStart(log, r - 1) else r - 1
  }

  function Bag(log: seq<Line>, i: nat, j: nat): multiset<Digest>
    requires j <= |log|
    decreases j
  {
    if j <= i then multiset{} else Bag(log, i, j - 1) + multiset{log[j - 1].digest}
  }

  /** The cursor's bounded counters can hold every stamp of the first `r` lines. */
  predicate Bounded(log: seq<Line>, r: nat)
    requires r <= |log|
  {
    forall k :: 0 <= k < r ==> NextFits(log, k)
  }

  predicate NextFits(log: seq<Line>, k: nat)
    requires k < |log|
  {
    Fits(Bag(log, GroupStart(log, k + 1), k), log[k].digest)
  }

  /** First line at or after a stamp: where the server starts to send. */
  function FirstFrom(log: seq<Line>, t: Stamp, i: nat): (j: nat)
    requires i <= |log|
    ensures i <= j <= |log|
    ensures forall k :: i <= k < j ==> log[k].stamp < t
    ensures j < |log| ==> t <= log[j].stamp
    decreases |log| - i
  {
    if i == |log| || t <= log[i].stamp then i else FirstFrom(log, t, i + 1)
  }

  function Resume(log: seq<Line>, s: State): (i: nat)
    ensures i <= |log|
  {
    match s.last
    case None => 0
    case Some(t) => FirstFrom(log, WholeSecond(t), 0)
  }

  datatype Run = Run(state: State, accepted: seq<Line>, gaps: seq<Gap>)

  function DeliverLine(run: Run, line: Line): Run {
    var o := Accept(run.state, Some(line.stamp), line.digest, false);
    Run(o.state, run.accepted + (if o.accepted then [line] else []), run.gaps + o.gaps)
  }

  /** Deliver the lines from `i` up to `j` on one connection. */
  function Deliver(run: Run, log: seq<Line>, i: nat, j: nat): Run
    requires j <= |log|
    decreases j
  {
    if j <= i then run else DeliverLine(Deliver(run, log, i, j - 1), log[j - 1])
  }

  function Opened(run: Run): Run {
    if run.state.last.Some? then run.(state := Reconnected(run.state)) else run
  }

  /** One connection: reopen, resend from the whole second, break after line `cut`. */
  function Connection(run: Run, log: seq<Line>, cut: nat): Run
    requires cut <= |log|
  {
    Deliver(Opened(run), log, Resume(log, run.state), cut)
  }

  predicate Within(log: seq<Line>, cuts: seq<nat>) {
    forall n :: 0 <= n < |cuts| ==> cuts[n] <= |log|
  }

  function Connections(log: seq<Line>, cuts: seq<nat>): Run
    requires Within(log, cuts)
  {
    if cuts == [] then Run(FRESH, [], [])
    else Connection(Connections(log, cuts[..|cuts| - 1]), log, cuts[|cuts| - 1])
  }

  /** The longest prefix any connection got to. */
  function Reached(cuts: seq<nat>): (r: nat)
    ensures forall n :: 0 <= n < |cuts| ==> cuts[n] <= r
    ensures cuts == [] ==> r == 0
    ensures cuts != [] ==> exists n :: 0 <= n < |cuts| && cuts[n] == r
  {
    if cuts == [] then 0
    else
      var front, c := cuts[..|cuts| - 1], cuts[|cuts| - 1];
      var r := Reached(front);
      assert c == cuts[|cuts| - 1] && forall n :: 0 <= n < |front| ==> front[n] == cuts[n];
      if r < c then c else r
  }

  // ----- invariants -----

  /** The state remembers exactly the first `r` lines. */
  ghost predicate Synced(s: State, log: seq<Line>, r: nat)
    requires r <= |log|
  {
    if r == 0 then s.last.None? && s.counts == multiset{}
    else s.last == Some(log[r - 1].stamp) && s.counts == Bag(log, GroupStart(log, r), r)
  }

  /** The next line sent is `i`; what is still to be counted off is what lies between `i` and `r`. */
  ghost predicate CatchingUp(s: State, log: seq<Line>, i: nat, r: nat)
    requires i <= r <= |log|
  {
    if i == r then s.replay == multiset{}
    else
      && s.replaying
      && WholeSecond(log[r - 1].stamp) <= log[i].stamp
      && s.replay == Bag(log, if i < GroupStart(log, r) then GroupStart(log, r) else i, r)
  }

  /** As long as the counters could hold the lines, nothing was lost, repeated or reported. */
  ghost predicate Faithful(run: Run, log: seq<Line>, r: nat)
    requires r <= |log|
  {
    if Bounded(log, r) then run.gaps == [] && run.accepted == log[..r] && Synced(run.state, log, r)
    else run.gaps != []
  }

  lemma {:induction false} BagFront(log: seq<Line>, i: nat, j: nat)
    requires i < j <= |log|
    ensures Bag(log, i, j) == multiset{log[i].digest} + Bag(log, i + 1, j)
  {
    if i + 1 < j {
      BagFront(log, i, j - 1);
    }
  }

  lemma {:induction false} BagMember(log: seq<Line>, i: nat, k: nat, j: nat)
    requires i <= k < j <= |log|
    ensures log[k].digest in Bag(log, i, j)
  {
    if k < j - 1 {
      BagMember(log, i, k, j - 1);
    }
  }

  lemma SortedAt(log: seq<Line>, i: nat, j: nat)
    requires Sorted(log) && i <= j < |log|
    ensures log[i].stamp <= log[j].stamp
  {
  }

  /** A line from before the remembered stamp is swallowed. */
  lemma EarlierLine(s: State, log: seq<Line>, i: nat, r: nat)
    requires Sorted(log) && r <= |log| && 0 < r && i < GroupStart(log, r)
    requires Synced(s, log, r) && CatchingUp(s, log, i, r)
    ensures Accept(s, Some(log[i].stamp), log[i].digest, false) == Outcome(s, false, [])
    ensures CatchingUp(s, log, i + 1, r)
  {
    hide Fits, Bag, Counted, Sorted;
    var f := GroupStart(log, r);
    SortedAt(log, i, f - 1);
    SortedAt(log, f - 1, r - 1);
    SortedAt(log, i, i + 1);
  }

  /** A line with the remembered stamp is counted off. */
  lemma CountedLine(s: State, log: seq<Line>, i: nat, r: nat)
    requires i < r <= |log| && GroupStart(log, r) <= i
    requires Synced(s, log, r) && CatchingUp(s, log, i, r)
    ensures var o := Accept(s, Some(log[i].stamp), log[i].digest, false);
            !o.accepted && o.gaps == [] && Synced(o.state, log, r) && CatchingUp(o.state, log, i + 1, r)
  {
    hide Fits, Sorted, Bag;
    assert log[i].stamp == log[r - 1].stamp;
    var d := log[i].digest;
    BagFront(log, i, r);
    var rest := s.replay - multiset{d};
    assert rest == Bag(log, i + 1, r);
    var next := s.(replay := rest, replaying := rest != multiset{});
    assert Accept(s, Some(log[i].stamp), d, false) == Outcome(next, false, []);
    if i + 1 < r {
      assert log[i + 1].stamp == log[r - 1].stamp;
      BagMember(log, i + 1, i + 1, r);
    } else {
      BagEmpty(log, r);
    }
  }

  lemma BagEmpty(log: seq<Line>, r: nat)
    requires r <= |log|
    ensures Bag(log, r, r) == multiset{}
  {
  }

  /** A new line is accepted; it is remembered if it fits and reported if not. */
  lemma NewLine(s: State, log: seq<Line>, r: nat)
    requires Sorted(log) && r < |log| && Synced(s, log, r) && CatchingUp(s, log, r, r)
    ensures var o := Accept(s, Some(log[r].stamp), log[r].digest, false);
            && o.accepted
            && if NextFits(log, r)
               then o.gaps == [] && Synced(o.state, log, r + 1) && CatchingUp(o.state, log, r + 1, r + 1)
               else o.gaps != []
  {
    hide Fits, Sorted, Bag;
    var f := GroupStart(log, r + 1);
    var t := Some(log[r].stamp);
    BagNext(log, f, r);
    if 0 < r {
      SortedAt(log, r - 1, r);
    }
    if 0 < r && log[r - 1].stamp == log[r].stamp {
      assert f == GroupStart(log, r);
    } else {
      assert f == r;
      BagEmpty(log, r);
    }
    assert Accept(s, t, log[r].digest, false) == Counted(State(t, false, Bag(log, f, r), multiset{}), log[r].digest)
        || Accept(s, t, log[r].digest, false) == Counted(s, log[r].digest);
  }

  lemma BagNext(log: seq<Line>, i: nat, j: nat)
    requires i <= j < |log|
    ensures Bag(log, i, j + 1) == Bag(log, i, j) + multiset{log[j].digest}
  {
  }

  lemma NewLineFaithful(run: Run, log: seq<Line>, r: nat)
    requires Sorted(log) && r < |log| && Bounded(log, r)
    requires Faithful(run, log, r) && CatchingUp(run.state, log, r, r)
    ensures Faithful(DeliverLine(run, log[r]), log, r + 1)
    ensures Bounded(log, r + 1) ==> CatchingUp(DeliverLine(run, log[r]).state, log, r + 1, r + 1)
  {
    hide Sorted, Accept, NextFits, Bounded;
    NewLine(run.state, log, r);
    BoundedNext(log, r);
    assert log[..r + 1] == log[..r] + [log[r]];
  }

  lemma BoundedNext(log: seq<Line>, r: nat)
    requires r < |log|
    ensures Bounded(log, r + 1) <==> Bounded(log, r) && NextFits(log, r)
  {
  }

  lemma NotBoundedLater(log: seq<Line>, r: nat, r': nat)
    requires r <= r' <= |log| && !Bounded(log, r)
    ensures !Bounded(log, r')
  {
  }

  lemma {:induction false} GapsStay(run: Run, log: seq<Line>, i: nat, j: nat)
    requires j <= |log| && run.gaps != []
    ensures Deliver(run, log, i, j).gaps != []
    decreases j
  {
    if i < j {
      GapsStay(run, log, i, j - 1);
    }
  }

  function Max(a: nat, b: nat): nat {
    if a < b then b else a
  }

  /** Line `i` is next, `r` lines are done; faithful, and ready to go on. */
  ghost predicate OnTrack(run: Run, log: seq<Line>, i: nat, r: nat)
    requires i <= r <= |log|
  {
    Faithful(run, log, r) && (Bounded(log, r) ==> CatchingUp(run.state, log, i, r))
  }

  lemma StepOnTrack(run: Run, log: seq<Line>, i: nat, r: nat)
    requires Sorted(log) && i < |log| && i <= r <= |log| && OnTrack(run, log, i, r)
    ensures OnTrack(DeliverLine(run, log[i]), log, i + 1, Max(r, i + 1))
  {
    if !Bounded(log, r) {
      NotBoundedLater(log, r, Max(r, i + 1));
    } else if i < r {
      if i < GroupStart(log, r) {
        EarlierLine(run.state, log, i, r);
      } else {
        CountedLine(run.state, log, i, r);
      }
    } else {
      NewLineFaithful(run, log, r);
    }
  }

  /** Lines `i .. j` on a connection that starts inside the remembered prefix. */
  lemma {:induction false} DeliverOnTrack(run: Run, log: seq<Line>, i: nat, j: nat, r: nat)
    requires Sorted(log) && i <= r <= |log| && i <= j <= |log| && OnTrack(run, log, i, r)
    ensures OnTrack(Deliver(run, log, i, j), log, j, Max(r, j))
    decreases j
  {
    hide OnTrack, DeliverLine, Sorted;
    if i < j {
      DeliverOnTrack(run, log, i, j - 1, r);
      StepOnTrack(Deliver(run, log, i, j - 1), log, j - 1, Max(r, j - 1));
    }
  }

  /** The server never starts behind what a reconnected cursor remembers. */
  lemma ReopenedCatchesUp(s: State, log: seq<Line>, r: nat)
    requires Sorted(log) && r <= |log| && Synced(s, log, r)
    requires r == 0 ==> s.replay == multiset{}
    ensures Resume(log, s) <= r
    ensures 0 < r ==> Resume(log, s) < r && CatchingUp(Reconnected(s), log, Resume(log, s), r)
  {
    if 0 < r {
      var t := log[r - 1].stamp;
      var i := Resume(log, s);
      assert WholeSecond(t) <= t;
      var f := GroupStart(log, r);
      assert log[f].stamp == t;
      assert i <= f;
    }
  }

  lemma {:induction false} ConnectionFaithful(run: Run, log: seq<Line>, cut: nat, r: nat)
    requires Sorted(log) && r <= |log| && cut <= |log| && Faithful(run, log, r)
    requires r == 0 ==> run.state.replay == multiset{}
    ensures Faithful(Connection(run, log, cut), log, Max(r, cut))
  {
    if Bounded(log, r) {
      ReopenedCatchesUp(run.state, log, r);
      var i := Resume(log, run.state);
      if i <= cut {
        DeliverOnTrack(Opened(run), log, i, cut, r);
      }
    } else {
      GapsStay(Opened(run), log, Resume(log, run.state), cut);
      NotBoundedLater(log, r, Max(r, cut));
    }
  }

  lemma {:induction false} RunFaithful(log: seq<Line>, cuts: seq<nat>)
    requires Sorted(log) && Within(log, cuts)
    ensures Reached(cuts) <= |log|
    ensures Faithful(Connections(log, cuts), log, Reached(cuts))
    ensures Reached(cuts) == 0 ==> Connections(log, cuts) == Run(FRESH, [], [])
  {
    if cuts == [] {
      assert log[..0] == [];
    } else {
      var front, cut := cuts[..|cuts| - 1], cuts[|cuts| - 1];
      RunFaithful(log, front);
      ConnectionFaithful(Connections(log, front), log, cut, Reached(front));
      assert Reached(cuts) == Max(Reached(front), cut);
    }
  }

  /**
   Exactly-once replay.  However often and wherever the connection breaks, in the
   middle of a replay included, the accepted lines are the log up to the furthest
   line any connection reached, in order and each once.  No gap is reported
   exactly when the counters could hold every time stamp of that prefix.
   */
  lemma {:induction false} ExactlyOnce(log: seq<Line>, cuts: seq<nat>)
    requires Sorted(log) && Within(log, cuts)
    ensures Reached(cuts) <= |log|
    ensures Connections(log, cuts).gaps == [] <==> Bounded(log, Reached(cuts))
    ensures Connections(log, cuts).gaps == [] ==> Connections(log, cuts).accepted == log[..Reached(cuts)]
  {
    RunFaithful(log, cuts);
  }

  lemma {:induction false} BagInGroup(log: seq<Line>, i: nat, j: nat, d: Digest)
    requires i <= j <= |log| && d in Bag(log, i, j)
    ensures exists k :: i <= k < j && log[k].digest == d
  {
    if i < j && log[j - 1].digest != d {
      BagInGroup(log, i, j - 1, d);
    }
  }

  lemma {:induction false} BagSize(log: seq<Line>, i: nat, j: nat)
    requires i <= j <= |log|
    ensures |Bag(log, i, j)| == j - i
  {
    if i < j {
      BagSize(log, i, j - 1);
    }
  }

  /**
   At most 4096 different lines per time stamp is enough: a log shorter than the
   64-bit counters then fits at every length.
   */
  lemma FewDistinctLinesFit(log: seq<Line>, r: nat)
    requires r <= |log| && r < MAX_COUNT
    requires forall t: Stamp :: |DigestsAt(log[..r], t)| <= CURSOR_CAPACITY
    ensures Bounded(log, r)
  {
    forall k | 0 <= k < r
      ensures NextFits(log, k)
    {
      var f := GroupStart(log, k + 1);
      var bag := Bag(log, f, k);
      var d := log[k].digest;
      BagSize(log, f, k);
      MultiplicityAtMostSize(bag, d);
      if d !in bag {
        var all := DigestsAt(log[..r], log[k].stamp);
        forall x | x in Distinct(bag) ensures x in all {
          BagInGroup(log, f, k, x);
          var n :| f <= n < k && log[n].digest == x;
          assert log[..r][n] == log[n];
        }
        assert log[..r][k] == log[k];
        assert Distinct(bag) <= all - {d};
        SubsetSize(Distinct(bag), all - {d});
      }
    }
  }

  function DigestsAt(log: seq<Line>, t: Stamp): set<Digest> {
    set i | 0 <= i < |log| && log[i].stamp == t :: log[i].digest
  }

  lemma MultiplicityAtMostSize(bag: multiset<Digest>, d: Digest)
    ensures bag[d] <= |bag|
  {
    assert bag == bag[d := 0] + multiset{}[d := bag[d]];
  }

  lemma {:induction false} SubsetSize(a: set<Digest>, b: set<Digest>)
    requires a <= b
    ensures |a| <= |b|
  {
    if a != {} {
      var x :| x in a;
      SubsetSize(a - {x}, b - {x});
    }
  }

  /** The 4097th distinct line of one time stamp: it is let through and reported. */
  lemma OverflowIsReported(s: State, t: Stamp, d: Digest)
    requires s.last == Some(t) && d !in s.replay && d !in s.counts
    requires |Distinct(s.counts)| == CURSOR_CAPACITY
    ensures Accept(s, Some(t), d, false) == Outcome(s, true, [Overflow])
  {
  }

  // ----- lines out of turn -----

  /** The whole second of a stamp, as the server was asked for it. */
  predicate SameSecondOrLater(t: Stamp, of: Stamp) {
    t >= of - of % 1_000_000_000
  }

  /**
   Lines that do not carry the latest stamp change nothing that is remembered.  One without
   a stamp, or cut short, is let through and reported; an earlier one is dropped silently
   exactly while the cursor catches up and the line lies in the second that was asked for,
   and is let through and reported otherwise.
   */
  lemma {:induction false} LinesOutOfTurn(s: State, t: Option<Stamp>, d: Digest, partial: bool)
    requires t.None? || partial || (s.last.Some? && t.value < s.last.value)
    ensures var o := Accept(s, t, d, partial);
            && o.state == s
            && (t.None? ==> o.accepted && o.gaps == [Untimestamped])
            && (t.Some? && partial ==> o.accepted && o.gaps == [Truncated])
            && (t.Some? && !partial ==>
                  if s.replaying && SameSecondOrLater(t.value, s.last.value)
                  then !o.accepted && o.gaps == [] else o.accepted && o.gaps == [OutOfOrder])
  {
  }

  /** A line is dropped only as a copy that was counted before the break, or as an earlier one of that second. */
  lemma {:induction false} OnlyReplaysAreDropped(s: State, t: Option<Stamp>, d: Digest, partial: bool)
    requires !Accept(s, t, d, partial).accepted
    ensures t.Some? && s.last.Some? && Accept(s, t, d, partial).gaps == []
    ensures || (t == s.last && d in s.replay && Accept(s, t, d, partial).state.replay == s.replay - multiset{d})
            || (s.replaying && t.value < s.last.value && SameSecondOrLater(t.value, s.last.value))
  {
  }

  /** A counter that has reached the 64-bit limit does not wrap: the line is let through and reported. */
  lemma FullCountersReport(s: State, d: Digest)
    requires s.last.Some? && d !in s.replay && s.counts[d] == 18_446_744_073_709_551_615
    ensures Accept(s, s.last, d, false) == Outcome(s, true, [Overflow])
  {
  }

  // ----- the code -----

  ghost predicate Represents(m: map<Digest, Count>, bag: multiset<Digest>) {
    && (forall d :: d in m ==> 0 < m[d])
    && (forall d :: bag[d] == if d in m then m[d] else 0)
  }

  lemma RepresentsKeys(m: map<Digest, Count>, bag: multiset<Digest>)
    requires Represents(m, bag)
    ensures m.Keys == Distinct(bag)
    ensures |m| == |Distinct(bag)|
    ensures m == map[] <==> bag == multiset{}
  {
    assert |m| == |m.Keys|;
    if m != map[] {
      var d :| d in m;
      assert d in bag;
    }
    if bag != multiset{} {
      var d :| d in bag;
      assert d in m;
    }
  }

  lemma CountOff(m: map<Digest, Count>, bag: multiset<Digest>, d: Digest)
    requires Represents(m, bag) && d in m
    ensures m[d] == 1 ==> Represents(m - {d}, bag - multiset{d})
    ensures m[d] > 1 ==> Represents(m[d := m[d] - 1], bag - multiset{d})
  {
    var rest := bag - multiset{d};
    assert forall x :: rest[x] == if x == d then bag[x] - 1 else bag[x];
  }

  lemma CountUp(m: map<Digest, Count>, bag: multiset<Digest>, d: Digest)
    requires Represents(m, bag) && bag[d] < MAX_COUNT
    ensures Represents(m[d := (if d in m then m[d] else 0) + 1], bag + multiset{d})
  {
    var more := bag + multiset{d};
    assert forall x :: more[x] == if x == d then bag[x] + 1 else bag[x];
  }

  class Cursor {
    var last: Option<Stamp>
    var replaying: bool
    var counts: map<Digest, Count>
    var replay: map<Digest, Count>
    // What the gap callback was told so far.
    var gaps: seq<Gap>

    ghost predicate Shows(s: State)
      reads this
    {
      last == s.last && replaying == s.replaying && Represents(counts, s.counts) && Represents(replay, s.replay)
    }

    constructor ()
      ensures Shows(FRESH) && gaps == []
    {
      last, replaying, counts, replay, gaps := None, false, map[], map[], [];
    }

    method Reconnect(ghost s: State)
      requires Shows(s)
      modifies this
      ensures Shows(Reconnected(s)) && gaps == old(gaps)
    {
      replaying := last.Some?;
      replay := map[];
      var keys := counts.Keys;
      while keys != {}
        invariant keys <= counts.Keys && last == s.last && replaying == last.Some?
        invariant counts == old(counts) && gaps == old(gaps)
        invariant replay.Keys == counts.Keys - keys
        invariant forall d :: d in replay ==> replay[d] == counts[d]
        decreases |keys|
      {
        var k :| k in keys;
        replay := replay[k := counts[k]];
        keys := keys - {k};
      }
      assert replay == counts;
    }

    method AcceptLine(t: Option<Stamp>, digest: Digest, partial: bool, ghost s: State) returns (accepted: bool)
      requires Shows(s)
      modifies this
      ensures var o := Accept(s, t, digest, partial);
              Shows(o.state) && accepted == o.accepted && gaps == old(gaps) + o.gaps
    {
      if t.None? {
        gaps := gaps + [Untimestamped];
        return true;
      }
      if partial {
        gaps := gaps + [Truncated];
        return true;
      }
      if last.Some? && t.value < last.value {
        if replaying && !(t.value < WholeSecond(last.value)) {
          return false;
        }
        gaps := gaps + [OutOfOrder];
        return true;
      }
      ghost var s1 := if s.last == t then s else State(t, false, multiset{}, multiset{});
      if last.None? || last.value < t.value {
        last := t;
        counts := map[];
        replay := map[];
        replaying := false;
      }
      accepted := Match(digest, s1);
    }

    /** The line carries the remembered stamp: count it off, or remember it. */
    method Match(digest: Digest, ghost s: State) returns (accepted: bool)
      requires Shows(s)
      modifies this
      ensures var o := Counted(s, digest);
              Shows(o.state) && accepted == o.accepted && gaps == old(gaps) + o.gaps
    {
      if digest in replay && replay[digest] > 0 {
        CountBack(digest, s);
        return false;
      }
      Remember(digest, s);
      return true;
    }

    /** A line seen before the connection broke; the replay is over when none is left to come. */
    method CountBack(digest: Digest, ghost s: State)
      requires Shows(s) && digest in replay
      modifies `replay, `replaying
      ensures digest in s.replay && Shows(Counted(s, digest).state)
    {
      TakeBack(digest, s.replay);
      RepresentsKeys(replay, s.replay - multiset{digest});
      if |replay| == 0 {
        replaying := false;
      }
    }

    /** A new line of the remembered stamp is counted, or reported if the counters are full. */
    method Remember(digest: Digest, ghost s: State)
      requires Shows(s) && digest !in s.replay
      modifies `counts, `gaps
      ensures Shows(Counted(s, digest).state) && gaps == old(gaps) + Counted(s, digest).gaps
    {
      RepresentsKeys(counts, s.counts);
      if digest !in counts && |counts| >= CURSOR_CAPACITY {
        gaps := gaps + [Overflow];
        return;
      }
      if digest in counts && counts[digest] == MAX_COUNT {
        gaps := gaps + [Overflow];
        return;
      }
      CountUp(counts, s.counts, digest);
      assert Fits(s.counts, digest);
      counts := counts[digest := (if digest in counts then counts[digest] else 0) + 1];
    }

    method TakeBack(digest: Digest, ghost bag: multiset<Digest>)
      requires Represents(replay, bag) && digest in replay
      modifies this`replay
      ensures Represents(replay, bag - multiset{digest})
    {
      CountOff(replay, bag, digest);
      var left := replay[digest] - 1;
      if left == 0 {
        replay := replay - {digest};
      } else {
        replay := replay[digest := left];
      }
    }
  }

  /** One line on its way through the filter. */
  method SendLine(cursor: Cursor, line: Line, ghost run: Run) returns (ok: bool)
    requires cursor.Shows(run.state) && cursor.gaps == run.gaps
    modifies cursor
    ensures var after := DeliverLine(run, line);
            && cursor.Shows(after.state) && cursor.gaps == after.gaps
            && after.accepted == run.accepted + if ok then [line] else []
  {
    hide Accept, Represents;
    ok := cursor.AcceptLine(Some(line.stamp), line.digest, false, run.state);
  }

  lemma DeliverNext(run: Run, log: seq<Line>, start: nat, i: nat)
    requires start <= i < |log|
    ensures Deliver(run, log, start, i + 1) == DeliverLine(Deliver(run, log, start, i), log[i])
  {
    hide DeliverLine;
  }

  lemma DeliverNone(run: Run, log: seq<Line>, start: nat, cut: nat)
    requires cut <= start && cut <= |log|
    ensures Deliver(run, log, start, cut) == run
  {
  }

  /** One open connection that sends the lines from `start` and breaks after line `cut`. */
  method Stream(cursor: Cursor, log: seq<Line>, start: nat, cut: nat, ghost run: Run) returns (lines: seq<Line>)
    requires cut <= |log| && cursor.Shows(run.state) && cursor.gaps == run.gaps
    modifies cursor
    ensures var after := Deliver(run, log, start, cut);
            && cursor.Shows(after.state) && cursor.gaps == after.gaps
            && after.accepted == run.accepted + lines
  {
    hide Deliver, DeliverLine, Represents;
    lines := [];
    var i := start;
    ghost var now := run;
    DeliverNone(run, log, start, if start < cut then start else cut);
    while i < cut
      invariant start <= i && (i <= cut || i == start)
      invariant now == Deliver(run, log, start, if i <= cut then i else cut)
      invariant cursor.Shows(now.state) && cursor.gaps == now.gaps
      invariant now.accepted == run.accepted + lines
    {
      DeliverNext(run, log, start, i);
      var ok := SendLine(cursor, log[i], now);
      if ok {
        assert run.accepted + lines + [log[i]] == run.accepted + (lines + [log[i]]);
        lines := lines + [log[i]];
      }
      now := DeliverLine(now, log[i]);
      i := i + 1;
    }
  }

  /** The reconnect loop over the class: connection `n` breaks after line `cuts[n]`. */
  method Follow(log: seq<Line>, cuts: seq<nat>) returns (accepted: seq<Line>, gaps: seq<Gap>)
    requires Sorted(log) && Within(log, cuts)
    ensures Reached(cuts) <= |log|
    ensures gaps == [] <==> Bounded(log, Reached(cuts))
    ensures gaps == [] ==> accepted == log[..Reached(cuts)]
  {
    var cursor := new Cursor();
    accepted := [];
    ghost var run := Run(FRESH, [], []);
    for n := 0 to |cuts|
      invariant run == Connections(log, cuts[..n])
      invariant cursor.Shows(run.state) && cursor.gaps == run.gaps && accepted == run.accepted
    {
      assert cuts[..n + 1][..n] == cuts[..n];
      var start := 0;
      if cursor.last.Some? {
        start := FirstFrom(log, WholeSecond(cursor.last.value), 0);
        cursor.Reconnect(run.state);
      }
      var lines := Stream(cursor, log, start, cuts[n], Opened(run));
      accepted := accepted + lines;
      run := Connection(run, log, cuts[n]);
    }
    assert cuts[..|cuts|] == cuts;
    gaps := cursor.gaps;
    ExactlyOnce(log, cuts);
  }
}
