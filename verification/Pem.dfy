/**
 Scanning a physical line for private-key markers through a sliding window.

 The scanner sees a line in chunks and keeps only the last 128 bytes of what it
 has seen.  For lines whose markers are short and do not overlap, what it knows
 afterwards is what one scan of the whole line would have found.
 */
module Pem {
  import opened Wrappers

  type byte = b: int | 0 <= b < 256

  const WINDOW: nat := 128

  datatype Kind = BeginKey | EndKey

  /** Whether the bytes are exactly one marker, and which. */
  type Pem = seq<byte> -> Option<Kind>

  predicate Occurs(pem: Pem, s: seq<byte>, a: nat, e: nat) {
    a < e <= |s| && pem(s[a..e]).Some?
  }

  /** Where the match that starts at `a` ends, looking at ends from `e` on. */
  function MatchEnd(pem: Pem, s: seq<byte>, a: nat, e: nat): (r: Option<nat>)
    requires a < e
    ensures r.Some? ==> e <= r.value && Occurs(pem, s, a, r.value)
    ensures r.None? ==> forall k :: e <= k <= |s| ==> !Occurs(pem, s, a, k)
    decreases |s| - e
  {
    if |s| < e then None
    else if pem(s[a..e]).Some? then Some(e)
    else MatchEnd(pem, s, a, e + 1)
  }

  /** The leftmost matches that do not overlap, from `i` on. */
  function FindAll(pem: Pem, s: seq<byte>, i: nat): seq<Kind>
    decreases |s| - i
  {
    if |s| <= i then []
    else
      match MatchEnd(pem, s, i, i + 1)
      case None => FindAll(pem, s, i + 1)
      case Some(e) => [pem(s[i..e]).value] + FindAll(pem, s, e)
  }

  /** Every marker but its last byte fits the window, and no two markers overlap. */
  ghost predicate Clean(pem: Pem, s: seq<byte>) {
    && (forall a: nat, e: nat :: Occurs(pem, s, a, e) ==> e - a <= WINDOW + 1)
    && (forall a: nat, e: nat, b: nat, f: nat :: Occurs(pem, s, a, e) && Occurs(pem, s, b, f) && a <= b ==>
          (a == b && e == f) || e <= b)
  }

  /** The marker `a .. e` is the last one of the line. */
  ghost predicate LastOne(pem: Pem, s: seq<byte>, i: nat, a: nat, e: nat) {
    && i <= a && Occurs(pem, s, a, e)
    && forall b: nat, f: nat :: Occurs(pem, s, b, f) ==> b <= a
  }

  ghost predicate NoneFrom(pem: Pem, s: seq<byte>, i: nat) {
    forall a: nat, e: nat :: i <= a ==> !Occurs(pem, s, a, e)
  }

  /** `kind` is the kind of the last marker, which starts at or after `i`. */
  ghost predicate EndsIn(pem: Pem, s: seq<byte>, i: nat, kind: Kind) {
    exists a: nat, e: nat :: LastOne(pem, s, i, a, e) && pem(s[a..e]) == Some(kind)
  }

  /** A scan finds a marker exactly when there is one, and its last match is the last marker. */
  lemma {:induction false} FindAllLast(pem: Pem, s: seq<byte>, i: nat)
    requires Clean(pem, s)
    ensures FindAll(pem, s, i) == [] <==> NoneFrom(pem, s, i)
    ensures FindAll(pem, s, i) != [] ==> EndsIn(pem, s, i, FindAll(pem, s, i)[|FindAll(pem, s, i)| - 1])
    decreases |s| - i
  {
    hide Clean, NoneFrom, EndsIn;
    if |s| <= i {
      assert NoneFrom(pem, s, i) by { PastTheEnd(pem, s, i); }
    } else {
      match MatchEnd(pem, s, i, i + 1) {
        case None =>
          FindAllLast(pem, s, i + 1);
          NoMatchAt(pem, s, i);
        case Some(e) =>
          FindAllLast(pem, s, e);
          FirstMatch(pem, s, i, e);
      }
    }
  }

  lemma PastTheEnd(pem: Pem, s: seq<byte>, i: nat)
    requires |s| <= i
    ensures NoneFrom(pem, s, i)
  {
  }

  lemma NoMatchAt(pem: Pem, s: seq<byte>, i: nat)
    requires i < |s| && MatchEnd(pem, s, i, i + 1).None?
    ensures NoneFrom(pem, s, i) <==> NoneFrom(pem, s, i + 1)
    ensures forall kind :: EndsIn(pem, s, i + 1, kind) ==> EndsIn(pem, s, i, kind)
  {
    forall e: nat ensures !Occurs(pem, s, i, e) {
    }
    forall kind | EndsIn(pem, s, i + 1, kind) ensures EndsIn(pem, s, i, kind) {
      var a: nat, e: nat :| LastOne(pem, s, i + 1, a, e) && pem(s[a..e]) == Some(kind);
      assert LastOne(pem, s, i, a, e);
    }
  }

  lemma FirstMatch(pem: Pem, s: seq<byte>, i: nat, e: nat)
    requires Clean(pem, s) && Occurs(pem, s, i, e)
    ensures !NoneFrom(pem, s, i)
    ensures forall kind :: EndsIn(pem, s, e, kind) ==> EndsIn(pem, s, i, kind)
    ensures NoneFrom(pem, s, e) ==> EndsIn(pem, s, i, pem(s[i..e]).value)
  {
    forall kind | EndsIn(pem, s, e, kind) ensures EndsIn(pem, s, i, kind) {
      var a: nat, f: nat :| LastOne(pem, s, e, a, f) && pem(s[a..f]) == Some(kind);
      assert LastOne(pem, s, i, a, f);
    }
    if NoneFrom(pem, s, e) {
      assert LastOne(pem, s, i, i, e);
    }
  }

  /** What a scan leaves of the key state: the kind of the last marker decides. */
  function AfterScan(inKey: bool, found: seq<Kind>): bool {
    if found == [] then inKey else found[|found| - 1] == BeginKey
  }

  /** The last bytes that are kept of a line. */
  function Tail(s: seq<byte>): seq<byte> {
    if |s| <= WINDOW then s else s[|s| - WINDOW..]
  }

  lemma TailOfTail(p: seq<byte>, c: seq<byte>)
    ensures Tail(Tail(p) + c) == Tail(p + c)
  {
    var w := |p| - |Tail(p)|;
    assert Tail(p) + c == (p + c)[w..];
    if WINDOW < |Tail(p) + c| {
      assert (p + c)[w..][|Tail(p) + c| - WINDOW..] == (p + c)[|p + c| - WINDOW..];
    }
  }

  lemma OccursShift(pem: Pem, s: seq<byte>, w: nat, a: nat, e: nat)
    requires w <= |s|
    ensures Occurs(pem, s[w..], a, e) <==> Occurs(pem, s, a + w, e + w)
    ensures a < e <= |s[w..]| ==> s[w..][a..e] == s[a + w..e + w]
  {
    if a < e <= |s| - w {
      assert s[w..][a..e] == s[a + w..e + w];
    }
  }

  lemma OccursPrefix(pem: Pem, p: seq<byte>, c: seq<byte>, a: nat, e: nat)
    ensures Occurs(pem, p, a, e) <==> Occurs(pem, p + c, a, e) && e <= |p|
    ensures a < e <= |p| ==> p[a..e] == (p + c)[a..e]
  {
    if a < e <= |p| {
      assert p[a..e] == (p + c)[a..e];
    }
  }

  lemma CleanSuffix(pem: Pem, s: seq<byte>, w: nat)
    requires Clean(pem, s) && w <= |s|
    ensures Clean(pem, s[w..])
  {
    forall a: nat, e: nat | Occurs(pem, s[w..], a, e) ensures Occurs(pem, s, a + w, e + w) {
      OccursShift(pem, s, w, a, e);
    }
  }

  lemma CleanPrefix(pem: Pem, p: seq<byte>, c: seq<byte>)
    requires Clean(pem, p + c)
    ensures Clean(pem, p)
  {
    forall a: nat, e: nat | Occurs(pem, p, a, e) ensures Occurs(pem, p + c, a, e) {
      OccursPrefix(pem, p, c, a, e);
    }
  }

  /** A last marker that starts in the window is the window's last marker. */
  lemma LastInTail(pem: Pem, p: seq<byte>, c: seq<byte>, w: nat, a: nat, e: nat)
    requires w == |p| - |Tail(p)| && w <= a && LastOne(pem, p + c, 0, a, e)
    ensures LastOne(pem, Tail(p) + c, 0, a - w, e - w) && (Tail(p) + c)[a - w..e - w] == (p + c)[a..e]
  {
    assert Tail(p) + c == (p + c)[w..];
    OccursShift(pem, p + c, w, a - w, e - w);
    forall b: nat, f: nat | Occurs(pem, Tail(p) + c, b, f) ensures b <= a - w {
      OccursShift(pem, p + c, w, b, f);
      assert Occurs(pem, p + c, b + w, f + w);
    }
  }

  /** A last marker that starts before the window was complete before the chunk, and the window has none. */
  lemma LastBeforeTail(pem: Pem, p: seq<byte>, c: seq<byte>, w: nat, a: nat, e: nat)
    requires Clean(pem, p + c) && w == |p| - |Tail(p)| && a < w && LastOne(pem, p + c, 0, a, e)
    ensures e <= |p| && LastOne(pem, p, 0, a, e) && p[a..e] == (p + c)[a..e]
    ensures forall b: nat, f: nat :: !Occurs(pem, Tail(p) + c, b, f)
  {
    assert Tail(p) + c == (p + c)[w..];
    forall b: nat, f: nat ensures !Occurs(pem, Tail(p) + c, b, f) {
      OccursShift(pem, p + c, w, b, f);
      assert !Occurs(pem, p + c, b + w, f + w);
    }
    assert e - a <= WINDOW + 1;
    OccursPrefix(pem, p, c, a, e);
    forall b: nat, f: nat | Occurs(pem, p, b, f) ensures b <= a {
      OccursPrefix(pem, p, c, b, f);
    }
  }

  lemma SameLast(pem: Pem, s: seq<byte>, a: nat, e: nat, b: nat, f: nat)
    requires Clean(pem, s) && LastOne(pem, s, 0, a, e) && LastOne(pem, s, 0, b, f)
    ensures a == b && e == f
  {
  }

  /** The last match of a scan is the kind of the last marker. */
  lemma LastKind(pem: Pem, s: seq<byte>, a: nat, e: nat)
    requires Clean(pem, s) && LastOne(pem, s, 0, a, e)
    ensures FindAll(pem, s, 0) != []
    ensures pem(s[a..e]) == Some(FindAll(pem, s, 0)[|FindAll(pem, s, 0)| - 1])
  {
    FindAllLast(pem, s, 0);
    hide Clean, FindAll;
    var m := FindAll(pem, s, 0);
    var b: nat, f: nat :| LastOne(pem, s, 0, b, f) && pem(s[b..f]) == Some(m[|m| - 1]);
    assert a == b && e == f by { SameLast(pem, s, a, e, b, f); }
  }

  /**
   Scanning the kept tail and the next chunk, after the line so far was scanned,
   leaves the same key state and finds a marker in the same lines as one scan of
   the line so far together with the chunk.
   */
  lemma WindowScan(pem: Pem, inKey: bool, p: seq<byte>, c: seq<byte>)
    requires Clean(pem, p + c)
    ensures AfterScan(AfterScan(inKey, FindAll(pem, p, 0)), FindAll(pem, Tail(p) + c, 0))
         == AfterScan(inKey, FindAll(pem, p + c, 0))
    ensures FindAll(pem, p + c, 0) != [] <==> FindAll(pem, p, 0) != [] || FindAll(pem, Tail(p) + c, 0) != []
  {
    hide *;
    if FindAll(pem, p + c, 0) == [] {
      NoMarker(pem, p, c);
    } else {
      var a, e := LastOf(pem, p + c);
      LastKind(pem, p + c, a, e);
      if |p| - |Tail(p)| <= a {
        MarkerInTail(pem, p, c, a, e);
      } else {
        MarkerBeforeTail(pem, p, c, a, e);
      }
      ScanEqual(inKey, FindAll(pem, p, 0), FindAll(pem, Tail(p) + c, 0), FindAll(pem, p + c, 0));
    }
    ScanEmpty(inKey, FindAll(pem, p, 0), FindAll(pem, Tail(p) + c, 0), FindAll(pem, p + c, 0));
  }

  lemma ScanEqual(inKey: bool, before: seq<Kind>, window: seq<Kind>, all: seq<Kind>)
    requires all != []
    requires (window != [] && window[|window| - 1] == all[|all| - 1])
          || (window == [] && before != [] && before[|before| - 1] == all[|all| - 1])
    ensures AfterScan(AfterScan(inKey, before), window) == AfterScan(inKey, all)
  {
  }

  lemma ScanEmpty(inKey: bool, before: seq<Kind>, window: seq<Kind>, all: seq<Kind>)
    requires all == [] ==> before == [] && window == []
    ensures all == [] ==> AfterScan(AfterScan(inKey, before), window) == AfterScan(inKey, all)
  {
  }

  lemma NoMarker(pem: Pem, p: seq<byte>, c: seq<byte>)
    requires Clean(pem, p + c) && FindAll(pem, p + c, 0) == []
    ensures FindAll(pem, p, 0) == [] && FindAll(pem, Tail(p) + c, 0) == []
  {
    TailClean(pem, p, c);
    hide *;
    EmptyScan(pem, p + c);
    NothingAnywhere(pem, p, c);
    EmptyScan(pem, p);
    EmptyScan(pem, Tail(p) + c);
  }

  lemma MarkerInTail(pem: Pem, p: seq<byte>, c: seq<byte>, a: nat, e: nat)
    requires Clean(pem, p + c) && LastOne(pem, p + c, 0, a, e) && |p| - |Tail(p)| <= a
    ensures var m := FindAll(pem, Tail(p) + c, 0);
            m != [] && Some(m[|m| - 1]) == pem((p + c)[a..e])
  {
    TailClean(pem, p, c);
    var w := |p| - |Tail(p)|;
    hide *;
    LastInTail(pem, p, c, w, a, e);
    LastKind(pem, Tail(p) + c, a - w, e - w);
  }

  lemma MarkerBeforeTail(pem: Pem, p: seq<byte>, c: seq<byte>, a: nat, e: nat)
    requires Clean(pem, p + c) && LastOne(pem, p + c, 0, a, e) && a < |p| - |Tail(p)|
    ensures var m := FindAll(pem, p, 0);
            m != [] && Some(m[|m| - 1]) == pem((p + c)[a..e])
    ensures FindAll(pem, Tail(p) + c, 0) == []
  {
    TailClean(pem, p, c);
    var w := |p| - |Tail(p)|;
    hide *;
    LastBeforeTail(pem, p, c, w, a, e);
    LastKind(pem, p, a, e);
    EmptyScan(pem, Tail(p) + c);
  }

  lemma TailClean(pem: Pem, p: seq<byte>, c: seq<byte>)
    requires Clean(pem, p + c)
    ensures Clean(pem, p) && Clean(pem, Tail(p) + c)
    ensures |Tail(p)| <= |p|
  {
    var w := |p| - |Tail(p)|;
    assert Tail(p) + c == (p + c)[w..];
    CleanSuffix(pem, p + c, w);
    CleanPrefix(pem, p, c);
  }

  lemma EmptyScan(pem: Pem, s: seq<byte>)
    requires Clean(pem, s)
    ensures FindAll(pem, s, 0) == [] <==> forall a: nat, e: nat :: !Occurs(pem, s, a, e)
  {
    FindAllLast(pem, s, 0);
  }

  lemma LastOf(pem: Pem, s: seq<byte>) returns (a: nat, e: nat)
    requires Clean(pem, s) && FindAll(pem, s, 0) != []
    ensures LastOne(pem, s, 0, a, e) && a < e <= |s|
  {
    FindAllLast(pem, s, 0);
    a, e :| LastOne(pem, s, 0, a, e);
  }

  lemma NothingAnywhere(pem: Pem, p: seq<byte>, c: seq<byte>)
    requires forall a: nat, e: nat :: !Occurs(pem, p + c, a, e)
    ensures forall a: nat, e: nat :: !Occurs(pem, p, a, e) && !Occurs(pem, Tail(p) + c, a, e)
  {
    var w := |p| - |Tail(p)|;
    assert Tail(p) + c == (p + c)[w..];
    forall a: nat, e: nat ensures !Occurs(pem, p, a, e) && !Occurs(pem, Tail(p) + c, a, e) {
      OccursPrefix(pem, p, c, a, e);
      OccursShift(pem, p + c, w, a, e);
    }
  }

  // ----- one marker, of any length -----

  ghost predicate OnlyMarker(pem: Pem, s: seq<byte>, a: nat, e: nat) {
    Occurs(pem, s, a, e) && forall b: nat, f: nat :: Occurs(pem, s, b, f) ==> b == a && f == e
  }

  lemma {:induction false} FindsNothing(pem: Pem, s: seq<byte>, i: nat)
    requires NoneFrom(pem, s, i)
    ensures FindAll(pem, s, i) == []
    decreases |s| - i
  {
    if i < |s| {
      assert MatchEnd(pem, s, i, i + 1).None?;
      FindsNothing(pem, s, i + 1);
    }
  }

  /** The marker `a .. e` is the first from `i` on, and nothing starts after it. */
  ghost predicate FirstOnly(pem: Pem, s: seq<byte>, i: nat, a: nat, e: nat) {
    && i <= a && Occurs(pem, s, a, e) && NoneFrom(pem, s, e)
    && (forall b: nat, f: nat :: Occurs(pem, s, b, f) && i <= b <= a ==> b == a && f == e)
  }

  lemma {:induction false} FindsOne(pem: Pem, s: seq<byte>, i: nat, a: nat, e: nat)
    requires FirstOnly(pem, s, i, a, e)
    ensures FindAll(pem, s, i) == [pem(s[a..e]).value]
    decreases |s| - i
  {
    if i < a {
      assert MatchEnd(pem, s, i, i + 1).None?;
      FindsOne(pem, s, i + 1, a, e);
    } else {
      assert !MatchEnd(pem, s, i, i + 1).None?;
      FindsNothing(pem, s, e);
    }
  }

  /** The scan before a cut finds the marker when it ends there; the scan after it does when it starts in the window. */
  lemma CutScan(pem: Pem, p: seq<byte>, c: seq<byte>, a: nat, e: nat)
    requires OnlyMarker(pem, p + c, a, e)
    ensures var kind := pem((p + c)[a..e]).value;
            && FindAll(pem, p, 0) == (if e <= |p| then [kind] else [])
            && FindAll(pem, Tail(p) + c, 0) == (if |p| - a <= WINDOW then [kind] else [])
  {
    hide FindAll, MatchEnd;
    var w := |p| - |Tail(p)|;
    var t := Tail(p) + c;
    assert t == (p + c)[w..];
    forall b: nat, f: nat ensures Occurs(pem, p, b, f) <==> b == a && f == e && e <= |p| {
      OccursPrefix(pem, p, c, b, f);
    }
    forall b: nat, f: nat ensures Occurs(pem, t, b, f) <==> b + w == a && f + w == e {
      OccursShift(pem, p + c, w, b, f);
    }
    if e <= |p| {
      OccursPrefix(pem, p, c, a, e);
      FindsOne(pem, p, 0, a, e);
    } else {
      FindsNothing(pem, p, 0);
    }
    if w <= a {
      OccursShift(pem, p + c, w, a - w, e - w);
      FindsOne(pem, t, 0, a - w, e - w);
    } else {
      FindsNothing(pem, t, 0);
    }
  }

  // ----- two markers that share bytes -----

  ghost predicate OnlyOverlap(pem: Pem, s: seq<byte>, a: nat, e: nat, b: nat, f: nat) {
    && a < b < e < f && Occurs(pem, s, a, e) && Occurs(pem, s, b, f)
    && forall x: nat, y: nat :: Occurs(pem, s, x, y) ==> (x == a && y == e) || (x == b && y == f)
  }

  /** A cut after both that leaves only the second one in the window. */
  lemma OverlapScan(pem: Pem, p: seq<byte>, c: seq<byte>, a: nat, e: nat, b: nat, f: nat)
    requires OnlyOverlap(pem, p + c, a, e, b, f) && f <= |p| && a < |p| - WINDOW <= b
    ensures FindAll(pem, p + c, 0) == FindAll(pem, p, 0) == [pem((p + c)[a..e]).value]
    ensures FindAll(pem, Tail(p) + c, 0) == [pem((p + c)[b..f]).value]
  {
    hide FindAll, MatchEnd;
    var w := |p| - WINDOW;
    var t := Tail(p) + c;
    assert t == (p + c)[w..];
    forall x: nat, y: nat ensures Occurs(pem, p, x, y) <==> Occurs(pem, p + c, x, y) {
      OccursPrefix(pem, p, c, x, y);
    }
    forall x: nat, y: nat ensures Occurs(pem, t, x, y) <==> x + w == b && y + w == f {
      OccursShift(pem, p + c, w, x, y);
    }
    FindsOne(pem, p + c, 0, a, e);
    OccursPrefix(pem, p, c, a, e);
    FindsOne(pem, p, 0, a, e);
    OccursShift(pem, p + c, w, b - w, f - w);
    FindsOne(pem, t, 0, b - w, f - w);
  }
}
