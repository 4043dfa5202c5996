/**
 Which lines share a template: masking merges exactly what it is meant to merge.

 The conditions are on the words and trees of the input and do not mention masking.
 */
module Merging {
  import opened Wrappers
  import opened Trees
  import opened Masking

  // ----- words -----

  /** A number, an address or a clock reading. */
  predicate ValueLike(p: Patterns, s: string) {
    p.number(s) || p.ip(s) || p.clock(s)
  }

  /** The word gives the next one a meaning of its own. */
  predicate SpeaksForNext(p: Patterns, w: string) {
    p.isProtected(w) || (|w| >= 5 && w[..5] == "HTTP/") || w == "Completed"
  }

  predicate InContext(p: Patterns, ws: seq<string>, i: nat)
    requires i < |ws|
  {
    i != 0 && SpeaksForNext(p, ws[i - 1])
  }

  predicate StatusCode(p: Patterns, w: string) {
    |w| == 3 && w[0] in "12345" && p.number(w)
  }

  /** Two identifiers, or markers of one. */
  predicate Identifiers(p: Patterns, x: string, y: string) {
    (p.opaqueId(x) || x == ID) && (p.opaqueId(y) || y == ID)
  }

  /** A value under `k` that classic masking replaces, or the marker of one. */
  predicate PlainValue(p: Patterns, k: string, x: string) {
    (ValueLike(p, x) || x == VALUE) && !(p.idField(k) && p.opaqueId(x))
  }

  ghost predicate PairsAlike(p: Patterns, a: string, b: string, classic: bool, k: string, x: string, y: string) {
    && '=' !in k && a == k + "=" + x && b == k + "=" + y && !p.isProtected(k)
    && ((p.idField(k) && Identifiers(p, x, y)) || (classic && PlainValue(p, k, x) && PlainValue(p, k, y)))
  }

  predicate BareValue(p: Patterns, w: string) {
    w == VALUE || (ValueLike(p, w) && !StatusCode(p, w) && '=' !in w)
  }

  /** The words are equal, or volatile in the same way. */
  ghost predicate SameWay(p: Patterns, context: bool, a: string, b: string, classic: bool) {
    || a == b
    || (classic && !context && BareValue(p, a) && BareValue(p, b))
    || exists k, x, y :: PairsAlike(p, a, b, classic, k, x, y)
  }

  lemma {:induction false} CutLacks(w: string)
    ensures Cut(w) == |w| <==> '=' !in w
    ensures '=' !in w[..Cut(w)]
  {
    if w != "" && w[0] != '=' {
      CutLacks(w[1..]);
    }
  }

  lemma PairParts(w: string)
    requires Pair(w)
    ensures w == Name(w) + "=" + Content(w) && '=' !in Name(w)
  {
    CutLacks(w);
  }

  lemma PartsOf(k: string, x: string)
    requires '=' !in k
    ensures var w := k + "=" + x; Pair(w) && Name(w) == k && Content(w) == x
  {
    PairOf(k, x);
  }

  lemma ContextIs(p: Patterns, w: string)
    ensures Context(p, Some(w)) <==> SpeaksForNext(p, w)
  {
    if "HTTP/" <= w {
      assert w[..5] == "HTTP/";
    }
  }

  lemma CodeIs(p: Patterns, w: string)
    ensures Code(p, w) <==> StatusCode(p, w)
  {
    var digits := "12345";
    assert forall c :: c in digits <==> c == digits[0] || c == digits[1] || c == digits[2] || c == digits[3] || c == digits[4];
  }

  /** What becomes of a pair. */
  lemma PairMasks(p: Patterns, k: string, x: string, classic: bool)
    requires '=' !in k
    ensures var w := k + "=" + x;
            && Pair(w)
            && (if p.isProtected(k) then MaskPair(p, w, classic) == w
                else if p.idField(k) && p.opaqueId(x) then MaskPair(p, w, classic) == k + "=" + ID
                else if classic && ValueLike(p, x) then MaskPair(p, w, classic) == k + "=" + VALUE
                else MaskPair(p, w, classic) == w)
  {
    PartsOf(k, x);
  }

  lemma SameParts(k: string, x: string, l: string, y: string)
    requires '=' !in k && '=' !in l && k + "=" + x == l + "=" + y
    ensures k == l && x == y
  {
    PartsOf(k, x);
    PartsOf(l, y);
  }

  lemma PairsMerge(p: Patterns, a: string, b: string, classic: bool)
    requires MarkersAreInert(p) && Pair(a) && Pair(b)
    ensures MaskPair(p, a, classic) == MaskPair(p, b, classic)
       <==> a == b || exists k, x, y :: PairsAlike(p, a, b, classic, k, x, y)
  {
    var k, x, l, y := Name(a), Content(a), Name(b), Content(b);
    PairParts(a);
    PairParts(b);
    hide MaskPair, Pair, Name, Content, ValueLike, MarkersAreInert;
    if MaskPair(p, a, classic) == MaskPair(p, b, classic) {
      MaskedNames(p, k, x, l, y, classic);
      SameNamePairs(p, a, b, classic, k, x, y);
    }
    if k', x', y' :| PairsAlike(p, a, b, classic, k', x', y') {
      AlikePairsMerge(p, a, b, classic, k', x', y');
    }
  }

  lemma MaskedNames(p: Patterns, k: string, x: string, l: string, y: string, classic: bool)
    requires '=' !in k && '=' !in l && Pair(k + "=" + x) && Pair(l + "=" + y)
    requires MaskPair(p, k + "=" + x, classic) == MaskPair(p, l + "=" + y, classic)
    ensures k == l
  {
    PairMasks(p, k, x, classic);
    PairMasks(p, l, y, classic);
    hide MaskPair, Pair, ValueLike;
    var m := MaskPair(p, k + "=" + x, classic);
    var u :| u in [x, ID, VALUE] && m == k + "=" + u;
    var v :| v in [y, ID, VALUE] && m == l + "=" + v;
    SameParts(k, u, l, v);
  }

  lemma AlikePairsMerge(p: Patterns, a: string, b: string, classic: bool, k: string, x: string, y: string)
    requires MarkersAreInert(p) && Pair(a) && Pair(b) && PairsAlike(p, a, b, classic, k, x, y)
    ensures MaskPair(p, a, classic) == MaskPair(p, b, classic)
  {
    PairMasks(p, k, x, classic);
    PairMasks(p, k, y, classic);
    hide MaskPair, Pair;
  }

  lemma SameNamePairs(p: Patterns, a: string, b: string, classic: bool, k: string, x: string, y: string)
    requires MarkersAreInert(p) && '=' !in k && a == k + "=" + x && b == k + "=" + y
    requires Pair(a) && Pair(b) && MaskPair(p, a, classic) == MaskPair(p, b, classic)
    ensures a == b || PairsAlike(p, a, b, classic, k, x, y)
  {
    PairMasks(p, k, x, classic);
    PairMasks(p, k, y, classic);
    var u := if MaskPair(p, a, classic) == a then x else if p.idField(k) && p.opaqueId(x) then ID else VALUE;
    var v := if MaskPair(p, b, classic) == b then y else if p.idField(k) && p.opaqueId(y) then ID else VALUE;
    SameParts(k, u, k, v);
    hide MaskPair;
  }

  lemma BareMerge(p: Patterns, before: Option<string>, a: string, b: string, classic: bool)
    requires !Pair(a) && !Pair(b)
    ensures MaskBare(p, before, a, classic) == MaskBare(p, before, b, classic) <==>
              || a == b
              || (classic && !(before.Some? && SpeaksForNext(p, before.value)) && BareValue(p, a) && BareValue(p, b))
  {
    CutLacks(a);
    CutLacks(b);
    CodeIs(p, a);
    CodeIs(p, b);
    if before.Some? {
      ContextIs(p, before.value);
    }
    hide Code, StatusCode, SpeaksForNext, Context;
  }

  lemma PairsAreNotBare(p: Patterns, before: Option<string>, a: string, b: string, classic: bool)
    requires Pair(a) && !Pair(b)
    ensures MaskPair(p, a, classic) != MaskBare(p, before, b, classic) && a != b
  {
    MaskPairKeepsName(p, a, classic);
    ValueIsBare();
    hide MaskPair, Code, Context;
  }

  /** Two words in one place have one mask exactly when they are equal or volatile in the same way. */
  lemma {:induction false} WordsMerge(p: Patterns, before: Option<string>, a: string, b: string, classic: bool)
    requires MarkersAreInert(p)
    ensures var context := before.Some? && SpeaksForNext(p, before.value);
            MaskWord(p, before, a, classic) == MaskWord(p, before, b, classic) <==> SameWay(p, context, a, b, classic)
  {
    var context := before.Some? && SpeaksForNext(p, before.value);
    CutLacks(a);
    CutLacks(b);
    ValueIsBare();
    if Pair(a) && Pair(b) {
      PairsMerge(p, a, b, classic);
      assert !BareValue(p, a) by { CutLacks(VALUE); }
    } else if !Pair(a) && !Pair(b) {
      BareMerge(p, before, a, b, classic);
      forall k, x, y ensures !PairsAlike(p, a, b, classic, k, x, y) {
        if '=' !in k && a == k + "=" + x {
          PartsOf(k, x);
        }
      }
    } else {
      MixedNeverMerge(p, before, a, b, classic);
    }
    hide MaskPair, MaskBare, Pair, PairsAlike, BareValue, MarkersAreInert;
  }

  lemma MixedNeverMerge(p: Patterns, before: Option<string>, a: string, b: string, classic: bool)
    requires Pair(a) != Pair(b)
    ensures MaskWord(p, before, a, classic) != MaskWord(p, before, b, classic)
    ensures forall context :: !SameWay(p, context, a, b, classic)
  {
    CutLacks(a);
    CutLacks(b);
    CutLacks(VALUE);
    ValueIsBare();
    if Pair(a) {
      PairsAreNotBare(p, before, a, b, classic);
    } else {
      PairsAreNotBare(p, before, b, a, classic);
    }
    forall k, x, y ensures !PairsAlike(p, a, b, classic, k, x, y) {
      if '=' !in k && a == k + "=" + x && b == k + "=" + y {
        PartsOf(k, x);
        PartsOf(k, y);
      }
    }
    hide MaskPair, MaskBare, Pair, ValueLike, StatusCode;
  }

  // ----- lines -----

  /** Masking a word does not change what it says of the next one. */
  ghost predicate ContextSurvives(p: Patterns) {
    && (forall k, x :: '=' !in k && !p.isProtected(k) && p.idField(k) && p.opaqueId(x) ==>
          (SpeaksForNext(p, k + "=" + x) <==> SpeaksForNext(p, k + "=" + ID)))
    && (forall k, x :: '=' !in k && !p.isProtected(k) && ValueLike(p, x) ==>
          (SpeaksForNext(p, k + "=" + x) <==> SpeaksForNext(p, k + "=" + VALUE)))
    && (forall w :: ValueLike(p, w) ==> !SpeaksForNext(p, w))
    && !SpeaksForNext(p, VALUE)
  }

  lemma MaskedContext(p: Patterns, before: Option<string>, w: string, classic: bool)
    requires ContextSurvives(p)
    ensures SpeaksForNext(p, MaskWord(p, before, w, classic)) <==> SpeaksForNext(p, w)
  {
    if Pair(w) {
      PairParts(w);
      PairMasks(p, Name(w), Content(w), classic);
      hide Pair, Name, Content, MaskPair;
    }
    hide SpeaksForNext;
  }

  ghost predicate WordsAlike(p: Patterns, a: seq<string>, b: seq<string>, classic: bool) {
    |a| == |b| && forall i :: 0 <= i < |a| ==> SameWay(p, InContext(p, a, i), a[i], b[i], classic)
  }

  /** The masked words of both lines, one by one. */
  lemma StepMerge(p: Patterns, a: seq<string>, b: seq<string>, classic: bool, i: nat)
    requires MarkersAreInert(p) && ContextSurvives(p) && i < |a| && i < |b|
    requires i != 0 ==> MaskAll(p, a, classic)[i - 1] == MaskAll(p, b, classic)[i - 1]
    ensures MaskAll(p, a, classic)[i] == MaskAll(p, b, classic)[i] <==> SameWay(p, InContext(p, a, i), a[i], b[i], classic)
  {
    hide MaskWord, MaskAll, SameWay, MarkersAreInert, SpeaksForNext;
    var m := MaskAll(p, a, classic);
    var before := if i == 0 then None else Some(m[i - 1]);
    MaskedAt(p, a, classic, i);
    MaskedAt(p, b, classic, i);
    if i != 0 {
      MaskedAt(p, a, classic, i - 1);
      MaskedContext(p, if i == 1 then None else Some(m[i - 2]), a[i - 1], classic);
    }
    WordsMerge(p, before, a[i], b[i], classic);
  }

  lemma {:induction false} WordsAlikeMask(p: Patterns, a: seq<string>, b: seq<string>, classic: bool, n: nat)
    requires MarkersAreInert(p) && ContextSurvives(p) && WordsAlike(p, a, b, classic) && n <= |a|
    ensures MaskAll(p, a, classic)[..n] == MaskAll(p, b, classic)[..n]
  {
    hide MaskAll, SameWay, MarkersAreInert, ContextSurvives, InContext;
    if n != 0 {
      WordsAlikeMask(p, a, b, classic, n - 1);
      assert n - 1 != 0 ==> MaskAll(p, a, classic)[..n - 1][n - 2] == MaskAll(p, b, classic)[..n - 1][n - 2];
      StepMerge(p, a, b, classic, n - 1);
    }
  }

  lemma {:induction false} MaskedAlike(p: Patterns, a: seq<string>, b: seq<string>, classic: bool)
    requires MarkersAreInert(p) && ContextSurvives(p)
    ensures MaskAll(p, a, classic) == MaskAll(p, b, classic) <==> WordsAlike(p, a, b, classic)
  {
    hide MaskAll, SameWay, MarkersAreInert, ContextSurvives, InContext;
    if MaskAll(p, a, classic) == MaskAll(p, b, classic) {
      forall i | 0 <= i < |a| ensures SameWay(p, InContext(p, a, i), a[i], b[i], classic) {
        StepMerge(p, a, b, classic, i);
      }
    }
    if WordsAlike(p, a, b, classic) {
      WordsAlikeMask(p, a, b, classic, |a|);
      assert MaskAll(p, a, classic)[..|a|] == MaskAll(p, a, classic);
      assert MaskAll(p, b, classic)[..|a|] == MaskAll(p, b, classic);
    }
  }

  /**
   Lines merge exactly as meant.  Two lines that are no JSON objects have one template
   if and only if they have as many words and each two words in one place are equal or
   volatile in the same way: identifiers under one unprotected identifier field, or, in
   classic masking, values under one unprotected field, or bare values that are no status
   code and follow no word that speaks for them.
   */
  lemma {:induction false} LinesMergeExactly(p: Patterns, s: string, t: string, classic: bool)
    requires MarkersAreInert(p) && BlanksOnly(p) && ContextSurvives(p)
    requires p.parse(s).None? && p.parse(t).None?
    ensures Template(p, s, classic) == Template(p, t, classic)
       <==> WordsAlike(p, Fields(p, s), Fields(p, t), classic)
  {
    hide MaskAll, Fields, Join, WordsAlike, MarkersAreInert, ContextSurvives, BlanksOnly, MaskTree;
    MaskedAlike(p, Fields(p, s), Fields(p, t), classic);
    if Template(p, s, classic) == Template(p, t, classic) {
      SameMasks(p, s, t, classic);
    }
  }

  // ----- trees -----

  predicate NumberLike(v: Json) {
    v.Number? || v == Str(NUMBER)
  }

  /** Two leaves under `k` that masking replaces by one marker. */
  predicate LeavesAlike(p: Patterns, k: string, x: Json, y: Json, classic: bool) {
    || (x.Str? && y.Str? && p.idField(k) && Identifiers(p, x.s, y.s))
    || (x.Str? && y.Str? && classic && PlainValue(p, k, x.s) && PlainValue(p, k, y.s))
    || (classic && NumberLike(x) && NumberLike(y))
  }

  /** The trees agree at the path as far as masking wants them to. */
  ghost predicate AlikeAt(p: Patterns, key: string, a: Json, b: Json, classic: bool, path: seq<string>) {
    var x, y := Get(a, path), Get(b, path);
    && x.Some? == y.Some?
    && (x.Some? && x != y ==>
          && !p.isProtected(key) && (forall k :: k in path ==> !p.isProtected(k))
          && ((x.value.Obj? && y.value.Obj?) || LeavesAlike(p, LastKey(key, path), x.value, y.value, classic)))
  }

  lemma LeafMerge(p: Patterns, key: string, x: Json, y: Json, classic: bool)
    requires MarkersAreInert(p) && Leaf(x) && Leaf(y)
    ensures MaskLeaf(p, key, x, classic) == MaskLeaf(p, key, y, classic) <==> x == y || LeavesAlike(p, key, x, y, classic)
  {
  }

  lemma AlikeTail(p: Patterns, key: string, a: Json, b: Json, classic: bool, k: string, path: seq<string>)
    requires a.Obj? && b.Obj? && k in a.fields && k in b.fields && !p.isProtected(key)
    ensures AlikeAt(p, key, a, b, classic, [k] + path) <==> AlikeAt(p, k, a.fields[k], b.fields[k], classic, path)
  {
    var all := [k] + path;
    assert all[0] == k && all[1..] == path;
    PathTail(p, key, all);
    assert forall l :: l in all <==> l == k || l in path;
    hide LeavesAlike, Get;
    assert Get(a, all) == Get(a.fields[k], path) by { GetTail(a, k, path); }
    assert Get(b, all) == Get(b.fields[k], path) by { GetTail(b, k, path); }
  }

  lemma GetTail(v: Json, k: string, path: seq<string>)
    requires v.Obj? && k in v.fields
    ensures Get(v, [k] + path) == Get(v.fields[k], path)
  {
    assert ([k] + path)[1..] == path;
  }

  lemma {:induction false} TreesMaskAlike(p: Patterns, key: string, a: Json, b: Json, classic: bool, path: seq<string>)
    requires MarkersAreInert(p) && MaskTree(p, key, a, classic) == MaskTree(p, key, b, classic)
    ensures AlikeAt(p, key, a, b, classic, path)
    decreases |path|
  {
    hide LeavesAlike, MarkersAreInert;
    if a == b {
    } else if path == [] {
      RootsAlike(p, key, a, b, classic);
    } else {
      RootsAlike(p, key, a, b, classic);
      var k := path[0];
      assert path == [k] + path[1..];
      if a.Obj? {
        SameKeys(p, key, a, b, classic);
        hide MaskTree;
        if k in a.fields {
          TreesMaskAlike(p, k, a.fields[k], b.fields[k], classic, path[1..]);
          AlikeTail(p, key, a, b, classic, k, path[1..]);
        }
      }
    }
  }

  /** Different trees with one mask are both objects, or leaves that are alike. */
  lemma RootsAlike(p: Patterns, key: string, a: Json, b: Json, classic: bool)
    requires MarkersAreInert(p) && MaskTree(p, key, a, classic) == MaskTree(p, key, b, classic) && a != b
    ensures !p.isProtected(key) && ((a.Obj? && b.Obj?) || (Leaf(a) && Leaf(b) && LeavesAlike(p, key, a, b, classic)))
  {
    if Leaf(a) && Leaf(b) {
      LeafMerge(p, key, a, b, classic);
    }
    hide LeavesAlike, MaskFields, MarkersAreInert;
  }

  lemma {:induction false} TreesAlikeMask(p: Patterns, key: string, a: Json, b: Json, classic: bool)
    requires MarkersAreInert(p) && forall path :: AlikeAt(p, key, a, b, classic, path)
    ensures MaskTree(p, key, a, classic) == MaskTree(p, key, b, classic)
    decreases a
  {
    hide LeavesAlike, MarkersAreInert, MaskFields;
    if a != b {
      assert AlikeAt(p, key, a, b, classic, []);
      if a.Obj? && b.Obj? {
        KeysAlike(p, key, a, b, classic);
        MaskedFields(p, a, classic);
        MaskedFields(p, b, classic);
        forall k | k in a.fields ensures MaskTree(p, k, a.fields[k], classic) == MaskTree(p, k, b.fields[k], classic) {
          forall path ensures AlikeAt(p, k, a.fields[k], b.fields[k], classic, path) {
            assert AlikeAt(p, key, a, b, classic, [k] + path);
            AlikeTail(p, key, a, b, classic, k, path);
          }
          TreesAlikeMask(p, k, a.fields[k], b.fields[k], classic);
        }
        assert MaskFields(p, a, classic) == MaskFields(p, b, classic);
      } else {
        AlikeLeaves(p, key, a, b, classic);
      }
    }
  }

  lemma KeysAlike(p: Patterns, key: string, a: Json, b: Json, classic: bool)
    requires a.Obj? && b.Obj? && forall path :: AlikeAt(p, key, a, b, classic, path)
    ensures a.fields.Keys == b.fields.Keys
  {
    forall k ensures k in a.fields <==> k in b.fields {
      assert AlikeAt(p, key, a, b, classic, [k]);
      GetOne(a, k);
      GetOne(b, k);
    }
  }

  lemma GetOne(v: Json, k: string)
    requires v.Obj?
    ensures Get(v, [k]) == if k in v.fields then Some(v.fields[k]) else None
  {
    assert [k][1..] == [];
  }

  lemma AlikeLeaves(p: Patterns, key: string, a: Json, b: Json, classic: bool)
    requires MarkersAreInert(p) && !p.isProtected(key) && LeavesAlike(p, key, a, b, classic)
    ensures Leaf(a) && Leaf(b) && MaskTree(p, key, a, classic) == MaskTree(p, key, b, classic)
  {
    LeafMerge(p, key, a, b, classic);
    hide MaskLeaf, MarkersAreInert, Identifiers, PlainValue;
  }

  /**
   Trees merge exactly as meant.  Two trees have one mask if and only if at every path
   they have the same value, or, off every protected key, both have an object or both
   have leaves that one marker stands for: identifiers under an identifier field, or, in
   classic masking, values or numbers.
   */
  lemma {:induction false} TreesMergeExactly(p: Patterns, key: string, a: Json, b: Json, classic: bool)
    requires MarkersAreInert(p)
    ensures MaskTree(p, key, a, classic) == MaskTree(p, key, b, classic)
       <==> forall path :: AlikeAt(p, key, a, b, classic, path)
  {
    hide AlikeAt, MaskTree, MarkersAreInert;
    if MaskTree(p, key, a, classic) == MaskTree(p, key, b, classic) {
      forall path ensures AlikeAt(p, key, a, b, classic, path) {
        TreesMaskAlike(p, key, a, b, classic, path);
      }
    }
    if forall path :: AlikeAt(p, key, a, b, classic, path) {
      TreesAlikeMask(p, key, a, b, classic);
    }
  }

  /** JSON lines have one template exactly when their trees merge. */
  lemma {:induction false} ObjectsMergeExactly(p: Patterns, s: string, t: string, classic: bool)
    requires MarkersAreInert(p) && Decodes(p) && p.parse(s).Some? && p.parse(t).Some?
    ensures Template(p, s, classic) == Template(p, t, classic)
       <==> forall path :: AlikeAt(p, "", p.parse(s).value, p.parse(t).value, classic, path)
  {
    hide AlikeAt, MaskTree, MarkersAreInert, Fields, MaskAll, WellFormed;
    MaskedReadsBack(p, p.parse(s).value, classic);
    MaskedReadsBack(p, p.parse(t).value, classic);
    TreesMergeExactly(p, "", p.parse(s).value, p.parse(t).value, classic);
  }
}
