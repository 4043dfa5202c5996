/**
 Templates: what of a log line decides which family it belongs to.

 A line that is no JSON object is split into words, and each word is masked in
 place with an eye on the word before it, which is already masked.  A JSON object
 is masked field by field.
 */
module Masking {
  import opened Wrappers
  import opened Trees

  /** The patterns and the JSON encoding; their contents are not modelled. */
  datatype Patterns = Patterns(
    isProtected: string -> bool, idField: string -> bool, opaqueId: string -> bool,
    number: string -> bool, ip: string -> bool, clock: string -> bool,
    space: char -> bool,
    // A text that JSON accepts as a number; one that is read as a JSON object; the text of a tree.
    numeral: string -> bool, parse: string -> Option<Json>, marshal: Json -> string)

  const ID: string := "<id>"
  const VALUE: string := "<value>"
  const NUMBER: string := "<number>"

  predicate Volatile(p: Patterns, s: string) {
    p.number(s) || p.ip(s) || p.clock(s)
  }

  /** No pattern takes a marker for a value of another kind. */
  ghost predicate MarkersAreInert(p: Patterns) {
    && !p.opaqueId(VALUE) && !p.opaqueId(NUMBER)
    && !Volatile(p, ID) && !Volatile(p, NUMBER)
  }

  /** The blank separates words, and nothing a marker is made of does. */
  ghost predicate BlanksOnly(p: Patterns) {
    p.space(' ') && forall c :: c in "=" + ID + VALUE ==> !p.space(c)
  }

  // ----- words -----

  ghost predicate Word(p: Patterns, w: string) {
    w != "" && forall i :: 0 <= i < |w| ==> !p.space(w[i])
  }

  ghost predicate Words(p: Patterns, ws: seq<string>) {
    forall i :: 0 <= i < |ws| ==> Word(p, ws[i])
  }

  function WordEnd(p: Patterns, s: string): (n: nat)
    ensures n <= |s| && (forall i :: 0 <= i < n ==> !p.space(s[i])) && (n < |s| ==> p.space(s[n]))
  {
    if s == "" || p.space(s[0]) then 0 else 1 + WordEnd(p, s[1..])
  }

  function Fields(p: Patterns, s: string): (ws: seq<string>)
    decreases |s|
  {
    if s == "" then []
    else if p.space(s[0]) then Fields(p, s[1..])
    else
      var n := WordEnd(p, s);
      [s[..n]] + Fields(p, s[n..])
  }

  function Join(ws: seq<string>): string {
    if ws == [] then "" else if |ws| == 1 then ws[0] else ws[0] + " " + Join(ws[1..])
  }

  lemma {:induction false} FieldsAreWords(p: Patterns, s: string)
    ensures Words(p, Fields(p, s))
    decreases |s|
  {
    if s != "" {
      if p.space(s[0]) {
        FieldsAreWords(p, s[1..]);
      } else {
        var n := WordEnd(p, s);
        FieldsAreWords(p, s[n..]);
      }
    }
  }

  lemma {:induction false} WordEndIs(p: Patterns, w: string, rest: string)
    requires Word(p, w) && (rest == "" || p.space(rest[0]))
    ensures WordEnd(p, w + rest) == |w|
  {
    assert (w + rest)[1..] == w[1..] + rest;
    if |w| == 1 {
      assert w[1..] + rest == rest;
    } else {
      WordEndIs(p, w[1..], rest);
    }
  }

  lemma FieldsOfWord(p: Patterns, w: string)
    requires Word(p, w)
    ensures Fields(p, w) == [w]
  {
    WordEndIs(p, w, "");
    assert w + "" == w && w[..|w|] == w && w[|w|..] == "";
    assert Fields(p, "") == [];
    hide WordEnd;
  }

  lemma FieldsOfMore(p: Patterns, w: string, rest: string)
    requires Word(p, w) && p.space(' ')
    ensures Fields(p, w + " " + rest) == [w] + Fields(p, rest)
  {
    var tail := " " + rest;
    var s := w + tail;
    assert s == w + " " + rest;
    WordEndIs(p, w, tail);
    assert s[..|w|] == w && s[|w|..] == tail && s[0] == w[0];
    assert tail[1..] == rest;
    assert Fields(p, tail) == Fields(p, rest);
    hide WordEnd;
  }

  /** Splitting undoes joining, so a joined text tells its words apart. */
  lemma {:induction false} FieldsOfJoin(p: Patterns, ws: seq<string>)
    requires Words(p, ws) && p.space(' ')
    ensures Fields(p, Join(ws)) == ws
    decreases |ws|
  {
    if |ws| == 1 {
      FieldsOfWord(p, ws[0]);
    } else if ws != [] {
      FieldsOfJoin(p, ws[1..]);
      FieldsOfMore(p, ws[0], Join(ws[1..]));
      hide Fields;
    }
  }

  // ----- masking a word -----

  /** The index of the first equals sign. */
  function Cut(w: string): (n: nat)
    ensures n <= |w| && (forall i :: 0 <= i < n ==> w[i] != '=') && (n < |w| ==> w[n] == '=')
  {
    if w == "" || w[0] == '=' then 0 else 1 + Cut(w[1..])
  }

  predicate Pair(w: string) { Cut(w) < |w| }

  function Name(w: string): string { w[..Cut(w)] }

  function Content(w: string): string
    requires Pair(w)
  {
    w[Cut(w) + 1..]
  }

  function MaskPair(p: Patterns, w: string, classic: bool): string
    requires Pair(w)
  {
    if p.isProtected(Name(w)) then w
    else if p.idField(Name(w)) && p.opaqueId(Content(w)) then Name(w) + "=" + ID
    else if classic && Volatile(p, Content(w)) then Name(w) + "=" + VALUE
    else w
  }

  /** After such a word a number keeps its meaning. */
  predicate Context(p: Patterns, before: Option<string>) {
    before.Some? && (p.isProtected(before.value) || "HTTP/" <= before.value || before.value == "Completed")
  }

  predicate Code(p: Patterns, w: string) {
    |w| == 3 && '1' <= w[0] <= '5' && p.number(w)
  }

  function MaskBare(p: Patterns, before: Option<string>, w: string, classic: bool): string {
    if !classic || Context(p, before) || Code(p, w) then w
    else if Volatile(p, w) then VALUE
    else w
  }

  function MaskWord(p: Patterns, before: Option<string>, w: string, classic: bool): string {
    if Pair(w) then MaskPair(p, w, classic) else MaskBare(p, before, w, classic)
  }

  function Last(ws: seq<string>): Option<string> {
    if ws == [] then None else Some(ws[|ws| - 1])
  }

  function MaskAll(p: Patterns, ws: seq<string>, classic: bool): (r: seq<string>)
    ensures |r| == |ws|
  {
    if ws == [] then []
    else
      var front := MaskAll(p, ws[..|ws| - 1], classic);
      front + [MaskWord(p, Last(front), ws[|ws| - 1], classic)]
  }

  lemma {:induction false} MaskAllPrefix(p: Patterns, ws: seq<string>, classic: bool, n: nat)
    requires n <= |ws|
    ensures MaskAll(p, ws[..n], classic) == MaskAll(p, ws, classic)[..n]
    decreases |ws|
  {
    if n == |ws| {
      assert ws[..n] == ws;
    } else {
      MaskAllPrefix(p, ws[..|ws| - 1], classic, n);
      assert ws[..|ws| - 1][..n] == ws[..n];
      hide MaskWord;
    }
  }

  /** Word `i` is masked knowing the masked word before it. */
  lemma {:induction false} MaskedAt(p: Patterns, ws: seq<string>, classic: bool, i: nat)
    requires i < |ws|
    ensures var m := MaskAll(p, ws, classic);
            m[i] == MaskWord(p, if i == 0 then None else Some(m[i - 1]), ws[i], classic)
  {
    MaskAllPrefix(p, ws, classic, i + 1);
    assert ws[..i + 1][..i] == ws[..i];
    MaskAllPrefix(p, ws, classic, i);
    hide MaskWord;
  }

  lemma PairOf(k: string, v: string)
    requires forall i :: 0 <= i < |k| ==> k[i] != '='
    ensures var w := k + "=" + v; Pair(w) && Name(w) == k && Content(w) == v
  {
    CutIs(k, "=" + v);
    assert k + "=" + v == k + ("=" + v);
  }

  lemma {:induction false} CutIs(k: string, rest: string)
    requires (forall i :: 0 <= i < |k| ==> k[i] != '=') && rest != "" && rest[0] == '='
    ensures Cut(k + rest) == |k|
  {
    if k == "" {
      assert k + rest == rest;
    } else {
      assert (k + rest)[1..] == k[1..] + rest;
      CutIs(k[1..], rest);
    }
  }

  /** Masking a pair keeps its name. */
  lemma MaskPairKeepsName(p: Patterns, w: string, classic: bool)
    requires Pair(w)
    ensures Pair(MaskPair(p, w, classic)) && Name(MaskPair(p, w, classic)) == Name(w)
    ensures MaskPair(p, w, classic) == w
         || (MaskPair(p, w, classic) == Name(w) + "=" + ID && Content(MaskPair(p, w, classic)) == ID)
         || (MaskPair(p, w, classic) == Name(w) + "=" + VALUE && Content(MaskPair(p, w, classic)) == VALUE)
  {
    PairOf(Name(w), ID);
    PairOf(Name(w), VALUE);
    hide Pair, Content;
  }

  lemma ValueIsBare()
    ensures !Pair(VALUE)
  {
    assert forall i :: 0 <= i < |VALUE| ==> VALUE[i] != '=';
  }

  // ----- protected content -----

  /** A word that masking must not touch: a protected pair, a word in context, a status code. */
  ghost predicate Guarded(p: Patterns, before: Option<string>, w: string) {
    if Pair(w) then p.isProtected(Name(w)) else Context(p, before) || Code(p, w)
  }

  lemma GuardedWordsAgree(p: Patterns, before: Option<string>, a: string, b: string, classic: bool)
    requires MaskWord(p, before, a, classic) == MaskWord(p, before, b, classic) && Guarded(p, before, a)
    ensures a == b
  {
    ValueIsBare();
    if Pair(b) {
      MaskPairKeepsName(p, b, classic);
    }
    if Pair(a) {
      MaskPairKeepsName(p, a, classic);
    }
    hide Pair, Content, Volatile, Cut;
  }

  /**
   Masking never merges protected content: two lines with one template have as many
   words, and agree on every word that is guarded in either.
   */
  lemma {:induction false} LinesKeepGuarded(p: Patterns, s: string, t: string, classic: bool)
    requires BlanksOnly(p)
    requires Join(MaskAll(p, Fields(p, s), classic)) == Join(MaskAll(p, Fields(p, t), classic))
    ensures var a, b := Fields(p, s), Fields(p, t);
            var m := MaskAll(p, a, classic);
            && |a| == |b|
            && forall i :: 0 <= i < |a| ==>
                 var before := if i == 0 then None else Some(m[i - 1]);
                 Guarded(p, before, a[i]) || Guarded(p, before, b[i]) ==> a[i] == b[i]
  {
    var a, b := Fields(p, s), Fields(p, t);
    var m := MaskAll(p, a, classic);
    SameMasks(p, s, t, classic);
    forall i | 0 <= i < |a|
      ensures var before := if i == 0 then None else Some(m[i - 1]);
              Guarded(p, before, a[i]) || Guarded(p, before, b[i]) ==> a[i] == b[i]
    {
      var before := if i == 0 then None else Some(m[i - 1]);
      MaskedAt(p, a, classic, i);
      MaskedAt(p, b, classic, i);
      if Guarded(p, before, a[i]) {
        GuardedWordsAgree(p, before, a[i], b[i], classic);
      }
      if Guarded(p, before, b[i]) {
        GuardedWordsAgree(p, before, b[i], a[i], classic);
      }
    }
    hide Guarded, MaskWord, MaskAll, Fields, Join, BlanksOnly;
  }

  lemma SameMasks(p: Patterns, s: string, t: string, classic: bool)
    requires BlanksOnly(p)
    requires Join(MaskAll(p, Fields(p, s), classic)) == Join(MaskAll(p, Fields(p, t), classic))
    ensures MaskAll(p, Fields(p, s), classic) == MaskAll(p, Fields(p, t), classic)
  {
    MaskedAreWords(p, s, classic);
    MaskedAreWords(p, t, classic);
    FieldsOfJoin(p, MaskAll(p, Fields(p, s), classic));
    FieldsOfJoin(p, MaskAll(p, Fields(p, t), classic));
    hide MaskAll, Fields, Join, Words;
  }

  lemma MaskWordIsWord(p: Patterns, before: Option<string>, w: string, classic: bool)
    requires BlanksOnly(p) && Word(p, w)
    ensures Word(p, MaskWord(p, before, w, classic))
  {
    var all := "=" + ID + VALUE;
    assert Word(p, ID) by {
      forall i | 0 <= i < |ID| ensures !p.space(ID[i]) {
        assert all[1 + i] == ID[i];
      }
    }
    assert Word(p, VALUE) by {
      forall i | 0 <= i < |VALUE| ensures !p.space(VALUE[i]) {
        assert all[1 + |ID| + i] == VALUE[i];
      }
    }
    assert !p.space('=') by {
      assert all[0] == '=';
    }
    if Pair(w) {
      WordPair(p, w, ID);
      WordPair(p, w, VALUE);
    }
    hide Word, BlanksOnly, Volatile, Pair;
  }

  lemma WordPair(p: Patterns, w: string, v: string)
    requires Word(p, w) && Word(p, v) && !p.space('=')
    ensures Word(p, Name(w) + "=" + v)
  {
  }

  lemma MaskedAreWords(p: Patterns, s: string, classic: bool)
    requires BlanksOnly(p)
    ensures Words(p, MaskAll(p, Fields(p, s), classic))
  {
    FieldsAreWords(p, s);
    var ws := Fields(p, s);
    forall i | 0 <= i < |ws| ensures Word(p, MaskAll(p, ws, classic)[i]) {
      MaskedAt(p, ws, classic, i);
      MaskWordIsWord(p, if i == 0 then None else Some(MaskAll(p, ws, classic)[i - 1]), ws[i], classic);
    }
    hide MaskAll, MaskWord, Fields, Word, BlanksOnly;
  }

  // ----- masking a tree -----

  function MaskLeaf(p: Patterns, key: string, v: Json, classic: bool): Json
    requires Leaf(v)
  {
    match v
    case Str(s) =>
      if p.idField(key) && p.opaqueId(s) then Str(ID)
      else if classic && Volatile(p, s) then Str(VALUE)
      else v
    case Number(_) => if classic then Str(NUMBER) else v
    case _ => v
  }

  /** Arrays stay whole; an object is masked field by field. */
  function MaskTree(p: Patterns, key: string, v: Json, classic: bool): Json
    decreases v, 1
  {
    if p.isProtected(key) || v.Arr? then v
    else if v.Obj? then Obj(MaskFields(p, v, classic))
    else MaskLeaf(p, key, v, classic)
  }

  function MaskFields(p: Patterns, v: Json, classic: bool): map<string, Json>
    requires v.Obj?
    decreases v, 0
  {
    map k | k in v.fields :: MaskTree(p, k, v.fields[k], classic)
  }

  /** The value under a path of keys. */
  function Get(v: Json, path: seq<string>): Option<Json> {
    if path == [] then Some(v)
    else if v.Obj? && path[0] in v.fields then Get(v.fields[path[0]], path[1..])
    else None
  }

  /** A leaf that masking replaces, or that looks like a replacement already. */
  predicate Replaceable(p: Patterns, key: string, v: Json, classic: bool) {
    match v
    case Str(s) => s == ID || s == VALUE || s == NUMBER || (p.idField(key) && p.opaqueId(s)) || (classic && Volatile(p, s))
    case Number(_) => classic
    case _ => false
  }

  function LastKey(key: string, path: seq<string>): string {
    if path == [] then key else path[|path| - 1]
  }

  ghost predicate OnProtectedPath(p: Patterns, key: string, path: seq<string>) {
    p.isProtected(key) || exists k :: k in path && p.isProtected(k)
  }

  /** What two trees with one mask have in common at a path. */
  ghost predicate KeptAt(p: Patterns, key: string, a: Json, b: Json, classic: bool, path: seq<string>) {
    var x, y := Get(a, path), Get(b, path);
    && x.Some? == y.Some?
    && (x.Some? && OnProtectedPath(p, key, path) ==> x == y)
    && (x.Some? && (x.value.Arr? || y.value.Arr?) ==> x == y)
    && (x.Some? ==> x.value.Obj? == y.value.Obj?)
    && (x.Some? && Leaf(x.value) && x != y ==>
          && Replaceable(p, LastKey(key, path), x.value, classic)
          && Replaceable(p, LastKey(key, path), y.value, classic))
  }

  /**
   Masking a tree never merges protected content: trees with one mask have the same
   keys, the same subtrees under protected keys and the same arrays, and differ only
   in leaves of the kinds that masking replaces.
   */
  lemma {:induction false} TreesKeepProtected(p: Patterns, key: string, a: Json, b: Json, classic: bool, path: seq<string>)
    requires MaskTree(p, key, a, classic) == MaskTree(p, key, b, classic)
    ensures KeptAt(p, key, a, b, classic, path)
    decreases |path|
  {
    hide Replaceable, Volatile;
    if p.isProtected(key) {
    } else if path == [] {
      LeavesKept(p, key, a, b, classic);
    } else if a.Obj? {
      SameKeys(p, key, a, b, classic);
      var k := path[0];
      if k in a.fields {
        TreesKeepProtected(p, k, a.fields[k], b.fields[k], classic, path[1..]);
        assert path == [k] + path[1..];
        PathTail(p, key, path);
        hide MaskTree, OnProtectedPath;
      }
    } else {
      hide OnProtectedPath;
    }
  }

  lemma PathTail(p: Patterns, key: string, path: seq<string>)
    requires path != [] && !p.isProtected(key)
    ensures OnProtectedPath(p, key, path) <==> OnProtectedPath(p, path[0], path[1..])
    ensures LastKey(key, path) == LastKey(path[0], path[1..])
  {
    assert path == [path[0]] + path[1..];
  }

  lemma SameKeys(p: Patterns, key: string, a: Json, b: Json, classic: bool)
    requires MaskTree(p, key, a, classic) == MaskTree(p, key, b, classic)
    requires !p.isProtected(key) && a.Obj?
    ensures b.Obj? && a.fields.Keys == b.fields.Keys
    ensures forall k :: k in a.fields ==> MaskTree(p, k, a.fields[k], classic) == MaskTree(p, k, b.fields[k], classic)
  {
    hide MaskFields, MaskLeaf;
    MaskedFields(p, a, classic);
    OnlyObjectsMaskToObjects(p, key, b, classic);
    MaskedFields(p, b, classic);
    hide MaskTree;
  }

  lemma OnlyObjectsMaskToObjects(p: Patterns, key: string, v: Json, classic: bool)
    requires MaskTree(p, key, v, classic).Obj?
    ensures v.Obj?
    ensures !p.isProtected(key) ==> MaskTree(p, key, v, classic) == Obj(MaskFields(p, v, classic))
  {
    hide MaskFields;
  }

  lemma MaskedFields(p: Patterns, v: Json, classic: bool)
    requires v.Obj?
    ensures MaskFields(p, v, classic).Keys == v.fields.Keys
    ensures forall k :: k in v.fields ==> MaskFields(p, v, classic)[k] == MaskTree(p, k, v.fields[k], classic)
  {
    hide MaskTree;
  }

  lemma LeavesKept(p: Patterns, key: string, a: Json, b: Json, classic: bool)
    requires MaskTree(p, key, a, classic) == MaskTree(p, key, b, classic) && !p.isProtected(key)
    ensures KeptAt(p, key, a, b, classic, [])
  {
  }

  lemma {:induction false} MaskTreeTwice(p: Patterns, key: string, v: Json, classic: bool)
    requires MarkersAreInert(p)
    ensures MaskTree(p, key, MaskTree(p, key, v, classic), classic) == MaskTree(p, key, v, classic)
    decreases v
  {
    hide Volatile;
    if v.Obj? && !p.isProtected(key) {
      var m := MaskTree(p, key, v, classic);
      MaskedFields(p, v, classic);
      MaskedFields(p, m, classic);
      hide MaskFields;
      forall k | k in v.fields
        ensures MaskTree(p, k, m.fields[k], classic) == m.fields[k]
      {
        MaskTreeTwice(p, k, v.fields[k], classic);
      }
      assert m.fields == MaskFields(p, m, classic);
    }
  }

  // ----- templates -----

  function Template(p: Patterns, text: string, classic: bool): string {
    match p.parse(text)
    case Some(v) => p.marshal(MaskTree(p, "", v, classic))
    case None => Join(MaskAll(p, Fields(p, text), classic))
  }

  /** How deep the decoder follows nested values. */
  const MAX_DEPTH: nat := 10000

  /** A tree that JSON text can stand for: its numbers are numerals and it is not nested too deep. */
  predicate WellFormed(p: Patterns, v: Json, depth: nat)
    decreases v
  {
    match v
    case Number(text) => p.numeral(text)
    case Arr(items) => 0 < depth && forall i :: 0 <= i < |items| ==> WellFormed(p, items[i], depth - 1)
    case Obj(fields) => 0 < depth && forall k :: k in fields ==> WellFormed(p, fields[k], depth - 1)
    case _ => true
  }

  predicate GoodObject(p: Patterns, v: Json) {
    v.Obj? && WellFormed(p, v, MAX_DEPTH)
  }

  /** The parser yields well-formed objects only, and reads back each of them that the encoder writes. */
  ghost predicate Decodes(p: Patterns) {
    && (forall s :: p.parse(s).Some? ==> GoodObject(p, p.parse(s).value))
    && (forall v: Json :: GoodObject(p, v) ==> p.parse(p.marshal(v)) == Some(v))
  }

  /** Masking leaves numerals or replaces them by strings, and changes no nesting. */
  lemma {:induction false} MaskKeepsForm(p: Patterns, key: string, v: Json, classic: bool, depth: nat)
    requires WellFormed(p, v, depth)
    ensures WellFormed(p, MaskTree(p, key, v, classic), depth)
    decreases v
  {
    hide Volatile;
    if v.Obj? && !p.isProtected(key) {
      MaskedFields(p, v, classic);
      hide MaskFields;
      forall k | k in v.fields ensures WellFormed(p, MaskFields(p, v, classic)[k], depth - 1) {
        MaskKeepsForm(p, k, v.fields[k], classic, depth - 1);
      }
    }
  }

  /** What the code may write is what it can read. */
  lemma MaskedReadsBack(p: Patterns, v: Json, classic: bool)
    requires Decodes(p) && GoodObject(p, v)
    ensures var m := MaskTree(p, "", v, classic); GoodObject(p, m) && p.parse(p.marshal(m)) == Some(m)
  {
    MaskKeepsForm(p, "", v, classic, MAX_DEPTH);
    MaskedIsObject(p, v, classic);
    hide MaskTree, WellFormed;
  }

  lemma MaskedIsObject(p: Patterns, v: Json, classic: bool)
    requires v.Obj?
    ensures MaskTree(p, "", v, classic).Obj?
  {
    hide MaskFields, MaskLeaf;
  }

  /** Two objects with one template have one mask. */
  lemma {:induction false} ObjectsKeepProtected(p: Patterns, s: string, t: string, classic: bool, path: seq<string>)
    requires Decodes(p) && p.parse(s).Some? && p.parse(t).Some?
    requires Template(p, s, classic) == Template(p, t, classic)
    ensures KeptAt(p, "", p.parse(s).value, p.parse(t).value, classic, path)
  {
    hide MaskTree, KeptAt, Fields, MaskAll, WellFormed;
    MaskedReadsBack(p, p.parse(s).value, classic);
    MaskedReadsBack(p, p.parse(t).value, classic);
    TreesKeepProtected(p, "", p.parse(s).value, p.parse(t).value, classic, path);
  }

  /** An object and a line share a template only if joining the line's words makes an object of it. */
  lemma {:induction false} LinesRarelyMeetObjects(p: Patterns, s: string, t: string, classic: bool)
    requires Decodes(p) && p.parse(s).Some? && p.parse(t).None?
    requires Template(p, s, classic) == Template(p, t, classic)
    ensures p.parse(Join(MaskAll(p, Fields(p, t), classic))) == Some(MaskTree(p, "", p.parse(s).value, classic))
  {
    hide MaskTree, Fields, MaskAll, Join, WellFormed;
    MaskedReadsBack(p, p.parse(s).value, classic);
  }

  lemma MaskPairTwice(p: Patterns, w: string, classic: bool)
    requires MarkersAreInert(p) && Pair(w)
    ensures Pair(MaskPair(p, w, classic)) && MaskPair(p, MaskPair(p, w, classic), classic) == MaskPair(p, w, classic)
  {
    PairOf(Name(w), ID);
    PairOf(Name(w), VALUE);
    hide Pair, Name, Content, Volatile;
  }

  lemma MaskWordTwice(p: Patterns, before: Option<string>, w: string, classic: bool)
    requires MarkersAreInert(p)
    ensures MaskWord(p, before, MaskWord(p, before, w, classic), classic) == MaskWord(p, before, w, classic)
  {
    ValueIsBare();
    if Pair(w) {
      MaskPairTwice(p, w, classic);
    }
    hide Pair, MaskPair, Volatile, Context, MarkersAreInert;
  }

  lemma {:induction false} MaskAllTwice(p: Patterns, ws: seq<string>, classic: bool)
    requires MarkersAreInert(p)
    ensures MaskAll(p, MaskAll(p, ws, classic), classic) == MaskAll(p, ws, classic)
    decreases |ws|
  {
    if ws != [] {
      var m := MaskAll(p, ws, classic);
      var n := |ws| - 1;
      var front := MaskAll(p, ws[..n], classic);
      MaskAllTwice(p, ws[..n], classic);
      MaskWordTwice(p, Last(front), ws[n], classic);
      assert m[..n] == front;
      hide MaskWord, MarkersAreInert;
    }
  }

  /** The template of an object is its own template. */
  lemma {:induction false} ObjectTemplateTwice(p: Patterns, text: string, classic: bool)
    requires MarkersAreInert(p) && Decodes(p) && p.parse(text).Some?
    ensures Template(p, Template(p, text, classic), classic) == Template(p, text, classic)
  {
    hide MaskTree, Fields, MaskAll, MarkersAreInert, WellFormed;
    MaskedReadsBack(p, p.parse(text).value, classic);
    MaskTreeTwice(p, "", p.parse(text).value, classic);
  }

  /**
   The template of a line is its own template exactly when joining its masked words
   has not made it a JSON object, or has made it one in masked normal form.
   */
  lemma {:induction false} LineTemplateTwice(p: Patterns, text: string, classic: bool)
    requires MarkersAreInert(p) && BlanksOnly(p) && Decodes(p) && p.parse(text).None?
    ensures var t := Template(p, text, classic);
            (Template(p, t, classic) == t) <==>
              p.parse(t).None? || exists v: Json :: GoodObject(p, v) && MaskTree(p, "", v, classic) == v && p.marshal(v) == t
  {
    hide MaskAll, Fields, Join, MarkersAreInert, Decodes, MaskTree, GoodObject;
    var t := Template(p, text, classic);
    var m := MaskAll(p, Fields(p, text), classic);
    assert t == Join(m);
    if p.parse(t).None? {
      MaskedAreWords(p, text, classic);
      FieldsOfJoin(p, m);
      MaskAllTwice(p, Fields(p, text), classic);
    } else {
      JoinedObject(p, t, classic);
    }
  }

  lemma JoinedObject(p: Patterns, t: string, classic: bool)
    requires MarkersAreInert(p) && Decodes(p) && p.parse(t).Some?
    ensures Template(p, t, classic) == t
       <==> exists v: Json :: GoodObject(p, v) && MaskTree(p, "", v, classic) == v && p.marshal(v) == t
  {
    hide MaskTree, MarkersAreInert, Fields, MaskAll, Join, GoodObject;
    var w := p.parse(t).value;
    var m := MaskTree(p, "", w, classic);
    MaskedReadsBack(p, w, classic);
    MaskTreeTwice(p, "", w, classic);
    if v: Json :| GoodObject(p, v) && MaskTree(p, "", v, classic) == v && p.marshal(v) == t {
      assert p.parse(p.marshal(v)) == Some(v);
    }
  }

  /** A text that is read as an object has a first word, and it opens the object. */
  ghost predicate ObjectsOpen(p: Patterns) {
    forall s :: p.parse(s).Some? ==> Opens(Fields(p, s))
  }

  predicate Opens(ws: seq<string>) {
    ws != [] && ws[0] != "" && ws[0][0] == '{'
  }

  /** Masking does not make a first word open an object. */
  lemma MaskedOpens(p: Patterns, ws: seq<string>, classic: bool)
    requires Words(p, ws) && Opens(MaskAll(p, ws, classic))
    ensures Opens(ws)
  {
    MaskedAt(p, ws, classic, 0);
    hide MaskAll, Volatile, Context, Code;
    if Pair(ws[0]) {
      MaskPairKeepsName(p, ws[0], classic);
      hide MaskPair;
    }
  }

  /**
   A guard that a caller can see: a line without words, or whose first word does not
   begin with a brace, has a template that is its own template.
   */
  lemma {:induction false} PlainTemplateTwice(p: Patterns, text: string, classic: bool)
    requires MarkersAreInert(p) && BlanksOnly(p) && Decodes(p) && ObjectsOpen(p)
    requires !Opens(Fields(p, text))
    ensures p.parse(text).None? && Template(p, Template(p, text, classic), classic) == Template(p, text, classic)
  {
    hide MaskAll, Fields, Join, MarkersAreInert, Decodes, MaskTree, GoodObject, Opens;
    var m := MaskAll(p, Fields(p, text), classic);
    FieldsAreWords(p, text);
    MaskedAreWords(p, text, classic);
    FieldsOfJoin(p, m);
    if p.parse(Join(m)).Some? {
      MaskedOpens(p, Fields(p, text), classic);
    }
    LineTemplateTwice(p, text, classic);
  }

  const FEED: char := '\U{0C}'
  const HEAD: string := "{\"a\":"
  const TAIL: string := "1}"

  /** What the patterns say about the words of the example. */
  ghost predicate ExampleFacts(p: Patterns) {
    && p.space(FEED) && p.space(' ') && Word(p, HEAD) && Word(p, TAIL)
    && !p.isProtected("") && !p.isProtected("a") && !p.isProtected(HEAD)
    && !Volatile(p, HEAD) && !Volatile(p, TAIL) && !Code(p, HEAD) && !Code(p, TAIL)
    && p.parse(HEAD + [FEED] + TAIL) == None
    && p.parse(HEAD + " " + TAIL) == Some(Obj(map["a" := Number("1")]))
  }

  /**
   That case is real.  A form feed separates words but is no JSON white space, so the
   line becomes an object by being joined with a blank, and its number is then masked.
   */
  lemma {:induction false} JoiningMakesAnObject(p: Patterns)
    requires Decodes(p) && ExampleFacts(p)
    ensures var t := Template(p, HEAD + [FEED] + TAIL, true);
            t == HEAD + " " + TAIL && Template(p, t, true) != t
  {
    var v: Json := Obj(map["a" := Number("1")]);
    ExampleFields(p);
    ExampleMasks(p);
    hide MaskTree, Fields, MaskAll, Volatile, Code, Word, WellFormed;
    assert p.parse(HEAD + " " + TAIL) == Some(v);
    MaskedReadsBack(p, v, true);
    ExampleTree(p);
  }

  lemma ExampleFields(p: Patterns)
    requires ExampleFacts(p)
    ensures Fields(p, HEAD + [FEED] + TAIL) == [HEAD, TAIL] && Join([HEAD, TAIL]) == HEAD + " " + TAIL
  {
    hide Volatile, Code;
    var rest := [FEED] + TAIL;
    var s := HEAD + rest;
    assert s == HEAD + [FEED] + TAIL;
    WordEndIs(p, HEAD, rest);
    WordEndIs(p, TAIL, "");
    assert TAIL + "" == TAIL && TAIL[..|TAIL|] == TAIL && rest[1..] == TAIL;
    assert s[..|HEAD|] == HEAD && s[|HEAD|..] == rest && s[0] == HEAD[0];
    assert Fields(p, TAIL) == [TAIL] + Fields(p, "");
    assert Fields(p, rest) == Fields(p, TAIL);
    assert [HEAD, TAIL][1..] == [TAIL];
    assert Join([TAIL]) == TAIL;
  }

  lemma ExampleTree(p: Patterns)
    requires !p.isProtected("") && !p.isProtected("a")
    ensures var v: Json := Obj(map["a" := Number("1")]);
            MaskTree(p, "", v, true).Obj? && MaskTree(p, "", v, true) != v
  {
    var v: Json := Obj(map["a" := Number("1")]);
    assert "a" in v.fields && v.fields["a"] == Number("1");
    assert MaskTree(p, "a", Number("1"), true) == Str(NUMBER);
    assert MaskTree(p, "", v, true).fields["a"] == MaskTree(p, "a", v.fields["a"], true);
  }

  lemma ExampleMasks(p: Patterns)
    requires ExampleFacts(p)
    ensures MaskAll(p, [HEAD, TAIL], true) == [HEAD, TAIL]
  {
    ExampleWords(p);
    hide MaskWord, ExampleFacts;
    MaskAllOfTwo(p, HEAD, TAIL);
  }

  lemma MaskAllOfTwo(p: Patterns, a: string, b: string)
    ensures MaskAll(p, [a, b], true) == [MaskWord(p, None, a, true), MaskWord(p, Some(MaskWord(p, None, a, true)), b, true)]
  {
    hide MaskWord;
    assert [a, b][..1] == [a] && [a][..0] == [];
    assert MaskAll(p, [], true) == [];
  }

  lemma ExampleWords(p: Patterns)
    requires ExampleFacts(p)
    ensures MaskWord(p, None, HEAD, true) == HEAD && MaskWord(p, Some(HEAD), TAIL, true) == TAIL
  {
    hide Volatile, Code, Word;
    NoEquals(HEAD);
    NoEquals(TAIL);
    assert !("HTTP/" <= HEAD) && HEAD != "Completed" by {
      assert "HTTP/"[0] != HEAD[0] && "Completed"[0] != HEAD[0];
    }
    hide Pair;
  }

  lemma NoEquals(w: string)
    requires forall i :: 0 <= i < |w| ==> w[i] != '='
    ensures !Pair(w)
  {
  }

  // ----- the code -----

  method MaskWords(p: Patterns, tokens: array<string>, classic: bool)
    modifies tokens
    ensures tokens[..] == MaskAll(p, old(tokens[..]), classic)
  {
    hide MaskWord;
    ghost var ws := tokens[..];
    for i := 0 to tokens.Length
      invariant tokens[..i] == MaskAll(p, ws[..i], classic)
      invariant forall j :: i <= j < tokens.Length ==> tokens[j] == ws[j]
    {
      assert ws[..i + 1][..i] == ws[..i];
      ghost var front := tokens[..i];
      assert Last(front) == if i == 0 then None else Some(tokens[i - 1]);
      MaskToken(p, tokens, i, classic);
      assert tokens[..i + 1] == front + [tokens[i]];
    }
    assert tokens[..tokens.Length] == tokens[..] && ws[..tokens.Length] == ws;
  }

  /** Mask one word, looking at the word before it as it is now. */
  method MaskToken(p: Patterns, tokens: array<string>, i: nat, classic: bool)
    requires i < tokens.Length
    modifies tokens
    ensures tokens[i] == old(MaskWord(p, if i == 0 then None else Some(tokens[i - 1]), tokens[i], classic))
    ensures forall j :: 0 <= j < tokens.Length && j != i ==> tokens[j] == old(tokens[j])
  {
    hide Volatile, Code, Pair;
    var w := tokens[i];
    if Pair(w) {
      if p.isProtected(Name(w)) {
        return;
      }
      if p.idField(Name(w)) && p.opaqueId(Content(w)) {
        tokens[i] := Name(w) + "=" + ID;
      } else if classic && Volatile(p, Content(w)) {
        tokens[i] := Name(w) + "=" + VALUE;
      }
      return;
    }
    if classic {
      if i > 0 && Context(p, Some(tokens[i - 1])) {
        return;
      }
      if Code(p, w) {
        return;
      }
      if Volatile(p, w) {
        tokens[i] := VALUE;
      }
    }
  }

  method MaskObject(p: Patterns, key: string, v: Json, classic: bool) returns (r: Json)
    ensures r == MaskTree(p, key, v, classic)
    decreases v, 1
  {
    hide MaskLeaf, MaskFields;
    if p.isProtected(key) || v.Arr? {
      return v;
    }
    if !v.Obj? {
      return MaskLeaf(p, key, v, classic);
    }
    var fields := MaskEach(p, v, classic);
    return Obj(fields);
  }

  /** Mask the fields of an object in place, in any order. */
  method MaskEach(p: Patterns, v: Json, classic: bool) returns (fields: map<string, Json>)
    requires v.Obj?
    ensures fields == MaskFields(p, v, classic)
    decreases v, 0
  {
    hide MaskTree, MaskFields;
    MaskedFields(p, v, classic);
    fields := v.fields;
    var todo := v.fields.Keys;
    while todo != {}
      invariant todo <= v.fields.Keys && fields.Keys == v.fields.Keys
      invariant forall k :: k in v.fields ==> fields[k] == if k in todo then v.fields[k] else MaskFields(p, v, classic)[k]
      decreases |todo|
    {
      var k :| k in todo;
      var m := MaskObject(p, k, v.fields[k], classic);
      fields := fields[k := m];
      todo := todo - {k};
    }
    assert fields == MaskFields(p, v, classic);
  }

  method MakeTemplate(p: Patterns, text: string, classic: bool) returns (t: string)
    ensures t == Template(p, text, classic)
  {
    hide MaskTree, MaskAll, Fields, Join;
    var v := p.parse(text);
    if v.Some? {
      var m := MaskObject(p, "", v.value, classic);
      return p.marshal(m);
    }
    var ws := Fields(p, text);
    var tokens := new string[|ws|](i requires 0 <= i < |ws| => ws[i]);
    assert tokens[..] == ws;
    MaskWords(p, tokens, classic);
    return Join(tokens[..]);
  }
}
