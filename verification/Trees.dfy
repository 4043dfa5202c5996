/**
 JSON trees and the paths of RFC 6901 into them.

 `Escape` and `Decimal` name the children of a node as the flattener does; `At` is
 the independent reading of section 4 of RFC 6901, which looks a path up.
 */
module Trees {
  import opened Wrappers

  /** Numbers keep their text; keys are unique. */
  datatype Json = Null | Bool(b: bool) | Number(text: string) | Str(s: string) | Arr(items: seq<Json>) | Obj(fields: map<string, Json>)

  // ----- escaping -----

  function ReplaceAll(s: string, c: char, put: string): string {
    if s == "" then "" else (if s[0] == c then put else [s[0]]) + ReplaceAll(s[1..], c, put)
  }

  function Escape(key: string): string {
    ReplaceAll(ReplaceAll(key, '~', "~0"), '/', "~1")
  }

  /** Section 4 of RFC 6901: `~1` stands for a slash and `~0` for a tilde. */
  function Unescape(s: string): string {
    if |s| >= 2 && s[0] == '~' && s[1] == '1' then "/" + Unescape(s[2..])
    else if |s| >= 2 && s[0] == '~' && s[1] == '0' then "~" + Unescape(s[2..])
    else if s == "" then ""
    else [s[0]] + Unescape(s[1..])
  }

  predicate Slashless(s: string) {
    forall i :: 0 <= i < |s| ==> s[i] != '/'
  }

  lemma {:induction false} ReplaceConcat(a: string, b: string, c: char, put: string)
    ensures ReplaceAll(a + b, c, put) == ReplaceAll(a, c, put) + ReplaceAll(b, c, put)
  {
    if a == "" {
      assert a + b == b;
      assert ReplaceAll(a, c, put) + ReplaceAll(b, c, put) == ReplaceAll(b, c, put);
    } else {
      assert (a + b)[1..] == a[1..] + b && (a + b)[0] == a[0];
      ReplaceConcat(a[1..], b, c, put);
      var head, mid, rest := if a[0] == c then put else [a[0]], ReplaceAll(a[1..], c, put), ReplaceAll(b, c, put);
      assert (head + mid) + rest == head + (mid + rest);
    }
  }

  function EscapedChar(c: char): string {
    if c == '~' then "~0" else if c == '/' then "~1" else [c]
  }

  /** The two passes of escaping are one pass over the characters. */
  lemma EscapeStep(key: string)
    requires key != ""
    ensures Escape(key) == EscapedChar(key[0]) + Escape(key[1..])
  {
    var c, rest := key[0], ReplaceAll(key[1..], '~', "~0");
    var head := if c == '~' then "~0" else [c];
    ReplaceConcat(head, rest, '/', "~1");
    assert ReplaceAll(head, '/', "~1") == EscapedChar(c) by {
      assert head[1..] == if c == '~' then "0" else "";
      assert ReplaceAll("", '/', "~1") == "";
    }
  }

  lemma UnescapeStep(c: char, rest: string)
    ensures Unescape(EscapedChar(c) + rest) == [c] + Unescape(rest)
  {
    var e := EscapedChar(c) + rest;
    assert e[|EscapedChar(c)|..] == rest;
  }

  /** Escaping loses nothing, and an escaped key is one segment of a path. */
  lemma {:induction false} EscapeRoundTrip(key: string)
    ensures Unescape(Escape(key)) == key && Slashless(Escape(key))
  {
    if key != "" {
      EscapeRoundTrip(key[1..]);
      EscapeStep(key);
      UnescapeStep(key[0], Escape(key[1..]));
      assert key == [key[0]] + key[1..];
      hide Escape, Unescape;
    }
  }

  // ----- indices -----

  function Digit(n: nat): char
    requires n < 10
  {
    "0123456789"[n]
  }

  function Decimal(n: nat): (s: string)
    ensures s != "" && forall i :: 0 <= i < |s| ==> '0' <= s[i] <= '9'
  {
    if n < 10 then [Digit(n)] else Decimal(n / 10) + [Digit(n % 10)]
  }

  function Value(s: string): nat
    requires forall i :: 0 <= i < |s| ==> '0' <= s[i] <= '9'
  {
    if s == "" then 0 else 10 * Value(s[..|s| - 1]) + (s[|s| - 1] as int - '0' as int)
  }

  lemma {:induction false} DecimalRoundTrip(n: nat)
    ensures Value(Decimal(n)) == n && Slashless(Decimal(n))
  {
    if n >= 10 {
      DecimalRoundTrip(n / 10);
      assert Decimal(n)[..|Decimal(n)| - 1] == Decimal(n / 10);
    }
  }

  /** The canonical index a segment names, if it does. */
  function IndexOf(seg: string): Option<nat> {
    if (forall i :: 0 <= i < |seg| ==> '0' <= seg[i] <= '9') && Decimal(Value(seg)) == seg then Some(Value(seg)) else None
  }

  lemma IndexRoundTrip(n: nat)
    ensures IndexOf(Decimal(n)) == Some(n)
  {
    DecimalRoundTrip(n);
  }

  // ----- paths -----

  /** The length of the first segment of a path that has lost its leading slash. */
  function SegmentEnd(s: string): (n: nat)
    ensures n <= |s| && Slashless(s[..n]) && (n < |s| ==> s[n] == '/')
  {
    if s == "" || s[0] == '/' then 0 else 1 + SegmentEnd(s[1..])
  }

  lemma {:induction false} SegmentEndIs(seg: string, q: string)
    requires Slashless(seg) && Tailed(q)
    ensures SegmentEnd(seg + q) == |seg|
  {
    if seg == "" {
      assert seg + q == q;
    } else {
      assert (seg + q)[1..] == seg[1..] + q;
      SegmentEndIs(seg[1..], q);
    }
  }

  function Child(v: Json, seg: string): Option<Json> {
    match v
    case Obj(fields) =>
      var key := Unescape(seg);
      if Escape(key) == seg && key in fields then Some(fields[key]) else None
    case Arr(items) =>
      var i := IndexOf(seg);
      if i.Some? && i.value < |items| then Some(items[i.value]) else None
    case _ => None
  }

  /** The node that a path names. */
  function At(v: Json, p: string): Option<Json>
    decreases |p|
  {
    if p == "" then Some(v)
    else if p[0] != '/' then None
    else
      var n := SegmentEnd(p[1..]);
      match Child(v, p[1..][..n])
      case None => None
      case Some(w) => At(w, p[1..][n..])
  }

  /** What can follow a segment. */
  predicate Tailed(q: string) {
    q == "" || q[0] == '/'
  }

  lemma AtTail(v: Json, q: string)
    requires At(v, q).Some?
    ensures Tailed(q)
  {
  }

  /** Looking up a segment and a tail is looking up the tail in the child. */
  lemma AtChild(v: Json, seg: string, q: string)
    requires Slashless(seg) && Tailed(q)
    ensures At(v, "/" + seg + q) == if Child(v, seg).Some? then At(Child(v, seg).value, q) else None
  {
    var p := "/" + seg + q;
    assert p[1..] == seg + q;
    SegmentEndIs(seg, q);
    assert p[1..][..|seg|] == seg && p[1..][|seg|..] == q;
    hide Child;
  }

  // ----- trees and their leaves -----

  datatype Kind = Object | Array | String | Num | Boolean | Nil | OtherKind(name: string)

  function KindOf(v: Json): Kind {
    match v
    case Obj(_) => Object
    case Arr(_) => Array
    case Str(_) => String
    case Number(_) => Num
    case Bool(_) => Boolean
    case Null => Nil
  }

  predicate Leaf(v: Json) {
    !v.Obj? && !v.Arr?
  }

  /** At this path both trees have nothing, or nodes of one kind, and equal leaves unless the path is excused. */
  ghost predicate AgreeAt(a: Json, b: Json, excused: set<string>, p: string) {
    var x, y := At(a, p), At(b, p);
    && x.Some? == y.Some?
    && (x.Some? ==> KindOf(x.value) == KindOf(y.value) && (Leaf(x.value) && p !in excused ==> x == y))
  }

  ghost predicate Agree(a: Json, b: Json, excused: set<string>) {
    forall p :: AgreeAt(a, b, excused, p)
  }

  lemma ChildAgrees(a: Json, b: Json, seg: string)
    requires Agree(a, b, {}) && Slashless(seg)
    ensures Child(a, seg).Some? == Child(b, seg).Some?
    ensures Child(a, seg).Some? ==> Agree(Child(a, seg).value, Child(b, seg).value, {})
  {
    hide Child, Leaf, KindOf, Slashless;
    AtChild(a, seg, "");
    AtChild(b, seg, "");
    assert AgreeAt(a, b, {}, "/" + seg + "");
    if Child(a, seg).Some? {
      var x, y := Child(a, seg).value, Child(b, seg).value;
      forall q ensures AgreeAt(x, y, {}, q) {
        if Tailed(q) {
          AtChild(a, seg, q);
          AtChild(b, seg, q);
          assert AgreeAt(a, b, {}, "/" + seg + q);
        }
      }
    }
  }

  /**
   Flattening is lossless: two trees put the same nodes, kinds and leaves at every
   path are the same tree.
   */
  lemma {:induction false} Lossless(a: Json, b: Json)
    requires Agree(a, b, {})
    ensures a == b
    decreases a
  {
    assert AgreeAt(a, b, {}, "");
    match a {
      case Obj(fields) =>
        ObjectKeys(a, b);
        forall k | k in fields ensures fields[k] == b.fields[k] {
          EscapeRoundTrip(k);
          ChildAgrees(a, b, Escape(k));
          Lossless(fields[k], b.fields[k]);
          hide Escape, Unescape, Agree;
        }
        assert fields == b.fields;
      case Arr(items) =>
        ArrayLength(a, b);
        forall i | 0 <= i < |items| ensures items[i] == b.items[i] {
          IndexRoundTrip(i);
          DecimalRoundTrip(i);
          ChildAgrees(a, b, Decimal(i));
          Lossless(items[i], b.items[i]);
          hide IndexOf, Agree;
        }
        assert items == b.items;
      case _ =>
    }
  }

  lemma ObjectKeys(a: Json, b: Json)
    requires Agree(a, b, {}) && a.Obj? && b.Obj?
    ensures a.fields.Keys == b.fields.Keys
  {
    forall k ensures k in a.fields <==> k in b.fields {
      EscapeRoundTrip(k);
      ChildAgrees(a, b, Escape(k));
      hide Escape, Unescape, Agree;
    }
  }

  lemma ArrayLength(a: Json, b: Json)
    requires Agree(a, b, {}) && a.Arr? && b.Arr?
    ensures |a.items| == |b.items|
  {
    var i := if |a.items| < |b.items| then |a.items| else |b.items|;
    IndexRoundTrip(i);
    DecimalRoundTrip(i);
    ChildAgrees(a, b, Decimal(i));
    hide IndexOf, Agree;
  }
}
