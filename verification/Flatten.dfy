/**
 Flattening a JSON tree into a map of paths and a map of kinds.

 Class `Walker` is the code.  What it leaves behind is what looking up each path
 in the tree would give, in whatever order the keys of an object come.
 */
module Flatten {
  import opened Wrappers
  import opened Trees

  /** The path names a node of the tree `v` that hangs at `path`. */
  ghost predicate Below(v: Json, path: string, p: string) {
    path <= p && At(v, p[|path|..]).Some?
  }

  function FirstSegment(q: string): string
    requires q != ""
  {
    q[1..][..SegmentEnd(q[1..])]
  }

  /** The path names the root of the tree, or a node under one of the given segments. */
  ghost predicate Part(v: Json, path: string, p: string, segs: set<string>) {
    Below(v, path, p) && (p == path || FirstSegment(p[|path|..]) in segs)
  }

  /** The map `after` is `before` with the chosen paths looked up in the tree. */
  ghost predicate Fills(before: map<string, Json>, after: map<string, Json>, v: Json, path: string, segs: set<string>) {
    && (forall p :: p in after <==> p in before || Part(v, path, p, segs))
    && (forall p :: p in after ==>
          after[p] == if Part(v, path, p, segs) then At(v, p[|path|..]).value else before[p])
  }

  ghost predicate FillsAll(before: map<string, Json>, after: map<string, Json>, v: Json, path: string) {
    && (forall p :: p in after <==> p in before || Below(v, path, p))
    && (forall p :: p in after ==> after[p] == if Below(v, path, p) then At(v, p[|path|..]).value else before[p])
  }

  lemma BelowRoot(v: Json, path: string, p: string)
    ensures Part(v, path, p, {}) <==> p == path
    ensures p == path ==> At(v, p[|path|..]) == Some(v)
  {
  }

  lemma JoinPath(path: string, seg: string, q: string)
    ensures var p, at := path + ("/" + seg + q), path + "/" + seg;
            && p == at + q && at <= p && p[|at|..] == q
            && path <= p && p != path && p[|path|..] == "/" + seg + q
  {
  }

  lemma FirstSegmentIs(seg: string, q: string)
    requires Slashless(seg) && Tailed(q)
    ensures FirstSegment("/" + seg + q) == seg
  {
    SegmentEndIs(seg, q);
    assert ("/" + seg + q)[1..] == seg + q;
    assert (seg + q)[..|seg|] == seg;
    hide SegmentEnd, Slashless, Tailed;
  }

  /** The nodes under a child are the nodes under its segment. */
  lemma BelowChild(v: Json, path: string, seg: string, w: Json, p: string)
    requires Slashless(seg) && Child(v, seg) == Some(w)
    ensures Below(w, path + "/" + seg, p) <==> Below(v, path, p) && p != path && FirstSegment(p[|path|..]) == seg
    ensures Below(w, path + "/" + seg, p) ==> At(v, p[|path|..]) == At(w, p[|path + "/" + seg|..])
  {
    hide Child, Slashless, At, FirstSegment, Tailed;
    var at := path + "/" + seg;
    if Below(w, at, p) {
      var q := p[|at|..];
      AtTail(w, q);
      AtChild(v, seg, q);
      FirstSegmentIs(seg, q);
      JoinPath(path, seg, q);
      assert p == at + q;
    } else if Below(v, path, p) && p != path && FirstSegment(p[|path|..]) == seg {
      UnderSegment(v, path, seg, w, p);
    }
  }

  lemma SegmentSplit(v: Json, r: string)
    requires At(v, r).Some? && r != ""
    ensures var n := |FirstSegment(r)|; n < |r| && r == "/" + FirstSegment(r) + r[1 + n..] && Tailed(r[1 + n..])
  {
    hide Child;
  }

  lemma UnderSegment(v: Json, path: string, seg: string, w: Json, p: string)
    requires Slashless(seg) && Child(v, seg) == Some(w)
    requires Below(v, path, p) && p != path && FirstSegment(p[|path|..]) == seg
    ensures Below(w, path + "/" + seg, p)
  {
    var r := p[|path|..];
    SegmentSplit(v, r);
    var q := r[1 + |seg|..];
    AtChild(v, seg, q);
    hide Child, Slashless, At, FirstSegment, Tailed;
    JoinPath(path, seg, q);
    assert p == path + r;
  }

  /** Filling in a child extends what is filled in by its segment. */
  lemma FillsMore(before: map<string, Json>, mid: map<string, Json>, after: map<string, Json>,
                  v: Json, path: string, segs: set<string>, seg: string)
    requires Slashless(seg) && Child(v, seg).Some?
    requires Fills(before, mid, v, path, segs)
    requires FillsAll(mid, after, Child(v, seg).value, path + "/" + seg)
    ensures Fills(before, after, v, path, segs + {seg})
  {
    hide At, Child, FirstSegment;
    var w := Child(v, seg).value;
    forall p
      ensures Part(v, path, p, segs + {seg}) <==> Part(v, path, p, segs) || Below(w, path + "/" + seg, p)
      ensures Below(w, path + "/" + seg, p) ==> At(v, p[|path|..]) == At(w, p[|path + "/" + seg|..])
    {
      BelowChild(v, path, seg, w, p);
    }
    hide Below, Part;
  }

  ghost predicate AllSegments(v: Json, segs: set<string>) {
    forall seg :: Child(v, seg).Some? ==> seg in segs
  }

  lemma FillsWhole(before: map<string, Json>, after: map<string, Json>, v: Json, path: string, segs: set<string>)
    requires Fills(before, after, v, path, segs) && AllSegments(v, segs)
    ensures FillsAll(before, after, v, path)
  {
    forall p ensures Part(v, path, p, segs) <==> Below(v, path, p) {
      hide Child;
    }
    hide Below, Part, AllSegments;
  }

  lemma FillsRoot(before: map<string, Json>, v: Json, path: string)
    ensures Fills(before, before[path := v], v, path, {})
  {
    forall p ensures Part(v, path, p, {}) <==> p == path
      ensures p == path ==> At(v, p[|path|..]) == Some(v)
    {
      BelowRoot(v, path, p);
    }
    hide Part, At;
  }

  function Kinds(values: map<string, Json>): map<string, Kind> {
    map p | p in values :: KindOf(values[p])
  }

  class Walker {
    var shape: map<string, Kind>
    var values: map<string, Json>

    ghost predicate Valid()
      reads this
    {
      shape == Kinds(values)
    }

    constructor ()
      ensures Valid() && values == map[]
    {
      shape, values := map[], map[];
    }

    /** Record the tree below `path`: every node once, with its kind. */
    method Walk(v: Json, path: string)
      requires Valid()
      modifies this
      ensures Valid() && FillsAll(old(values), values, v, path)
      decreases v, 1
    {
      ghost var before := values;
      Record(v, path);
      FillsRoot(before, v, path);
      hide Fills, FillsAll, AllSegments, Kinds;
      match v {
        case Obj(_) =>
          WalkObject(before, v, path);
        case Arr(_) =>
          WalkArray(before, v, path);
        case _ =>
          assert AllSegments(v, {}) by { NoSegments(v); }
          FillsWhole(before, values, v, path, {});
      }
    }

    method Record(v: Json, path: string)
      requires Valid()
      modifies this
      ensures Valid() && values == old(values)[path := v]
    {
      values := values[path := v];
      match v {
        case Obj(_) => shape := shape[path := Object];
        case Arr(_) => shape := shape[path := Array];
        case Str(_) => shape := shape[path := String];
        case Number(_) => shape := shape[path := Num];
        case Bool(_) => shape := shape[path := Boolean];
        case Null => shape := shape[path := Nil];
      }
    }

    /** The keys come in any order. */
    method WalkObject(ghost before: map<string, Json>, v: Json, path: string)
      requires Valid() && v.Obj? && Fills(before, values, v, path, {})
      modifies this
      ensures Valid() && FillsAll(before, values, v, path)
      decreases v, 0
    {
      hide Fills, FillsAll, Kinds, Escape, Unescape, AllSegments, Slashless;
      var todo := v.fields.Keys;
      ghost var segs: set<string> := {};
      while todo != {}
        invariant Valid() && todo <= v.fields.Keys
        invariant Fills(before, values, v, path, segs)
        invariant forall k :: k in v.fields && k !in todo ==> Escape(k) in segs
        decreases |todo|
      {
        var k :| k in todo;
        EscapeRoundTrip(k);
        ghost var mid := values;
        Walk(v.fields[k], path + "/" + Escape(k));
        FillsMore(before, mid, values, v, path, segs, Escape(k));
        segs := segs + {Escape(k)};
        todo := todo - {k};
      }
      KeySegments(v, segs);
      FillsWhole(before, values, v, path, segs);
    }

    method WalkArray(ghost before: map<string, Json>, v: Json, path: string)
      requires Valid() && v.Arr? && Fills(before, values, v, path, {})
      modifies this
      ensures Valid() && FillsAll(before, values, v, path)
      decreases v, 0
    {
      hide Fills, FillsAll, Kinds, Decimal, IndexOf, AllSegments, Slashless;
      ghost var segs: set<string> := {};
      for i := 0 to |v.items|
        invariant Valid()
        invariant Fills(before, values, v, path, segs)
        invariant forall j :: 0 <= j < i ==> Decimal(j) in segs
      {
        IndexRoundTrip(i);
        DecimalRoundTrip(i);
        ghost var mid := values;
        Walk(v.items[i], path + "/" + Decimal(i));
        FillsMore(before, mid, values, v, path, segs, Decimal(i));
        segs := segs + {Decimal(i)};
      }
      IndexSegments(v, segs);
      FillsWhole(before, values, v, path, segs);
    }
  }

  lemma NoSegments(v: Json)
    requires Leaf(v)
    ensures AllSegments(v, {})
  {
  }

  lemma KeySegments(v: Json, segs: set<string>)
    requires v.Obj? && forall k :: k in v.fields ==> Escape(k) in segs
    ensures AllSegments(v, segs)
  {
  }

  lemma IndexSegments(v: Json, segs: set<string>)
    requires v.Arr? && forall j :: 0 <= j < |v.items| ==> Decimal(j) in segs
    ensures AllSegments(v, segs)
  {
  }
}
