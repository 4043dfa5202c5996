/**
 Reviewed normalization rules for JSON payloads.

 Two payloads get one template from a loaded rule set exactly when the same rule
 takes both and they differ in nothing but strings at that rule's normalize paths.
 */
module ReviewedRules {
  import opened Wrappers
  import opened Trees
  import opened Flatten

  const MAX_RULES: nat := 256
  const MAX_ID: nat := 128
  const MAX_PATHS: nat := 64
  const MAX_PATH: nat := 128
  const MARK: Json := Str("<reviewed>")

  datatype Review = Review(reviewer: string, id: string, compiler: string, at: int)

  datatype Rule = Rule(
    id: string, version: int, expires: int, scope: map<string, Json>, shape: map<string, Kind>,
    literals: map<string, Json>, normalize: seq<string>, protectedLiterals: map<string, Json>,
    review: Review, prefix: string, clock: string)

  /** A log event, as far as rules look at it. */
  datatype Event = Event(eligible: bool, source: map<string, Json>, text: string)

  /** What the template hash is taken of. */
  datatype Template = Template(
    id: string, version: int, scope: map<string, Json>, shape: map<string, Kind>, leaves: map<string, Json>)

  /** Parses a whole text as one JSON value with unique keys. */
  type Parse = string -> Option<Json>

  function Lookup(m: map<string, Json>, k: string): Json {
    if k in m then m[k] else Null
  }

  // ----- loading -----

  predicate HeaderOk(r: Rule, now: int) {
    && r.id != "" && |r.id| <= MAX_ID && r.version >= 1 && r.expires > now
    && 0 < r.review.at <= now && r.review.compiler != "" && r.review.reviewer != "" && r.review.id != ""
    && |r.scope| > 0 && |r.shape| > 0 && |r.normalize| <= MAX_PATHS && r.clock == ""
  }

  predicate PathOk(isProtected: string -> bool, r: Rule, p: string) {
    && |p| <= MAX_PATH
    && |p| > 0 && p[0] == '/' && !isProtected(p)
    && p in r.shape && r.shape[p] == String
    && p !in r.protectedLiterals && p !in r.literals
  }

  ghost predicate Distinct(paths: seq<string>) {
    forall i, j :: 0 <= i < j < |paths| ==> paths[i] != paths[j]
  }

  ghost predicate PathsOk(isProtected: string -> bool, r: Rule) {
    Distinct(r.normalize) && forall p :: p in r.normalize ==> PathOk(isProtected, r, p)
  }

  function Ids(rules: seq<Rule>): (r: seq<string>)
    ensures |r| == |rules|
    ensures forall i :: 0 <= i < |r| ==> r[i] == rules[i].id
  {
    seq(|rules|, i requires 0 <= i < |rules| => rules[i].id)
  }

  /** What a loaded rule set is. */
  ghost predicate Loadable(isProtected: string -> bool, rules: seq<Rule>, now: int) {
    && |rules| <= MAX_RULES && Distinct(Ids(rules))
    && (forall r :: r in rules ==> HeaderOk(r, now) && PathsOk(isProtected, r))
  }

  /** The names seen so far are the first ones; one more keeps them distinct when it was not seen. */
  lemma DistinctStep(names: seq<string>, i: nat, seen: set<string>)
    requires i < |names| && Distinct(names[..i]) && forall x :: x in seen <==> x in names[..i]
    ensures Distinct(names[..i + 1]) <==> names[i] !in seen
    ensures Distinct(names) ==> Distinct(names[..i + 1])
    ensures forall x :: x in seen + {names[i]} <==> x in names[..i + 1]
  {
    assert names[..i + 1] == names[..i] + [names[i]];
    if names[i] in seen {
      var j :| 0 <= j < i && names[..i][j] == names[i];
      assert names[..i + 1][j] == names[..i + 1][i];
    }
  }

  method Load(isProtected: string -> bool, rules: seq<Rule>, now: int) returns (ok: bool)
    ensures ok == Loadable(isProtected, rules, now)
  {
    if |rules| > MAX_RULES {
      return false;
    }
    hide HeaderOk, PathsOk, Distinct;
    var ids: set<string> := {};
    ghost var names := Ids(rules);
    assert Distinct(names[..0]) by { NoneDistinct(names); }
    for i := 0 to |rules|
      invariant (forall x :: x in ids <==> x in names[..i]) && Distinct(names[..i])
      invariant forall r :: r in rules[..i] ==> HeaderOk(r, now) && PathsOk(isProtected, r)
    {
      var r := rules[i];
      DistinctStep(names, i, ids);
      if !HeaderOk(r, now) || r.id in ids {
        return false;
      }
      ids := ids + {r.id};
      var safe := CheckPaths(isProtected, r);
      if !safe {
        return false;
      }
      assert rules[..i + 1] == rules[..i] + [r];
    }
    assert rules[..|rules|] == rules && names[..|rules|] == names;
    return true;
  }

  lemma NoneDistinct(names: seq<string>)
    ensures Distinct(names[..0])
  {
  }

  method CheckPaths(isProtected: string -> bool, r: Rule) returns (ok: bool)
    ensures ok == PathsOk(isProtected, r)
  {
    hide PathOk, Distinct;
    var seen: set<string> := {};
    assert Distinct(r.normalize[..0]) by { NoneDistinct(r.normalize); }
    for i := 0 to |r.normalize|
      invariant (forall x :: x in seen <==> x in r.normalize[..i]) && Distinct(r.normalize[..i])
      invariant forall p :: p in r.normalize[..i] ==> PathOk(isProtected, r, p)
    {
      var p := r.normalize[i];
      DistinctStep(r.normalize, i, seen);
      if p in seen || !PathOk(isProtected, r, p) {
        return false;
      }
      seen := seen + {p};
      assert r.normalize[..i + 1] == r.normalize[..i] + [p];
    }
    assert r.normalize[..|r.normalize|] == r.normalize;
    return true;
  }

  // ----- what a rule takes -----

  ghost predicate ShapeIs(v: Json, shape: map<string, Kind>) {
    && (forall p :: p in shape <==> At(v, p).Some?)
    && (forall p :: p in shape ==> shape[p] == KindOf(At(v, p).value))
  }

  ghost predicate HasLiterals(v: Json, literals: map<string, Json>) {
    forall p :: p in literals ==> literals[p] == if At(v, p).Some? then At(v, p).value else Null
  }

  predicate InScope(r: Rule, source: map<string, Json>) {
    forall k :: k in r.scope ==> Lookup(source, k) == r.scope[k]
  }

  predicate HasPrefix(r: Rule, text: string) {
    r.prefix <= text
  }

  function Payload(parse: Parse, r: Rule, text: string): Option<Json> {
    if HasPrefix(r, text) then parse(text[|r.prefix|..]) else None
  }

  ghost predicate Takes(parse: Parse, r: Rule, e: Event, now: int) {
    && now < r.expires && InScope(r, e.source)
    && Payload(parse, r, e.text).Some?
    && var v := Payload(parse, r, e.text).value;
       ShapeIs(v, r.shape) && HasLiterals(v, r.literals) && HasLiterals(v, r.protectedLiterals)
  }

  /** The rule at `i` is the first that takes the event. */
  ghost predicate FirstTakes(parse: Parse, rules: seq<Rule>, e: Event, now: int, i: nat) {
    i < |rules| && Takes(parse, rules[i], e, now) && forall j :: 0 <= j < i ==> !Takes(parse, rules[j], e, now)
  }

  ghost predicate NoneTakes(parse: Parse, rules: seq<Rule>, e: Event, now: int) {
    forall j :: 0 <= j < |rules| ==> !Takes(parse, rules[j], e, now)
  }

  /** The leaves of the payload, with a mark at each normalize path. */
  ghost predicate LeavesAre(v: Json, paths: seq<string>, leaves: map<string, Json>) {
    forall p ::
      && (p in leaves <==> p in paths || (At(v, p).Some? && Leaf(At(v, p).value)))
      && (p in leaves ==> leaves[p] == if p in paths then MARK else At(v, p).value)
  }

  ghost predicate PathsUsable(r: Rule) {
    Distinct(r.normalize) && forall p :: p in r.normalize ==> |p| <= MAX_PATH
  }

  ghost predicate TemplateIs(parse: Parse, r: Rule, e: Event, t: Template) {
    && Payload(parse, r, e.text).Some?
    && t.id == r.id && t.version == r.version && t.scope == r.scope && t.shape == r.shape
    && LeavesAre(Payload(parse, r, e.text).value, r.normalize, t.leaves)
  }

  // ----- what a template means -----

  function Excused(r: Rule): set<string> {
    set p | p in r.normalize
  }

  lemma LeavesOfAgreeing(a: Json, b: Json, r: Rule, la: map<string, Json>, lb: map<string, Json>)
    requires ShapeIs(a, r.shape) && ShapeIs(b, r.shape)
    requires LeavesAre(a, r.normalize, la) && LeavesAre(b, r.normalize, lb)
    requires Agree(a, b, Excused(r))
    ensures la == lb
  {
    hide At;
    forall p ensures (p in la <==> p in lb) && (p in la ==> la[p] == lb[p]) {
      assert AgreeAt(a, b, Excused(r), p);
    }
    hide LeavesAre, ShapeIs, Agree;
  }

  lemma AgreeByLeaves(a: Json, b: Json, r: Rule, leaves: map<string, Json>)
    requires ShapeIs(a, r.shape) && ShapeIs(b, r.shape)
    requires LeavesAre(a, r.normalize, leaves) && LeavesAre(b, r.normalize, leaves)
    ensures Agree(a, b, Excused(r))
  {
    hide At;
    forall p ensures AgreeAt(a, b, Excused(r), p) {
      assert p in r.shape ==> (Leaf(At(a, p).value) <==> Leaf(At(b, p).value));
    }
  }

  /**
   One template is one rule and agreement everywhere but at its normalize paths, in
   both directions; the two events may be seen at different times.
   */
  lemma {:induction false} ReviewedMeaning(
      parse: Parse, isProtected: string -> bool, rules: seq<Rule>, loaded: int,
      e: Event, i: nat, t: Template, now: int, f: Event, j: nat, u: Template, later: int)
    requires Loadable(isProtected, rules, loaded)
    requires FirstTakes(parse, rules, e, now, i) && TemplateIs(parse, rules[i], e, t)
    requires FirstTakes(parse, rules, f, later, j) && TemplateIs(parse, rules[j], f, u)
    ensures t == u
       <==> i == j && Agree(Payload(parse, rules[i], e.text).value, Payload(parse, rules[j], f.text).value, Excused(rules[i]))
  {
    var a, b := Payload(parse, rules[i], e.text).value, Payload(parse, rules[j], f.text).value;
    if i == j {
      if t == u {
        AgreeByLeaves(a, b, rules[i], t.leaves);
      }
      if Agree(a, b, Excused(rules[i])) {
        LeavesOfAgreeing(a, b, rules[i], t.leaves, u.leaves);
      }
    } else {
      assert Ids(rules)[i] != Ids(rules)[j];
    }
    hide Agree, LeavesAre, ShapeIs, HasLiterals, Payload, HeaderOk, PathsOk, Excused;
  }

  /**
   Where two payloads with one template differ, both have a string at a reviewed
   path that is not protected; everything a rule protects or requires is the same.
   */
  lemma {:induction false} DifferencesAreReviewed(
      parse: Parse, isProtected: string -> bool, rules: seq<Rule>, loaded: int, i: nat, a: Json, b: Json, p: string)
    requires Loadable(isProtected, rules, loaded) && i < |rules|
    requires ShapeIs(a, rules[i].shape) && HasLiterals(a, rules[i].literals) && HasLiterals(a, rules[i].protectedLiterals)
    requires ShapeIs(b, rules[i].shape) && HasLiterals(b, rules[i].literals) && HasLiterals(b, rules[i].protectedLiterals)
    requires Agree(a, b, Excused(rules[i]))
    ensures var r, x, y := rules[i], At(a, p), At(b, p);
            && x.Some? == y.Some?
            && (x.Some? && Leaf(x.value) && x != y ==>
                  x.value.Str? && y.value.Str? && p in r.normalize && PathOk(isProtected, r, p))
            && (p in r.literals || p in r.protectedLiterals ==> (x.Some? ==> x == y))
  {
    assert AgreeAt(a, b, Excused(rules[i]), p);
    assert PathsOk(isProtected, rules[i]);
    assert p in rules[i].normalize ==> PathOk(isProtected, rules[i], p);
    assert p in rules[i].normalize ==> rules[i].shape[p] == String;
    hide Agree, At, HeaderOk, Loadable, PathsOk, PathOk;
  }

  /** A rule without normalize paths tells any two payloads apart. */
  lemma {:induction false} NothingNormalized(r: Rule, a: Json, b: Json, leaves: map<string, Json>)
    requires r.normalize == [] && ShapeIs(a, r.shape) && ShapeIs(b, r.shape)
    requires LeavesAre(a, [], leaves) && LeavesAre(b, [], leaves)
    ensures a == b
  {
    AgreeByLeaves(a, b, r, leaves);
    assert Excused(r) == {};
    Lossless(a, b);
  }

  // ----- the code -----

  method FindTemplate(parse: Parse, rules: seq<Rule>, e: Event, now: int) returns (t: Option<Template>)
    ensures !e.eligible || NoneTakes(parse, rules, e, now) ==> t.None?
    ensures forall i: nat :: e.eligible && FirstTakes(parse, rules, e, now, i) ==>
              if PathsUsable(rules[i]) then t.Some? && TemplateIs(parse, rules[i], e, t.value) else t.None?
  {
    hide Takes, TemplateIs, PathsUsable;
    if !e.eligible {
      return None;
    }
    for i := 0 to |rules|
      invariant forall j :: 0 <= j < i ==> !Takes(parse, rules[j], e, now)
    {
      var taken, shape, values := Try(parse, rules[i], e, now);
      if taken {
        t := Fill(parse, rules[i], e, shape, values);
        return;
      }
    }
    return None;
  }

  /** Whether one rule takes the event, and its flattened payload if so. */
  method Try(parse: Parse, r: Rule, e: Event, now: int)
    returns (taken: bool, shape: map<string, Kind>, values: map<string, Json>)
    ensures taken == Takes(parse, r, e, now)
    ensures taken ==> shape == r.shape && Payload(parse, r, e.text).Some?
    ensures taken ==> shape == Kinds(values) && FillsAll(map[], values, Payload(parse, r, e.text).value, "")
  {
    hide FillsAll, ShapeIs, HasLiterals, Kinds;
    taken, shape, values := false, map[], map[];
    if now >= r.expires || !InScope(r, e.source) || !HasPrefix(r, e.text) {
      return;
    }
    var v := parse(e.text[|r.prefix|..]);
    if v.None? {
      return;
    }
    var w := new Walker();
    w.Walk(v.value, "");
    shape, values := w.shape, w.values;
    FlatShape(v.value, values, r.shape);
    FlatLiterals(v.value, values, r.literals);
    FlatLiterals(v.value, values, r.protectedLiterals);
    taken := shape == r.shape && LiteralsIn(values, r.literals) && LiteralsIn(values, r.protectedLiterals);
  }

  predicate LiteralsIn(values: map<string, Json>, literals: map<string, Json>) {
    forall p :: p in literals ==> Lookup(values, p) == literals[p]
  }

  lemma FlatAt(v: Json, values: map<string, Json>, p: string)
    requires FillsAll(map[], values, v, "")
    ensures (p in values <==> At(v, p).Some?) && (p in values ==> values[p] == At(v, p).value)
  {
    assert p[0..] == p;
    hide At;
  }

  lemma FlatShape(v: Json, values: map<string, Json>, shape: map<string, Kind>)
    requires FillsAll(map[], values, v, "")
    ensures Kinds(values) == shape <==> ShapeIs(v, shape)
  {
    hide At, FillsAll;
    forall p ensures (p in values <==> At(v, p).Some?) && (p in values ==> values[p] == At(v, p).value) {
      FlatAt(v, values, p);
    }
    if ShapeIs(v, shape) {
      assert Kinds(values) == shape;
    }
  }

  lemma FlatLiterals(v: Json, values: map<string, Json>, literals: map<string, Json>)
    requires FillsAll(map[], values, v, "")
    ensures LiteralsIn(values, literals) <==> HasLiterals(v, literals)
  {
    hide At, FillsAll;
    forall p ensures Lookup(values, p) == if At(v, p).Some? then At(v, p).value else Null {
      FlatAt(v, values, p);
    }
  }

  method Fill(parse: Parse, r: Rule, e: Event, shape: map<string, Kind>, values: map<string, Json>)
    returns (t: Option<Template>)
    requires Payload(parse, r, e.text).Some? && shape == Kinds(values) && shape == r.shape
    requires FillsAll(map[], values, Payload(parse, r, e.text).value, "")
    ensures if PathsUsable(r) then t.Some? && TemplateIs(parse, r, e, t.value) else t.None?
  {
    hide FillsAll, LeavesAre, PathsUsable;
    var leaves := map p | p in values && shape[p] != Object && shape[p] != Array :: values[p];
    var ok, marked := MarkPaths(leaves, r);
    if !ok {
      return None;
    }
    MarkedLeaves(Payload(parse, r, e.text).value, values, leaves, r.normalize, marked);
    t := Some(Template(r.id, r.version, r.scope, shape, marked));
  }

  ghost predicate Marked(bare: map<string, Json>, paths: seq<string>, leaves: map<string, Json>) {
    && (forall p :: p in leaves <==> p in bare || p in paths)
    && (forall p :: p in leaves ==> leaves[p] == if p in paths then MARK else bare[p])
  }

  method MarkPaths(bare: map<string, Json>, r: Rule) returns (ok: bool, leaves: map<string, Json>)
    ensures ok == PathsUsable(r)
    ensures ok ==> Marked(bare, r.normalize, leaves)
  {
    ok, leaves := true, bare;
    hide Distinct, Marked;
    var seen: set<string> := {};
    assert Distinct(r.normalize[..0]) by { NoneDistinct(r.normalize); }
    assert Marked(bare, [], leaves) by { NoneMarked(bare); }
    for i := 0 to |r.normalize|
      invariant (forall x :: x in seen <==> x in r.normalize[..i]) && Distinct(r.normalize[..i])
      invariant forall p :: p in r.normalize[..i] ==> |p| <= MAX_PATH
      invariant Marked(bare, r.normalize[..i], leaves)
    {
      var p := r.normalize[i];
      DistinctStep(r.normalize, i, seen);
      if p in seen || |p| > MAX_PATH {
        return false, map[];
      }
      MarkedStep(bare, r.normalize[..i], leaves, p);
      seen := seen + {p};
      leaves := leaves[p := MARK];
      assert r.normalize[..i + 1] == r.normalize[..i] + [p];
    }
    assert r.normalize[..|r.normalize|] == r.normalize;
  }

  lemma NoneMarked(bare: map<string, Json>)
    ensures Marked(bare, [], bare)
  {
  }

  lemma MarkedStep(bare: map<string, Json>, paths: seq<string>, leaves: map<string, Json>, p: string)
    requires Marked(bare, paths, leaves)
    ensures Marked(bare, paths + [p], leaves[p := MARK])
  {
  }

  lemma MarkedLeaves(v: Json, values: map<string, Json>, bare: map<string, Json>, paths: seq<string>, leaves: map<string, Json>)
    requires FillsAll(map[], values, v, "") && Marked(bare, paths, leaves)
    requires forall p :: p in bare <==> p in values && Kinds(values)[p] != Object && Kinds(values)[p] != Array
    requires forall p :: p in bare ==> bare[p] == values[p]
    ensures LeavesAre(v, paths, leaves)
  {
    hide FillsAll, At;
    forall p ensures (p in values <==> At(v, p).Some?) && (p in values ==> values[p] == At(v, p).value) {
      FlatAt(v, values, p);
    }
  }

  // ----- what is loaded, and what a rule takes -----

  /** The rule was reviewed by someone, is in force, and says what it is about. */
  ghost predicate Reviewed(r: Rule, now: int) {
    && 1 <= |r.id| <= 128 && r.version > 0 && now < r.expires
    && r.review.at > 0 && r.review.at <= now
    && r.review.compiler != [] && r.review.reviewer != [] && r.review.id != []
    && r.scope != map[] && r.shape != map[] && |r.normalize| <= 64 && r.clock == []
  }

  /** The path may be normalized: it is a short pointer to a string that is neither protected nor a literal of the rule. */
  ghost predicate Normalizable(isProtected: string -> bool, r: Rule, p: string) {
    && 1 <= |p| <= 128 && p[..1] == "/" && !isProtected(p)
    && p in r.shape && r.shape[p] == String && p !in r.literals.Keys + r.protectedLiterals.Keys
  }

  /**
   A rule set is loaded exactly when it has at most 256 rules with different names, each of
   them reviewed and in force, that normalize no path twice and only ones that may be.
   */
  lemma {:induction false} LoadableMeans(isProtected: string -> bool, rules: seq<Rule>, now: int)
    ensures Loadable(isProtected, rules, now) <==>
              && |rules| <= 256
              && (forall i, j :: 0 <= i < j < |rules| ==> rules[i].id != rules[j].id)
              && (forall r :: r in rules ==> Reviewed(r, now))
              && (forall r, i, j :: r in rules && 0 <= i < j < |r.normalize| ==> r.normalize[i] != r.normalize[j])
              && (forall r, p :: r in rules && p in r.normalize ==> Normalizable(isProtected, r, p))
  {
    forall r ensures HeaderOk(r, now) <==> Reviewed(r, now) {
      ReviewedIs(r, now);
    }
    forall r, p ensures PathOk(isProtected, r, p) <==> Normalizable(isProtected, r, p) {
      NormalizableIs(isProtected, r, p);
    }
    hide HeaderOk, Reviewed, PathOk, Normalizable;
    NamesDiffer(rules);
  }

  lemma NamesDiffer(rules: seq<Rule>)
    ensures Distinct(Ids(rules)) <==> forall i, j :: 0 <= i < j < |rules| ==> rules[i].id != rules[j].id
  {
    var names := Ids(rules);
    if Distinct(names) {
      forall i, j | 0 <= i < j < |rules| ensures rules[i].id != rules[j].id {
        assert names[i] != names[j];
      }
    }
  }

  lemma ReviewedIs(r: Rule, now: int)
    ensures HeaderOk(r, now) <==> Reviewed(r, now)
  {
    assert |r.scope| == 0 <==> r.scope == map[];
    assert |r.shape| == 0 <==> r.shape == map[];
  }

  lemma NormalizableIs(isProtected: string -> bool, r: Rule, p: string)
    ensures PathOk(isProtected, r, p) <==> Normalizable(isProtected, r, p)
  {
    assert |p| > 0 ==> p[..1] == [p[0]];
  }

  /**
   A rule takes an event exactly while it has not expired, its scope holds of the source,
   where a missing field is null, the text starts with its prefix, and the rest is one JSON
   value with exactly the shape and the literals of the rule.
   */
  lemma {:induction false} TakesMeans(parse: Parse, r: Rule, e: Event, now: int)
    ensures Takes(parse, r, e, now) <==>
              && !(now >= r.expires)
              && (forall k :: k in r.scope ==> if k in e.source then e.source[k] == r.scope[k] else r.scope[k] == Null)
              && |r.prefix| <= |e.text| && e.text[..|r.prefix|] == r.prefix
              && var v := parse(e.text[|r.prefix|..]);
                 v.Some? && ShapeIs(v.value, r.shape) && HasLiterals(v.value, r.literals) && HasLiterals(v.value, r.protectedLiterals)
  {
    hide ShapeIs, HasLiterals;
    assert HasPrefix(r, e.text) <==> |r.prefix| <= |e.text| && e.text[..|r.prefix|] == r.prefix;
    assert InScope(r, e.source) <==>
             forall k :: k in r.scope ==> if k in e.source then e.source[k] == r.scope[k] else r.scope[k] == Null;
  }
}
