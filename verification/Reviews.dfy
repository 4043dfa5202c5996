/**
 Reviewed reports: one event.

 `Projected` first undoes an earlier projection, then lets the current rules and
 acknowledgements mark the event as routine while keeping its own judgment aside.
 */
module Reviews {
  import opened Wrappers

  /** The names of an event's fields. */
  datatype Key =
    | Importance | Severity | Category
    | ImportanceConfidence | SeverityConfidence | CategoryConfidence | AnalysisError
    | OriginalJudgment | Review | Text | Source | Id | Status | RuleId | Named(name: string)

  datatype Value = Null | Bool(b: bool) | Num(n: real) | Str(s: string) | List(items: seq<Value>) | Obj(fields: Object)
  type Object = map<Key, Value>

  const JUDGMENTS: seq<Key> :=
    [Importance, Severity, Category, ImportanceConfidence, SeverityConfidence, CategoryConfidence, AnalysisError]

  const ROUTINE: string := "routine"

  datatype Rule = Rule(id: Value, enabled: bool, pattern: string, exact: bool, scope: Object)

  /** The text functions of matching: whether a text contains a pattern, and a text without surrounding space. */
  datatype Matching = Matching(contains: (string, string) -> bool, trim: string -> string)

  /** What a projection applies. */
  datatype Rules = Rules(text: Matching, rules: seq<Rule>, acks: set<string>)

  function TextOf(e: Object, k: Key): string {
    if k in e && e[k].Str? then e[k].s else ""
  }

  function Field(e: Object, k: Key): Value {
    if k in e then e[k] else Null
  }

  function Inner(e: Object, k: Key): Object {
    if k in e && e[k].Obj? then e[k].fields else map[]
  }

  // ----- restoring -----

  function Judgments(e: Object): Object {
    map k | k in e && k in JUDGMENTS :: e[k]
  }

  function Without(e: Object, keys: seq<Key>): Object {
    map k | k in e && k !in keys :: e[k]
  }

  function Restored(e: Object): Object {
    if OriginalJudgment in e && e[OriginalJudgment].Obj? then
      (Without(e, JUDGMENTS) + e[OriginalJudgment].fields) - {OriginalJudgment, Review}
    else e - {Review}
  }

  // ----- matching -----

  predicate InScope(scope: Object, source: Object) {
    forall k :: k in scope ==> Field(source, k) == scope[k]
  }

  predicate Matches(m: Matching, r: Rule, e: Object) {
    && r.enabled
    && (if r.exact then m.trim(TextOf(e, Key.Text)) == r.pattern else m.contains(TextOf(e, Key.Text), r.pattern))
    && InScope(r.scope, Inner(e, Source))
  }

  /** The first enabled rule that matches, from index `i` on. */
  function FirstMatch(c: Rules, e: Object, i: nat): Option<Rule>
    decreases |c.rules| - i
  {
    if |c.rules| <= i then None
    else if Matches(c.text, c.rules[i], e) then Some(c.rules[i])
    else FirstMatch(c, e, i + 1)
  }

  // ----- marking -----

  function ReviewOf(matched: Option<Rule>): Object {
    match matched
    case Some(r) => map[Status := Str("expected"), RuleId := r.id]
    case None => map[Status := Str("acknowledged")]
  }

  function Marked(x: Object, matched: Option<Rule>): Object {
    Without(x[OriginalJudgment := Obj(Judgments(x))][Importance := Str(ROUTINE)], JUDGMENTS[3..])[Review := Obj(ReviewOf(matched))]
  }

  predicate Marks(c: Rules, x: Object) {
    FirstMatch(c, x, 0).Some? || TextOf(x, Id) in c.acks
  }

  function Projected(c: Rules, e: Object): Object {
    var x := Restored(e);
    if Marks(c, x) then Marked(x, FirstMatch(c, x, 0)) else x
  }

  // ----- the laws of one event -----

  /** An original judgment that is there but is no object: restoring cannot read it, marking overwrites it. */
  predicate Odd(e: Object) {
    OriginalJudgment in e && !e[OriginalJudgment].Obj?
  }

  lemma MarkedAt(x: Object, matched: Option<Rule>, k: Key)
    ensures k == Importance ==> k in Marked(x, matched) && Marked(x, matched)[k] == Str(ROUTINE)
    ensures k == OriginalJudgment ==> k in Marked(x, matched) && Marked(x, matched)[k] == Obj(Judgments(x))
    ensures k != Importance && k != OriginalJudgment && k != Review ==>
              && (k in Marked(x, matched) <==> k in x && k !in JUDGMENTS[3..])
              && (k in Marked(x, matched) ==> Marked(x, matched)[k] == x[k])
  {
  }

  lemma RestoredIsClean(e: Object)
    ensures Review !in Restored(e)
    ensures OriginalJudgment in Restored(e) <==> Odd(e)
  {
  }

  /** Undoing a mark gives back the event, except that an odd original judgment is gone. */
  lemma MarkIsUndone(x: Object, matched: Option<Rule>)
    requires Review !in x
    ensures Restored(Marked(x, matched)) == x - {OriginalJudgment}
  {
    var m := Marked(x, matched);
    var r := Restored(m);
    MarkedAt(x, matched, OriginalJudgment);
    hide Marked;
    forall k ensures (k in r <==> k in x - {OriginalJudgment}) && (k in r ==> r[k] == x[k]) {
      MarkedAt(x, matched, k);
      assert k in JUDGMENTS ==> (k in r <==> k in Judgments(x));
    }
  }

  lemma RestoredAgain(e: Object)
    ensures Restored(Restored(e)) == Restored(e)
  {
    RestoredIsClean(e);
  }

  /** Whether a rule set marks an event depends on neither its mark nor its original judgment. */
  lemma MatchIgnoresOriginal(c: Rules, x: Object, i: nat)
    ensures FirstMatch(c, x, i) == FirstMatch(c, x - {OriginalJudgment}, i)
    decreases |c.rules| - i
  {
    var y := x - {OriginalJudgment};
    if i < |c.rules| {
      MatchIgnoresOriginal(c, x, i + 1);
      assert TextOf(x, Key.Text) == TextOf(y, Key.Text) && Inner(x, Source) == Inner(y, Source);
      hide TextOf, Inner, InScope;
    }
  }

  /** The event a second projection starts from. */
  lemma RestoredProjection(c: Rules, e: Object)
    ensures Restored(Projected(c, e)) == if Marks(c, Restored(e)) then Restored(e) - {OriginalJudgment} else Restored(e)
  {
    var x := Restored(e);
    RestoredIsClean(e);
    RestoredAgain(e);
    MarkIsUndone(x, FirstMatch(c, x, 0));
    hide Restored, Marked, Marks;
  }

  lemma MarksIgnoresOriginal(c: Rules, x: Object)
    ensures Marks(c, x) == Marks(c, x - {OriginalJudgment})
  {
    MatchIgnoresOriginal(c, x, 0);
    hide FirstMatch;
  }

  lemma MarkIgnoresOriginal(x: Object, matched: Option<Rule>)
    ensures Marked(x, matched) == Marked(x - {OriginalJudgment}, matched)
  {
    var y := x - {OriginalJudgment};
    assert Judgments(x) == Judgments(y);
    hide Judgments;
    assert x[OriginalJudgment := Obj(Judgments(x))] == y[OriginalJudgment := Obj(Judgments(y))];
  }

  /**
   Only the last rule set matters: a second projection gives what it would have
   given alone.  The one exception is exact: an original judgment that is no object
   is lost when the first rule set marks the event and the second does not.
   */
  lemma {:induction false} EventComposes(c: Rules, d: Rules, e: Object)
    ensures Projected(d, Projected(c, e)) == Projected(d, e)
       <==> !(Odd(e) && Marks(c, Restored(e)) && !Marks(d, Restored(e)))
  {
    var x := Restored(e);
    RestoredProjection(c, e);
    RestoredIsClean(e);
    MarksIgnoresOriginal(d, x);
    MatchIgnoresOriginal(d, x, 0);
    MarkIgnoresOriginal(x, FirstMatch(d, x, 0));
    assert !Odd(e) ==> x - {OriginalJudgment} == x;
    assert Odd(e) ==> OriginalJudgment !in x - {OriginalJudgment} && OriginalJudgment in x;
    hide Restored, Marked, Marks, FirstMatch, Odd;
  }

  /** Even then the two results differ in that field only. */
  lemma {:induction false} EventAlmostComposes(c: Rules, d: Rules, e: Object)
    ensures Projected(d, Projected(c, e)) - {OriginalJudgment} == Projected(d, e) - {OriginalJudgment}
  {
    var x := Restored(e);
    RestoredProjection(c, e);
    MarksIgnoresOriginal(d, x);
    MatchIgnoresOriginal(d, x, 0);
    MarkIgnoresOriginal(x, FirstMatch(d, x, 0));
    hide Restored, Marked, Marks, FirstMatch;
  }

  function NoRules(m: Matching): Rules { Rules(m, [], {}) }

  /** An odd original judgment shows the exception is real. */
  lemma {:induction false} OddJudgmentIsLost(m: Matching)
    ensures var e: Object := map[Id := Str("a"), Key.Text := Str(""), Source := Obj(map[]), OriginalJudgment := Null];
            Projected(NoRules(m), Projected(Rules(m, [], {"a"}), e)) != Projected(NoRules(m), e)
  {
    var e: Object := map[Id := Str("a"), Key.Text := Str(""), Source := Obj(map[]), OriginalJudgment := Null];
    assert Restored(e) == e;
    EventComposes(Rules(m, [], {"a"}), NoRules(m), e);
  }

  /** Disabling every rule restores the judgment the event came with. */
  lemma {:induction false} DisablingRestores(c: Rules, e: Object)
    requires OriginalJudgment !in e && Review !in e
    ensures Projected(NoRules(c.text), Projected(c, e)) == e
  {
    EventComposes(c, NoRules(c.text), e);
    assert Restored(e) == e;
    hide Restored;
  }

  /** A projection touches nothing but the judgment, the review and the original judgment of a fresh event. */
  lemma {:induction false} ProjectionKeepsEvidence(c: Rules, e: Object, k: Key)
    requires OriginalJudgment !in e && Review !in e
    requires k !in JUDGMENTS && k != OriginalJudgment && k != Review
    ensures (k in Projected(c, e) <==> k in e) && (k in e ==> Projected(c, e)[k] == e[k])
  {
    assert Restored(e) == e;
    MarkedAt(e, FirstMatch(c, e, 0), k);
    hide Marked, FirstMatch;
  }

  // ----- who is marked -----

  /** The rule is in force, its pattern fits the text, and its scope holds of the source; a missing field is null. */
  ghost predicate Takes(m: Matching, r: Rule, e: Object) {
    && r.enabled
    && (r.exact ==> m.trim(TextOf(e, Key.Text)) == r.pattern)
    && (!r.exact ==> m.contains(TextOf(e, Key.Text), r.pattern))
    && (forall k :: k in r.scope ==>
          var source := Inner(e, Source); if k in source then source[k] == r.scope[k] else r.scope[k] == Null)
  }

  /** Rule number `i` is the first that takes the event. */
  ghost predicate TakenBy(c: Rules, e: Object, i: nat) {
    i < |c.rules| && Takes(c.text, c.rules[i], e) && forall j :: 0 <= j < i ==> !Takes(c.text, c.rules[j], e)
  }

  lemma MatchIsTake(m: Matching, r: Rule, e: Object)
    ensures Matches(m, r, e) <==> Takes(m, r, e)
  {
    hide TextOf, Inner;
  }

  lemma {:induction false} FirstMatchIs(c: Rules, e: Object, i: nat)
    ensures FirstMatch(c, e, i).None? <==> forall j :: i <= j < |c.rules| ==> !Takes(c.text, c.rules[j], e)
    ensures FirstMatch(c, e, i).Some? ==>
              exists k :: i <= k < |c.rules| && Takes(c.text, c.rules[k], e) && FirstMatch(c, e, i) == Some(c.rules[k])
                          && forall j :: i <= j < k ==> !Takes(c.text, c.rules[j], e)
    decreases |c.rules| - i
  {
    hide Matches, Takes;
    if i < |c.rules| {
      MatchIsTake(c.text, c.rules[i], e);
      FirstMatchIs(c, e, i + 1);
    }
  }

  /**
   Exactly who is marked.  An event is expected when a rule takes it, and the first one that
   does is named; it is acknowledged when none does and its identity was acknowledged; in
   every other case it is only restored.
   */
  lemma {:induction false} MarkedExactly(c: Rules, e: Object, i: nat)
    ensures var x := Restored(e);
            && (TakenBy(c, x, i) ==>
                  Projected(c, e) == Marked(x, Some(c.rules[i]))
                  && Projected(c, e)[Review] == Obj(map[Status := Str("expected"), RuleId := c.rules[i].id]))
            && ((forall j :: 0 <= j < |c.rules| ==> !Takes(c.text, c.rules[j], x)) ==>
                  if TextOf(x, Id) in c.acks
                  then Projected(c, e) == Marked(x, None) && Projected(c, e)[Review] == Obj(map[Status := Str("acknowledged")])
                  else Projected(c, e) == x)
  {
    var x := Restored(e);
    FirstMatchIs(c, x, 0);
    hide Takes, Restored, FirstMatch, Without;
  }

  // ----- the code -----

  method Drop(e0: Object, keys: seq<Key>) returns (e: Object)
    ensures e == Without(e0, keys)
  {
    e := e0;
    for i := 0 to |keys|
      invariant e == Without(e0, keys[..i])
    {
      e := e - {keys[i]};
    }
    assert keys[..|keys|] == keys;
  }

  lemma CopyStep<V>(e0: map<Key, V>, from: map<Key, V>, todo: set<Key>, k: Key)
    requires todo <= from.Keys && k in todo
    ensures (e0 + (from - todo))[k := from[k]] == e0 + (from - (todo - {k}))
  {
    var a, b := (e0 + (from - todo))[k := from[k]], e0 + (from - (todo - {k}));
    assert a.Keys == b.Keys;
    forall j | j in a ensures a[j] == b[j] {
    }
  }

  lemma CopyDone<V>(e0: map<Key, V>, from: map<Key, V>)
    ensures e0 + (from - {}) == e0 + from
    ensures e0 + (from - from.Keys) == e0
  {
    assert from - {} == from;
    assert from - from.Keys == map[];
  }

  function CopiedBut(e0: Object, from: Object, todo: set<Key>): Object {
    e0 + (from - todo)
  }

  /** Copy every field of `from`, in any order. */
  method Copy(e0: Object, from: Object) returns (e: Object)
    ensures e == e0 + from
  {
    e := e0;
    var todo := from.Keys;
    CopyDone(e0, from);
    assert e == CopiedBut(e0, from, todo);
    while todo != {}
      invariant todo <= from.Keys && e == CopiedBut(e0, from, todo)
      decreases |todo|
    {
      var k :| k in todo;
      CopyStep(e0, from, todo, k);
      assert CopiedBut(e0, from, todo)[k := from[k]] == CopiedBut(e0, from, todo - {k});
      hide CopiedBut;
      e := e[k := from[k]];
      todo := todo - {k};
    }
  }

  method Restore(e0: Object) returns (e: Object)
    ensures e == Restored(e0)
  {
    hide Without;
    e := e0;
    if OriginalJudgment in e && e[OriginalJudgment].Obj? {
      var original := e[OriginalJudgment].fields;
      e := Drop(e, JUDGMENTS);
      e := Copy(e, original);
      e := e - {OriginalJudgment};
    }
    e := e - {Review};
  }

  method Match(c: Rules, e: Object) returns (matched: Option<Rule>)
    ensures matched == FirstMatch(c, e, 0)
  {
    matched := None;
    for i := 0 to |c.rules|
      invariant FirstMatch(c, e, 0) == FirstMatch(c, e, i)
    {
      var r := c.rules[i];
      if !r.enabled { continue; }
      var hit := c.text.contains(TextOf(e, Key.Text), r.pattern);
      if r.exact {
        hit := c.text.trim(TextOf(e, Key.Text)) == r.pattern;
      }
      hit := hit && InScope(r.scope, Inner(e, Source));
      if hit {
        return Some(r);
      }
    }
  }

  method Keep(x: Object, keys: seq<Key>) returns (e: Object)
    ensures e == map k | k in x && k in keys :: x[k]
  {
    e := map[];
    for i := 0 to |keys|
      invariant e == map k | k in x && k in keys[..i] :: x[k]
    {
      if keys[i] in x {
        e := e[keys[i] := x[keys[i]]];
      }
    }
    assert keys[..|keys|] == keys;
  }

  method Mark(x: Object, matched: Option<Rule>) returns (e: Object)
    ensures e == Marked(x, matched)
  {
    hide Without;
    var original := Keep(x, JUDGMENTS);
    e := x[OriginalJudgment := Obj(original)];
    e := e[Importance := Str(ROUTINE)];
    e := Drop(e, JUDGMENTS[3..]);
    var review: Object := map[Status := Str("acknowledged")];
    if matched.Some? {
      review := map[Status := Str("expected"), RuleId := matched.value.id];
    }
    e := e[Review := Obj(review)];
  }

  method ProjectEvent(c: Rules, e0: Object) returns (e: Object)
    ensures e == Projected(c, e0)
  {
    hide Restored, Marked, FirstMatch;
    e := Restore(e0);
    var matched := Match(c, e);
    if matched.Some? || TextOf(e, Id) in c.acks {
      e := Mark(e, matched);
    }
  }
}
