/**
 Reviewed reports: the summary counts, the tail and the important groups.

 `Compose` is the composition law of whole reports; `CountsComposeExactly` says when
 the counts obey it.
 */
module Projection {
  import opened Wrappers
  import opened Reviews

  type Summary = map<string, Value>

  datatype Report = Report(events: seq<Value>, tail: seq<Value>, summary: Summary, groups: seq<Group>)

  /** A hash of source and text; its hexadecimal form has a fixed width, so it sorts as the number does. */
  datatype GroupId = GroupId(n: nat)

  datatype Group = Group(
    id: GroupId, source: Value, text: Value, severity: Value, category: Value, count: nat, eventIds: seq<Value>)

  const IMPORTANT: string := "important"
  const UNKNOWN: string := "unknown"
  const COMPLETE: string := "complete_within_window"

  function Number(s: Summary, k: string): real {
    if k in s && s[k].Num? then s[k].n else 0.0
  }

  function Max(a: real, b: real): real { if a < b then b else a }

  // ----- events -----

  function ProjectedValue(c: Rules, v: Value): Value {
    if v.Obj? then Obj(Projected(c, v.fields)) else v
  }

  function ProjectedAll(c: Rules, vs: seq<Value>): (r: seq<Value>)
    ensures |r| == |vs| && forall i :: 0 <= i < |vs| ==> r[i] == ProjectedValue(c, vs[i])
  {
    seq(|vs|, i requires 0 <= i < |vs| => ProjectedValue(c, vs[i]))
  }

  // ----- counts -----

  function Level(v: Value): string
    requires v.Obj?
  {
    TextOf(v.fields, Importance)
  }

  /** One event moves from one count to another. */
  function Moved(s: Summary, before: string, after: string): Summary {
    if before == after then s
    else
      var t := s[before := Num(Max(0.0, Number(s, before) - 1.0))];
      t[after := Num(Number(t, after) + 1.0)]
  }

  function Recounted(s: Summary, from: seq<Value>, to: seq<Value>): Summary
    requires |from| == |to| && forall i :: 0 <= i < |from| ==> from[i].Obj? == to[i].Obj?
  {
    if from == [] then s
    else
      var n := |from| - 1;
      var t := Recounted(s, from[..n], to[..n]);
      if from[n].Obj? then Moved(t, Level(from[n]), Level(to[n])) else t
  }

  /** How many of the events have importance `k`. */
  function Count(vs: seq<Value>, k: string): nat {
    if vs == [] then 0
    else Count(vs[..|vs| - 1], k) + if vs[|vs| - 1].Obj? && Level(vs[|vs| - 1]) == k then 1 else 0
  }

  /** A positive number of unknown events spoils completeness. */
  function Flagged(s: Summary): Summary {
    if Number(s, UNKNOWN) > 0.0 then s[COMPLETE := Bool(false)] else s
  }

  function Counted(c: Rules, v: Report): Summary {
    Recounted(v.summary, v.events, ProjectedAll(c, v.events))
  }

  // ----- groups -----

  type Hash = (Value, Value) -> GroupId

  predicate Important(v: Value) {
    v.Obj? && Level(v) == IMPORTANT
  }

  function IdOf(hash: Hash, v: Value): GroupId
    requires v.Obj?
  {
    hash(Field(v.fields, Source), Field(v.fields, Key.Text))
  }

  /** The hash tells the sources and texts of these events apart. */
  ghost predicate Separates(hash: Hash, vs: seq<Value>) {
    forall v, w :: v in vs && w in vs && Important(v) && Important(w) && IdOf(hash, v) == IdOf(hash, w) ==>
      Field(v.fields, Source) == Field(w.fields, Source) && Field(v.fields, Key.Text) == Field(w.fields, Key.Text)
  }

  function Added(hash: Hash, gs: map<GroupId, Group>, v: Value): map<GroupId, Group> {
    if !Important(v) then gs
    else
      var e := v.fields;
      var id := IdOf(hash, v);
      var g := if id in gs then gs[id]
               else Group(id, Field(e, Source), Field(e, Key.Text), Field(e, Severity), Field(e, Category), 0, []);
      gs[id := g.(count := g.count + 1, eventIds := g.eventIds + [Field(e, Id)])]
  }

  function Grouped(hash: Hash, vs: seq<Value>): map<GroupId, Group> {
    if vs == [] then map[] else Added(hash, Grouped(hash, vs[..|vs| - 1]), vs[|vs| - 1])
  }

  /** Bigger groups first, ties by identity. */
  predicate Before(a: Group, b: Group) {
    a.count > b.count || (a.count == b.count && a.id.n < b.id.n)
  }

  ghost predicate Ordered(gs: seq<Group>) {
    forall i, j :: 0 <= i < j < |gs| ==> Before(gs[i], gs[j])
  }

  ghost predicate Listed(gs: seq<Group>, m: map<GroupId, Group>) {
    && (forall g :: g in gs ==> g.id in m && m[g.id] == g)
    && (forall id :: id in m ==> m[id] in gs)
  }

  /** What a projection of a report is: events and tail, counts, and the ordered groups of its events. */
  ghost predicate Projects(c: Rules, hash: Hash, v: Report, r: Report) {
    && r.events == ProjectedAll(c, v.events)
    && r.tail == ProjectedAll(c, v.tail)
    && r.summary == Flagged(Counted(c, v))
    && Ordered(r.groups) && Listed(r.groups, Grouped(hash, r.events))
  }

  // ----- counting laws -----

  /** The count of `k` is at least the number of events it speaks for. */
  ghost predicate Enough(s: Summary, vs: seq<Value>, k: string) {
    Count(vs, k) as real <= Number(s, k)
  }

  ghost predicate Paired(from: seq<Value>, to: seq<Value>) {
    |from| == |to| && forall i :: 0 <= i < |from| ==> from[i].Obj? == to[i].Obj?
  }

  lemma MovedNumbers(s: Summary, before: string, after: string, k: string)
    requires k == before ==> 1.0 <= Number(s, before)
    ensures Number(Moved(s, before, after), k)
         == Number(s, k) - (if k == before then 1.0 else 0.0) + (if k == after then 1.0 else 0.0)
  {
  }

  /** With enough to count down from, a count moves by exactly the events that change. */
  lemma {:induction false} RecountIsExact(s: Summary, from: seq<Value>, to: seq<Value>, k: string)
    requires Paired(from, to) && Enough(s, from, k)
    ensures Number(Recounted(s, from, to), k) == Number(s, k) - Count(from, k) as real + Count(to, k) as real
    decreases |from|
  {
    if from != [] {
      var n := |from| - 1;
      RecountIsExact(s, from[..n], to[..n], k);
      if from[n].Obj? {
        MovedNumbers(Recounted(s, from[..n], to[..n]), Level(from[n]), Level(to[n]), k);
      }
      hide Number, Moved, Level;
    }
  }

  lemma FlagKeepsNumbers(s: Summary, k: string)
    requires k != COMPLETE
    ensures Number(Flagged(s), k) == Number(s, k)
  {
  }

  /** The sum of the counts named by `keys`. */
  function Total(s: Summary, keys: seq<string>): real {
    if keys == [] then 0.0 else Total(s, keys[..|keys| - 1]) + Number(s, keys[|keys| - 1])
  }

  function Events(vs: seq<Value>, keys: seq<string>): nat {
    if keys == [] then 0 else Events(vs, keys[..|keys| - 1]) + Count(vs, keys[|keys| - 1])
  }

  ghost predicate Distinct(keys: seq<string>) {
    forall i, j :: 0 <= i < j < |keys| ==> keys[i] != keys[j]
  }

  /** One more event counts once under its own name, and not at all without it. */
  lemma EventsAfter(vs: seq<Value>, v: Value, keys: seq<string>)
    requires Distinct(keys)
    ensures Events(vs + [v], keys) == Events(vs, keys) + if v.Obj? && Level(v) in keys then 1 else 0
    decreases |keys|
  {
    hide Level, Count;
    if keys != [] {
      var n := |keys| - 1;
      EventsAfter(vs, v, keys[..n]);
      CountAfter(vs, v, keys[n]);
      if v.Obj? {
        InFront(keys, Level(v));
      }
    }
  }

  lemma CountAfter(vs: seq<Value>, v: Value, k: string)
    ensures Count(vs + [v], k) == Count(vs, k) + if v.Obj? && Level(v) == k then 1 else 0
  {
    hide Level;
    assert (vs + [v])[..|vs|] == vs;
  }

  /** A name is the last of distinct names or among the others, not both. */
  lemma InFront(keys: seq<string>, k: string)
    requires keys != [] && Distinct(keys)
    ensures var n := |keys| - 1; (k in keys <==> k in keys[..n] || k == keys[n]) && !(k in keys[..n] && k == keys[n])
  {
    var n := |keys| - 1;
    assert keys == keys[..n] + [keys[n]];
  }

  lemma EveryEventCounts(from: seq<Value>, to: seq<Value>, keys: seq<string>)
    requires Paired(from, to) && Distinct(keys)
    requires forall i :: 0 <= i < |from| && from[i].Obj? ==> Level(from[i]) in keys && Level(to[i]) in keys
    ensures Events(from, keys) == Events(to, keys)
    decreases |from|
  {
    hide Level, Events;
    if from == [] {
      assert from == to;
    } else {
      var n := |from| - 1;
      var a, b, x, y := from[..n], to[..n], from[n], to[n];
      EveryEventCounts(a, b, keys);
      EventsAfter(a, x, keys);
      EventsAfter(b, y, keys);
      assert x.Obj? ==> Level(x) in keys && Level(y) in keys;
      assert from == a + [x] && to == b + [y];
    }
  }

  lemma TotalMoves(s: Summary, from: seq<Value>, to: seq<Value>, keys: seq<string>)
    requires Paired(from, to) && forall k :: k in keys ==> Enough(s, from, k)
    ensures Total(Recounted(s, from, to), keys)
         == Total(s, keys) - Events(from, keys) as real + Events(to, keys) as real
    decreases |keys|
  {
    if keys != [] {
      TotalMoves(s, from, to, keys[..|keys| - 1]);
      RecountIsExact(s, from, to, keys[|keys| - 1]);
      hide Recounted, Number, Count;
    }
  }

  /** A projection moves events between importances; the total over all of them stays. */
  lemma {:induction false} TotalIsKept(c: Rules, v: Report, keys: seq<string>)
    requires Distinct(keys) && COMPLETE !in keys
    requires forall k :: k in keys ==> Enough(v.summary, v.events, k)
    requires forall i :: 0 <= i < |v.events| && v.events[i].Obj? ==>
               Level(v.events[i]) in keys && Level(ProjectedAll(c, v.events)[i]) in keys
    ensures Total(Flagged(Counted(c, v)), keys) == Total(v.summary, keys)
  {
    var to := ProjectedAll(c, v.events);
    TotalMoves(v.summary, v.events, to, keys);
    EveryEventCounts(v.events, to, keys);
    FlagKeepsTotal(Counted(c, v), keys);
  }

  lemma FlagKeepsTotal(s: Summary, keys: seq<string>)
    requires COMPLETE !in keys
    ensures Total(Flagged(s), keys) == Total(s, keys)
    decreases |keys|
  {
    if keys != [] {
      FlagKeepsTotal(s, keys[..|keys| - 1]);
      FlagKeepsNumbers(s, keys[|keys| - 1]);
    }
  }

  // ----- composition -----

  /** The same value, except perhaps for an original judgment. */
  ghost predicate Alike(a: Value, b: Value) {
    if a.Obj? then b.Obj? && a.fields - {OriginalJudgment} == b.fields - {OriginalJudgment} else a == b
  }

  ghost predicate AllAlike(a: seq<Value>, b: seq<Value>) {
    |a| == |b| && forall i :: 0 <= i < |a| ==> Alike(a[i], b[i])
  }

  lemma AlikeFields(a: Value, b: Value, k: Key)
    requires Alike(a, b) && a.Obj? && k != OriginalJudgment
    ensures (k in a.fields <==> k in b.fields) && (k in a.fields ==> a.fields[k] == b.fields[k])
  {
    assert k in a.fields <==> k in a.fields - {OriginalJudgment};
    assert k in b.fields <==> k in b.fields - {OriginalJudgment};
  }

  lemma AlikeIsObject(a: Value, b: Value)
    requires Alike(a, b)
    ensures a.Obj? == b.Obj?
  {
  }

  /** The second projection of a report sees and makes the same events, up to odd original judgments. */
  lemma ValuesAlmostCompose(c: Rules, d: Rules, vs: seq<Value>)
    ensures AllAlike(ProjectedAll(d, ProjectedAll(c, vs)), ProjectedAll(d, vs))
  {
    forall i | 0 <= i < |vs| ensures Alike(ProjectedAll(d, ProjectedAll(c, vs))[i], ProjectedAll(d, vs)[i]) {
      if vs[i].Obj? {
        EventAlmostComposes(c, d, vs[i].fields);
      }
    }
    hide Projected;
  }

  lemma AlikeCounts(a: seq<Value>, b: seq<Value>, k: string)
    requires AllAlike(a, b)
    ensures Count(a, k) == Count(b, k)
    decreases |a|
  {
    if a != [] {
      var n := |a| - 1;
      AlikeCounts(a[..n], b[..n], k);
      if a[n].Obj? {
        AlikeFields(a[n], b[n], Importance);
      }
      hide Alike;
    }
  }

  lemma AlikeAdded(hash: Hash, gs: map<GroupId, Group>, a: Value, b: Value)
    requires Alike(a, b)
    ensures Added(hash, gs, a) == Added(hash, gs, b)
  {
    if a.Obj? {
      AlikeIsObject(a, b);
      AlikeFields(a, b, Importance);
      AlikeFields(a, b, Source);
      AlikeFields(a, b, Key.Text);
      AlikeFields(a, b, Severity);
      AlikeFields(a, b, Category);
      AlikeFields(a, b, Id);
      hide Alike;
      var e, f := a.fields, b.fields;
      assert Level(a) == Level(b) && IdOf(hash, a) == IdOf(hash, b);
      assert Field(e, Source) == Field(f, Source) && Field(e, Key.Text) == Field(f, Key.Text) && Field(e, Id) == Field(f, Id);
      assert Field(e, Severity) == Field(f, Severity) && Field(e, Category) == Field(f, Category);
      hide Level, Field, IdOf;
    }
  }

  lemma AlikeGroups(hash: Hash, a: seq<Value>, b: seq<Value>)
    requires AllAlike(a, b)
    ensures Grouped(hash, a) == Grouped(hash, b)
    decreases |a|
  {
    if a != [] {
      var n := |a| - 1;
      AlikeGroups(hash, a[..n], b[..n]);
      AlikeAdded(hash, Grouped(hash, a[..n]), a[n], b[n]);
      hide Alike, Added;
    }
  }

  /** Only one order of the groups is right, whatever order they were collected in. */
  lemma {:induction false} OrderIsUnique(a: seq<Group>, b: seq<Group>)
    requires Ordered(a) && Ordered(b) && forall g :: g in a <==> g in b
    ensures a == b
    decreases |a|
  {
    EmptyTogether(a, b);
    if a != [] {
      assert a[0] in b;
      var j :| 0 <= j < |b| && b[j] == a[0];
      assert b[0] in a;
      var i :| 0 <= i < |a| && a[i] == b[0];
      assert i == 0;
      forall g ensures g in a[1..] <==> g in b[1..] {
        NotInRest(a, g);
        NotInRest(b, g);
      }
      OrderIsUnique(a[1..], b[1..]);
      assert a == [a[0]] + a[1..] && b == [b[0]] + b[1..];
    }
  }

  lemma EmptyTogether(a: seq<Group>, b: seq<Group>)
    requires forall g :: g in a <==> g in b
    ensures a == [] <==> b == []
  {
    if a != [] {
      assert a[0] in b;
    }
    if b != [] {
      assert b[0] in a;
    }
  }

  lemma NotInRest(a: seq<Group>, g: Group)
    requires Ordered(a) && a != []
    ensures g in a[1..] <==> g in a && g != a[0]
  {
    assert a == [a[0]] + a[1..];
    if g in a[1..] {
      var i :| 0 <= i < |a[1..]| && a[1..][i] == g;
      assert Before(a[0], a[1 + i]);
    }
  }

  lemma ListedIsUnique(a: seq<Group>, b: seq<Group>, m: map<GroupId, Group>)
    requires Ordered(a) && Ordered(b) && Listed(a, m) && Listed(b, m)
    ensures a == b
  {
    OrderIsUnique(a, b);
  }

  /** An event whose odd original judgment the first of two projections loses. */
  ghost predicate Loses(c: Rules, d: Rules, v: Value) {
    v.Obj? && Odd(v.fields) && Marks(c, Restored(v.fields)) && !Marks(d, Restored(v.fields))
  }

  lemma ValuesCompose(c: Rules, d: Rules, vs: seq<Value>)
    ensures ProjectedAll(d, ProjectedAll(c, vs)) == ProjectedAll(d, vs) <==> !exists v :: v in vs && Loses(c, d, v)
  {
    var twice, once := ProjectedAll(d, ProjectedAll(c, vs)), ProjectedAll(d, vs);
    forall i | 0 <= i < |vs| ensures twice[i] == once[i] <==> !Loses(c, d, vs[i]) {
      if vs[i].Obj? {
        EventComposes(c, d, vs[i].fields);
      }
      hide Projected, Odd, Marks, Restored;
    }
    hide Loses, ProjectedValue;
    if twice == once {
      forall v | v in vs ensures !Loses(c, d, v) {
        var i :| 0 <= i < |vs| && vs[i] == v;
        assert twice[i] == once[i];
      }
    } else {
      var i :| 0 <= i < |vs| && twice[i] != once[i];
      assert vs[i] in vs && Loses(c, d, vs[i]);
    }
  }

  lemma NumbersCompose(c: Rules, d: Rules, v: Report, r1: Report, k: string)
    requires r1.events == ProjectedAll(c, v.events) && r1.summary == Flagged(Counted(c, v))
    requires k != COMPLETE && Enough(v.summary, v.events, k)
    ensures Number(Counted(d, r1), k) == Number(Counted(d, v), k)
  {
    RecountIsExact(v.summary, v.events, r1.events, k);
    FlagKeepsNumbers(Counted(c, v), k);
    RecountIsExact(r1.summary, r1.events, ProjectedAll(d, r1.events), k);
    RecountIsExact(v.summary, v.events, ProjectedAll(d, v.events), k);
    ValuesAlmostCompose(c, d, v.events);
    AlikeCounts(ProjectedAll(d, r1.events), ProjectedAll(d, v.events), k);
    hide Recounted, Number, Count, Grouped, Listed, Ordered, Flagged, ProjectedAll, AllAlike;
  }

  /**
   Projecting twice is projecting with the last rules alone: on events and tail
   exactly when no odd original judgment is lost, on the important groups always,
   and on every count that started with enough to count down from.
   */
  lemma {:induction false} Compose(c: Rules, d: Rules, hash: Hash, v: Report, r1: Report, r2: Report, r: Report)
    requires Projects(c, hash, v, r1) && Projects(d, hash, r1, r2) && Projects(d, hash, v, r)
    ensures r2.events == r.events && r2.tail == r.tail
       <==> !exists e :: (e in v.events || e in v.tail) && Loses(c, d, e)
    ensures r2.groups == r.groups
    ensures forall k :: k != COMPLETE && Enough(v.summary, v.events, k) ==> Number(r2.summary, k) == Number(r.summary, k)
  {
    ValuesCompose(c, d, v.events);
    ValuesCompose(c, d, v.tail);
    ValuesAlmostCompose(c, d, v.events);
    AlikeGroups(hash, r2.events, r.events);
    ListedIsUnique(r2.groups, r.groups, Grouped(hash, r.events));
    forall k | k != COMPLETE && Enough(v.summary, v.events, k)
      ensures Number(r2.summary, k) == Number(r.summary, k)
    {
      NumbersCompose(c, d, v, r1, k);
      FlagKeepsNumbers(Counted(d, r1), k);
      FlagKeepsNumbers(Counted(d, v), k);
    }
    hide Loses, ProjectedAll, Grouped, Ordered, Listed, Number, Flagged, Counted, Enough, AllAlike;
  }

  // ----- when the counts compose -----

  /** No event remembers an earlier judgment. */
  ghost predicate Unprojected(vs: seq<Value>) {
    forall i :: 0 <= i < |vs| && vs[i].Obj? ==> OriginalJudgment !in vs[i].fields
  }

  ghost predicate CountComposes(c: Rules, d: Rules, v: Report, k: string) {
    var once := Report(ProjectedAll(c, v.events), v.tail, Flagged(Counted(c, v)), []);
    Number(Flagged(Counted(d, once)), k) == Number(Flagged(Counted(d, v)), k)
  }

  function Ids(vs: seq<Value>): set<string> {
    set v | v in vs && v.Obj? :: TextOf(v.fields, Id)
  }

  /** Acknowledging everything makes every event routine; dropping all rules leaves unprojected events alone. */
  lemma AcknowledgedIsRoutine(m: Matching, vs: seq<Value>, i: nat)
    requires Unprojected(vs) && i < |vs| && vs[i].Obj?
    ensures Level(ProjectedAll(Rules(m, [], Ids(vs)), vs)[i]) == ROUTINE
    ensures Level(ProjectedAll(NoRules(m), vs)[i]) == Level(vs[i])
    ensures Level(ProjectedAll(NoRules(m), ProjectedAll(Rules(m, [], Ids(vs)), vs))[i]) == Level(vs[i])
  {
    var e, c := vs[i].fields, Rules(m, [], Ids(vs));
    var x := Restored(e);
    assert x == e - {Review};
    assert TextOf(e, Id) in Ids(vs) && TextOf(x, Id) == TextOf(e, Id);
    MarkedAt(x, FirstMatch(c, x, 0), Importance);
    assert !Marks(NoRules(m), x);
    EventComposes(c, NoRules(m), e);
    assert TextOf(x, Importance) == TextOf(e, Importance);
    hide Restored, Marked;
  }

  ghost predicate SameLevels(a: seq<Value>, b: seq<Value>) {
    Paired(a, b) && forall i :: 0 <= i < |a| && a[i].Obj? ==> Level(a[i]) == Level(b[i])
  }

  lemma CountsFollow(a: seq<Value>, b: seq<Value>, k: string)
    requires SameLevels(a, b)
    ensures Count(a, k) == Count(b, k)
    decreases |a|
  {
    if a != [] {
      CountsFollow(a[..|a| - 1], b[..|b| - 1], k);
      hide Level;
    }
  }

  lemma RecountOfSameLevels(s: Summary, a: seq<Value>, b: seq<Value>)
    requires SameLevels(a, b)
    ensures Recounted(s, a, b) == s
    decreases |a|
  {
    if a != [] {
      RecountOfSameLevels(s, a[..|a| - 1], b[..|b| - 1]);
      hide Level;
    }
  }

  ghost predicate NeverNames(vs: seq<Value>, k: string) {
    forall i :: 0 <= i < |vs| && vs[i].Obj? ==> Level(vs[i]) != k
  }

  /** Counting down without enough to count down from ends at zero. */
  lemma CountedOut(s: Summary, from: seq<Value>, to: seq<Value>, k: string)
    requires Paired(from, to) && NeverNames(to, k)
    ensures Number(Recounted(s, from, to), k)
         == if Count(from, k) == 0 then Number(s, k) else Max(0.0, Number(s, k) - Count(from, k) as real)
    decreases |from|
  {
    if from != [] {
      CountedOut(s, from[..|from| - 1], to[..|to| - 1], k);
      hide Level;
    }
  }

  lemma CountUpFrom(s: Summary, from: seq<Value>, to: seq<Value>, k: string)
    requires Paired(from, to) && NeverNames(from, k)
    ensures Number(Recounted(s, from, to), k) == Number(s, k) + Count(to, k) as real
    decreases |from|
  {
    if from != [] {
      CountUpFrom(s, from[..|from| - 1], to[..|to| - 1], k);
      hide Level;
    }
  }

  /** Counted out by the first pass and back in by the second, a short count ends above where it began. */
  lemma ShortOver(s: Summary, vs: seq<Value>, once: seq<Value>, twice: seq<Value>, direct: seq<Value>, k: string)
    requires Paired(vs, once) && Paired(once, twice) && NeverNames(once, k)
    requires SameLevels(vs, twice) && SameLevels(vs, direct)
    requires k != COMPLETE && Count(vs, k) > 0 && !Enough(s, vs, k)
    ensures Number(Flagged(Recounted(Flagged(Recounted(s, vs, once)), once, twice)), k)
         != Number(Flagged(Recounted(s, vs, direct)), k)
  {
    hide Level, Recounted, Count, Number, Flagged, NeverNames;
    CountsFollow(vs, twice, k);
    CountedOut(s, vs, once, k);
    FlagKeepsNumbers(Recounted(s, vs, once), k);
    CountUpFrom(Flagged(Recounted(s, vs, once)), once, twice, k);
    FlagKeepsNumbers(Recounted(Flagged(Recounted(s, vs, once)), once, twice), k);
    RecountOfSameLevels(s, vs, direct);
    FlagKeepsNumbers(s, k);
  }

  /** A count too small for its events is wrong after acknowledging everything and taking it back. */
  lemma {:induction false} ShortCountsDoNotCompose(m: Matching, v: Report, k: string)
    requires Unprojected(v.events) && k != ROUTINE && k != COMPLETE
    requires Count(v.events, k) > 0 && !Enough(v.summary, v.events, k)
    ensures !CountComposes(Rules(m, [], Ids(v.events)), NoRules(m), v, k)
  {
    var c, d, vs := Rules(m, [], Ids(v.events)), NoRules(m), v.events;
    AllRoutine(m, vs, k);
    hide ProjectedAll, Level, Recounted, Count, Number, Flagged, SameLevels, NeverNames, Unprojected, Paired, Enough, Ids;
    ShortOver(v.summary, vs, ProjectedAll(c, vs), ProjectedAll(d, ProjectedAll(c, vs)), ProjectedAll(d, vs), k);
  }

  lemma AllRoutine(m: Matching, vs: seq<Value>, k: string)
    requires Unprojected(vs) && k != ROUTINE
    ensures var once := ProjectedAll(Rules(m, [], Ids(vs)), vs);
            && Paired(vs, once) && NeverNames(once, k)
            && SameLevels(vs, ProjectedAll(NoRules(m), once)) && SameLevels(vs, ProjectedAll(NoRules(m), vs))
            && Paired(once, ProjectedAll(NoRules(m), once))
  {
    var once := ProjectedAll(Rules(m, [], Ids(vs)), vs);
    forall i | 0 <= i < |vs| && vs[i].Obj?
      ensures Level(once[i]) == ROUTINE
      ensures Level(ProjectedAll(NoRules(m), once)[i]) == Level(ProjectedAll(NoRules(m), vs)[i]) == Level(vs[i])
    {
      AcknowledgedIsRoutine(m, vs, i);
    }
    hide Projected, Level, Ids, Unprojected;
  }

  /**
   For a report that was never projected, a count obeys the composition law for
   all acknowledgements exactly when it is at least the number of its events.
   */
  lemma {:induction false} CountsComposeExactly(m: Matching, hash: Hash, v: Report, k: string)
    requires Unprojected(v.events) && k != ROUTINE && k != COMPLETE
    ensures (forall a: set<string>, b: set<string> :: CountComposes(Rules(m, [], a), Rules(m, [], b), v, k))
       <==> Count(v.events, k) == 0 || Enough(v.summary, v.events, k)
  {
    if Count(v.events, k) == 0 || Enough(v.summary, v.events, k) {
      forall a: set<string>, b: set<string> ensures CountComposes(Rules(m, [], a), Rules(m, [], b), v, k) {
        if Count(v.events, k) == 0 {
          NoneComposes(Rules(m, [], a), Rules(m, [], b), v, k);
        } else {
          EnoughComposes(Rules(m, [], a), Rules(m, [], b), v, k);
        }
      }
    } else {
      ShortCountsDoNotCompose(m, v, k);
      assert !CountComposes(Rules(m, [], Ids(v.events)), Rules(m, [], {}), v, k);
    }
    hide CountComposes, Enough, Count;
  }

  lemma NoneCounted(vs: seq<Value>, k: string, i: nat)
    requires Count(vs, k) == 0 && i < |vs| && vs[i].Obj?
    ensures Level(vs[i]) != k
  {
    if i < |vs| - 1 {
      NoneCounted(vs[..|vs| - 1], k, i);
    }
  }

  lemma LevelAfter(c: Rules, vs: seq<Value>, i: nat)
    requires Unprojected(vs) && i < |vs| && vs[i].Obj?
    ensures Level(ProjectedAll(c, vs)[i]) == ROUTINE || Level(ProjectedAll(c, vs)[i]) == Level(vs[i])
  {
    var x := Restored(vs[i].fields);
    assert x == vs[i].fields - {Review};
    MarkedAt(x, FirstMatch(c, x, 0), Importance);
    hide Restored, Marked;
  }

  /** A count without events never moves. */
  lemma NoneComposes(c: Rules, d: Rules, v: Report, k: string)
    requires Unprojected(v.events) && k != ROUTINE && k != COMPLETE && Count(v.events, k) == 0
    ensures CountComposes(c, d, v, k)
  {
    var vs := v.events;
    var once, twice, direct := ProjectedAll(c, vs), ProjectedAll(d, ProjectedAll(c, vs)), ProjectedAll(d, vs);
    ValuesAlmostCompose(c, d, vs);
    forall i | 0 <= i < |vs| && vs[i].Obj?
      ensures Level(vs[i]) != k && Level(once[i]) != k && Level(direct[i]) != k && Level(twice[i]) != k
    {
      NoneCounted(vs, k, i);
      LevelAfter(c, vs, i);
      LevelAfter(d, vs, i);
      AlikeFields(twice[i], direct[i], Importance);
      hide Alike, Projected;
    }
    RecountKeepsOthers(v.summary, vs, once, k);
    RecountKeepsOthers(Flagged(Counted(c, v)), once, twice, k);
    RecountKeepsOthers(v.summary, vs, direct, k);
    hide ProjectedAll, Level, Recounted, Count, AllAlike, Unprojected;
  }

  lemma EnoughComposes(c: Rules, d: Rules, v: Report, k: string)
    requires k != COMPLETE && Enough(v.summary, v.events, k)
    ensures CountComposes(c, d, v, k)
  {
    var once := Report(ProjectedAll(c, v.events), v.tail, Flagged(Counted(c, v)), []);
    NumbersCompose(c, d, v, once, k);
    FlagKeepsNumbers(Counted(d, once), k);
    FlagKeepsNumbers(Counted(d, v), k);
    hide ProjectedAll, Counted, Number, Flagged, Enough;
  }

  // ----- the routine count -----

  /** How many events leave importance `k` between the two lists. */
  function Leaves(from: seq<Value>, to: seq<Value>, k: string): nat
    requires Paired(from, to)
    decreases |from|
  {
    if from == [] then 0
    else
      var n := |from| - 1;
      Leaves(from[..n], to[..n], k) + if from[n].Obj? && Level(from[n]) == k != Level(to[n]) then 1 else 0
  }

  /** It is enough to have a count for the events that leave. */
  lemma {:induction false} LeavingIsExact(s: Summary, from: seq<Value>, to: seq<Value>, k: string)
    requires Paired(from, to) && (Leaves(from, to, k) == 0 || Leaves(from, to, k) as real <= Number(s, k))
    ensures Number(Recounted(s, from, to), k) == Number(s, k) - Leaves(from, to, k) as real + Leaves(to, from, k) as real
    decreases |from|
  {
    if from != [] {
      var n := |from| - 1;
      LeavingIsExact(s, from[..n], to[..n], k);
      if from[n].Obj? && Level(from[n]) != Level(to[n]) {
        MovedNumbers(Recounted(s, from[..n], to[..n]), Level(from[n]), Level(to[n]), k);
      }
      hide Number, Moved, Level;
    }
  }

  /** Once an event has left, a count is no longer negative. */
  lemma LeavingEndsAbove(s: Summary, from: seq<Value>, to: seq<Value>, k: string)
    requires Paired(from, to) && Leaves(from, to, k) > 0
    ensures Number(Recounted(s, from, to), k) >= 0.0
    decreases |from|
  {
    var n := |from| - 1;
    if Leaves(from[..n], to[..n], k) > 0 {
      LeavingEndsAbove(s, from[..n], to[..n], k);
    }
    hide Level;
  }

  lemma LeavesAt(from: seq<Value>, to: seq<Value>, k: string, i: nat)
    requires Paired(from, to) && i < |from| && from[i].Obj? && Level(from[i]) == k != Level(to[i])
    ensures Leaves(from, to, k) > 0
    decreases |from|
  {
    if i < |from| - 1 {
      LeavesAt(from[..|from| - 1], to[..|to| - 1], k, i);
    }
    hide Level;
  }

  /** Events of importance `k` at first have it in both later lists. */
  ghost predicate Sticks(vs: seq<Value>, once: seq<Value>, twice: seq<Value>, k: string)
    requires Paired(vs, once) && Paired(once, twice)
  {
    forall i :: 0 <= i < |vs| && vs[i].Obj? && Level(vs[i]) == k ==> Level(once[i]) == k && Level(twice[i]) == k
  }

  /** What leaves in the second step arrived in the first; together they do what one step does. */
  lemma LeavesAfterArrivals(vs: seq<Value>, once: seq<Value>, twice: seq<Value>, k: string)
    requires Paired(vs, once) && Paired(once, twice) && Sticks(vs, once, twice, k)
    ensures Leaves(vs, once, k) == 0 && Leaves(vs, twice, k) == 0
    ensures Leaves(once, twice, k) <= Leaves(once, vs, k)
    ensures Leaves(once, vs, k) + Leaves(twice, once, k) == Leaves(once, twice, k) + Leaves(twice, vs, k)
    decreases |vs|
  {
    if vs != [] {
      var n := |vs| - 1;
      LeavesAfterArrivals(vs[..n], once[..n], twice[..n], k);
      hide Level;
    }
  }

  lemma SameLevelsLeave(a: seq<Value>, b: seq<Value>, vs: seq<Value>, k: string)
    requires SameLevels(a, b) && Paired(a, vs) && Paired(b, vs)
    ensures Leaves(a, vs, k) == Leaves(b, vs, k) && Leaves(vs, a, k) == Leaves(vs, b, k)
    decreases |a|
  {
    if a != [] {
      SameLevelsLeave(a[..|a| - 1], b[..|b| - 1], vs[..|vs| - 1], k);
      hide Level;
    }
  }

  lemma AlikeLevels(a: seq<Value>, b: seq<Value>)
    requires AllAlike(a, b)
    ensures SameLevels(a, b)
  {
    forall i | 0 <= i < |a| ensures a[i].Obj? == b[i].Obj? && (a[i].Obj? ==> Level(a[i]) == Level(b[i])) {
      AlikeIsObject(a[i], b[i]);
      if a[i].Obj? {
        AlikeFields(a[i], b[i], Importance);
      }
      hide Alike;
    }
  }

  /** Routine events stay routine in both projections of a report that was never projected. */
  lemma RoutineSticks(c: Rules, d: Rules, vs: seq<Value>)
    requires Unprojected(vs)
    ensures var once := ProjectedAll(c, vs);
            var twice := ProjectedAll(d, once);
            && Paired(vs, once) && Paired(once, twice) && Sticks(vs, once, twice, ROUTINE)
            && Paired(vs, ProjectedAll(d, vs)) && SameLevels(twice, ProjectedAll(d, vs))
  {
    hide Level, Projected, Alike;
    var once, twice, direct := ProjectedAll(c, vs), ProjectedAll(d, ProjectedAll(c, vs)), ProjectedAll(d, vs);
    ValuesAlmostCompose(c, d, vs);
    AlikeLevels(twice, direct);
    forall i | 0 <= i < |vs| && vs[i].Obj? && Level(vs[i]) == ROUTINE
      ensures Level(once[i]) == ROUTINE && Level(twice[i]) == ROUTINE
    {
      LevelAfter(c, vs, i);
      LevelAfter(d, vs, i);
    }
    hide Unprojected;
  }

  /** The routine count over two steps and over one. */
  lemma RoutineOver(s: Summary, vs: seq<Value>, once: seq<Value>, twice: seq<Value>, direct: seq<Value>, k: string)
    requires Paired(vs, once) && Paired(once, twice) && Paired(vs, direct) && Sticks(vs, once, twice, k)
    requires SameLevels(twice, direct) && k != COMPLETE
    requires Number(s, k) >= 0.0 || Leaves(once, vs, k) == 0
    ensures Number(Flagged(Recounted(Flagged(Recounted(s, vs, once)), once, twice)), k)
         == Number(Flagged(Recounted(s, vs, direct)), k)
  {
    hide Level, Recounted, Leaves, Number, Flagged, Sticks;
    LeavesAfterArrivals(vs, once, twice, k);
    SameLevelsLeave(twice, direct, vs, k);
    LeavingIsExact(s, vs, once, k);
    var t := Flagged(Recounted(s, vs, once));
    FlagKeepsNumbers(Recounted(s, vs, once), k);
    LeavingIsExact(t, once, twice, k);
    FlagKeepsNumbers(Recounted(t, once, twice), k);
    LeavingIsExact(s, vs, direct, k);
    FlagKeepsNumbers(Recounted(s, vs, direct), k);
  }

  lemma NeverLeaves(from: seq<Value>, to: seq<Value>, k: string)
    requires Paired(from, to) && forall i :: 0 <= i < |to| && to[i].Obj? ==> Level(to[i]) == k
    ensures Leaves(from, to, k) == 0
    decreases |from|
  {
    if from != [] {
      NeverLeaves(from[..|from| - 1], to[..|to| - 1], k);
      hide Level;
    }
  }

  ghost predicate NothingToMark(vs: seq<Value>) {
    forall i :: 0 <= i < |vs| && vs[i].Obj? ==> Level(vs[i]) == ROUTINE
  }

  lemma RoutineComposes(c: Rules, d: Rules, v: Report)
    requires Unprojected(v.events) && (Number(v.summary, ROUTINE) >= 0.0 || NothingToMark(v.events))
    ensures CountComposes(c, d, v, ROUTINE)
  {
    hide ProjectedAll, Recounted, Number, Flagged, Level, Sticks, Leaves, SameLevels;
    var vs := v.events;
    var once := ProjectedAll(c, vs);
    RoutineSticks(c, d, vs);
    if NothingToMark(vs) {
      NeverLeaves(once, vs, ROUTINE);
    }
    RoutineOver(v.summary, vs, once, ProjectedAll(d, once), ProjectedAll(d, vs), ROUTINE);
  }

  /** A negative routine count is forgotten when an acknowledgement is taken back. */
  lemma NegativeRoutineIsForgotten(m: Matching, v: Report, i: nat)
    requires Unprojected(v.events) && Number(v.summary, ROUTINE) < 0.0
    requires i < |v.events| && v.events[i].Obj? && Level(v.events[i]) != ROUTINE
    ensures !CountComposes(Rules(m, [], Ids(v.events)), NoRules(m), v, ROUTINE)
  {
    hide ProjectedAll, Recounted, Number, Flagged, Level, Leaves, Unprojected, Ids;
    var c, d, vs, s := Rules(m, [], Ids(v.events)), NoRules(m), v.events, v.summary;
    var once, direct := ProjectedAll(c, vs), ProjectedAll(d, vs);
    var twice, t := ProjectedAll(d, once), Flagged(Recounted(s, vs, once));
    AllRoutine(m, vs, IMPORTANT);
    AcknowledgedIsRoutine(m, vs, i);
    LeavesAt(once, twice, ROUTINE, i);
    LeavingEndsAbove(t, once, twice, ROUTINE);
    FlagKeepsNumbers(Recounted(t, once, twice), ROUTINE);
    RecountOfSameLevels(s, vs, direct);
    FlagKeepsNumbers(s, ROUTINE);
  }

  /**
   For a report that was never projected, the routine count obeys the law for all
   acknowledgements exactly when it is not negative or there is nothing to mark.
   */
  lemma {:induction false} RoutineComposesExactly(m: Matching, v: Report)
    requires Unprojected(v.events)
    ensures (forall a: set<string>, b: set<string> :: CountComposes(Rules(m, [], a), Rules(m, [], b), v, ROUTINE))
       <==> Number(v.summary, ROUTINE) >= 0.0 || NothingToMark(v.events)
  {
    hide CountComposes, Number, Level, Ids, Unprojected;
    if Number(v.summary, ROUTINE) >= 0.0 || NothingToMark(v.events) {
      forall a: set<string>, b: set<string> ensures CountComposes(Rules(m, [], a), Rules(m, [], b), v, ROUTINE) {
        RoutineComposes(Rules(m, [], a), Rules(m, [], b), v);
      }
    } else {
      var i :| 0 <= i < |v.events| && v.events[i].Obj? && Level(v.events[i]) != ROUTINE;
      NegativeRoutineIsForgotten(m, v, i);
      assert !CountComposes(Rules(m, [], Ids(v.events)), Rules(m, [], {}), v, ROUTINE);
    }
  }

  // ----- completeness -----

  lemma RecountKeepsOthers(s: Summary, from: seq<Value>, to: seq<Value>, k: string)
    requires Paired(from, to)
    requires forall i :: 0 <= i < |from| && from[i].Obj? ==> Level(from[i]) != k && Level(to[i]) != k
    ensures var t := Recounted(s, from, to); (k in t <==> k in s) && (k in t ==> t[k] == s[k])
    decreases |from|
  {
    if from != [] {
      RecountKeepsOthers(s, from[..|from| - 1], to[..|to| - 1], k);
      hide Level;
    }
  }

  /** How many unknown events the summary reports after one projection of the report. */
  function UnknownAfter(c: Rules, v: Report): real {
    Number(v.summary, UNKNOWN) - Count(v.events, UNKNOWN) as real + Count(ProjectedAll(c, v.events), UNKNOWN) as real
  }

  /** No event carries the flag's name as its importance, before or after. */
  ghost predicate FlagIsFree(c: Rules, v: Report) {
    NeverNames(v.events, COMPLETE) && NeverNames(ProjectedAll(c, v.events), COMPLETE)
  }

  lemma UnknownIsAfter(c: Rules, v: Report)
    requires Enough(v.summary, v.events, UNKNOWN)
    ensures Number(Counted(c, v), UNKNOWN) == UnknownAfter(c, v)
    ensures Number(Flagged(Counted(c, v)), UNKNOWN) == UnknownAfter(c, v)
  {
    hide ProjectedAll, Recounted, Number, Count, Flagged;
    RecountIsExact(v.summary, v.events, ProjectedAll(c, v.events), UNKNOWN);
    FlagKeepsNumbers(Counted(c, v), UNKNOWN);
  }

  lemma NeverNamesTwice(c: Rules, d: Rules, v: Report)
    requires FlagIsFree(c, v) && FlagIsFree(d, v)
    ensures NeverNames(ProjectedAll(d, ProjectedAll(c, v.events)), COMPLETE)
  {
    ValuesAlmostCompose(c, d, v.events);
    hide ProjectedAll, Alike;
    var twice, once := ProjectedAll(d, ProjectedAll(c, v.events)), ProjectedAll(d, v.events);
    forall i | 0 <= i < |twice| && twice[i].Obj? ensures Level(twice[i]) != COMPLETE {
      assert Alike(twice[i], once[i]);
      AlikeIsObject(twice[i], once[i]);
      AlikeFields(twice[i], once[i], Importance);
    }
  }

  /** The flag after one projection: cleared by unknown events, else as it was. */
  lemma FlagAfter(c: Rules, v: Report)
    requires Enough(v.summary, v.events, UNKNOWN) && FlagIsFree(c, v)
    ensures var s := Flagged(Counted(c, v));
            if UnknownAfter(c, v) > 0.0 then COMPLETE in s && s[COMPLETE] == Bool(false)
            else (COMPLETE in s <==> COMPLETE in v.summary) && (COMPLETE in s ==> s[COMPLETE] == v.summary[COMPLETE])
  {
    hide ProjectedAll, Level, Recounted, Count, Number, Enough, UnknownAfter;
    UnknownIsAfter(c, v);
    RecountKeepsOthers(v.summary, v.events, ProjectedAll(c, v.events), COMPLETE);
  }

  /**
   The completeness flag is the one thing a second projection cannot take back: it
   composes exactly when the last rules alone leave unknown events, or the first alone
   leave none, or the report was incomplete to begin with.
   */
  lemma {:induction false} CompletenessComposes(c: Rules, d: Rules, hash: Hash, v: Report, r1: Report, r2: Report, r: Report)
    requires Projects(c, hash, v, r1) && Projects(d, hash, r1, r2) && Projects(d, hash, v, r)
    requires Enough(v.summary, v.events, UNKNOWN) && FlagIsFree(c, v) && FlagIsFree(d, v)
    ensures ((COMPLETE in r2.summary <==> COMPLETE in r.summary)
             && (COMPLETE in r.summary ==> r2.summary[COMPLETE] == r.summary[COMPLETE]))
        <==> (|| UnknownAfter(d, v) > 0.0
              || UnknownAfter(c, v) <= 0.0
              || (COMPLETE in v.summary && v.summary[COMPLETE] == Bool(false)))
  {
    hide ProjectedAll, Level, Recounted, Count, Number, Grouped, Listed, Ordered, Enough, UnknownAfter, Flagged, Counted, NeverNames;
    FlagAfter(c, v);
    FlagAfter(d, v);
    SecondUnknown(c, d, v, r1);
    NeverNamesTwice(c, d, v);
    FlagAfter(d, r1);
  }

  lemma SecondUnknown(c: Rules, d: Rules, v: Report, r1: Report)
    requires r1.events == ProjectedAll(c, v.events) && r1.summary == Flagged(Counted(c, v))
    requires Enough(v.summary, v.events, UNKNOWN)
    ensures UnknownAfter(d, r1) == UnknownAfter(d, v) && Enough(r1.summary, r1.events, UNKNOWN)
  {
    hide ProjectedAll, Recounted, Number, Flagged, AllAlike;
    UnknownIsAfter(c, v);
    ValuesAlmostCompose(c, d, v.events);
    AlikeCounts(ProjectedAll(d, r1.events), ProjectedAll(d, v.events), UNKNOWN);
  }

  /** A complete report with one event of importance unknown. */
  function OneUnknown(): Report {
    var e: Object := map[Id := Str("a"), Key.Text := Str(""), Source := Obj(map[]), Importance := Str(UNKNOWN)];
    Report([Obj(e)], [], map[UNKNOWN := Num(1.0), COMPLETE := Bool(true)], [])
  }

  /** Looking at it once without rules marks it incomplete for ever; acknowledging the event at once does not. */
  lemma {:induction false} CompletenessIsLost(m: Matching)
    ensures var v, c, d := OneUnknown(), NoRules(m), Rules(m, [], {"a"});
            var once := Report(ProjectedAll(c, v.events), [], Flagged(Counted(c, v)), []);
            var twice, direct := Flagged(Counted(d, once)), Flagged(Counted(d, v));
            && COMPLETE in twice && twice[COMPLETE] == Bool(false)
            && COMPLETE in direct && direct[COMPLETE] == Bool(true)
  {
    var v, c, d := OneUnknown(), NoRules(m), Rules(m, [], {"a"});
    OneUnknownCounts(m);
    var once := Report(ProjectedAll(c, v.events), [], Flagged(Counted(c, v)), []);
    hide ProjectedAll, Level, Recounted, Count, Number, Enough, UnknownAfter, Flagged, Counted, NeverNames;
    FlagAfter(c, v);
    FlagAfter(d, v);
    SecondUnknown(c, d, v, once);
    NeverNamesTwice(c, d, v);
    FlagAfter(d, once);
  }

  lemma OneUnknownEvents(m: Matching)
    ensures var vs := OneUnknown().events;
            && ProjectedAll(NoRules(m), vs) == vs && vs[0].Obj? && Level(vs[0]) == UNKNOWN
            && var ws := ProjectedAll(Rules(m, [], {"a"}), vs); |ws| == 1 && ws[0].Obj? && Level(ws[0]) == ROUTINE
  {
    var e := OneUnknown().events[0].fields;
    assert Restored(e) == e;
    MarkedAt(e, None, Importance);
    hide Restored, Marked;
    assert Projected(NoRules(m), e) == e;
    assert Projected(Rules(m, [], {"a"}), e) == Marked(e, None);
  }

  lemma OneUnknownCounts(m: Matching)
    ensures var v, c, d := OneUnknown(), NoRules(m), Rules(m, [], {"a"});
            && Enough(v.summary, v.events, UNKNOWN) && FlagIsFree(c, v) && FlagIsFree(d, v)
            && UnknownAfter(c, v) == 1.0 && UnknownAfter(d, v) == 0.0
  {
    var v, c, d := OneUnknown(), NoRules(m), Rules(m, [], {"a"});
    OneUnknownEvents(m);
    LevelsDiffer();
    hide ProjectedAll, Level, Count;
    CountOfOne(v.events, UNKNOWN);
    CountOfOne(ProjectedAll(d, v.events), UNKNOWN);
  }

  lemma CountOfOne(vs: seq<Value>, k: string)
    requires |vs| == 1
    ensures Count(vs, k) == if vs[0].Obj? && Level(vs[0]) == k then 1 else 0
  {
    assert vs[..0] == [];
    assert Count(vs[..0], k) == 0;
  }

  lemma LevelsDiffer()
    ensures ROUTINE != UNKNOWN && ROUTINE != COMPLETE && UNKNOWN != COMPLETE
  {
    assert |ROUTINE| == 7 && |COMPLETE| > 7;
    assert ROUTINE[0] != UNKNOWN[0];
  }

  // ----- groups -----

  /** The important events with one source and text, in order. */
  function Members(hash: Hash, vs: seq<Value>, id: GroupId): seq<Value> {
    if vs == [] then []
    else
      var v := vs[|vs| - 1];
      Members(hash, vs[..|vs| - 1], id) + if Important(v) && IdOf(hash, v) == id then [v] else []
  }

  function EventIds(vs: seq<Value>): seq<Value> {
    if vs == [] then []
    else EventIds(vs[..|vs| - 1]) + [if vs[|vs| - 1].Obj? then Field(vs[|vs| - 1].fields, Id) else Null]
  }

  ghost predicate Describes(g: Group, members: seq<Value>, id: GroupId) {
    && members != [] && (forall v :: v in members ==> v.Obj? && TextOf(v.fields, Importance) == "important")
    && g.id == id && g.count == |members| && g.eventIds == EventIds(members)
    && (forall v :: v in members ==> Field(v.fields, Source) == g.source && Field(v.fields, Key.Text) == g.text)
    && g.severity == Field(members[0].fields, Severity) && g.category == Field(members[0].fields, Category)
  }

  /**
   A group holds all the important events of one source and text, and every such event
   is in its group, when the hash tells the events of this report apart.
   */
  lemma {:induction false} GroupsPartition(hash: Hash, vs: seq<Value>, id: GroupId)
    requires Separates(hash, vs)
    ensures var gs := Grouped(hash, vs);
            && (id in gs <==> Members(hash, vs, id) != [])
            && (id in gs ==> Describes(gs[id], Members(hash, vs, id), id))
    decreases |vs|
  {
    if vs != [] {
      var n := |vs| - 1;
      GroupsPartition(hash, vs[..n], id);
      MembersAreAlike(hash, vs[..n], id);
      hide Describes, Important, IdOf, Added;
      if Important(vs[n]) && IdOf(hash, vs[n]) == id {
        GroupGrows(hash, Grouped(hash, vs[..n]), Members(hash, vs[..n], id), vs[n]);
      } else {
        assert Members(hash, vs, id) == Members(hash, vs[..n], id);
        OthersKeepGroup(hash, Grouped(hash, vs[..n]), vs[n], id);
      }
    }
  }

  /** Every event whose importance says important is a member of its group, and so the group exists. */
  lemma {:induction false} EveryImportantIsGrouped(hash: Hash, vs: seq<Value>, v: Value)
    requires Separates(hash, vs) && v in vs && v.Obj? && TextOf(v.fields, Importance) == "important"
    ensures IdOf(hash, v) in Grouped(hash, vs) && v in Members(hash, vs, IdOf(hash, v))
  {
    IsMember(hash, vs, v);
    GroupsPartition(hash, vs, IdOf(hash, v));
  }

  /**
   The report ranks its groups: one with more events comes first, and of two with as many
   the one with the smaller identity; each important event is in exactly one of them.
   */
  lemma {:induction false} GroupsAreRanked(c: Rules, hash: Hash, v: Report, r: Report)
    requires Projects(c, hash, v, r) && Separates(hash, r.events)
    ensures forall i, j :: 0 <= i < j < |r.groups| ==>
              var m, n := |Members(hash, r.events, r.groups[i].id)|, |Members(hash, r.events, r.groups[j].id)|;
              m >= n && (m == n ==> r.groups[i].id.n < r.groups[j].id.n)
    ensures forall e :: e in r.events && Important(e) ==>
              exists i :: 0 <= i < |r.groups| && e in Members(hash, r.events, r.groups[i].id)
    ensures forall i, j, e :: 0 <= i < j < |r.groups| && e in Members(hash, r.events, r.groups[i].id) ==>
              e !in Members(hash, r.events, r.groups[j].id)
  {
    hide Grouped, Members, Important, IdOf, ProjectedAll, Describes;
    forall i | 0 <= i < |r.groups|
      ensures r.groups[i].count == |Members(hash, r.events, r.groups[i].id)|
    {
      assert r.groups[i] in r.groups;
      GroupsPartition(hash, r.events, r.groups[i].id);
      CountIs(r.groups[i], Members(hash, r.events, r.groups[i].id), r.groups[i].id);
    }
    forall e | e in r.events && Important(e)
      ensures exists i :: 0 <= i < |r.groups| && e in Members(hash, r.events, r.groups[i].id)
    {
      ImportantIs(e);
      EveryImportantIsGrouped(hash, r.events, e);
      var i :| 0 <= i < |r.groups| && r.groups[i] == Grouped(hash, r.events)[IdOf(hash, e)];
      GroupsPartition(hash, r.events, IdOf(hash, e));
      CountIs(r.groups[i], Members(hash, r.events, IdOf(hash, e)), IdOf(hash, e));
    }
    forall i, j, e | 0 <= i < j < |r.groups| && e in Members(hash, r.events, r.groups[i].id)
      ensures e !in Members(hash, r.events, r.groups[j].id)
    {
      MembersAreAlike(hash, r.events, r.groups[i].id);
      MembersAreAlike(hash, r.events, r.groups[j].id);
    }
  }

  lemma CountIs(g: Group, members: seq<Value>, id: GroupId)
    requires Describes(g, members, id)
    ensures g.count == |members| && g.id == id
  {
  }

  lemma ImportantIs(v: Value)
    requires Important(v)
    ensures v.Obj? && TextOf(v.fields, Importance) == "important"
  {
  }

  lemma {:induction false} IsMember(hash: Hash, vs: seq<Value>, v: Value)
    requires v in vs && Important(v)
    ensures v in Members(hash, vs, IdOf(hash, v))
    decreases |vs|
  {
    hide IdOf, Important;
    var n := |vs| - 1;
    var i :| 0 <= i < |vs| && vs[i] == v;
    if i < n {
      assert vs[..n][i] == v;
      IsMember(hash, vs[..n], v);
    }
  }

  lemma MembersAreAlike(hash: Hash, vs: seq<Value>, id: GroupId)
    ensures forall v :: v in Members(hash, vs, id) ==> v in vs && Important(v) && IdOf(hash, v) == id
    decreases |vs|
  {
    if vs != [] {
      MembersAreAlike(hash, vs[..|vs| - 1], id);
    }
  }

  lemma OthersKeepGroup(hash: Hash, gs: map<GroupId, Group>, v: Value, id: GroupId)
    requires !(Important(v) && IdOf(hash, v) == id)
    ensures (id in Added(hash, gs, v) <==> id in gs) && (id in gs ==> Added(hash, gs, v)[id] == gs[id])
  {
  }

  lemma GroupGrows(hash: Hash, gs: map<GroupId, Group>, members: seq<Value>, v: Value)
    requires Important(v)
    requires var id := IdOf(hash, v);
             (id in gs <==> members != []) && (id in gs ==> Describes(gs[id], members, id))
    requires forall m :: m in members ==> Important(m) && IdOf(hash, m) == IdOf(hash, v)
    requires Separates(hash, members + [v])
    ensures var id := IdOf(hash, v);
            id in Added(hash, gs, v) && Describes(Added(hash, gs, v)[id], members + [v], id)
  {
    assert (members + [v])[..|members|] == members;
    if members != [] {
      assert members[0] in members + [v] && v in members + [v];
      assert Field(members[0].fields, Source) == Field(v.fields, Source);
      assert members[0] in members;
    }
  }

  // ----- the code -----

  method Project(c: Rules, hash: Hash, v: Report) returns (r: Report)
    ensures Projects(c, hash, v, r)
  {
    hide Projected;
    var events, summary := ProjectEvents(c, v.events, v.summary);
    var tail := ProjectTail(c, v.tail);
    var groups := Regroup(hash, events);
    if Number(summary, UNKNOWN) > 0.0 {
      summary := summary[COMPLETE := Bool(false)];
    }
    r := Report(events, tail, summary, groups);
  }

  method ProjectEvents(c: Rules, vs: seq<Value>, s: Summary) returns (r: seq<Value>, summary: Summary)
    ensures r == ProjectedAll(c, vs) && summary == Recounted(s, vs, r)
  {
    hide Projected;
    r, summary := [], s;
    for i := 0 to |vs|
      invariant r == ProjectedAll(c, vs[..i]) && summary == Recounted(s, vs[..i], r)
    {
      hide Moved, Level, ProjectedValue;
      var v, t := CountEvent(c, vs[i], summary);
      ProjectedNext(c, vs, i);
      RecountNext(s, vs, r, i, v);
      r, summary := r + [v], t;
    }
    assert vs[..|vs|] == vs;
  }

  lemma ProjectedNext(c: Rules, vs: seq<Value>, i: nat)
    requires i < |vs|
    ensures ProjectedAll(c, vs[..i + 1]) == ProjectedAll(c, vs[..i]) + [ProjectedValue(c, vs[i])]
  {
    hide ProjectedValue;
  }

  lemma RecountNext(s: Summary, from: seq<Value>, to: seq<Value>, i: nat, v: Value)
    requires i < |from| && i == |to| && from[i].Obj? == v.Obj?
    requires Paired(from[..i], to)
    ensures Recounted(s, from[..i + 1], to + [v])
         == var t := Recounted(s, from[..i], to); if v.Obj? then Moved(t, Level(from[i]), Level(v)) else t
  {
    hide Moved, Level;
    assert from[..i + 1][..i] == from[..i] && (to + [v])[..i] == to;
  }

  /** Project one item; an event whose importance changes moves from one count to another. */
  method CountEvent(c: Rules, v: Value, s: Summary) returns (r: Value, summary: Summary)
    ensures r == ProjectedValue(c, v) && r.Obj? == v.Obj?
    ensures summary == if v.Obj? then Moved(s, Level(v), Level(r)) else s
  {
    hide Projected;
    r, summary := v, s;
    if v.Obj? {
      var e := ProjectEvent(c, v.fields);
      var before, after := TextOf(v.fields, Importance), TextOf(e, Importance);
      r := Obj(e);
      if before != after {
        summary := summary[before := Num(Max(0.0, Number(summary, before) - 1.0))];
        summary := summary[after := Num(Number(summary, after) + 1.0)];
      }
    }
  }

  method ProjectTail(c: Rules, vs: seq<Value>) returns (r: seq<Value>)
    ensures r == ProjectedAll(c, vs)
  {
    hide Projected;
    r := [];
    for i := 0 to |vs|
      invariant r == ProjectedAll(c, vs[..i])
    {
      var v := vs[i];
      if v.Obj? {
        var e := ProjectEvent(c, v.fields);
        v := Obj(e);
      }
      r := r + [v];
    }
    assert vs[..|vs|] == vs;
  }

  method Regroup(hash: Hash, vs: seq<Value>) returns (ordered: seq<Group>)
    ensures Ordered(ordered) && Listed(ordered, Grouped(hash, vs))
  {
    var groups: map<GroupId, Group> := map[];
    for i := 0 to |vs|
      invariant groups == Grouped(hash, vs[..i])
    {
      assert vs[..i + 1][..i] == vs[..i];
      if Important(vs[i]) {
        var e := vs[i].fields;
        var id := hash(Field(e, Source), Field(e, Key.Text));
        var g := if id in groups then groups[id]
                 else Group(id, Field(e, Source), Field(e, Key.Text), Field(e, Severity), Field(e, Category), 0, []);
        g := g.(count := g.count + 1);
        groups := groups[id := g.(eventIds := g.eventIds + [Field(e, Id)])];
      }
    }
    assert vs[..|vs|] == vs;
    GroupsAreKeyed(hash, vs);
    ordered := Sort(groups);
  }

  lemma GroupsAreKeyed(hash: Hash, vs: seq<Value>)
    ensures forall id :: id in Grouped(hash, vs) ==> Grouped(hash, vs)[id].id == id
    decreases |vs|
  {
    if vs != [] {
      GroupsAreKeyed(hash, vs[..|vs| - 1]);
    }
  }

  /** The groups, taken from the map in any order, each put where it belongs. */
  method Sort(groups: map<GroupId, Group>) returns (ordered: seq<Group>)
    requires forall id :: id in groups ==> groups[id].id == id
    ensures Ordered(ordered) && Listed(ordered, groups)
  {
    ordered := [];
    var todo := groups.Keys;
    while todo != {}
      invariant todo <= groups.Keys
      invariant Ordered(ordered) && Listed(ordered, groups - todo)
      decreases |todo|
    {
      var id :| id in todo;
      ListedGrows(ordered, groups, todo, id);
      ordered := Put(ordered, groups[id]);
      todo := todo - {id};
    }
    assert groups - todo == groups;
  }

  lemma ListedGrows(gs: seq<Group>, groups: map<GroupId, Group>, todo: set<GroupId>, id: GroupId)
    requires id in todo && todo <= groups.Keys && Listed(gs, groups - todo) && groups[id].id == id
    ensures forall h :: h in gs ==> h.id != id
    ensures forall r :: (forall h :: h in r <==> h in gs || h == groups[id]) ==> Listed(r, groups - (todo - {id}))
  {
    var m, m' := groups - todo, groups - (todo - {id});
    assert m' == m[id := groups[id]];
    forall r | forall h :: h in r <==> h in gs || h == groups[id] ensures Listed(r, m') {
      forall j | j in m' ensures m'[j] in r {
        if j != id {
          assert m[j] in gs;
        }
      }
    }
  }

  method Put(gs: seq<Group>, g: Group) returns (r: seq<Group>)
    requires Ordered(gs) && forall h :: h in gs ==> h.id != g.id
    ensures Ordered(r) && forall h :: h in r <==> h in gs || h == g
  {
    var i := 0;
    while i < |gs| && Before(gs[i], g)
      invariant i <= |gs|
      invariant forall j :: 0 <= j < i ==> Before(gs[j], g)
    {
      i := i + 1;
    }
    r := gs[..i] + [g] + gs[i..];
    PutOrdered(gs, g, i);
    PutMembers(gs, g, i);
  }

  lemma PutMembers(gs: seq<Group>, g: Group, i: nat)
    requires i <= |gs|
    ensures forall h :: h in gs[..i] + [g] + gs[i..] <==> h in gs || h == g
  {
    assert gs == gs[..i] + gs[i..];
  }

  lemma PutOrdered(gs: seq<Group>, g: Group, i: nat)
    requires Ordered(gs) && i <= |gs| && forall h :: h in gs ==> h.id != g.id
    requires (forall j :: 0 <= j < i ==> Before(gs[j], g)) && (i < |gs| ==> !Before(gs[i], g))
    ensures Ordered(gs[..i] + [g] + gs[i..])
  {
    var r := gs[..i] + [g] + gs[i..];
    forall j | i <= j < |gs| ensures Before(g, gs[j]) {
      assert gs[i] in gs && (j == i || Before(gs[i], gs[j]));
    }
    hide Before;
    forall j, k | 0 <= j < k < |r| ensures Before(r[j], r[k]) {
      assert r[j] == if j < i then gs[j] else if j == i then g else gs[j - 1];
      assert r[k] == if k < i then gs[k] else if k == i then g else gs[k - 1];
    }
  }
}
