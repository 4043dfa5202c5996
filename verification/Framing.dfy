/**
 What the framed events say: each one is told from the lines it is made of.

 The lines of a stream are numbered from 0 here; frames number them from 1.
 */
module Framing {
  import opened Wrappers
  import opened Pem
  import opened Parser

  predicate IsLine(l: seq<byte>) {
    l != [] && l[|l| - 1] == NEWLINE && forall k :: 0 <= k < |l| - 1 ==> l[k] != NEWLINE
  }

  ghost predicate AllLines(lines: seq<seq<byte>>) {
    forall k :: 0 <= k < |lines| ==> IsLine(lines[k])
  }

  function AfterLine(cfg: Setup, r: Ref, l: seq<byte>): Ref {
    var d := FinishLine(cfg, r.core, LineInput(cfg, r.key0, l));
    Ref(d.core, AfterScan(r.key0, FindAll(cfg.pem, l, 0)), [], Emit(r.out, d.frame))
  }

  /** The reference after whole lines. */
  function AfterLines(cfg: Setup, lines: seq<seq<byte>>): (r: Ref)
    ensures r.line == []
  {
    if lines == [] then START else AfterLine(cfg, AfterLines(cfg, lines[..|lines| - 1]), lines[|lines| - 1])
  }

  lemma {:induction false} JoinedLast(chunks: seq<seq<byte>>, last: seq<byte>)
    ensures Joined(chunks + [last]) == Joined(chunks) + last
  {
    if chunks == [] {
      JoinedOne(last);
    } else {
      assert (chunks + [last])[1..] == chunks[1..] + [last];
      JoinedLast(chunks[1..], last);
    }
  }

  lemma AbsorbLine(cfg: Setup, r: Ref, l: seq<byte>)
    requires IsLine(l) && r.line == []
    ensures Absorb(cfg, r, l) == AfterLine(cfg, r, l)
  {
    AbsorbPiece(cfg, r, l);
    assert [] + l == l;
    assert l[..|l| - 1] + [NEWLINE] == l;
    assert r.(line := l[..|l| - 1]).core == r.core;
    hide FinishLine, LineInput, AfterScan, FindAll;
  }

  /** Reading the bytes of whole lines is finishing the lines one by one. */
  lemma {:induction false} AbsorbLines(cfg: Setup, lines: seq<seq<byte>>)
    requires AllLines(lines)
    ensures Absorb(cfg, START, Joined(lines)) == AfterLines(cfg, lines)
  {
    hide AfterLine;
    if lines != [] {
      var front, last := lines[..|lines| - 1], lines[|lines| - 1];
      assert lines == front + [last];
      AbsorbLines(cfg, front);
      JoinedLast(front, last);
      AbsorbConcat(cfg, START, Joined(front), last);
      AbsorbLine(cfg, AfterLines(cfg, front), last);
    }
  }

  // ----- what one line says -----

  /** Whether a key is open at the start of line `k`: the last marker before it begins one. */
  ghost predicate KeyOpen(cfg: Setup, lines: seq<seq<byte>>, k: nat)
    requires k <= |lines|
  {
    exists m :: 0 <= m < k && OpensKey(cfg, lines[m]) && forall i :: m < i < k ==> FindAll(cfg.pem, lines[i], 0) == []
  }

  predicate OpensKey(cfg: Setup, l: seq<byte>) {
    var found := FindAll(cfg.pem, l, 0);
    found != [] && found[|found| - 1] == BeginKey
  }

  ghost predicate PrivateAt(cfg: Setup, lines: seq<seq<byte>>, k: nat)
    requires k < |lines|
  {
    KeyOpen(cfg, lines, k) || FindAll(cfg.pem, lines[k], 0) != []
  }

  lemma KeyOpenEarlier(cfg: Setup, lines: seq<seq<byte>>, n: nat, k: nat)
    requires k <= n <= |lines|
    ensures KeyOpen(cfg, lines[..n], k) <==> KeyOpen(cfg, lines, k)
  {
    hide OpensKey, FindAll;
    assert forall i :: 0 <= i < k ==> lines[..n][i] == lines[i];
  }

  lemma KeyOpenNext(cfg: Setup, lines: seq<seq<byte>>, n: nat)
    requires n < |lines|
    ensures KeyOpen(cfg, lines, n + 1) <==>
              if FindAll(cfg.pem, lines[n], 0) == [] then KeyOpen(cfg, lines, n) else OpensKey(cfg, lines[n])
  {
    hide FindAll;
  }

  lemma {:induction false} KeyStateIs(cfg: Setup, lines: seq<seq<byte>>)
    ensures AfterLines(cfg, lines).key0 <==> KeyOpen(cfg, lines, |lines|)
  {
    hide FinishLine, LineInput, FindAll, KeyOpen;
    if lines == [] {
      NoKeyYet(cfg);
    } else {
      var n := |lines| - 1;
      KeyStateIs(cfg, lines[..n]);
      KeyOpenEarlier(cfg, lines, n, n);
      KeyOpenNext(cfg, lines, n);
    }
  }

  lemma NoKeyYet(cfg: Setup)
    ensures !KeyOpen(cfg, [], 0)
  {
  }

  /** Line `k` as it is finished, after the lines before it. */
  function InputAt(cfg: Setup, lines: seq<seq<byte>>, k: nat): Input
    requires k < |lines|
  {
    LineInput(cfg, AfterLines(cfg, lines[..k]).key0, lines[k])
  }

  function HeadAt(cfg: Setup, lines: seq<seq<byte>>, k: nat): Head
    requires k < |lines|
  {
    var c := AfterLines(cfg, lines[..k]).core;
    HeadOf(cfg, c.(line := c.line + 1), InputAt(cfg, lines, k))
  }

  function LookAt(cfg: Setup, lines: seq<seq<byte>>, k: nat): Look
    requires k < |lines|
  {
    cfg.texts.look(HeadAt(cfg, lines, k).rest)
  }

  /** The line was accepted and is not blank. */
  ghost predicate Shown(cfg: Setup, lines: seq<seq<byte>>, k: nat)
    requires k < |lines|
  {
    HeadAt(cfg, lines, k).accepted
    && (HeadAt(cfg, lines, k).rest != "" || PrivateAt(cfg, lines, k) || |lines[k]| > MAX_LINE)
  }

  /** What of the line may be seen: nothing of a private one. */
  ghost function TextAt(cfg: Setup, lines: seq<seq<byte>>, k: nat): string
    requires k < |lines|
  {
    if PrivateAt(cfg, lines, k) then "[REDACTED PRIVATE KEY]" else LookAt(cfg, lines, k).safe
  }

  lemma InputIs(cfg: Setup, lines: seq<seq<byte>>, k: nat)
    requires k < |lines|
    ensures var l := InputAt(cfg, lines, k);
            && (l.private <==> PrivateAt(cfg, lines, k)) && (l.truncated <==> |lines[k]| > MAX_LINE) && !l.partial
  {
    KeyStateIs(cfg, lines[..k]);
    KeyOpenEarlier(cfg, lines, k, k);
    hide FindAll, AfterLines, KeyOpen;
  }

  // ----- what a frame says -----

  /** The texts of the lines `a .. b` that are shown. */
  ghost function ShownTexts(cfg: Setup, lines: seq<seq<byte>>, a: nat, b: nat): seq<string>
    requires b <= |lines|
  {
    if b <= a then []
    else ShownTexts(cfg, lines, a, b - 1) + if Shown(cfg, lines, b - 1) then [TextAt(cfg, lines, b - 1)] else []
  }

  /** Texts put together line by line, each time cut to the size of an event. */
  function Folded(t: Texts, texts: seq<string>): string {
    if texts == [] then ""
    else if |texts| == 1 then t.clip(texts[0])
    else t.clip(Folded(t, texts[..|texts| - 1]) + "\n" + texts[|texts| - 1])
  }

  /** At some line the text put together so far was too long for an event. */
  predicate Overfull(t: Texts, texts: seq<string>) {
    if texts == [] then false
    else if |texts| == 1 then t.overlong(texts[0])
    else Overfull(t, texts[..|texts| - 1]) || t.overlong(Folded(t, texts[..|texts| - 1]) + "\n" + texts[|texts| - 1])
  }

  ghost predicate ChangedAt(cfg: Setup, lines: seq<seq<byte>>, k: nat) {
    k < |lines| && (PrivateAt(cfg, lines, k) || LookAt(cfg, lines, k).changed)
  }

  predicate ExplicitAt(cfg: Setup, lines: seq<seq<byte>>, k: nat) {
    k < |lines| && LookAt(cfg, lines, k).explicit
  }

  /** Reasons to doubt what a line says. */
  predicate UnsureAt(cfg: Setup, lines: seq<seq<byte>>, k: nat) {
    k < |lines| && (LookAt(cfg, lines, k).ambiguous || cfg.texts.invalid(InputAt(cfg, lines, k).buffer)
                    || (cfg.transport && !HeadAt(cfg, lines, k).stamped))
  }

  /** The frame is told from its lines `a .. b`. */
  ghost predicate ToldBy(cfg: Setup, lines: seq<seq<byte>>, f: Frame, a: nat, b: nat)
    requires a < b <= |lines|
  {
    && f.lineStart == a + 1 && f.lineEnd == b && Shown(cfg, lines, a) && Shown(cfg, lines, b - 1)
    && f.text == Folded(cfg.texts, ShownTexts(cfg, lines, a, b))
    && f.lineCount == |ShownTexts(cfg, lines, a, b)|
    && (f.truncated <==> Overfull(cfg.texts, ShownTexts(cfg, lines, a, b)) || SomeLong(cfg, lines, a, b))
    && f.timestamp == HeadAt(cfg, lines, a).ts
    && MarkedBy(cfg, lines, f, a, b)
  }

  ghost predicate SomeLong(cfg: Setup, lines: seq<seq<byte>>, a: nat, b: nat)
    requires b <= |lines|
  {
    exists k :: a <= k < b && Shown(cfg, lines, k) && |lines[k]| > MAX_LINE
  }

  /** The marks of a frame come from its lines. */
  ghost predicate MarkedBy(cfg: Setup, lines: seq<seq<byte>>, f: Frame, a: nat, b: nat)
    requires a < b <= |lines|
  {
    && (f.sensitive <==> cfg.sourceSensitive || exists k :: a <= k < b && Shown(cfg, lines, k) && ChangedAt(cfg, lines, k))
    && (forall k :: a <= k < b && Shown(cfg, lines, k) && UnsureAt(cfg, lines, k) ==> f.uncertain)
  }

  ghost predicate Told(cfg: Setup, lines: seq<seq<byte>>, f: Frame) {
    0 < f.lineStart <= f.lineEnd <= |lines| && ToldBy(cfg, lines, f, f.lineStart - 1, f.lineEnd)
  }

  /** The stack state is that of the pending frame's lines. */
  ghost predicate FlagsAre(cfg: Setup, lines: seq<seq<byte>>, c: Core, a: nat, b: nat)
    requires a < b <= |lines|
  {
    && (c.stack <==> exists k :: a <= k < b && Shown(cfg, lines, k) && ExplicitAt(cfg, lines, k))
    && (c.python <==> LookAt(cfg, lines, b - 1).pythonFrame)
    && (c.goStack <==> LookAt(cfg, lines, a).goStart || LookAt(cfg, lines, a).goHeader)
  }

  /** The pending frame ends with the last line that is shown. */
  ghost predicate PendingTold(cfg: Setup, lines: seq<seq<byte>>, c: Core) {
    match c.pending
    case None => !c.stack && !c.python && !c.goStack && forall k :: 0 <= k < |lines| ==> !Shown(cfg, lines, k)
    case Some(f) =>
      && Told(cfg, lines, f) && FlagsAre(cfg, lines, c, f.lineStart - 1, f.lineEnd)
      && forall k :: f.lineEnd <= k < |lines| ==> !Shown(cfg, lines, k)
  }

  // ----- one more line changes nothing about the lines before it -----

  lemma ShownEarlier(cfg: Setup, lines: seq<seq<byte>>, n: nat, k: nat)
    requires k < n <= |lines|
    ensures Shown(cfg, lines[..n], k) <==> Shown(cfg, lines, k)
    ensures TextAt(cfg, lines[..n], k) == TextAt(cfg, lines, k) && HeadAt(cfg, lines[..n], k) == HeadAt(cfg, lines, k)
    ensures InputAt(cfg, lines[..n], k) == InputAt(cfg, lines, k)
    ensures ChangedAt(cfg, lines[..n], k) <==> ChangedAt(cfg, lines, k)
  {
    assert lines[..n][..k] == lines[..k] && lines[..n][k] == lines[k];
    KeyOpenEarlier(cfg, lines, n, k);
    hide AfterLines, FindAll, KeyOpen, HeadOf, LineInput;
  }

  lemma {:induction false} TextsEarlier(cfg: Setup, lines: seq<seq<byte>>, n: nat, a: nat, b: nat)
    requires b <= n <= |lines|
    ensures ShownTexts(cfg, lines[..n], a, b) == ShownTexts(cfg, lines, a, b)
    decreases b
  {
    hide Shown, TextAt;
    if a < b {
      TextsEarlier(cfg, lines, n, a, b - 1);
      ShownEarlier(cfg, lines, n, b - 1);
    }
  }

  lemma {:induction false} NothingShown(cfg: Setup, lines: seq<seq<byte>>, a: nat, m: nat, b: nat)
    requires a <= m <= b <= |lines| && forall k :: m <= k < b ==> !Shown(cfg, lines, k)
    ensures ShownTexts(cfg, lines, a, b) == ShownTexts(cfg, lines, a, m)
    decreases b
  {
    hide Shown, TextAt;
    if m < b {
      NothingShown(cfg, lines, a, m, b - 1);
    }
  }

  lemma MarksEarlier(cfg: Setup, lines: seq<seq<byte>>, n: nat, f: Frame, a: nat, b: nat)
    requires a < b <= n <= |lines| && MarkedBy(cfg, lines[..n], f, a, b)
    ensures MarkedBy(cfg, lines, f, a, b)
  {
    hide Shown, HeadAt, InputAt, ChangedAt, LookAt, UnsureAt;
    forall k | a <= k < b
      ensures Shown(cfg, lines[..n], k) <==> Shown(cfg, lines, k)
      ensures ChangedAt(cfg, lines[..n], k) <==> ChangedAt(cfg, lines, k)
      ensures UnsureAt(cfg, lines[..n], k) <==> UnsureAt(cfg, lines, k)
      ensures lines[..n][k] == lines[k]
    {
      ShownEarlier(cfg, lines, n, k);
      LooksEarlier(cfg, lines, n, k);
    }
  }

  lemma LooksEarlier(cfg: Setup, lines: seq<seq<byte>>, n: nat, k: nat)
    requires k < n <= |lines|
    ensures LookAt(cfg, lines[..n], k) == LookAt(cfg, lines, k)
    ensures UnsureAt(cfg, lines[..n], k) <==> UnsureAt(cfg, lines, k)
    ensures ExplicitAt(cfg, lines[..n], k) <==> ExplicitAt(cfg, lines, k)
  {
    ShownEarlier(cfg, lines, n, k);
    hide HeadAt, InputAt;
  }

  lemma LongEarlier(cfg: Setup, lines: seq<seq<byte>>, n: nat, a: nat, b: nat)
    requires b <= n <= |lines|
    ensures SomeLong(cfg, lines[..n], a, b) <==> SomeLong(cfg, lines, a, b)
  {
    hide Shown;
    forall k | a <= k < b ensures (Shown(cfg, lines[..n], k) <==> Shown(cfg, lines, k)) && lines[..n][k] == lines[k] {
      ShownEarlier(cfg, lines, n, k);
    }
  }

  lemma ToldEarlier(cfg: Setup, lines: seq<seq<byte>>, n: nat, f: Frame)
    requires n <= |lines| && Told(cfg, lines[..n], f)
    ensures Told(cfg, lines, f)
  {
    hide Shown, HeadAt, InputAt, ChangedAt, LookAt, UnsureAt, ShownTexts, Folded, MarkedBy, Overfull, SomeLong;
    var a, b := f.lineStart - 1, f.lineEnd;
    TextsEarlier(cfg, lines, n, a, b);
    LongEarlier(cfg, lines, n, a, b);
    MarksEarlier(cfg, lines, n, f, a, b);
    ShownEarlier(cfg, lines, n, a);
    ShownEarlier(cfg, lines, n, b - 1);
  }

  // ----- the last line -----

  function PieceAt(cfg: Setup, lines: seq<seq<byte>>, k: nat): Piece
    requires k < |lines|
  {
    PieceOf(cfg, InputAt(cfg, lines, k), LookAt(cfg, lines, k), HeadAt(cfg, lines, k).stamped)
  }

  lemma PieceIs(cfg: Setup, lines: seq<seq<byte>>, k: nat)
    requires k < |lines|
    ensures var p := PieceAt(cfg, lines, k);
            && p.safe == TextAt(cfg, lines, k) && (p.changed <==> ChangedAt(cfg, lines, k))
            && (p.unsure <==> UnsureAt(cfg, lines, k)) && (p.trunc <==> |lines[k]| > MAX_LINE)
  {
    InputIs(cfg, lines, k);
    hide InputAt, HeadAt, PrivateAt;
  }

  lemma BegunTold(cfg: Setup, lines: seq<seq<byte>>, orphan: bool)
    requires lines != [] && Shown(cfg, lines, |lines| - 1)
    ensures var n := |lines| - 1;
            Told(cfg, lines, Begun(cfg, HeadAt(cfg, lines, n).ts, n + 1, PieceAt(cfg, lines, n), orphan))
  {
    hide Shown, HeadAt, InputAt, PieceAt, ChangedAt, TextAt, UnsureAt, MarkedBy, LookAt, SomeLong;
    var n := |lines| - 1;
    PieceIs(cfg, lines, n);
    OneText(cfg, lines, n);
    OneLong(cfg, lines, n);
    BegunMarks(cfg, lines, orphan);
  }

  lemma OneLong(cfg: Setup, lines: seq<seq<byte>>, n: nat)
    requires n < |lines| && Shown(cfg, lines, n)
    ensures SomeLong(cfg, lines, n, n + 1) <==> |lines[n]| > MAX_LINE
  {
    hide Shown;
  }

  lemma MoreLong(cfg: Setup, lines: seq<seq<byte>>, a: nat, b: nat)
    requires lines != [] && a < b <= |lines| - 1 && Shown(cfg, lines, |lines| - 1)
    requires forall k :: b <= k < |lines| - 1 ==> !Shown(cfg, lines, k)
    ensures SomeLong(cfg, lines, a, |lines|) <==> SomeLong(cfg, lines, a, b) || |lines[|lines| - 1]| > MAX_LINE
  {
    hide Shown;
  }

  lemma OneText(cfg: Setup, lines: seq<seq<byte>>, n: nat)
    requires n < |lines| && Shown(cfg, lines, n)
    ensures ShownTexts(cfg, lines, n, n + 1) == [TextAt(cfg, lines, n)]
  {
    hide Shown, TextAt;
    assert ShownTexts(cfg, lines, n, n) == [];
  }

  lemma BegunMarks(cfg: Setup, lines: seq<seq<byte>>, orphan: bool)
    requires lines != [] && Shown(cfg, lines, |lines| - 1)
    ensures var n := |lines| - 1;
            MarkedBy(cfg, lines, Begun(cfg, HeadAt(cfg, lines, n).ts, n + 1, PieceAt(cfg, lines, n), orphan), n, n + 1)
  {
    hide Shown, HeadAt, InputAt, PieceAt, ChangedAt, TextAt, UnsureAt, LookAt;
    PieceIs(cfg, lines, |lines| - 1);
  }

  lemma JoinedTexts(cfg: Setup, lines: seq<seq<byte>>, a: nat, b: nat)
    requires lines != [] && a < b <= |lines| - 1 && Shown(cfg, lines, a) && Shown(cfg, lines, |lines| - 1)
    requires forall k :: b <= k < |lines| - 1 ==> !Shown(cfg, lines, k)
    ensures var n := |lines| - 1;
            var before, after := ShownTexts(cfg, lines, a, b), ShownTexts(cfg, lines, a, n + 1);
            && before != [] && after == before + [TextAt(cfg, lines, n)]
            && Folded(cfg.texts, after) == cfg.texts.clip(Folded(cfg.texts, before) + "\n" + TextAt(cfg, lines, n))
            && (Overfull(cfg.texts, after) <==> Overfull(cfg.texts, before)
                                                 || cfg.texts.overlong(Folded(cfg.texts, before) + "\n" + TextAt(cfg, lines, n)))
  {
    var n := |lines| - 1;
    hide Shown, TextAt;
    NothingShown(cfg, lines, a, b, n);
    SomethingShown(cfg, lines, a, b);
    var before, after := ShownTexts(cfg, lines, a, b), ShownTexts(cfg, lines, a, n + 1);
    assert after[..|after| - 1] == before;
  }

  lemma {:induction false} SomethingShown(cfg: Setup, lines: seq<seq<byte>>, a: nat, b: nat)
    requires a < b <= |lines| && Shown(cfg, lines, a)
    ensures ShownTexts(cfg, lines, a, b) != []
    decreases b
  {
    hide Shown, TextAt;
    if a < b - 1 {
      SomethingShown(cfg, lines, a, b - 1);
    }
  }

  lemma JoinedTold(cfg: Setup, lines: seq<seq<byte>>, f: Frame)
    requires lines != [] && Shown(cfg, lines, |lines| - 1) && Told(cfg, lines, f) && f.lineEnd <= |lines| - 1
    requires forall k :: f.lineEnd <= k < |lines| - 1 ==> !Shown(cfg, lines, k)
    ensures var n := |lines| - 1; Told(cfg, lines, Extended(cfg.texts, f, n + 1, PieceAt(cfg, lines, n)))
  {
    hide Shown, HeadAt, InputAt, PieceAt, ChangedAt, TextAt, UnsureAt, ShownTexts, Folded, MarkedBy, LookAt, Overfull, SomeLong;
    var n := |lines| - 1;
    PieceIs(cfg, lines, n);
    MoreLong(cfg, lines, f.lineStart - 1, f.lineEnd);
    JoinedTexts(cfg, lines, f.lineStart - 1, f.lineEnd);
    JoinedMarks(cfg, lines, f, f.lineStart - 1, f.lineEnd);
  }

  lemma JoinedMarks(cfg: Setup, lines: seq<seq<byte>>, f: Frame, a: nat, b: nat)
    requires lines != [] && a < b <= |lines| - 1 && Shown(cfg, lines, |lines| - 1) && MarkedBy(cfg, lines, f, a, b)
    requires forall k :: b <= k < |lines| - 1 ==> !Shown(cfg, lines, k)
    ensures var n := |lines| - 1; MarkedBy(cfg, lines, Extended(cfg.texts, f, n + 1, PieceAt(cfg, lines, n)), a, n + 1)
  {
    hide Shown, HeadAt, InputAt, PieceAt, ChangedAt, TextAt, UnsureAt, LookAt;
    PieceIs(cfg, lines, |lines| - 1);
  }

  /** The context of the last line, told from the lines of the pending frame. */
  ghost predicate MustJoin(cfg: Setup, lines: seq<seq<byte>>, f: Frame)
    requires lines != [] && 0 < f.lineStart <= f.lineEnd <= |lines|
  {
    var n := |lines| - 1;
    var look := LookAt(cfg, lines, n);
    var a, b := f.lineStart - 1, f.lineEnd;
    var goDetail := (LookAt(cfg, lines, a).goStart || LookAt(cfg, lines, a).goHeader) && (look.goHeader || look.goFrame);
    var inStack := exists k :: a <= k < b && Shown(cfg, lines, k) && ExplicitAt(cfg, lines, k);
    if HeadAt(cfg, lines, n).ts.None? then look.continuation || goDetail
    else look.explicit || goDetail || (look.detail && inStack) || (look.pythonLine && LookAt(cfg, lines, b - 1).pythonFrame)
  }

  lemma FlagsEarlier(cfg: Setup, lines: seq<seq<byte>>, n: nat, c: Core, a: nat, b: nat)
    requires a < b <= n <= |lines| && FlagsAre(cfg, lines[..n], c, a, b)
    ensures FlagsAre(cfg, lines, c, a, b)
  {
    hide Shown, LookAt, ExplicitAt;
    forall k | a <= k < b
      ensures Shown(cfg, lines[..n], k) <==> Shown(cfg, lines, k)
      ensures LookAt(cfg, lines[..n], k) == LookAt(cfg, lines, k)
      ensures ExplicitAt(cfg, lines[..n], k) <==> ExplicitAt(cfg, lines, k)
    {
      ShownEarlier(cfg, lines, n, k);
      LooksEarlier(cfg, lines, n, k);
    }
  }

  lemma JoinsAsTold(cfg: Setup, lines: seq<seq<byte>>, c: Core, f: Frame)
    requires lines != [] && c.pending == Some(f) && 0 < f.lineStart <= f.lineEnd <= |lines|
    requires FlagsAre(cfg, lines, c, f.lineStart - 1, f.lineEnd)
    ensures var n := |lines| - 1;
            Continues(c, LookAt(cfg, lines, n), HeadAt(cfg, lines, n).ts.Some?) <==> MustJoin(cfg, lines, f)
  {
    hide Shown, HeadAt, LookAt;
  }

  /** How the last line is finished. */
  lemma FinishedAs(cfg: Setup, lines: seq<seq<byte>>)
    requires lines != []
    ensures var n := |lines| - 1;
            var h, l := HeadAt(cfg, lines, n), InputAt(cfg, lines, n);
            var r, r' := AfterLines(cfg, lines[..n]), AfterLines(cfg, lines);
            && h.core.(calls := []) == r.core.(line := r.core.line + 1, calls := [])
            && (if Shown(cfg, lines, n)
                then var d := Framed(cfg, h.core, l, h.ts, h.rest, h.stamped); r'.core == d.core && r'.out == Emit(r.out, d.frame)
                else r'.core == h.core && r'.out == r.out)
  {
    hide Framed, HeadOf, PrivateAt, LineInput, AfterScan, FindAll, FinishLine, AfterLines;
    var n := |lines| - 1;
    InputIs(cfg, lines, n);
    LastStep(cfg, lines);
    FinishSplit(cfg, AfterLines(cfg, lines[..n]).core, InputAt(cfg, lines, n));
  }

  lemma LastStep(cfg: Setup, lines: seq<seq<byte>>)
    requires lines != []
    ensures var n := |lines| - 1;
            var r, r' := AfterLines(cfg, lines[..n]), AfterLines(cfg, lines);
            var d := FinishLine(cfg, r.core, InputAt(cfg, lines, n));
            r'.core == d.core && r'.out == Emit(r.out, d.frame)
  {
    hide FinishLine, LineInput, AfterScan, FindAll;
  }

  lemma FinishSplit(cfg: Setup, c: Core, l: Input)
    ensures var h, d := HeadOf(cfg, c.(line := c.line + 1), l), FinishLine(cfg, c, l);
            && h.core.(calls := []) == c.(line := c.line + 1, calls := [])
            && d == if h.accepted && (h.rest != "" || l.private || l.truncated || l.partial)
                    then Framed(cfg, h.core, l, h.ts, h.rest, h.stamped) else Done(h.core, None)
  {
    hide Framed, HeadOf;
  }

  // ----- whole streams -----

  /** The reference after the lines tells every frame by its lines, and every shown line is in one. */
  ghost predicate StoryIs(cfg: Setup, lines: seq<seq<byte>>) {
    var r := AfterLines(cfg, lines);
    && r.core.line == |lines| && PendingTold(cfg, lines, r.core)
    && (forall f :: f in r.out ==> Told(cfg, lines, f))
    && (forall k :: 0 <= k < |lines| && Shown(cfg, lines, k) ==> Covered(Emit(r.out, r.core.pending), k))
  }

  ghost predicate Covered(frames: seq<Frame>, k: nat) {
    exists f :: f in frames && f.lineStart <= k + 1 <= f.lineEnd
  }

  lemma HiddenStep(cfg: Setup, lines: seq<seq<byte>>)
    requires lines != [] && StoryIs(cfg, lines[..|lines| - 1]) && !Shown(cfg, lines, |lines| - 1)
    ensures StoryIs(cfg, lines)
  {
    hide Shown, Told, FlagsAre, Covered, AfterLines, Framed;
    var n := |lines| - 1;
    var r := AfterLines(cfg, lines[..n]);
    FinishedAs(cfg, lines);
    forall f | f in r.out ensures Told(cfg, lines, f) {
      ToldEarlier(cfg, lines, n, f);
    }
    forall k | 0 <= k < n ensures Shown(cfg, lines[..n], k) <==> Shown(cfg, lines, k) {
      ShownEarlier(cfg, lines, n, k);
    }
    if r.core.pending.Some? {
      var f := r.core.pending.value;
      ToldRange(cfg, lines[..n], f);
      ToldEarlier(cfg, lines, n, f);
      FlagsEarlier(cfg, lines, n, r.core, f.lineStart - 1, f.lineEnd);
      SameFlags(cfg, lines, r.core, AfterLines(cfg, lines).core, f.lineStart - 1, f.lineEnd);
    }
  }

  lemma ToldRange(cfg: Setup, lines: seq<seq<byte>>, f: Frame)
    requires Told(cfg, lines, f)
    ensures 0 < f.lineStart <= f.lineEnd <= |lines|
  {
  }

  lemma SameFlags(cfg: Setup, lines: seq<seq<byte>>, c: Core, c': Core, a: nat, b: nat)
    requires a < b <= |lines| && FlagsAre(cfg, lines, c, a, b)
    requires c'.stack == c.stack && c'.python == c.python && c'.goStack == c.goStack
    ensures FlagsAre(cfg, lines, c', a, b)
  {
  }

  /** The last line is shown: the pending frame takes it in, or ends before it. */
  ghost predicate TakenIn(cfg: Setup, lines: seq<seq<byte>>, f: Frame)
    requires lines != []
  {
    var n := |lines| - 1;
    var r, r' := AfterLines(cfg, lines[..n]), AfterLines(cfg, lines);
    var p, look := PieceAt(cfg, lines, n), LookAt(cfg, lines, n);
    && r'.out == r.out && r'.core.pending == Some(Extended(cfg.texts, f, n + 1, p))
    && r'.core.stack == (r.core.stack || look.explicit) && r'.core.python == look.pythonFrame && r'.core.goStack == r.core.goStack
  }

  /** The last line continues a frame, and there is none. */
  predicate Orphan(cfg: Setup, lines: seq<seq<byte>>)
    requires lines != []
  {
    var n := |lines| - 1;
    var c := AfterLines(cfg, lines[..n]).core;
    Continues(c, LookAt(cfg, lines, n), HeadAt(cfg, lines, n).ts.Some?) && c.pending.None?
  }

  ghost predicate StartedAnew(cfg: Setup, lines: seq<seq<byte>>)
    requires lines != []
  {
    var n := |lines| - 1;
    var r, r' := AfterLines(cfg, lines[..n]), AfterLines(cfg, lines);
    var p, look := PieceAt(cfg, lines, n), LookAt(cfg, lines, n);
    && r'.out == Emit(r.out, r.core.pending)
    && r'.core.pending == Some(Begun(cfg, HeadAt(cfg, lines, n).ts, n + 1, p, Orphan(cfg, lines)))
    && r'.core.stack == look.explicit && r'.core.python == look.pythonFrame
    && r'.core.goStack == (look.goStart || look.goHeader)
  }

  lemma ShownCases(cfg: Setup, lines: seq<seq<byte>>)
    requires lines != [] && Shown(cfg, lines, |lines| - 1) && AfterLines(cfg, lines[..|lines| - 1]).core.line == |lines| - 1
    ensures var n := |lines| - 1;
            var c := AfterLines(cfg, lines[..n]).core;
            && AfterLines(cfg, lines).core.line == |lines|
            && (if c.pending.Some? && Continues(c, LookAt(cfg, lines, n), HeadAt(cfg, lines, n).ts.Some?)
                then TakenIn(cfg, lines, c.pending.value) else StartedAnew(cfg, lines))
  {
    hide AfterLines, HeadAt, InputAt, PieceOf, Shown, Extended;
    FinishedAs(cfg, lines);
    var n := |lines| - 1;
    var c := AfterLines(cfg, lines[..n]).core;
    assert HeadAt(cfg, lines, n).core.pending == c.pending;
  }

  lemma JoinedFlags(cfg: Setup, lines: seq<seq<byte>>, c: Core, c': Core, a: nat, b: nat)
    requires lines != [] && a < b <= |lines| - 1 && FlagsAre(cfg, lines, c, a, b) && Shown(cfg, lines, |lines| - 1)
    requires forall k :: b <= k < |lines| - 1 ==> !Shown(cfg, lines, k)
    requires var look := LookAt(cfg, lines, |lines| - 1);
             c'.stack == (c.stack || look.explicit) && c'.python == look.pythonFrame && c'.goStack == c.goStack
    ensures FlagsAre(cfg, lines, c', a, |lines|)
  {
    hide Shown, LookAt;
    var n := |lines| - 1;
    assert LookAt(cfg, lines, n).explicit <==> ExplicitAt(cfg, lines, n);
  }

  lemma BegunFlags(cfg: Setup, lines: seq<seq<byte>>, c: Core)
    requires lines != [] && Shown(cfg, lines, |lines| - 1)
    requires var look := LookAt(cfg, lines, |lines| - 1);
             c.stack == look.explicit && c.python == look.pythonFrame && c.goStack == (look.goStart || look.goHeader)
    ensures FlagsAre(cfg, lines, c, |lines| - 1, |lines|)
  {
    hide Shown, LookAt;
    var n := |lines| - 1;
    assert LookAt(cfg, lines, n).explicit <==> ExplicitAt(cfg, lines, n);
  }

  lemma TakenInStory(cfg: Setup, lines: seq<seq<byte>>, f: Frame)
    requires lines != [] && StoryIs(cfg, lines[..|lines| - 1]) && Shown(cfg, lines, |lines| - 1)
    requires AfterLines(cfg, lines[..|lines| - 1]).core.pending == Some(f)
    requires TakenIn(cfg, lines, f) && AfterLines(cfg, lines).core.line == |lines|
    ensures StoryIs(cfg, lines)
  {
    hide Shown, Told, FlagsAre, AfterLines, PieceAt, LookAt, Extended;
    var n := |lines| - 1;
    var r, r' := AfterLines(cfg, lines[..n]), AfterLines(cfg, lines);
    EarlierStory(cfg, lines);
    ToldRange(cfg, lines[..n], f);
    FlagsEarlier(cfg, lines, n, r.core, f.lineStart - 1, f.lineEnd);
    JoinedTold(cfg, lines, f);
    JoinedFlags(cfg, lines, r.core, r'.core, f.lineStart - 1, f.lineEnd);
    var f' := r'.core.pending.value;
    assert f'.lineStart == f.lineStart && f'.lineEnd == n + 1 by { ExtendedRange(cfg, f, n + 1, PieceAt(cfg, lines, n)); }
    WiderCovered(r.out, f, f');
  }

  lemma ExtendedRange(cfg: Setup, f: Frame, line: nat, p: Piece)
    ensures Extended(cfg.texts, f, line, p).lineStart == f.lineStart && Extended(cfg.texts, f, line, p).lineEnd == line
  {
  }

  lemma WiderCovered(out: seq<Frame>, f: Frame, f': Frame)
    requires f'.lineStart == f.lineStart && f.lineEnd <= f'.lineEnd
    ensures forall k: nat :: Covered(Emit(out, Some(f)), k) ==> Covered(Emit(out, Some(f')), k)
    ensures forall k: nat :: f'.lineStart <= k + 1 <= f'.lineEnd ==> Covered(Emit(out, Some(f')), k)
  {
    forall k: nat | Covered(Emit(out, Some(f)), k) ensures Covered(Emit(out, Some(f')), k) {
      var g :| g in out + [f] && g.lineStart <= k + 1 <= g.lineEnd;
      assert (if g == f then f' else g) in out + [f'];
    }
    assert f' in out + [f'];
  }

  /** What was told of the lines before the last one still holds. */
  lemma EarlierStory(cfg: Setup, lines: seq<seq<byte>>)
    requires lines != [] && StoryIs(cfg, lines[..|lines| - 1])
    ensures var r := AfterLines(cfg, lines[..|lines| - 1]);
            && (forall f :: f in r.out ==> Told(cfg, lines, f))
            && (r.core.pending.Some? ==> Told(cfg, lines, r.core.pending.value))
            && (forall k :: 0 <= k < |lines| - 1 ==> (Shown(cfg, lines[..|lines| - 1], k) <==> Shown(cfg, lines, k)))
  {
    hide Shown, Told, FlagsAre, Covered, AfterLines;
    var n := |lines| - 1;
    var r := AfterLines(cfg, lines[..n]);
    forall f | f in r.out || r.core.pending == Some(f) ensures Told(cfg, lines, f) {
      ToldEarlier(cfg, lines, n, f);
    }
    forall k | 0 <= k < n ensures Shown(cfg, lines[..n], k) <==> Shown(cfg, lines, k) {
      ShownEarlier(cfg, lines, n, k);
    }
  }

  lemma StartedStory(cfg: Setup, lines: seq<seq<byte>>)
    requires lines != [] && StoryIs(cfg, lines[..|lines| - 1]) && Shown(cfg, lines, |lines| - 1)
    requires StartedAnew(cfg, lines) && AfterLines(cfg, lines).core.line == |lines|
    ensures StoryIs(cfg, lines)
  {
    hide Shown, Told, FlagsAre, AfterLines, PieceAt, LookAt, Begun;
    var n := |lines| - 1;
    var r, r' := AfterLines(cfg, lines[..n]), AfterLines(cfg, lines);
    EarlierStory(cfg, lines);
    BegunTold(cfg, lines, Orphan(cfg, lines));
    BegunFlags(cfg, lines, r'.core);
    BegunRange(cfg, HeadAt(cfg, lines, n).ts, n + 1, PieceAt(cfg, lines, n), Orphan(cfg, lines));
    var f' := r'.core.pending.value;
    forall k | 0 <= k < n + 1 && Shown(cfg, lines, k) ensures Covered(Emit(r'.out, r'.core.pending), k) {
      if k == n {
        assert f' in Emit(r'.out, r'.core.pending);
      } else {
        var g :| g in Emit(r.out, r.core.pending) && g.lineStart <= k + 1 <= g.lineEnd;
        assert g in Emit(r'.out, r'.core.pending);
      }
    }
  }

  lemma BegunRange(cfg: Setup, ts: Option<string>, line: nat, p: Piece, orphan: bool)
    ensures var f := Begun(cfg, ts, line, p, orphan); f.lineStart == f.lineEnd == line && (orphan ==> f.uncertain)
  {
  }

  /**
   Every frame is told from its lines.  After any whole lines, each frame, emitted or
   pending, consists of the accepted lines that are not blank in its range: its text is
   theirs, put together and cut to size, where a line that lies in an open key or holds a
   marker shows only the redaction; it is sensitive exactly when the source is or one of
   its lines is changed or private, and it inherits every doubt and every cut.  Every
   such line is in a frame.
   */
  lemma {:induction false} FramesAreTheirLines(cfg: Setup, lines: seq<seq<byte>>)
    ensures StoryIs(cfg, lines)
  {
    hide Shown, Told, FlagsAre, TakenIn, StartedAnew, Covered, Continues, LookAt, HeadAt, StoryIs;
    if lines == [] {
      NoStory(cfg);
    } else {
      var n := |lines| - 1;
      FramesAreTheirLines(cfg, lines[..n]);
      if Shown(cfg, lines, n) {
        StoryLine(cfg, lines[..n]);
        ShownCases(cfg, lines);
        var c := AfterLines(cfg, lines[..n]).core;
        if c.pending.Some? && Continues(c, LookAt(cfg, lines, n), HeadAt(cfg, lines, n).ts.Some?) {
          TakenInStory(cfg, lines, c.pending.value);
        } else {
          StartedStory(cfg, lines);
        }
      } else {
        HiddenStep(cfg, lines);
      }
    }
  }

  lemma NoStory(cfg: Setup)
    ensures StoryIs(cfg, [])
  {
  }

  lemma StoryLine(cfg: Setup, lines: seq<seq<byte>>)
    requires StoryIs(cfg, lines)
    ensures AfterLines(cfg, lines).core.line == |lines|
    ensures PendingTold(cfg, lines, AfterLines(cfg, lines).core)
  {
  }

  /**
   Exactly when a line continues a frame.  A line with a timestamp joins the pending frame
   only as an explicit continuation, as a detail of a stack that an earlier line of the
   frame opened, right after a Python frame line, or inside a Go stack that the frame
   began with; one without joins as a continuation or inside such a Go stack.  It starts
   its own frame otherwise, and one that continues nothing is uncertain.
   */
  lemma {:induction false} JoinsExactly(cfg: Setup, lines: seq<seq<byte>>)
    requires lines != [] && Shown(cfg, lines, |lines| - 1)
    ensures var n := |lines| - 1;
            var r, r' := AfterLines(cfg, lines[..n]), AfterLines(cfg, lines);
            && r'.core.pending.Some? && r'.core.pending.value.lineEnd == n + 1
            && (match r.core.pending
                case None =>
                  r'.out == r.out && r'.core.pending.value.lineStart == n + 1
                  && (HeadAt(cfg, lines, n).ts.None? && LookAt(cfg, lines, n).continuation ==> r'.core.pending.value.uncertain)
                case Some(f) =>
                  && 0 < f.lineStart <= f.lineEnd <= n
                  && if MustJoin(cfg, lines, f) then r'.out == r.out && r'.core.pending.value.lineStart == f.lineStart
                     else r'.out == r.out + [f] && r'.core.pending.value.lineStart == n + 1)
  {
    hide Shown, Told, FlagsAre, Covered, Continues, LookAt, HeadAt, StoryIs, MustJoin, AfterLines, PieceAt, Extended, Begun, Orphan;
    var n := |lines| - 1;
    var r := AfterLines(cfg, lines[..n]);
    FramesAreTheirLines(cfg, lines[..n]);
    StoryLine(cfg, lines[..n]);
    ShownCases(cfg, lines);
    if r.core.pending.Some? {
      var f := r.core.pending.value;
      ToldRange(cfg, lines[..n], f);
      FlagsEarlier(cfg, lines, n, r.core, f.lineStart - 1, f.lineEnd);
      JoinsAsTold(cfg, lines, r.core, f);
      ExtendedRange(cfg, f, n + 1, PieceAt(cfg, lines, n));
    }
    BegunRange(cfg, HeadAt(cfg, lines, n).ts, n + 1, PieceAt(cfg, lines, n), Orphan(cfg, lines));
    OrphanIs(cfg, lines);
  }

  lemma OrphanIs(cfg: Setup, lines: seq<seq<byte>>)
    requires lines != []
    ensures var n := |lines| - 1;
            AfterLines(cfg, lines[..n]).core.pending.None? && HeadAt(cfg, lines, n).ts.None? && LookAt(cfg, lines, n).continuation ==>
              Orphan(cfg, lines)
  {
    hide AfterLines, HeadAt, LookAt;
  }

  /** The same of the parser, however the bytes of the lines were read. */
  lemma {:induction false} ReadsAreTold(cfg: Setup, chunks: seq<seq<byte>>, lines: seq<seq<byte>>)
    requires AllLines(lines) && Joined(chunks) == Joined(lines) && CleanLines(cfg, START, Joined(lines))
    ensures var st := FeedAll(cfg, NEW, chunks);
            var frames := Emit(st.out, st.core.pending);
            && Closed(cfg, st, false).out == frames
            && (forall f :: f in frames ==> Told(cfg, lines, f))
            && (forall k :: 0 <= k < |lines| && Shown(cfg, lines, k) ==> Covered(frames, k))
  {
    hide FeedAll, AfterLines, Told, Shown, Covered, FlagsAre, CleanLines, Absorb, FindAll;
    EmptyLine(cfg);
    assert Concrete(cfg, START) == NEW;
    ReadsAreAbsorb(cfg, START, chunks);
    AbsorbLines(cfg, lines);
    FramesAreTheirLines(cfg, lines);
  }

  // ----- the acceptor -----

  /** What the acceptor is asked about the lines: each of them once, in order, with all its bytes and its instant. */
  function CallsFor(cfg: Setup, lines: seq<seq<byte>>): seq<Call> {
    if lines == [] || !cfg.transport || cfg.accept.None? then []
    else
      var n := |lines| - 1;
      var l := InputAt(cfg, lines, n);
      var stamp := cfg.texts.transport(cfg.texts.decode(l.buffer));
      CallsFor(cfg, lines[..n]) + [Call(if stamp.Some? then Some(stamp.value.at) else None, lines[n], false)]
  }

  /** Every line of a transported stream is offered to the acceptor once, whole, whether or not it is framed. */
  lemma {:induction false} EveryLineIsOffered(cfg: Setup, lines: seq<seq<byte>>)
    ensures AfterLines(cfg, lines).core.calls == CallsFor(cfg, lines)
  {
    if lines != [] {
      var n := |lines| - 1;
      EveryLineIsOffered(cfg, lines[..n]);
      FinishedAs(cfg, lines);
      OfferedLine(cfg, AfterLines(cfg, lines[..n]).core, InputAt(cfg, lines, n));
      hide AfterLines, FinishLine, LineInput, Framed, HeadOf, Shown, InputAt;
      FramedKeepsCalls(cfg, lines);
    } else {
      hide AfterLine;
    }
  }

  lemma OfferedLine(cfg: Setup, c: Core, l: Input)
    ensures var h := HeadOf(cfg, c.(line := c.line + 1), l);
            var stamp := cfg.texts.transport(cfg.texts.decode(l.buffer));
            h.core.calls == c.calls + if cfg.transport && cfg.accept.Some?
                                      then [Call(if stamp.Some? then Some(stamp.value.at) else None, l.raw, l.partial)] else []
  {
  }

  lemma FramedKeepsCalls(cfg: Setup, lines: seq<seq<byte>>)
    requires lines != []
    ensures AfterLines(cfg, lines).core.calls == HeadAt(cfg, lines, |lines| - 1).core.calls
    ensures InputAt(cfg, lines, |lines| - 1).raw == lines[|lines| - 1] && !InputAt(cfg, lines, |lines| - 1).partial
  {
    FinishedAs(cfg, lines);
    hide AfterLines, HeadAt, Shown, PieceOf, Extended, Begun, Continues;
  }

  /** When the input has ended, nothing of the last frame is left to the lines of the next one. */
  lemma ClosedIsClean(cfg: Setup, st: State, partial: bool)
    ensures var c := Closed(cfg, st, partial).core; c.pending.None? && !c.stack && !c.python && !c.goStack
    ensures Closed(cfg, st, partial).buffer == []
  {
    hide FinishLine;
  }

  /**
   What is read off the start of a line, and what the acceptor decides.  Only a
   transported source has transport stamps; a line that carries one is kept or dropped as
   the acceptor answers after everything it was asked so far, and every other line is kept.
   */
  lemma {:induction false} HeadsAreRead(cfg: Setup, lines: seq<seq<byte>>, k: nat)
    requires k < |lines|
    ensures var h := HeadAt(cfg, lines, k);
            var text := cfg.texts.decode(lines[k][..if |lines[k]| < MAX_LINE then |lines[k]| else MAX_LINE]);
            var stamp, own := cfg.texts.transport(text), cfg.texts.own(text);
            if cfg.transport && stamp.Some?
            then h.stamped && h.ts == Some(stamp.value.raw) && h.rest == stamp.value.rest
                 && (h.accepted <==> cfg.accept.None? || cfg.accept.value(CallsFor(cfg, lines[..k + 1])))
            else !h.stamped && h.accepted
                 && h.rest == (if own.Some? then own.value.rest else text)
                 && h.ts == (if own.Some? then Some(own.value.stamp) else None)
  {
    EveryLineIsOffered(cfg, lines[..k]);
    OfferedNext(cfg, lines, k);
    hide AfterLines, FindAll, CallsFor;
  }

  lemma OfferedNext(cfg: Setup, lines: seq<seq<byte>>, k: nat)
    requires k < |lines|
    ensures var stamp := cfg.texts.transport(cfg.texts.decode(InputAt(cfg, lines, k).buffer));
            CallsFor(cfg, lines[..k + 1]) == CallsFor(cfg, lines[..k])
              + if cfg.transport && cfg.accept.Some?
                then [Call(if stamp.Some? then Some(stamp.value.at) else None, lines[k], false)] else []
  {
    assert lines[..k + 1][..k] == lines[..k];
    hide InputAt;
    assert InputAt(cfg, lines[..k + 1], k) == InputAt(cfg, lines, k) by { ShownEarlier(cfg, lines, k + 1, k); }
    assert !cfg.transport || cfg.accept.None? ==> CallsFor(cfg, lines[..k]) == [];
  }

  /**
   A line that the input cuts off is doubted: when a transported source ends without a
   newline, or any source is cut, the last frame that is emitted is truncated and uncertain.
   */
  lemma {:induction false} CutLinesAreDoubted(cfg: Setup, st: State, partial: bool)
    requires partial || cfg.transport
    requires st.buffer != [] && HeadOf(cfg, st.core.(line := st.core.line + 1),
                                       Input(st.buffer, st.hashed, st.truncated || partial, st.private, true)).accepted
    ensures var out := Closed(cfg, st, partial).out;
            out != [] && out[|out| - 1].truncated && out[|out| - 1].uncertain
  {
    var l := Input(st.buffer, st.hashed, st.truncated || partial, st.private, true);
    FinishSplit(cfg, st.core, l);
    var h := HeadOf(cfg, st.core.(line := st.core.line + 1), l);
    CutPiece(cfg, h.core, l, h.ts, h.rest, h.stamped);
    hide Framed, HeadOf, FinishLine;
  }

  lemma CutPiece(cfg: Setup, c: Core, l: Input, ts: Option<string>, text: string, stamped: bool)
    requires l.partial
    ensures var p := Framed(cfg, c, l, ts, text, stamped).core.pending; p.Some? && p.value.truncated && p.value.uncertain
  {
    hide Continues;
  }
}
