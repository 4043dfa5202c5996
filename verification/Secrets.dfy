/** Private-key material never reaches a frame: what an open key contains makes no difference. */
module Secrets {
  import opened Wrappers
  import opened Pem
  import opened Parser
  import opened Framing

  /** The patterns that frame lines say the same of both texts. */
  predicate FramesAlike(a: Look, b: Look) {
    && a.ambiguous == b.ambiguous && a.explicit == b.explicit && a.continuation == b.continuation && a.detail == b.detail
    && a.pythonFrame == b.pythonFrame && a.pythonLine == b.pythonLine
    && a.goStart == b.goStart && a.goHeader == b.goHeader && a.goFrame == b.goFrame
  }

  /** Two inputs whose visible side is the same: stamps, cuts, doubts and framing. */
  ghost predicate SameOutside(cfg: Setup, l: Input, h: Head, l': Input, h': Head) {
    && l.truncated == l'.truncated && l.partial == l'.partial && h.ts == h'.ts && h.stamped == h'.stamped
    && cfg.texts.invalid(l.buffer) == cfg.texts.invalid(l'.buffer)
    && FramesAlike(cfg.texts.look(h.rest), cfg.texts.look(h'.rest))
  }

  /** The acceptor agrees on both, and they are the same or both private with the same outside. */
  ghost predicate Twins(cfg: Setup, l: Input, h: Head, l': Input, h': Head) {
    && h.accepted == h'.accepted && l.private == l'.private
    && (l == l' || (l.private && SameOutside(cfg, l, h, l', h')))
  }

  ghost predicate AlikeCores(c: Core, c': Core) {
    c.(calls := []) == c'.(calls := [])
  }

  ghost predicate AlikeRefs(r: Ref, r': Ref) {
    r.key0 == r'.key0 && r.out == r'.out && AlikeCores(r.core, r'.core)
  }

  lemma HeadIgnoresCalls(cfg: Setup, c: Core, c': Core, l: Input)
    requires AlikeCores(c, c')
    ensures var h, h' := HeadOf(cfg, c, l), HeadOf(cfg, c', l);
            h.ts == h'.ts && h.rest == h'.rest && h.stamped == h'.stamped
  {
  }

  lemma SamePiece(cfg: Setup, l: Input, look: Look, stamped: bool, l': Input, look': Look)
    requires l.private && l'.private && l.truncated == l'.truncated && l.partial == l'.partial
    requires cfg.texts.invalid(l.buffer) == cfg.texts.invalid(l'.buffer) && look.ambiguous == look'.ambiguous
    ensures PieceOf(cfg, l, look, stamped) == PieceOf(cfg, l', look', stamped)
  {
  }

  lemma FramedAlike(cfg: Setup, c: Core, c': Core, l: Input, h: Head, l': Input, h': Head)
    requires AlikeCores(c, c') && l.private && l'.private && SameOutside(cfg, l, h, l', h')
    ensures var d := Framed(cfg, c, l, h.ts, h.rest, h.stamped);
            var d' := Framed(cfg, c', l', h'.ts, h'.rest, h'.stamped);
            d.frame == d'.frame && AlikeCores(d.core, d'.core)
  {
    var look, look' := cfg.texts.look(h.rest), cfg.texts.look(h'.rest);
    SamePiece(cfg, l, look, h.stamped, l', look');
    assert Continues(c, look, h.ts.Some?) == Continues(c', look', h.ts.Some?);
    hide PieceOf, Extended, Begun, Continues;
  }

  lemma SameFramed(cfg: Setup, c: Core, c': Core, l: Input, ts: Option<string>, text: string, stamped: bool)
    requires AlikeCores(c, c')
    ensures var d, d' := Framed(cfg, c, l, ts, text, stamped), Framed(cfg, c', l, ts, text, stamped);
            d.frame == d'.frame && AlikeCores(d.core, d'.core)
  {
    hide PieceOf, Extended, Begun;
  }

  lemma FinishAlike(cfg: Setup, c: Core, c': Core, l: Input, l': Input)
    requires AlikeCores(c, c')
    requires Twins(cfg, l, HeadOf(cfg, c.(line := c.line + 1), l), l', HeadOf(cfg, c'.(line := c'.line + 1), l'))
    ensures var d, d' := FinishLine(cfg, c, l), FinishLine(cfg, c', l'); d.frame == d'.frame && AlikeCores(d.core, d'.core)
  {
    hide HeadOf, Framed, FinishLine, SameOutside;
    FinishSplit(cfg, c, l);
    FinishSplit(cfg, c', l');
    var h, h' := HeadOf(cfg, c.(line := c.line + 1), l), HeadOf(cfg, c'.(line := c'.line + 1), l');
    if l == l' {
      HeadIgnoresCalls(cfg, c.(line := c.line + 1), c'.(line := c'.line + 1), l);
      SameFramed(cfg, h.core, h'.core, l, h.ts, h.rest, h.stamped);
    } else {
      FramedAlike(cfg, h.core, h'.core, l, h, l', h');
    }
  }

  /** Line `k` of one stream and of the other hold the same markers and are twins. */
  ghost predicate TwinLines(cfg: Setup, lines: seq<seq<byte>>, lines': seq<seq<byte>>, k: nat)
    requires k < |lines| && k < |lines'|
  {
    && FindAll(cfg.pem, lines[k], 0) == FindAll(cfg.pem, lines'[k], 0)
    && Twins(cfg, InputAt(cfg, lines, k), HeadAt(cfg, lines, k), InputAt(cfg, lines', k), HeadAt(cfg, lines', k))
  }

  ghost predicate TwinStreams(cfg: Setup, lines: seq<seq<byte>>, lines': seq<seq<byte>>) {
    |lines| == |lines'| && forall k :: 0 <= k < |lines| ==> TwinLines(cfg, lines, lines', k)
  }

  lemma TwinsEarlier(cfg: Setup, lines: seq<seq<byte>>, lines': seq<seq<byte>>, n: nat)
    requires TwinStreams(cfg, lines, lines') && n <= |lines|
    ensures TwinStreams(cfg, lines[..n], lines'[..n])
  {
    hide Shown, TextAt, ChangedAt, Twins, FindAll, HeadAt, InputAt;
    forall k | 0 <= k < n ensures TwinLines(cfg, lines[..n], lines'[..n], k) {
      assert TwinLines(cfg, lines, lines', k);
      ShownEarlier(cfg, lines, n, k);
      ShownEarlier(cfg, lines', n, k);
    }
  }

  lemma {:induction false} TwinsStayAlike(cfg: Setup, lines: seq<seq<byte>>, lines': seq<seq<byte>>)
    requires TwinStreams(cfg, lines, lines')
    ensures AlikeRefs(AfterLines(cfg, lines), AfterLines(cfg, lines'))
  {
    hide Twins, FindAll, FinishLine, HeadOf, LineInput, AlikeCores;
    if lines == [] {
      assert AlikeCores(START.core, START.core) by { Reflexive(START.core); }
    } else {
      var n := |lines| - 1;
      TwinsEarlier(cfg, lines, lines', n);
      TwinsStayAlike(cfg, lines[..n], lines'[..n]);
      assert TwinLines(cfg, lines, lines', n);
      var r, r' := AfterLines(cfg, lines[..n]), AfterLines(cfg, lines'[..n]);
      FinishAlike(cfg, r.core, r'.core, InputAt(cfg, lines, n), InputAt(cfg, lines', n));
    }
  }

  lemma Reflexive(c: Core)
    ensures AlikeCores(c, c)
  {
  }

  // ----- the parser -----

  /** What is left without a newline when the input ends. */
  function TailInput(cfg: Setup, r: Ref, tail: seq<byte>, partial: bool): Input {
    var l := LineInput(cfg, r.key0, tail);
    l.(truncated := l.truncated || partial, partial := partial || cfg.transport)
  }

  ghost predicate TwinTails(cfg: Setup, r: Ref, tail: seq<byte>, r': Ref, tail': seq<byte>, partial: bool) {
    var l, l' := TailInput(cfg, r, tail, partial), TailInput(cfg, r', tail', partial);
    && (tail == [] <==> tail' == []) && NEWLINE !in tail && NEWLINE !in tail'
    && Twins(cfg, l, HeadOf(cfg, r.core.(line := r.core.line + 1), l), l', HeadOf(cfg, r'.core.(line := r'.core.line + 1), l'))
  }

  lemma StreamState(cfg: Setup, chunks: seq<seq<byte>>, lines: seq<seq<byte>>, tail: seq<byte>)
    requires AllLines(lines) && NEWLINE !in tail && Joined(chunks) == Joined(lines) + tail
    requires CleanLines(cfg, START, Joined(chunks))
    ensures FeedAll(cfg, NEW, chunks) == Concrete(cfg, AfterLines(cfg, lines).(line := tail))
  {
    hide FeedAll, Absorb, AfterLines, CleanLines, FindAll;
    EmptyLine(cfg);
    assert Concrete(cfg, START) == NEW;
    ReadsAreAbsorb(cfg, START, chunks);
    AbsorbLines(cfg, lines);
    AbsorbConcat(cfg, START, Joined(lines), tail);
    AbsorbPlain(cfg, AfterLines(cfg, lines), tail);
    assert [] + tail == tail;
  }

  lemma ClosedFrames(cfg: Setup, r: Ref, tail: seq<byte>, partial: bool)
    ensures var st := Concrete(cfg, r.(line := tail));
            var d := FinishLine(cfg, r.core, TailInput(cfg, r, tail, partial));
            var core, out := if tail == [] then r.core else d.core, if tail == [] then r.out else Emit(r.out, d.frame);
            var p := core.pending;
            Closed(cfg, st, partial).out
              == Emit(out, if partial && p.Some? then Some(p.value.(truncated := true, uncertain := true)) else p)
  {
    hide FinishLine, FindAll;
  }

  /**
   Private keys do not leak.  Take two streams whose lines hold the same key markers and
   differ only inside lines that lie in an open key or hold a marker, where the stamps,
   the cuts and the framing patterns agree.  However either is read, the parser emits the
   very same frames and holds the same pending one, and so it does when the input ends
   in the middle of such a line.
   */
  lemma {:induction false} KeysDoNotLeak(
      cfg: Setup, chunks: seq<seq<byte>>, lines: seq<seq<byte>>, tail: seq<byte>,
      chunks': seq<seq<byte>>, lines': seq<seq<byte>>, tail': seq<byte>, partial: bool)
    requires AllLines(lines) && Joined(chunks) == Joined(lines) + tail && CleanLines(cfg, START, Joined(chunks))
    requires AllLines(lines') && Joined(chunks') == Joined(lines') + tail' && CleanLines(cfg, START, Joined(chunks'))
    requires TwinStreams(cfg, lines, lines')
    requires TwinTails(cfg, AfterLines(cfg, lines), tail, AfterLines(cfg, lines'), tail', partial)
    ensures var st, st' := FeedAll(cfg, NEW, chunks), FeedAll(cfg, NEW, chunks');
            && st.out == st'.out && st.core.pending == st'.core.pending
            && Closed(cfg, st, partial).out == Closed(cfg, st', partial).out
  {
    hide FeedAll, AfterLines, CleanLines, FindAll, Closed, FinishLine, HeadOf, TailInput, TwinStreams, Twins;
    var r, r' := AfterLines(cfg, lines), AfterLines(cfg, lines');
    StreamState(cfg, chunks, lines, tail);
    StreamState(cfg, chunks', lines', tail');
    TwinsStayAlike(cfg, lines, lines');
    ClosedFrames(cfg, r, tail, partial);
    ClosedFrames(cfg, r', tail', partial);
    FinishAlike(cfg, r.core, r'.core, TailInput(cfg, r, tail, partial), TailInput(cfg, r', tail', partial));
  }

  /** Every frame that holds a private line is sensitive, and one made of it alone is the redaction. */
  lemma {:induction false} PrivateLinesAreRedacted(cfg: Setup, chunks: seq<seq<byte>>, lines: seq<seq<byte>>, k: nat)
    requires AllLines(lines) && Joined(chunks) == Joined(lines) && CleanLines(cfg, START, Joined(lines))
    requires k < |lines| && PrivateAt(cfg, lines, k) && HeadAt(cfg, lines, k).accepted
    ensures var frames := Closed(cfg, FeedAll(cfg, NEW, chunks), false).out;
            exists f :: f in frames && f.lineStart <= k + 1 <= f.lineEnd && f.sensitive
              && (f.lineCount == 1 ==> f.text == cfg.texts.clip("[REDACTED PRIVATE KEY]"))
  {
    hide FeedAll, AfterLines, CleanLines, FindAll, Closed, HeadAt, PrivateAt, Told;
    ReadsAreTold(cfg, chunks, lines);
    var st := FeedAll(cfg, NEW, chunks);
    var frames := Emit(st.out, st.core.pending);
    assert Shown(cfg, lines, k);
    var f :| f in frames && f.lineStart <= k + 1 <= f.lineEnd;
    FrameOfPrivate(cfg, lines, f, k);
  }

  lemma FrameOfPrivate(cfg: Setup, lines: seq<seq<byte>>, f: Frame, k: nat)
    requires Told(cfg, lines, f) && k < |lines| && f.lineStart <= k + 1 <= f.lineEnd
    requires PrivateAt(cfg, lines, k) && Shown(cfg, lines, k)
    ensures f.sensitive && (f.lineCount == 1 ==> f.text == cfg.texts.clip("[REDACTED PRIVATE KEY]"))
  {
    hide Shown, HeadAt, PrivateAt, LookAt, InputAt;
    var a, b := f.lineStart - 1, f.lineEnd;
    assert ChangedAt(cfg, lines, k);
    if f.lineCount == 1 {
      OnlyText(cfg, lines, a, b, k);
    }
  }

  lemma {:induction false} OnlyText(cfg: Setup, lines: seq<seq<byte>>, a: nat, b: nat, k: nat)
    requires a <= k < b <= |lines| && Shown(cfg, lines, k) && |ShownTexts(cfg, lines, a, b)| == 1
    ensures ShownTexts(cfg, lines, a, b) == [TextAt(cfg, lines, k)]
    decreases b
  {
    hide Shown, TextAt;
    if k < b - 1 {
      SomethingIn(cfg, lines, a, b - 1, k);
      OnlyText(cfg, lines, a, b - 1, k);
    }
  }

  lemma {:induction false} SomethingIn(cfg: Setup, lines: seq<seq<byte>>, a: nat, b: nat, k: nat)
    requires a <= k < b <= |lines| && Shown(cfg, lines, k)
    ensures ShownTexts(cfg, lines, a, b) != []
    decreases b
  {
    hide Shown, TextAt;
    if k < b - 1 {
      SomethingIn(cfg, lines, a, b - 1, k);
    }
  }
}
