/**
 The byte framer: physical lines from arbitrary reads, and events from lines.

 `Step` and `FeedData` follow the parser read by read; `Absorb` is a reference
 that takes one byte at a time and never looks at how the bytes arrived.
 `ChunkIndependence` says that both leave the same state.  Class `Parser` is the
 code.
 */
module Parser {
  import opened Wrappers
  import opened Pem

  const NEWLINE: byte := 10
  const MAX_LINE: nat := 65536

  /** A line handed to the acceptor: its transport instant, all its raw bytes, and whether it is partial. */
  datatype Call = Call(at: Option<int>, raw: seq<byte>, partial: bool)

  /** A framed event before its identity is computed. */
  datatype Frame = Frame(
    timestamp: Option<string>, text: string, lineStart: nat, lineEnd: nat, lineCount: nat,
    truncated: bool, sensitive: bool, uncertain: bool)

  datatype TransportStamp = TransportStamp(at: int, raw: string, rest: string)
  datatype OwnStamp = OwnStamp(stamp: string, rest: string)

  /** What redaction and the line patterns say about a text line. */
  datatype Look = Look(
    safe: string, changed: bool, ambiguous: bool, explicit: bool, continuation: bool, detail: bool,
    pythonFrame: bool, pythonLine: bool, goStart: bool, goHeader: bool, goFrame: bool)

  /** The text functions and patterns of the parser; their contents are not modelled. */
  datatype Texts = Texts(
    decode: seq<byte> -> string, invalid: seq<byte> -> bool,
    transport: string -> Option<TransportStamp>, own: string -> Option<OwnStamp>,
    look: string -> Look, overlong: string -> bool, clip: string -> string)

  datatype Setup = Setup(
    texts: Texts, pem: Pem, transport: bool, sourceSensitive: bool,
    // The acceptor's answer to the last of the calls made so far.
    accept: Option<seq<Call> -> bool>)

  const PRIVATE_TEXT: string := "[REDACTED PRIVATE KEY]"

  // ----- one finished line -----

  datatype Core = Core(pending: Option<Frame>, line: nat, stack: bool, python: bool, goStack: bool, calls: seq<Call>)
  datatype Input = Input(buffer: seq<byte>, raw: seq<byte>, truncated: bool, private: bool, partial: bool)
  datatype Done = Done(core: Core, frame: Option<Frame>)

  function Asked(cfg: Setup, c: Core, at: Option<int>, l: Input): Core {
    if cfg.transport && cfg.accept.Some? then c.(calls := c.calls + [Call(at, l.raw, l.partial)]) else c
  }

  /** A line with a timestamp continues a frame only inside a stack that calls for it. */
  predicate Continues(c: Core, look: Look, dated: bool) {
    var goDetail := c.goStack && (look.goHeader || look.goFrame);
    var detail := (c.stack && look.detail) || (c.python && look.pythonLine);
    if dated then look.explicit || detail || goDetail else look.continuation || goDetail
  }

  /** The text a line contributes, and its flags. */
  datatype Piece = Piece(safe: string, changed: bool, unsure: bool, trunc: bool)

  function PieceOf(cfg: Setup, l: Input, look: Look, stamped: bool): Piece {
    Piece(if l.private then PRIVATE_TEXT else look.safe, l.private || look.changed,
          l.partial || cfg.texts.invalid(l.buffer) || look.ambiguous || (cfg.transport && !stamped),
          l.truncated || l.partial)
  }

  function Extended(t: Texts, f: Frame, line: nat, p: Piece): Frame {
    var joined := f.text + "\n" + p.safe;
    f.(lineEnd := line, lineCount := f.lineCount + 1, sensitive := f.sensitive || p.changed,
       uncertain := f.uncertain || p.unsure, truncated := f.truncated || p.trunc || t.overlong(joined),
       text := t.clip(joined))
  }

  function Begun(cfg: Setup, ts: Option<string>, line: nat, p: Piece, orphan: bool): Frame {
    Frame(ts, cfg.texts.clip(p.safe), line, line, 1, p.trunc || cfg.texts.overlong(p.safe),
          p.changed || cfg.sourceSensitive, p.unsure || orphan)
  }

  /** A text line joins the pending frame or ends it and starts a new one. */
  function Framed(cfg: Setup, c: Core, l: Input, ts: Option<string>, text: string, stamped: bool): Done {
    var look := cfg.texts.look(text);
    var p := PieceOf(cfg, l, look, stamped);
    var continues := Continues(c, look, ts.Some?);
    if continues && c.pending.Some? then
      Done(c.(stack := c.stack || look.explicit, python := look.pythonFrame,
              pending := Some(Extended(cfg.texts, c.pending.value, c.line, p))),
           None)
    else
      Done(c.(stack := look.explicit, python := look.pythonFrame, goStack := look.goStart || look.goHeader,
              pending := Some(Begun(cfg, ts, c.line, p, continues && c.pending.None?))),
           c.pending)
  }

  /** What the start of a line says: the acceptor's answer, the timestamp and the text after it. */
  datatype Head = Head(core: Core, accepted: bool, ts: Option<string>, rest: string, stamped: bool)

  function HeadOf(cfg: Setup, c: Core, l: Input): (h: Head)
    ensures h.core.(calls := []) == c.(calls := [])
  {
    var text := cfg.texts.decode(l.buffer);
    var stamp := if cfg.transport then cfg.texts.transport(text) else None;
    if stamp.Some? then
      var asked := Asked(cfg, c, Some(stamp.value.at), l);
      Head(asked, cfg.accept.None? || cfg.accept.value(asked.calls), Some(stamp.value.raw), stamp.value.rest, true)
    else
      var own := cfg.texts.own(text);
      Head(Asked(cfg, c, None, l), true, if own.Some? then Some(own.value.stamp) else None,
           if own.Some? then own.value.rest else text, false)
  }

  function FinishLine(cfg: Setup, c: Core, l: Input): Done {
    var h := HeadOf(cfg, c.(line := c.line + 1), l);
    if !h.accepted || (h.rest == "" && !l.private && !l.truncated && !l.partial) then Done(h.core, None)
    else Framed(cfg, h.core, l, h.ts, h.rest, h.stamped)
  }

  // ----- reads -----

  /** The parser's fields, and the events it has returned so far. */
  datatype State = State(
    core: Core, inKey: bool, buffer: seq<byte>, truncated: bool, private: bool, marker: seq<byte>, hashed: seq<byte>,
    out: seq<Frame>)

  const NEW: State := State(Core(None, 0, false, false, false, []), false, [], false, false, [], [], [])

  function Emit(out: seq<Frame>, f: Option<Frame>): seq<Frame> {
    if f.Some? then out + [f.value] else out
  }

  function Min(a: nat, b: nat): nat { if a < b then a else b }

  /** Take a piece of a line into the buffer, the digest and the marker window. */
  function Took(cfg: Setup, st: State, chunk: seq<byte>): State
    requires |st.buffer| <= MAX_LINE
  {
    var scan := st.marker + chunk;
    var found := FindAll(cfg.pem, scan, 0);
    var take := Min(MAX_LINE - |st.buffer|, |chunk|);
    st.(hashed := st.hashed + chunk,
        private := st.private || st.inKey || found != [],
        inKey := AfterScan(st.inKey, found),
        marker := Tail(scan),
        buffer := st.buffer + chunk[..take],
        truncated := st.truncated || take < |chunk|)
  }

  function Finished(cfg: Setup, st: State, partial: bool): State {
    var d := FinishLine(cfg, st.core, Input(st.buffer, st.hashed, st.truncated, st.private, partial));
    State(d.core, st.inKey, [], false, st.inKey, [], [], Emit(st.out, d.frame))
  }

  /** One piece of a read: it has no newline, except perhaps as its last byte. */
  function Step(cfg: Setup, st: State, chunk: seq<byte>): State
    requires |st.buffer| <= MAX_LINE
  {
    var took := Took(cfg, st, chunk);
    if chunk != [] && chunk[|chunk| - 1] == NEWLINE then Finished(cfg, took, false) else took
  }

  /** The end of the first line of the data, or of the data. */
  function LineEnd(data: seq<byte>): (end: nat)
    requires data != []
    ensures 0 < end <= |data|
    ensures forall k :: 0 <= k < end - 1 ==> data[k] != NEWLINE
    ensures end < |data| ==> data[end - 1] == NEWLINE
  {
    if data[0] == NEWLINE || |data| == 1 then 1 else 1 + LineEnd(data[1..])
  }

  function FeedData(cfg: Setup, st: State, data: seq<byte>): (st': State)
    requires |st.buffer| <= MAX_LINE
    ensures |st'.buffer| <= MAX_LINE
    decreases |data|
  {
    if data == [] then st
    else
      var end := LineEnd(data);
      FeedData(cfg, Step(cfg, st, data[..end]), data[end..])
  }

  function FeedAll(cfg: Setup, st: State, chunks: seq<seq<byte>>): (st': State)
    requires |st.buffer| <= MAX_LINE
    ensures |st'.buffer| <= MAX_LINE
    decreases |chunks|
  {
    if chunks == [] then st else FeedAll(cfg, FeedData(cfg, st, chunks[0]), chunks[1..])
  }

  function Joined(chunks: seq<seq<byte>>): seq<byte> {
    if chunks == [] then [] else chunks[0] + Joined(chunks[1..])
  }

  /** End of input: a partial line is finished as such, and the pending frame is flushed. */
  function Closed(cfg: Setup, st: State, partial: bool): State {
    var st1 := if st.buffer == [] then st else Finished(cfg, st.(truncated := st.truncated || partial), partial || cfg.transport);
    var p := st1.core.pending;
    var p' := if partial && p.Some? then Some(p.value.(truncated := true, uncertain := true)) else p;
    st1.(core := st1.core.(pending := None, stack := false, python := false, goStack := false), out := Emit(st1.out, p'))
  }

  // ----- the reference -----

  /** The state at the start of the current line, the line so far, and the events so far. */
  datatype Ref = Ref(core: Core, key0: bool, line: seq<byte>, out: seq<Frame>)

  /** What a whole line amounts to, however it arrived. */
  function LineInput(cfg: Setup, key0: bool, line: seq<byte>): Input {
    Input(line[..Min(MAX_LINE, |line|)], line, MAX_LINE < |line|, key0 || FindAll(cfg.pem, line, 0) != [], false)
  }

  function AbsorbByte(cfg: Setup, r: Ref, b: byte): Ref {
    var line := r.line + [b];
    if b != NEWLINE then r.(line := line)
    else
      var d := FinishLine(cfg, r.core, LineInput(cfg, r.key0, line));
      Ref(d.core, AfterScan(r.key0, FindAll(cfg.pem, line, 0)), [], Emit(r.out, d.frame))
  }

  function Absorb(cfg: Setup, r: Ref, data: seq<byte>): Ref {
    if data == [] then r else AbsorbByte(cfg, Absorb(cfg, r, data[..|data| - 1]), data[|data| - 1])
  }

  /** The parser state that stands for a reference state. */
  function Concrete(cfg: Setup, r: Ref): State {
    var found := FindAll(cfg.pem, r.line, 0);
    State(r.core, AfterScan(r.key0, found), r.line[..Min(MAX_LINE, |r.line|)], MAX_LINE < |r.line|,
          r.key0 || found != [], Tail(r.line), r.line, r.out)
  }

  /** No line of the data has overlapping or over-long private-key markers. */
  ghost predicate CleanLines(cfg: Setup, r: Ref, data: seq<byte>) {
    forall k :: 0 <= k < |data| ==> CleanAt(cfg, r, data, k)
  }

  ghost predicate CleanAt(cfg: Setup, r: Ref, data: seq<byte>, k: nat)
    requires k < |data|
  {
    Clean(cfg.pem, Absorb(cfg, r, data[..k]).line + [data[k]])
  }

  // ----- chunk independence -----

  lemma {:induction false} AbsorbConcat(cfg: Setup, r: Ref, a: seq<byte>, b: seq<byte>)
    ensures Absorb(cfg, r, a + b) == Absorb(cfg, Absorb(cfg, r, a), b)
    decreases |b|
  {
    hide AbsorbByte;
    if b == [] {
      assert a + b == a;
    } else {
      assert (a + b)[..|a + b| - 1] == a + b[..|b| - 1];
      AbsorbConcat(cfg, r, a, b[..|b| - 1]);
    }
  }

  lemma {:induction false} AbsorbPlain(cfg: Setup, r: Ref, data: seq<byte>)
    requires forall k :: 0 <= k < |data| ==> data[k] != NEWLINE
    ensures Absorb(cfg, r, data) == r.(line := r.line + data)
  {
    if data == [] {
      assert r.line + data == r.line;
    } else {
      AbsorbPlain(cfg, r, data[..|data| - 1]);
      assert r.line + data == (r.line + data[..|data| - 1]) + [data[|data| - 1]];
    }
  }

  lemma BufferGrows(p: seq<byte>, c: seq<byte>)
    ensures var buffer := p[..Min(MAX_LINE, |p|)];
            var take := Min(MAX_LINE - |buffer|, |c|);
            && buffer + c[..take] == (p + c)[..Min(MAX_LINE, |p + c|)]
            && (MAX_LINE < |p| || take < |c| <==> MAX_LINE < |p + c|)
  {
  }

  lemma KeyMeansPrivate(key0: bool, found: seq<Kind>)
    ensures AfterScan(key0, found) ==> key0 || found != []
  {
  }

  /** Taking a piece of a line is as if the line so far and the piece had arrived together. */
  lemma TookIsConcrete(cfg: Setup, r: Ref, c: seq<byte>)
    requires Clean(cfg.pem, r.line + c)
    ensures Took(cfg, Concrete(cfg, r), c) == Concrete(cfg, r.(line := r.line + c))
  {
    WindowScan(cfg.pem, r.key0, r.line, c);
    TailOfTail(r.line, c);
    BufferGrows(r.line, c);
    KeyMeansPrivate(r.key0, FindAll(cfg.pem, r.line, 0));
    hide FindAll, AfterScan, Tail, Clean;
  }

  lemma FinishedIsConcrete(cfg: Setup, r: Ref, line: seq<byte>)
    requires line != [] && line[|line| - 1] == NEWLINE
    ensures Finished(cfg, Concrete(cfg, r.(line := line)), false)
         == Concrete(cfg, AbsorbByte(cfg, r.(line := line[..|line| - 1]), NEWLINE))
  {
    assert line[..|line| - 1] + [NEWLINE] == line;
    EmptyLine(cfg);
    hide FindAll, FinishLine;
  }

  lemma EmptyLine(cfg: Setup)
    ensures FindAll(cfg.pem, [], 0) == []
  {
  }

  lemma ConcreteFits(cfg: Setup, r: Ref)
    ensures |Concrete(cfg, r).buffer| <= MAX_LINE
  {
  }

  /** Everything but the last byte of a piece is plain. */
  lemma AbsorbPiece(cfg: Setup, r: Ref, c: seq<byte>)
    requires c != [] && forall k :: 0 <= k < |c| - 1 ==> c[k] != NEWLINE
    ensures var line := r.line + c;
            Absorb(cfg, r, c) == if c[|c| - 1] == NEWLINE then AbsorbByte(cfg, r.(line := line[..|line| - 1]), NEWLINE)
                                 else r.(line := line)
  {
    hide FinishLine, LineInput, AfterScan, FindAll;
    var front, b, line := c[..|c| - 1], c[|c| - 1], r.line + c;
    AbsorbPlain(cfg, r, front);
    assert line == r.line + front + [b] && line[..|line| - 1] == r.line + front;
  }

  lemma StepIsConcrete(cfg: Setup, r: Ref, c: seq<byte>)
    requires c != [] && Clean(cfg.pem, r.line + c) && forall k :: 0 <= k < |c| - 1 ==> c[k] != NEWLINE
    ensures Step(cfg, Concrete(cfg, r), c) == Concrete(cfg, Absorb(cfg, r, c))
  {
    hide FindAll, FinishLine, AfterScan, Tail, Clean, Took, Finished, Concrete, AbsorbByte, Absorb;
    TookIsConcrete(cfg, r, c);
    AbsorbPiece(cfg, r, c);
    ConcreteFits(cfg, r);
    if c[|c| - 1] == NEWLINE {
      assert (r.line + c)[|r.line + c| - 1] == NEWLINE;
      FinishedIsConcrete(cfg, r, r.line + c);
    }
  }

  lemma CleanChunk(cfg: Setup, r: Ref, data: seq<byte>, end: nat)
    requires CleanLines(cfg, r, data) && 0 < end <= |data|
    requires forall k :: 0 <= k < end - 1 ==> data[k] != NEWLINE
    ensures Clean(cfg.pem, r.line + data[..end])
    ensures CleanLines(cfg, Absorb(cfg, r, data[..end]), data[end..])
  {
    hide Clean, AbsorbByte;
    assert CleanAt(cfg, r, data, end - 1);
    AbsorbPlain(cfg, r, data[..end - 1]);
    assert r.line + data[..end - 1] + [data[end - 1]] == r.line + data[..end];
    forall k | 0 <= k < |data[end..]| ensures CleanAt(cfg, Absorb(cfg, r, data[..end]), data[end..], k) {
      assert CleanAt(cfg, r, data, end + k);
      AbsorbConcat(cfg, r, data[..end], data[end..][..k]);
      assert data[..end] + data[end..][..k] == data[..end + k];
    }
  }

  lemma AbsorbNothing(cfg: Setup, r: Ref)
    ensures Absorb(cfg, r, []) == r
  {
  }

  /** A read leaves the parser where the reference is after the same bytes. */
  lemma {:induction false} FeedIsAbsorb(cfg: Setup, r: Ref, data: seq<byte>)
    requires CleanLines(cfg, r, data)
    ensures FeedData(cfg, Concrete(cfg, r), data) == Concrete(cfg, Absorb(cfg, r, data))
    decreases |data|
  {
    ConcreteFits(cfg, r);
    hide Concrete, Step, AbsorbByte, CleanLines, LineEnd, Absorb, Clean;
    if data == [] {
      assert Absorb(cfg, r, data) == r by { AbsorbNothing(cfg, r); }
    } else {
      var end := LineEnd(data);
      CleanChunk(cfg, r, data, end);
      StepIsConcrete(cfg, r, data[..end]);
      AbsorbConcat(cfg, r, data[..end], data[end..]);
      assert data[..end] + data[end..] == data;
      FeedIsAbsorb(cfg, Absorb(cfg, r, data[..end]), data[end..]);
    }
  }

  lemma {:induction false} ReadsAreAbsorb(cfg: Setup, r: Ref, chunks: seq<seq<byte>>)
    requires CleanLines(cfg, r, Joined(chunks))
    ensures FeedAll(cfg, Concrete(cfg, r), chunks) == Concrete(cfg, Absorb(cfg, r, Joined(chunks)))
    decreases |chunks|
  {
    if chunks != [] {
      var rest := Joined(chunks[1..]);
      CleanSplit(cfg, r, chunks[0], rest);
      FeedIsAbsorb(cfg, r, chunks[0]);
      AbsorbConcat(cfg, r, chunks[0], rest);
      hide Concrete, FeedData, AbsorbByte, CleanLines;
      ReadsAreAbsorb(cfg, Absorb(cfg, r, chunks[0]), chunks[1..]);
    }
  }

  lemma CleanSplit(cfg: Setup, r: Ref, a: seq<byte>, b: seq<byte>)
    requires CleanLines(cfg, r, a + b)
    ensures CleanLines(cfg, r, a) && CleanLines(cfg, Absorb(cfg, r, a), b)
  {
    hide Clean, AbsorbByte;
    forall k | 0 <= k < |a| ensures CleanAt(cfg, r, a, k) {
      assert CleanAt(cfg, r, a + b, k);
      assert (a + b)[..k] == a[..k];
    }
    forall k | 0 <= k < |b| ensures CleanAt(cfg, Absorb(cfg, r, a), b, k) {
      assert CleanAt(cfg, r, a + b, |a| + k);
      AbsorbConcat(cfg, r, a, b[..k]);
      assert a + b[..k] == (a + b)[..|a| + k];
    }
  }

  /** The reference state of a new parser. */
  const START: Ref := Ref(Core(None, 0, false, false, false, []), false, [], [])

  /**
   Chunk independence.  Two ways of cutting the same bytes into reads leave the
   parser in the same state: the same events, acceptor calls and raw-line digests,
   the same truncation and private-key state, the same buffer, marker window and
   pending frame; lines of any length included.  The lines' private-key markers
   must be at most 129 bytes long and must not overlap.
   */
  lemma {:induction false} ChunkIndependence(cfg: Setup, chunks: seq<seq<byte>>, others: seq<seq<byte>>, partial: bool)
    requires Joined(chunks) == Joined(others) && CleanLines(cfg, START, Joined(chunks))
    ensures FeedAll(cfg, NEW, chunks) == FeedAll(cfg, NEW, others)
    ensures Closed(cfg, FeedAll(cfg, NEW, chunks), partial) == Closed(cfg, FeedAll(cfg, NEW, others), partial)
  {
    EmptyLine(cfg);
    assert Concrete(cfg, START) == NEW;
    ReadsAreAbsorb(cfg, START, chunks);
    ReadsAreAbsorb(cfg, START, others);
  }

  // ----- markers longer than the window -----

  lemma FeedPlain(cfg: Setup, st: State, data: seq<byte>)
    requires |st.buffer| <= MAX_LINE && data != [] && NEWLINE !in data
    ensures FeedData(cfg, st, data) == Took(cfg, st, data)
  {
    hide Took, Finished;
    var end := LineEnd(data);
    assert end == |data|;
    assert data[..end] == data && data[end..] == [];
  }

  lemma FeedOne(cfg: Setup, st: State, a: seq<byte>)
    requires |st.buffer| <= MAX_LINE
    ensures FeedAll(cfg, st, [a]) == FeedData(cfg, st, a)
  {
    hide FeedData;
    assert [a][1..] == [];
  }

  lemma FeedTwo(cfg: Setup, st: State, a: seq<byte>, b: seq<byte>)
    requires |st.buffer| <= MAX_LINE
    ensures FeedAll(cfg, st, [a, b]) == FeedData(cfg, FeedData(cfg, st, a), b)
  {
    hide FeedData;
    assert [a, b][1..] == [b];
    FeedOne(cfg, FeedData(cfg, st, a), b);
  }

  /** The key state and the window after a read without a newline. */
  lemma KeyAfter(cfg: Setup, st: State, data: seq<byte>)
    requires |st.buffer| <= MAX_LINE && data != [] && NEWLINE !in data
    ensures var st' := FeedData(cfg, st, data);
            && st'.inKey == AfterScan(st.inKey, FindAll(cfg.pem, st.marker + data, 0))
            && st'.marker == Tail(st.marker + data)
  {
    hide FeedData, FindAll, AfterScan, Tail;
    FeedPlain(cfg, st, data);
  }

  lemma JoinedOne(a: seq<byte>)
    ensures Joined([a]) == a
  {
    assert [a][1..] == [];
    assert a + [] == a;
  }

  lemma JoinedTwo(a: seq<byte>, b: seq<byte>)
    ensures Joined([a, b]) == a + b
  {
    assert [a, b][1..] == [b];
    JoinedOne(b);
  }

  lemma KeyAfterTwo(cfg: Setup, p: seq<byte>, c: seq<byte>)
    requires p != [] && c != [] && NEWLINE !in p && NEWLINE !in c
    ensures FeedAll(cfg, NEW, [p, c]).inKey
         == AfterScan(AfterScan(false, FindAll(cfg.pem, p, 0)), FindAll(cfg.pem, Tail(p) + c, 0))
  {
    hide FindAll, Tail, FeedData, FeedAll, AfterScan;
    FeedTwo(cfg, NEW, p, c);
    KeyAfter(cfg, NEW, p);
    KeyAfter(cfg, FeedData(cfg, NEW, p), c);
    assert [] + p == p;
  }

  /** Across a cut, the begin of a key is seen unless it starts before the window and ends after the cut. */
  lemma CutMarkerIsSeen(cfg: Setup, p: seq<byte>, c: seq<byte>, a: nat, e: nat)
    requires p != [] && c != [] && NEWLINE !in p + c
    requires OnlyMarker(cfg.pem, p + c, a, e) && cfg.pem((p + c)[a..e]) == Some(BeginKey)
    ensures FeedAll(cfg, NEW, [p, c]).inKey <==> e <= |p| || |p| - a <= WINDOW
  {
    hide FindAll, OnlyMarker, Tail, FeedAll;
    CutScan(cfg.pem, p, c, a, e);
    KeyAfterTwo(cfg, p, c);
  }

  lemma WholeMarkerIsSeen(cfg: Setup, s: seq<byte>, a: nat, e: nat)
    requires s != [] && NEWLINE !in s && OnlyMarker(cfg.pem, s, a, e) && cfg.pem(s[a..e]) == Some(BeginKey)
    ensures FeedAll(cfg, NEW, [s]).inKey
  {
    FindsOne(cfg.pem, s, 0, a, e);
    hide FindAll, OnlyMarker, Tail, FeedData, FeedAll;
    FeedOne(cfg, NEW, s);
    KeyAfter(cfg, NEW, s);
    assert [] + s == s;
  }

  lemma ShortMarkerIsClean(cfg: Setup, s: seq<byte>, a: nat, e: nat)
    requires NEWLINE !in s && OnlyMarker(cfg.pem, s, a, e) && e - a <= WINDOW + 1
    ensures CleanLines(cfg, START, s)
  {
    hide Absorb;
    forall k | 0 <= k < |s| ensures CleanAt(cfg, START, s, k) {
      AbsorbPlain(cfg, START, s[..k]);
      var line := s[..k + 1];
      assert Absorb(cfg, START, s[..k]).line + [s[k]] == line;
      forall b: nat, f: nat ensures Occurs(cfg.pem, line, b, f) ==> b == a && f == e {
        assert line + s[k + 1..] == s;
        OccursPrefix(cfg.pem, line, s[k + 1..], b, f);
      }
    }
  }

  /**
   The length bound of `ChunkIndependence` is exact: what the parser keeps of a line
   with one key marker is the same for all reads if and only if the marker is at
   most one byte longer than the window.
   */
  lemma {:induction false} MarkerLengthIsExact(cfg: Setup, s: seq<byte>, a: nat, e: nat)
    requires NEWLINE !in s && OnlyMarker(cfg.pem, s, a, e) && cfg.pem(s[a..e]) == Some(BeginKey)
    ensures (forall chunks :: Joined(chunks) == s ==> FeedAll(cfg, NEW, chunks) == FeedAll(cfg, NEW, [s]))
       <==> e - a <= WINDOW + 1
  {
    hide FeedAll, CleanLines;
    JoinedOne(s);
    if e - a <= WINDOW + 1 {
      ShortMarkerIsClean(cfg, s, a, e);
      forall chunks | Joined(chunks) == s ensures FeedAll(cfg, NEW, chunks) == FeedAll(cfg, NEW, [s]) {
        ChunkIndependence(cfg, chunks, [s], false);
      }
    } else {
      var p, c := s[..e - 1], s[e - 1..];
      assert p + c == s;
      CutMarkerIsSeen(cfg, p, c, a, e);
      WholeMarkerIsSeen(cfg, s, a, e);
      JoinedTwo(p, c);
    }
  }

  /**
   Markers that share bytes do depend on the reads: one scan finds the begin alone,
   a scan of the window finds the end as well.
   */
  lemma OverlapDependsOnReads(cfg: Setup, p: seq<byte>, c: seq<byte>, a: nat, e: nat, b: nat, f: nat)
    requires c != [] && NEWLINE !in p + c && OnlyOverlap(cfg.pem, p + c, a, e, b, f)
    requires f <= |p| && a < |p| - WINDOW <= b
    requires cfg.pem((p + c)[a..e]) == Some(BeginKey) && cfg.pem((p + c)[b..f]) == Some(EndKey)
    ensures FeedAll(cfg, NEW, [p + c]).inKey && !FeedAll(cfg, NEW, [p, c]).inKey
  {
    hide FindAll, OnlyOverlap, Tail, FeedData, FeedAll;
    OverlapScan(cfg.pem, p, c, a, e, b, f);
    KeyAfterTwo(cfg, p, c);
    FeedOne(cfg, NEW, p + c);
    KeyAfter(cfg, NEW, p + c);
    assert [] + (p + c) == p + c;
  }

  /** The current line is the end of what was absorbed. */
  lemma {:induction false} LineIsSuffix(cfg: Setup, data: seq<byte>) returns (i: nat)
    ensures i <= |data| && Absorb(cfg, START, data).line == data[i..]
  {
    hide FinishLine, FindAll, LineInput;
    i := 0;
    if data != [] {
      i := LineIsSuffix(cfg, data[..|data| - 1]);
      if data[|data| - 1] == NEWLINE {
        i := |data|;
      } else {
        assert data[..|data| - 1][i..] + [data[|data| - 1]] == data[i..];
      }
    }
  }

  ghost predicate NoMarker(pem: Pem, s: seq<byte>) {
    forall a: nat, e: nat :: !Occurs(pem, s, a, e)
  }

  lemma SliceOfSlice(s: seq<byte>, i: nat, j: nat, a: nat, e: nat)
    requires i <= j <= |s| && a <= e <= j - i
    ensures s[i..j][a..e] == s[i + a..i + e]
  {
    assert |s[i..j][a..e]| == e - a;
    forall k | 0 <= k < e - a ensures s[i..j][a..e][k] == s[i + a..i + e][k] {
      assert s[i..j][a..e][k] == s[i..j][a + k];
    }
  }

  /** Input without private-key markers meets the condition of chunk independence. */
  lemma {:induction false} NoMarkersAreClean(cfg: Setup, data: seq<byte>)
    requires NoMarker(cfg.pem, data)
    ensures CleanLines(cfg, START, data)
  {
    hide Absorb;
    forall k | 0 <= k < |data| ensures CleanAt(cfg, START, data, k) {
      var i := LineIsSuffix(cfg, data[..k]);
      var line := Absorb(cfg, START, data[..k]).line + [data[k]];
      assert line == data[i..k + 1];
      forall a: nat, e: nat ensures !Occurs(cfg.pem, line, a, e) {
        if a < e <= |line| {
          SliceOfSlice(data, i, k + 1, a, e);
          assert !Occurs(cfg.pem, data, i + a, i + e);
        }
      }
    }
  }

  // ----- frames -----

  /** A frame's line numbers are in order and count no line twice. */
  predicate FrameShape(f: Frame) {
    0 < f.lineStart <= f.lineEnd && 1 <= f.lineCount <= f.lineEnd - f.lineStart + 1
  }

  /** Emitted frames and the pending one are disjoint, in order, and end no later than the current line. */
  ghost predicate InOrder(core: Core, out: seq<Frame>) {
    var all := Emit(out, core.pending);
    && (forall k :: 0 <= k < |all| ==> FrameShape(all[k]) && all[k].lineEnd <= core.line)
    && (forall k, l :: 0 <= k < l < |all| ==> all[k].lineEnd < all[l].lineStart)
  }

  ghost predicate Untouched(c: Core, d: Done) {
    d.frame.None? && d.core.pending == c.pending
  }

  ghost predicate Joins(c: Core, d: Done, line: nat) {
    && d.frame.None? && c.pending.Some? && d.core.pending.Some?
    && d.core.pending.value.lineStart == c.pending.value.lineStart
    && d.core.pending.value.lineEnd == line
    && d.core.pending.value.lineCount == c.pending.value.lineCount + 1
  }

  ghost predicate Starts(c: Core, d: Done, line: nat) {
    && d.frame == c.pending && d.core.pending.Some?
    && d.core.pending.value.lineStart == d.core.pending.value.lineEnd == line
    && d.core.pending.value.lineCount == 1
  }

  lemma FramedCases(cfg: Setup, c: Core, l: Input, ts: Option<string>, text: string, stamped: bool)
    ensures var d := Framed(cfg, c, l, ts, text, stamped);
            d.core.line == c.line && (Joins(c, d, c.line) || Starts(c, d, c.line))
  {
    hide Continues, PieceOf;
  }

  /** A line leaves the frames alone, joins the pending one, or ends it and starts its own. */
  lemma FinishCases(cfg: Setup, c: Core, l: Input)
    ensures var d := FinishLine(cfg, c, l);
            d.core.line == c.line + 1 && (Untouched(c, d) || Joins(c, d, c.line + 1) || Starts(c, d, c.line + 1))
  {
    hide Framed, HeadOf;
    var h := HeadOf(cfg, c.(line := c.line + 1), l);
    FramedCases(cfg, h.core, l, h.ts, h.rest, h.stamped);
  }

  lemma FinishKeepsOrder(cfg: Setup, c: Core, l: Input, out: seq<Frame>)
    requires InOrder(c, out)
    ensures var d := FinishLine(cfg, c, l); InOrder(d.core, Emit(out, d.frame))
  {
    FinishCases(cfg, c, l);
    hide FinishLine;
    var all := Emit(out, c.pending);
    var d := FinishLine(cfg, c, l);
    if Joins(c, d, c.line + 1) {
      JoinKeepsOrder(c, d.core, out);
    } else if Starts(c, d, c.line + 1) {
      StartKeepsOrder(c, d.core, out);
    }
  }

  lemma JoinKeepsOrder(c: Core, c': Core, out: seq<Frame>)
    requires InOrder(c, out) && c'.line == c.line + 1 && Joins(c, Done(c', None), c.line + 1)
    ensures InOrder(c', out)
  {
    var all, all' := Emit(out, c.pending), Emit(out, c'.pending);
    assert all == out + [c.pending.value] && all' == out + [c'.pending.value];
    assert FrameShape(all[|out|]);
    forall k | 0 <= k < |out| ensures FrameShape(out[k]) && out[k].lineEnd < c'.pending.value.lineStart {
      assert all[k] == out[k] && all[k].lineEnd < all[|out|].lineStart;
    }
    forall k, l | 0 <= k < l < |all'| ensures all'[k].lineEnd < all'[l].lineStart {
      assert all[k].lineEnd < all[l].lineStart;
    }
  }

  lemma StartKeepsOrder(c: Core, c': Core, out: seq<Frame>)
    requires InOrder(c, out) && c'.line == c.line + 1 && Starts(c, Done(c', c.pending), c.line + 1)
    ensures InOrder(c', Emit(out, c.pending))
  {
    var all := Emit(out, c.pending);
    var all' := Emit(all, c'.pending);
    assert all' == all + [c'.pending.value];
    forall k, l | 0 <= k < l < |all'| ensures all'[k].lineEnd < all'[l].lineStart {
      assert all'[k] == all[k];
    }
  }

  /** Every line of the input belongs to at most one frame, and frames come out in order. */
  lemma {:induction false} FramesInOrder(cfg: Setup, data: seq<byte>)
    ensures var r := Absorb(cfg, START, data); InOrder(r.core, r.out)
  {
    if data != [] {
      FramesInOrder(cfg, data[..|data| - 1]);
      var r := Absorb(cfg, START, data[..|data| - 1]);
      if data[|data| - 1] == NEWLINE {
        FinishKeepsOrder(cfg, r.core, LineInput(cfg, r.key0, r.line + [NEWLINE]), r.out);
      }
      hide FinishLine, InOrder, FindAll, LineInput;
    }
  }

  // ----- the code -----

  lemma EmitBoth(start: seq<Frame>, frames: seq<Frame>, f: Option<Frame>)
    ensures Emit(start + frames, f) == start + Emit(frames, f)
  {
  }

  class Parser {
    const cfg: Setup
    var pending: Option<Frame>
    var line: nat
    var stack: bool
    var pythonSource: bool
    var goStack: bool
    var calls: seq<Call>
    var inKey: bool
    var buffer: seq<byte>
    var truncated: bool
    var private: bool
    var marker: seq<byte>
    var digest: seq<byte>
    // The events returned so far.
    ghost var out: seq<Frame>

    ghost function Model(): State
      reads this
    {
      State(CoreModel(), inKey, buffer, truncated, private, marker, digest, out)
    }

    ghost predicate Valid()
      reads this
    {
      |buffer| <= MAX_LINE
    }

    constructor (cfg: Setup)
      ensures this.cfg == cfg && Valid() && Model() == NEW
    {
      this.cfg := cfg;
      pending, line, stack, pythonSource, goStack, calls := None, 0, false, false, false, [];
      inKey, buffer, truncated, private, marker, digest, out := false, [], false, false, [], [], [];
    }

    method Feed(data: seq<byte>) returns (frames: seq<Frame>)
      requires Valid()
      modifies this
      ensures Valid() && Model() == FeedData(cfg, old(Model()), data) && out == old(out) + frames
    {
      hide FinishLine, Took, Finished, Emit;
      frames := [];
      var rest := data;
      while rest != []
        invariant Valid() && out == old(out) + frames
        invariant FeedData(cfg, Model(), rest) == FeedData(cfg, old(Model()), data)
        decreases |rest|
      {
        var end := LineEnd(rest);
        ghost var before := Model();
        var more := Piecewise(rest[..end]);
        assert FeedData(cfg, before, rest) == FeedData(cfg, Model(), rest[end..]);
        frames := frames + more;
        rest := rest[end..];
        hide LineEnd, Model;
      }
    }

    /** One piece of a read. */
    method Piecewise(chunk: seq<byte>) returns (frames: seq<Frame>)
      requires Valid() && chunk != []
      modifies this
      ensures Valid() && Model() == Step(cfg, old(Model()), chunk) && out == old(out) + frames
    {
      hide Took, Finished;
      Take(chunk);
      frames := [];
      if chunk[|chunk| - 1] == NEWLINE {
        var f := EndLine(false);
        frames := Emit(frames, f);
      }
    }

    /** The digest, the marker window, the key state and the bounded buffer see the bytes. */
    method Take(chunk: seq<byte>)
      requires Valid()
      modifies this
      ensures Valid() && Model() == Took(cfg, old(Model()), chunk) && out == old(out)
    {
      hide FindAll, AfterScan, Tail;
      digest := digest + chunk;
      Scan(chunk);
      Fill(chunk);
    }

    method Scan(chunk: seq<byte>)
      modifies `private, `inKey, `marker
      ensures var found := FindAll(cfg.pem, old(marker) + chunk, 0);
              private == (old(private) || old(inKey) || found != []) && inKey == AfterScan(old(inKey), found)
      ensures marker == Tail(old(marker) + chunk)
    {
      hide FindAll, AfterScan;
      var scan := marker + chunk;
      SeeMarkers(FindAll(cfg.pem, scan, 0));
      if |scan| > WINDOW {
        scan := scan[|scan| - WINDOW..];
      }
      marker := scan;
    }

    /** The buffer is bounded; what does not fit is remembered as truncation. */
    method Fill(chunk: seq<byte>)
      requires Valid()
      modifies `buffer, `truncated
      ensures var take := Min(MAX_LINE - |old(buffer)|, |chunk|);
              buffer == old(buffer) + chunk[..take] && truncated == (old(truncated) || take < |chunk|)
    {
      var room := MAX_LINE - |buffer|;
      var take := Min(room, |chunk|);
      buffer := buffer + chunk[..take];
      truncated := truncated || take < |chunk|;
    }

    /** A line that starts inside a key, or that holds a marker, is private; the last marker decides what follows. */
    method SeeMarkers(found: seq<Kind>)
      modifies `private, `inKey
      ensures private == (old(private) || old(inKey) || found != [])
      ensures inKey == AfterScan(old(inKey), found)
    {
      private := private || inKey;
      for i := 0 to |found|
        invariant inKey == AfterScan(old(inKey), found[..i])
        invariant private == (old(private) || old(inKey) || 0 < i)
      {
        private := true;
        inKey := found[i] == BeginKey;
        assert found[..i + 1][i] == found[i];
      }
      assert found[..|found|] == found;
    }

    method EndLine(partial: bool) returns (frame: Option<Frame>)
      requires Valid()
      modifies this
      ensures Valid() && Model() == Finished(cfg, old(Model()), partial) && out == Emit(old(out), frame)
    {
      hide FinishLine, Emit;
      var l := Reset(partial);
      frame := Frames(l);
      out := Emit(out, frame);
    }

    /** Forget the line; what follows is private while a key is open. */
    method Reset(partial: bool) returns (l: Input)
      modifies `buffer, `truncated, `private, `marker, `digest
      ensures l == old(Input(buffer, digest, truncated, private, partial))
      ensures buffer == [] && !truncated && private == inKey && marker == [] && digest == []
    {
      l := Input(buffer, digest, truncated, private, partial);
      buffer := [];
      truncated := false;
      private := inKey;
      marker := [];
      digest := [];
    }

    method Frames(l: Input) returns (frame: Option<Frame>)
      modifies `pending, `line, `stack, `pythonSource, `goStack, `calls
      ensures Done(CoreModel(), frame) == FinishLine(cfg, old(CoreModel()), l)
    {
      hide Framed, HeadOf;
      line := line + 1;
      frame := None;
      var accepted, ts, rest, stamped := ReadHead(l);
      if accepted && (rest != "" || l.private || l.truncated || l.partial) {
        frame := Join(l, ts, rest, stamped);
      }
    }

    ghost function CoreModel(): Core
      reads this
    {
      Core(pending, line, stack, pythonSource, goStack, calls)
    }

    /** The timestamp of the line; the acceptor hears of every line once, and may refuse a stamped one. */
    method ReadHead(l: Input) returns (accepted: bool, ts: Option<string>, rest: string, stamped: bool)
      modifies `calls
      ensures Head(CoreModel(), accepted, ts, rest, stamped) == HeadOf(cfg, old(CoreModel()), l)
    {
      rest := cfg.texts.decode(l.buffer);
      accepted, ts, stamped := true, None, false;
      if cfg.transport {
        var stamp := cfg.texts.transport(rest);
        if stamp.Some? {
          ts, rest, stamped := Some(stamp.value.raw), stamp.value.rest, true;
          if cfg.accept.Some? {
            calls := calls + [Call(Some(stamp.value.at), l.raw, l.partial)];
            accepted := cfg.accept.value(calls);
          }
        } else if cfg.accept.Some? {
          calls := calls + [Call(None, l.raw, l.partial)];
        }
      }
      if !stamped {
        var own := cfg.texts.own(rest);
        if own.Some? {
          ts, rest := Some(own.value.stamp), own.value.rest;
        }
      }
    }

    method Join(l: Input, ts: Option<string>, text: string, stamped: bool) returns (frame: Option<Frame>)
      modifies `pending, `stack, `pythonSource, `goStack
      ensures Done(CoreModel(), frame) == Framed(cfg, old(CoreModel()), l, ts, text, stamped)
    {
      hide Continues, Extended, PieceOf, Begun;
      var look := cfg.texts.look(text);
      var p := PieceOf(cfg, l, look, stamped);
      var continues := Goes(look, ts.Some?);
      if continues && pending.Some? {
        frame := None;
        Extend(look, p);
      } else {
        var orphan := continues && pending.None?;
        frame := Flush();
        Open(look, Begun(cfg, ts, line, p, orphan));
      }
    }

    method Goes(look: Look, dated: bool) returns (continues: bool)
      ensures continues == Continues(CoreModel(), look, dated)
    {
      var goDetail := goStack && (look.goHeader || look.goFrame);
      var detail := stack && look.detail;
      // A source line may follow a Python frame; being indented alone means nothing.
      detail := detail || (pythonSource && look.pythonLine);
      continues := look.continuation || goDetail;
      if dated {
        continues := look.explicit || detail || goDetail;
      }
    }

    method Extend(look: Look, p: Piece)
      requires pending.Some?
      modifies `pending, `stack, `pythonSource
      ensures stack == (old(stack) || look.explicit) && pythonSource == look.pythonFrame
      ensures pending == Some(Extended(cfg.texts, old(pending.value), line, p))
    {
      stack := stack || look.explicit;
      pythonSource := look.pythonFrame;
      pending := Some(Extended(cfg.texts, pending.value, line, p));
    }

    method Open(look: Look, f: Frame)
      modifies `pending, `stack, `pythonSource, `goStack
      ensures stack == look.explicit && pythonSource == look.pythonFrame && goStack == (look.goStart || look.goHeader)
      ensures pending == Some(f)
    {
      stack := look.explicit;
      pythonSource := look.pythonFrame;
      goStack := look.goStart || look.goHeader;
      pending := Some(f);
    }

    /** Hand over the pending frame. */
    method Flush() returns (frame: Option<Frame>)
      modifies `pending, `stack, `pythonSource, `goStack
      ensures frame == old(pending)
      ensures CoreModel() == old(CoreModel()).(pending := None, stack := false, python := false, goStack := false)
    {
      frame := pending;
      pending := None;
      stack, pythonSource, goStack := false, false, false;
    }

    /** End of input. */
    method Finish(partial: bool) returns (frames: seq<Frame>)
      requires Valid()
      modifies this
      ensures Valid() && Model() == Closed(cfg, old(Model()), partial) && out == old(out) + frames
    {
      hide Finished, Emit;
      frames := FinishRest(partial);
      Doubt(partial);
      var f := Flush();
      EmitBoth(old(out), frames, f);
      frames := Emit(frames, f);
      out := Emit(out, f);
    }

    method FinishRest(partial: bool) returns (frames: seq<Frame>)
      requires Valid()
      modifies this
      ensures Valid() && out == old(out) + frames
      ensures Model() == (if old(buffer) == [] then old(Model())
                          else Finished(cfg, old(Model()).(truncated := old(truncated) || partial), partial || cfg.transport))
    {
      hide Finished;
      frames := [];
      if |buffer| > 0 {
        truncated := truncated || partial;
        var f := EndLine(partial || cfg.transport);
        frames := Emit(frames, f);
      }
    }

    /** Even a complete line can lack the continuation lines that a cut input never delivered. */
    method Doubt(partial: bool)
      modifies `pending
      ensures pending == if partial && old(pending).Some? then Some(old(pending).value.(truncated := true, uncertain := true))
                         else old(pending)
    {
      if partial && pending.Some? {
        pending := Some(pending.value.(truncated := true, uncertain := true));
      }
    }
  }
}
