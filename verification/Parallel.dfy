/**
 Parallel judging: workers take chunks of the input from a channel and write their
 answers into the slots of one shared result.

 A schedule is any sequence of worker steps.  `OrderIsKept` says that whatever the
 schedule, the result lines up with the input.
 */
module Parallel {
  import opened Wrappers
  import opened Verdict

  /** What the provider says of a chunk: one judgment a group, or an error. */
  type Reply = Option<seq<Judgment>>

  datatype Worker =
    | Idle
    // Has taken the chunk at `start` and waits for the provider.
    | Asking(start: nat)
    // Writes the slots of the chunk; those before `index` are written.
    | Writing(start: nat, index: nat, reply: Reply)

  datatype State = State(next: nat, workers: seq<Worker>, out: seq<Option<Judgment>>, replies: map<nat, Reply>)

  datatype Config = Config(count: nat, size: nat, unknown: Judgment)

  predicate ValidConfig(cfg: Config) {
    0 < cfg.size <= 64
  }

  function End(cfg: Config, start: nat): nat {
    if start + cfg.size < cfg.count then start + cfg.size else cfg.count
  }

  datatype Step = Take(w: nat) | Answer(w: nat, reply: Reply) | Write(w: nat)

  function Slot(cfg: Config, start: nat, reply: Reply, index: nat): Judgment
    requires start <= index < End(cfg, start)
  {
    if reply.Some? && |reply.value| == End(cfg, start) - start then reply.value[index - start] else cfg.unknown
  }

  function After(cfg: Config, s: State, step: Step): State {
    if step.w >= |s.workers| then s
    else
      match step
      case Take(w) =>
        if s.workers[w].Idle? && s.next < cfg.count then
          s.(next := s.next + cfg.size, workers := s.workers[w := Asking(s.next)])
        else s
      case Answer(w, reply) =>
        if s.workers[w].Asking? then
          var start := s.workers[w].start;
          s.(workers := s.workers[w := Writing(start, start, reply)], replies := s.replies[start := reply])
        else s
      case Write(w) =>
        if s.workers[w].Writing? then
          var p := s.workers[w];
          if p.start <= p.index < End(cfg, p.start) && p.index < |s.out| then
            s.(out := s.out[p.index := Some(Slot(cfg, p.start, p.reply, p.index))],
               workers := s.workers[w := p.(index := p.index + 1)])
          else s.(workers := s.workers[w := Idle])
        else s
  }

  function Initial(cfg: Config, workers: nat): State {
    State(0, seq(workers, _ => Idle), seq(cfg.count, _ => None), map[])
  }

  function Run(cfg: Config, workers: nat, steps: seq<Step>): State {
    if steps == [] then Initial(cfg, workers)
    else After(cfg, Run(cfg, workers, steps[..|steps| - 1]), steps[|steps| - 1])
  }

  /** Everything was handed out and every worker has returned. */
  ghost predicate Finished(cfg: Config, s: State) {
    cfg.count <= s.next && forall w :: 0 <= w < |s.workers| ==> s.workers[w].Idle?
  }

  // ----- tiling -----

  /** The starts that the hand-out loop counts through. */
  predicate Aligned(size: nat, start: nat)
    requires 0 < size
  {
    start == 0 || (size <= start && Aligned(size, start - size))
  }

  function Floor(size: nat, i: nat): nat
    requires 0 < size
  {
    if i < size then 0 else size + Floor(size, i - size)
  }

  /** The start of the chunk that holds a slot. */
  function ChunkOf(cfg: Config, i: nat): nat
    requires ValidConfig(cfg)
  {
    Floor(cfg.size, i)
  }

  lemma {:induction false} FloorIsBelow(size: nat, i: nat)
    requires 0 < size
    ensures Floor(size, i) <= i < Floor(size, i) + size && Aligned(size, Floor(size, i))
  {
    if size <= i {
      FloorIsBelow(size, i - size);
    }
  }

  lemma AlignedFloor(size: nat, start: nat)
    requires 0 < size && Aligned(size, start)
    ensures Floor(size, start) == start
  {
    SameChunk(start, start, size);
  }

  lemma {:induction false} SameChunk(i: nat, start: nat, size: nat)
    requires 0 < size && Aligned(size, start) && start <= i < start + size
    ensures Floor(size, i) == start
  {
    if 0 < start {
      SameChunk(i - size, start - size, size);
    }
  }

  /** The chunks tile the input: every slot is in exactly one of them. */
  lemma {:induction false} ChunksTile(cfg: Config, i: nat, start: nat)
    requires ValidConfig(cfg) && i < cfg.count && Aligned(cfg.size, start)
    ensures start <= i < End(cfg, start) <==> start == ChunkOf(cfg, i)
    ensures Aligned(cfg.size, ChunkOf(cfg, i)) && ChunkOf(cfg, i) < cfg.count
  {
    hide Aligned, Floor;
    FloorIsBelow(cfg.size, i);
    if start <= i < start + cfg.size {
      SameChunk(i, start, cfg.size);
    }
  }

  // ----- what holds under every schedule -----

  predicate Busy(p: Worker, start: nat) {
    (p.Asking? || p.Writing?) && p.start == start
  }

  predicate WorkerOk(cfg: Config, s: State, p: Worker)
    requires ValidConfig(cfg)
  {
    && (p.Asking? || p.Writing? ==> Aligned(cfg.size, p.start) && p.start < cfg.count && p.start < s.next)
    && (p.Asking? ==> p.start !in s.replies)
    && (p.Writing? ==> p.start <= p.index <= End(cfg, p.start) && p.start in s.replies && s.replies[p.start] == p.reply)
  }

  /** A slot holds its chunk's answer once its chunk is answered and written that far. */
  ghost predicate SlotOk(cfg: Config, s: State, i: nat)
    requires ValidConfig(cfg) && i < |s.out| == cfg.count
  {
    var start := ChunkOf(cfg, i);
    start <= i < End(cfg, start) && start < s.next
    && (forall w :: 0 <= w < |s.workers| && Busy(s.workers[w], start) ==> s.workers[w].Writing? && i < s.workers[w].index)
    ==> start in s.replies && s.out[i] == Some(Slot(cfg, start, s.replies[start], i))
  }

  ghost predicate Inv(cfg: Config, s: State) {
    && ValidConfig(cfg) && |s.out| == cfg.count && Aligned(cfg.size, s.next)
    && (forall w :: 0 <= w < |s.workers| ==> WorkerOk(cfg, s, s.workers[w]))
    && (forall v, w :: 0 <= v < w < |s.workers| && !s.workers[v].Idle? && !s.workers[w].Idle? ==>
          s.workers[v].start != s.workers[w].start)
    && (forall start :: start in s.replies ==> start < s.next)
    && (forall i: nat :: i < cfg.count ==> SlotOk(cfg, s, i))
  }

  lemma InitialInv(cfg: Config, workers: nat)
    requires ValidConfig(cfg)
    ensures Inv(cfg, Initial(cfg, workers))
  {
  }

  /** A chunk that starts before the next hand-out and not before this one is this one. */
  lemma NextChunk(cfg: Config, next: nat, i: nat)
    requires ValidConfig(cfg) && Aligned(cfg.size, next) && i < cfg.count
    requires ChunkOf(cfg, i) < next + cfg.size && next <= ChunkOf(cfg, i)
    ensures ChunkOf(cfg, i) == next
  {
    ChunksTile(cfg, i, next);
    FloorIsBelow(cfg.size, i);
    AlignedFloor(cfg.size, ChunkOf(cfg, i));
    SameChunk(ChunkOf(cfg, i), next, cfg.size);
  }

  lemma TakeKeepsInv(cfg: Config, s: State, w: nat)
    requires Inv(cfg, s)
    ensures Inv(cfg, After(cfg, s, Take(w)))
  {
    hide Slot, End;
    var s' := After(cfg, s, Take(w));
    if s' != s {
      forall i: nat | i < cfg.count ensures SlotOk(cfg, s', i) {
        hide ChunkOf;
        assert SlotOk(cfg, s, i);
        var start := ChunkOf(cfg, i);
        assert Busy(s'.workers[w], s.next) && !s'.workers[w].Writing?;
        if s.next <= start < s.next + cfg.size {
          NextChunk(cfg, s.next, i);
        } else if start < s.next {
          assert forall v :: 0 <= v < |s.workers| && v != w ==> s'.workers[v] == s.workers[v];
          assert !Busy(s'.workers[w], start);
        }
      }
      hide SlotOk;
    }
  }

  lemma AnswerKeepsInv(cfg: Config, s: State, w: nat, reply: Reply)
    requires Inv(cfg, s)
    ensures Inv(cfg, After(cfg, s, Answer(w, reply)))
  {
    hide Slot;
    var s' := After(cfg, s, Answer(w, reply));
    if s' != s {
      var at := s.workers[w].start;
      forall i: nat | i < cfg.count ensures SlotOk(cfg, s', i) {
        hide ChunkOf;
        assert SlotOk(cfg, s, i);
        var start := ChunkOf(cfg, i);
        assert Busy(s'.workers[w], at) && s'.workers[w].index == at;
        if start != at {
          assert forall v :: 0 <= v < |s.workers| && v != w ==> s'.workers[v] == s.workers[v];
          assert !Busy(s'.workers[w], start) && !Busy(s.workers[w], start);
        }
      }
      hide SlotOk;
    }
  }

  lemma WriteKeepsInv(cfg: Config, s: State, w: nat)
    requires Inv(cfg, s)
    ensures Inv(cfg, After(cfg, s, Write(w)))
  {
    hide Slot;
    var s' := After(cfg, s, Write(w));
    if w < |s.workers| && s.workers[w].Writing? {
      var p := s.workers[w];
      assert WorkerOk(cfg, s, p);
      assert forall v :: 0 <= v < |s.workers| && v != w ==> s'.workers[v] == s.workers[v];
      forall i: nat | i < cfg.count ensures SlotOk(cfg, s', i) {
        assert SlotOk(cfg, s, i);
        SlotWritten(cfg, s, w, i);
      }
      hide SlotOk;
    }
  }

  lemma SlotWritten(cfg: Config, s: State, w: nat, i: nat)
    requires Inv(cfg, s) && w < |s.workers| && s.workers[w].Writing? && i < cfg.count
    ensures SlotOk(cfg, After(cfg, s, Write(w)), i)
  {
    hide Slot, Floor, Aligned;
    var s', p := After(cfg, s, Write(w)), s.workers[w];
    assert SlotOk(cfg, s, i) && WorkerOk(cfg, s, p);
    assert forall v :: 0 <= v < |s.workers| && v != w ==> s'.workers[v] == s.workers[v];
    ChunksTile(cfg, i, p.start);
    if p.index < End(cfg, p.start) {
      ChunksTile(cfg, p.index, p.start);
    }
    hide ChunkOf;
    var start := ChunkOf(cfg, i);
    if start == p.start {
      assert Busy(s.workers[w], start) && p.start in s.replies && s.replies[p.start] == p.reply;
      assert p.index < End(cfg, p.start) ==> s'.workers[w] == p.(index := p.index + 1) && Busy(s'.workers[w], start);
      forall v | 0 <= v < |s.workers| && v != w ensures !Busy(s.workers[v], start) {
        assert s.workers[v].Idle? || s.workers[v].start != p.start;
      }
    } else {
      assert !Busy(s.workers[w], start) && !Busy(s'.workers[w], start);
      assert i != p.index || p.index >= End(cfg, p.start);
    }
  }

  lemma {:induction false} RunKeepsInv(cfg: Config, workers: nat, steps: seq<Step>)
    requires ValidConfig(cfg)
    ensures Inv(cfg, Run(cfg, workers, steps))
    decreases |steps|
  {
    hide After, Inv;
    if steps == [] {
      InitialInv(cfg, workers);
    } else {
      var s := Run(cfg, workers, steps[..|steps| - 1]);
      RunKeepsInv(cfg, workers, steps[..|steps| - 1]);
      match steps[|steps| - 1] {
        case Take(w) => TakeKeepsInv(cfg, s, w);
        case Answer(w, reply) => AnswerKeepsInv(cfg, s, w, reply);
        case Write(w) => WriteKeepsInv(cfg, s, w);
      }
    }
  }

  /**
   Order is kept: when the workers have returned, whatever the schedule was, every
   slot holds what the provider said about that line in the answer for its chunk, or
   the unknown judgment if that answer was an error or of the wrong length.
   */
  lemma {:induction false} OrderIsKept(cfg: Config, workers: nat, steps: seq<Step>, i: nat)
    requires ValidConfig(cfg) && i < cfg.count && Finished(cfg, Run(cfg, workers, steps))
    ensures var s, start := Run(cfg, workers, steps), ChunkOf(cfg, i);
            && |s.out| == cfg.count && start <= i < End(cfg, start) && start in s.replies
            && s.out[i] == Some(Slot(cfg, start, s.replies[start], i))
  {
    var s := Run(cfg, workers, steps);
    hide Run, Slot, Floor, Aligned;
    RunKeepsInv(cfg, workers, steps);
    FloorIsBelow(cfg.size, i);
    ChunksTile(cfg, i, ChunkOf(cfg, i));
    assert SlotOk(cfg, s, i);
  }

  /**
   So every line gets its own answer: when all is done, line `i` of a chunk has judgment
   number `i` less the start of the chunk of the reply for that chunk, and all lines of a
   chunk whose reply is an error or of another length are unknown.
   */
  lemma {:induction false} LinesGetTheirOwn(cfg: Config, workers: nat, steps: seq<Step>, start: nat, k: nat)
    requires ValidConfig(cfg) && Finished(cfg, Run(cfg, workers, steps))
    requires Aligned(cfg.size, start) && k < cfg.size && start + k < cfg.count
    ensures var s := Run(cfg, workers, steps);
            var long := if start + cfg.size <= cfg.count then cfg.size else cfg.count - start;
            && |s.out| == cfg.count && start in s.replies
            && s.out[start + k] == Some(if s.replies[start].Some? && |s.replies[start].value| == long
                                        then s.replies[start].value[k] else cfg.unknown)
  {
    hide Run, Floor, Aligned, Finished;
    ChunksTile(cfg, start + k, start);
    OrderIsKept(cfg, workers, steps, start + k);
  }

  /** What is left to do; every effective step does some of it. */
  function Rest(cfg: Config, p: Worker): nat {
    match p
    case Idle => 0
    case Asking(_) => cfg.size + 2
    case Writing(start, index, _) => if index < End(cfg, start) then End(cfg, start) - index + 1 else 1
  }

  /** No schedule gets stuck: until everything is done, some worker can move. */
  lemma {:induction false} SomeoneCanMove(cfg: Config, s: State) returns (step: Step)
    requires Inv(cfg, s) && 0 < |s.workers| && !Finished(cfg, s)
    ensures After(cfg, s, step) != s
    ensures step.w < |s.workers| && var p, q := s.workers[step.w], After(cfg, s, step).workers[step.w];
            if step.Take? then s.next < cfg.count && After(cfg, s, step).next == s.next + cfg.size
            else After(cfg, s, step).next == s.next && Rest(cfg, q) < Rest(cfg, p)
  {
    hide SlotOk, Slot;
    if w: nat :| w < |s.workers| && !s.workers[w].Idle? {
      assert WorkerOk(cfg, s, s.workers[w]);
      if s.workers[w].Asking? {
        step := Answer(w, None);
      } else {
        step := Write(w);
      }
    } else {
      step := Take(0);
    }
  }

  // ----- the code -----

  class Pool {
    const cfg: Config
    // The channel's next chunk, the workers, the shared result and the answers so far.
    var next: nat
    var workers: seq<Worker>
    const out: array<Option<Judgment>>
    ghost var replies: map<nat, Reply>

    ghost function Model(): State
      reads this, out
    {
      State(next, workers, out[..], replies)
    }

    constructor (cfg: Config, count: nat)
      requires ValidConfig(cfg)
      ensures this.cfg == cfg && Model() == Initial(cfg, count) && fresh(out)
    {
      this.cfg := cfg;
      next, workers, replies := 0, seq(count, _ => Idle), map[];
      out := new Option<Judgment>[cfg.count](_ => None);
    }

    method TakeChunk(w: nat)
      requires w < |workers| && workers[w].Idle? && next < cfg.count
      modifies `next, `workers
      ensures Model() == After(cfg, old(Model()), Take(w))
    {
      workers := workers[w := Asking(next)];
      next := next + cfg.size;
    }

    method Receive(w: nat, reply: Reply)
      requires w < |workers| && workers[w].Asking?
      modifies `workers, `replies
      ensures Model() == After(cfg, old(Model()), Answer(w, reply))
    {
      var start := workers[w].start;
      workers := workers[w := Writing(start, start, reply)];
      replies := replies[start := reply];
    }

    /** A slot is unknown until the answer says otherwise; after the last slot the worker is idle again. */
    method WriteSlot(w: nat)
      requires w < |workers| && workers[w].Writing? && workers[w].start <= workers[w].index
      requires out.Length == cfg.count
      modifies `workers, out
      ensures Model() == After(cfg, old(Model()), Write(w))
    {
      var p := workers[w];
      var end := End(cfg, p.start);
      if p.index < end {
        out[p.index] := Some(cfg.unknown);
        if p.reply.Some? && |p.reply.value| == end - p.start {
          out[p.index] := Some(p.reply.value[p.index - p.start]);
        }
        workers := workers[w := p.(index := p.index + 1)];
      } else {
        workers := workers[w := Idle];
      }
    }
  }
}
