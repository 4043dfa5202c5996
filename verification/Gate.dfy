/**
 The reference-counted gate in front of a file's descriptor flags.

 Writers of one file share one gate through a table that is guarded by a lock.  The
 gate is entered under the lock, acquired and drained outside of it, and dropped
 under it again; any writer may be cancelled while it waits.
 */
module Gate {

  datatype Identity = Identity(dev: nat, ino: nat)

  /** A gate: the writers that refer to it, and whether its one slot is taken. */
  datatype Cell = Cell(refs: int, taken: bool)

  /** Where a writer is; gates are named by their position. */
  datatype Phase = Waiting | Holding | Releasing | Cancelling | Gone
  datatype Writer = Writer(key: Identity, gate: nat, phase: Phase)

  datatype System = System(entries: map<Identity, nat>, cells: seq<Cell>, writers: seq<Writer>)

  datatype Step = Own(key: Identity) | Acquire(w: nat) | Cancel(w: nat) | Drain(w: nat) | Drop(w: nat)

  // ----- the table -----

  datatype Table = Table(entries: map<Identity, nat>, cells: seq<Cell>)

  /** The gate of a file, made if there is none, with one more reference. */
  function Entered(t: Table, key: Identity): Table {
    var fresh' := key !in t.entries;
    var g := if fresh' then |t.cells| else t.entries[key];
    var cells := if fresh' then t.cells + [Cell(0, false)] else t.cells;
    Table(t.entries[key := g], if g < |cells| then cells[g := cells[g].(refs := cells[g].refs + 1)] else cells)
  }

  function Dropped(t: Table, key: Identity, g: nat): Table
    requires g < |t.cells|
  {
    var refs := t.cells[g].refs - 1;
    Table(if refs == 0 then t.entries - {key} else t.entries, t.cells[g := t.cells[g].(refs := refs)])
  }

  function Moved(s: System, w: nat, phase: Phase): seq<Writer>
    requires w < |s.writers|
  {
    s.writers[w := s.writers[w].(phase := phase)]
  }

  function After(s: System, step: Step): System {
    match step
    case Own(key) =>
      var t := Entered(Table(s.entries, s.cells), key);
      System(t.entries, t.cells, s.writers + [Writer(key, t.entries[key], Waiting)])
    case Acquire(w) =>
      if w < |s.writers| && s.writers[w].phase == Waiting && s.writers[w].gate < |s.cells| && !s.cells[s.writers[w].gate].taken then
        var g := s.writers[w].gate;
        s.(cells := s.cells[g := s.cells[g].(taken := true)], writers := Moved(s, w, Holding))
      else s
    case Cancel(w) =>
      if w < |s.writers| && s.writers[w].phase == Waiting then s.(writers := Moved(s, w, Cancelling)) else s
    case Drain(w) =>
      if w < |s.writers| && s.writers[w].phase == Holding && s.writers[w].gate < |s.cells| then
        var g := s.writers[w].gate;
        s.(cells := s.cells[g := s.cells[g].(taken := false)], writers := Moved(s, w, Releasing))
      else s
    case Drop(w) =>
      if w < |s.writers| && (s.writers[w].phase == Releasing || s.writers[w].phase == Cancelling) && s.writers[w].gate < |s.cells| then
        var t := Dropped(Table(s.entries, s.cells), s.writers[w].key, s.writers[w].gate);
        System(t.entries, t.cells, Moved(s, w, Gone))
      else s
  }

  const NOBODY: System := System(map[], [], [])

  function Run(steps: seq<Step>): System {
    if steps == [] then NOBODY else After(Run(steps[..|steps| - 1]), steps[|steps| - 1])
  }

  // ----- counting writers -----

  predicate Live(p: Writer, key: Identity) {
    p.key == key && p.phase != Gone
  }

  predicate Holds(p: Writer, key: Identity) {
    p.key == key && p.phase == Holding
  }

  function Lives(ws: seq<Writer>, key: Identity): nat {
    if ws == [] then 0 else Lives(ws[..|ws| - 1], key) + if Live(ws[|ws| - 1], key) then 1 else 0
  }

  function Holders(ws: seq<Writer>, key: Identity): nat {
    if ws == [] then 0 else Holders(ws[..|ws| - 1], key) + if Holds(ws[|ws| - 1], key) then 1 else 0
  }

  lemma {:induction false} CountsOfChanged(ws: seq<Writer>, w: nat, p: Writer, key: Identity)
    requires w < |ws|
    ensures Lives(ws[w := p], key) == Lives(ws, key) - (if Live(ws[w], key) then 1 else 0) + (if Live(p, key) then 1 else 0)
    ensures Holders(ws[w := p], key) == Holders(ws, key) - (if Holds(ws[w], key) then 1 else 0) + (if Holds(p, key) then 1 else 0)
    decreases |ws|
  {
    hide Live, Holds;
    var n := |ws| - 1;
    if w == n {
      assert ws[w := p][..n] == ws[..n];
    } else {
      CountsOfChanged(ws[..n], w, p, key);
      assert ws[w := p][..n] == ws[..n][w := p];
    }
  }

  lemma CountsOfMore(ws: seq<Writer>, p: Writer, key: Identity)
    ensures Lives(ws + [p], key) == Lives(ws, key) + if Live(p, key) then 1 else 0
    ensures Holders(ws + [p], key) == Holders(ws, key) + if Holds(p, key) then 1 else 0
  {
    assert (ws + [p])[..|ws|] == ws;
  }

  lemma {:induction false} SomeoneLives(ws: seq<Writer>, w: nat, key: Identity)
    requires w < |ws| && Live(ws[w], key)
    ensures 0 < Lives(ws, key) && (Holds(ws[w], key) ==> 0 < Holders(ws, key))
    decreases |ws|
  {
    if w < |ws| - 1 {
      SomeoneLives(ws[..|ws| - 1], w, key);
    }
  }

  /** Two different holders count as two. */
  lemma {:induction false} TwoHolders(ws: seq<Writer>, v: nat, w: nat, key: Identity)
    requires v < w < |ws| && Holds(ws[v], key) && Holds(ws[w], key)
    ensures 2 <= Holders(ws, key)
    decreases |ws|
  {
    if w < |ws| - 1 {
      TwoHolders(ws[..|ws| - 1], v, w, key);
    } else {
      SomeoneLives(ws[..w], v, key);
    }
  }

  // ----- what holds in every interleaving -----

  ghost predicate EntryOk(s: System, key: Identity) {
    if key in s.entries then
      && s.entries[key] < |s.cells|
      && s.cells[s.entries[key]].refs == Lives(s.writers, key) > 0
      && Holders(s.writers, key) == if s.cells[s.entries[key]].taken then 1 else 0
    else Lives(s.writers, key) == 0
  }

  ghost predicate WriterOk(s: System, p: Writer) {
    p.phase != Gone ==> p.key in s.entries && s.entries[p.key] == p.gate
  }

  ghost predicate Inv(s: System) {
    && (forall key :: EntryOk(s, key))
    && (forall w :: 0 <= w < |s.writers| ==> WriterOk(s, s.writers[w]))
    // No two files share a gate.
    && (forall k, l :: k in s.entries && l in s.entries && s.entries[k] == s.entries[l] ==> k == l)
  }

  lemma {:induction false} HoldersLive(ws: seq<Writer>, key: Identity)
    ensures Holders(ws, key) <= Lives(ws, key)
    decreases |ws|
  {
    if ws != [] {
      HoldersLive(ws[..|ws| - 1], key);
    }
  }

  lemma OwnKeepsInv(s: System, key: Identity)
    requires Inv(s)
    ensures Inv(After(s, Own(key)))
  {
    hide Lives, Holders;
    var s' := After(s, Own(key));
    assert EntryOk(s, key);
    forall k ensures EntryOk(s', k) {
      assert EntryOk(s, k);
      CountsOfMore(s.writers, s'.writers[|s.writers|], k);
      HoldersLive(s.writers, k);
    }
    forall k, l | k in s'.entries && l in s'.entries && s'.entries[k] == s'.entries[l] ensures k == l {
      assert EntryOk(s, k) && EntryOk(s, l);
    }
  }

  lemma MoveKeepsInv(s: System, w: nat, step: Step)
    requires Inv(s) && w < |s.writers|
    requires step == Acquire(w) || step == Cancel(w) || step == Drain(w)
    ensures Inv(After(s, step))
  {
    hide Lives, Holders;
    var s' := After(s, step);
    var p := s.writers[w];
    assert WriterOk(s, p);
    if s' != s {
      forall k ensures EntryOk(s', k) {
        assert EntryOk(s, k);
        CountsOfChanged(s.writers, w, s'.writers[w], k);
        if step.Drain? {
          SomeoneLives(s.writers, w, p.key);
        }
      }
    }
  }

  lemma DropKeepsInv(s: System, w: nat)
    requires Inv(s) && w < |s.writers|
    ensures Inv(After(s, Drop(w)))
  {
    hide Lives, Holders;
    var s' := After(s, Drop(w));
    var p := s.writers[w];
    assert WriterOk(s, p);
    if s' != s {
      forall k ensures EntryOk(s', k) {
        assert EntryOk(s, k);
        CountsOfChanged(s.writers, w, s'.writers[w], k);
      }
      assert EntryOk(s, p.key);
      forall v | 0 <= v < |s'.writers| ensures WriterOk(s', s'.writers[v]) {
        if v != w {
          assert WriterOk(s, s.writers[v]);
          if s.writers[v].phase != Gone && s.writers[v].key == p.key {
            CountsOfChanged(s.writers, w, s'.writers[w], p.key);
            SomeoneLives(s'.writers, v, p.key);
          }
        }
      }
    }
  }

  lemma {:induction false} RunKeepsInv(steps: seq<Step>)
    ensures Inv(Run(steps))
    decreases |steps|
  {
    if steps != [] {
      hide After, Inv;
      var s := Run(steps[..|steps| - 1]);
      RunKeepsInv(steps[..|steps| - 1]);
      match steps[|steps| - 1] {
        case Own(key) => OwnKeepsInv(s, key);
        case Acquire(w) => if w < |s.writers| { MoveKeepsInv(s, w, Acquire(w)); } else { Idles(s, Acquire(w)); }
        case Cancel(w) => if w < |s.writers| { MoveKeepsInv(s, w, Cancel(w)); } else { Idles(s, Cancel(w)); }
        case Drain(w) => if w < |s.writers| { MoveKeepsInv(s, w, Drain(w)); } else { Idles(s, Drain(w)); }
        case Drop(w) => if w < |s.writers| { DropKeepsInv(s, w); } else { Idles(s, Drop(w)); }
      }
    }
  }

  lemma Idles(s: System, step: Step)
    requires !step.Own? && |s.writers| <= step.w
    ensures After(s, step) == s
  {
  }

  /**
   The gate is exclusive and its table exact, in every interleaving: writers that are
   not gone and name one file share one gate, no two of them hold it, the gate counts
   exactly those writers, and the table has an entry exactly while there are some.
   */
  lemma {:induction false} GateIsExclusive(steps: seq<Step>, key: Identity)
    ensures var s := Run(steps);
            && (key in s.entries <==> 0 < Lives(s.writers, key))
            && (key in s.entries ==>
                  s.entries[key] < |s.cells| && s.cells[s.entries[key]].refs == Lives(s.writers, key))
            && (forall v :: 0 <= v < |s.writers| && Live(s.writers[v], key) ==>
                  key in s.entries && s.writers[v].gate == s.entries[key])
            && (forall v, w :: 0 <= v < w < |s.writers| ==> !(Holds(s.writers[v], key) && Holds(s.writers[w], key)))
  {
    hide Run, Lives, Holders;
    var s := Run(steps);
    RunKeepsInv(steps);
    assert EntryOk(s, key);
    forall v | 0 <= v < |s.writers| && Live(s.writers[v], key)
      ensures key in s.entries && s.writers[v].gate == s.entries[key]
    {
      assert WriterOk(s, s.writers[v]);
    }
    forall v, w | 0 <= v < w < |s.writers| ensures !(Holds(s.writers[v], key) && Holds(s.writers[w], key)) {
      if Holds(s.writers[v], key) && Holds(s.writers[w], key) {
        TwoHolders(s.writers, v, w, key);
      }
    }
  }

  /** A waiting writer of a file that nobody holds can go ahead: a cancelled or gone writer never blocks it. */
  lemma {:induction false} GateIsFree(steps: seq<Step>, w: nat)
    requires w < |Run(steps).writers| && Run(steps).writers[w].phase == Waiting
    requires forall v :: 0 <= v < |Run(steps).writers| ==> !Holds(Run(steps).writers[v], Run(steps).writers[w].key)
    ensures After(Run(steps), Acquire(w)).writers[w].phase == Holding
  {
    hide Run;
    var s := Run(steps);
    RunKeepsInv(steps);
    assert WriterOk(s, s.writers[w]) && EntryOk(s, s.writers[w].key);
    NobodyHolds(s.writers, s.writers[w].key);
  }

  lemma {:induction false} NobodyHolds(ws: seq<Writer>, key: Identity)
    requires forall v :: 0 <= v < |ws| ==> !Holds(ws[v], key)
    ensures Holders(ws, key) == 0
    decreases |ws|
  {
    if ws != [] {
      NobodyHolds(ws[..|ws| - 1], key);
    }
  }

  /** Cancelled or done, a writer can always leave, whatever the others do, and then holds no reference. */
  lemma {:induction false} EveryWriterCanLeave(steps: seq<Step>, w: nat)
    requires w < |Run(steps).writers|
    ensures var s := Run(steps);
            var leave := if s.writers[w].phase == Waiting then Cancel(w) else Drain(w);
            var t := After(After(s, leave), Drop(w));
            && |t.writers| == |s.writers| && t.writers[w].phase == Gone
            && (forall v :: 0 <= v < |s.writers| && v != w ==> t.writers[v] == s.writers[v])
  {
    hide Run;
    RunKeepsInv(steps);
    var s := Run(steps);
    assert WriterOk(s, s.writers[w]) && EntryOk(s, s.writers[w].key);
    hide Lives, Holders;
  }

  // ----- the code -----

  class FileGate {
    var refs: int
    var taken: bool

    constructor ()
      ensures refs == 0 && !taken
    {
      refs, taken := 0, false;
    }

    /** The slot of the channel: putting into it waits while it is full, so it is called when it is not. */
    method Acquire()
      requires !taken
      modifies this
      ensures taken && refs == old(refs)
    {
      taken := true;
    }

    method Drain()
      requires taken
      modifies this
      ensures !taken && refs == old(refs)
    {
      taken := false;
    }
  }

  class Gates {
    var entries: map<Identity, nat>
    var cells: seq<FileGate>

    ghost predicate Valid()
      reads this
    {
      && (forall i, j :: 0 <= i < j < |cells| ==> cells[i] != cells[j])
      && forall k :: k in entries ==> entries[k] < |cells|
    }

    ghost function Model(): Table
      reads this, cells
    {
      Table(entries, seq(|cells|, i reads this, cells requires 0 <= i < |cells| => Cell(cells[i].refs, cells[i].taken)))
    }

    constructor ()
      ensures Valid() && Model() == Table(map[], []) && cells == []
    {
      entries, cells := map[], [];
    }

    /** Under the lock: find or make the gate of a file, and refer to it. */
    method Enter(key: Identity) returns (g: nat)
      requires Valid()
      modifies this, cells
      ensures Valid() && Model() == Entered(old(Model()), key)
      ensures key in entries && g == entries[key]
    {
      if key !in entries {
        var cell := new FileGate();
        entries := entries[key := |cells|];
        cells := cells + [cell];
      }
      g := entries[key];
      cells[g].refs := cells[g].refs + 1;
    }

    /** Under the lock: stop referring to a gate; the last one out removes it from the table. */
    method Drop(key: Identity, g: nat)
      requires Valid() && g < |cells|
      modifies this, cells[g]
      ensures Valid() && Model() == Dropped(old(Model()), key, g)
    {
      cells[g].refs := cells[g].refs - 1;
      if cells[g].refs == 0 {
        entries := entries - {key};
      }
    }
  }
}
