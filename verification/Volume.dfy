/**
 The offline migration of a state volume, as the disks it leaves behind.

 `States` lists the disk after every single change of one run; a run that crashes
 or fails leaves one of them.  `MigrationIsSafe` is about any number of runs, each
 stopped anywhere.
 */
module Volume {
  import opened Wrappers

  /** The artifacts of the database, which belong together. */
  datatype Name = Lock | Journal | Wal | Shm | Db

  /** The order of the moves: the database goes last. */
  const FILES: seq<Name> := [Lock, Journal, Wal, Shm, Db]

  type Content = nat
  type Files = map<Name, Content>

  datatype Disk = Disk(root: Files, stage: Option<Files>, priv: Option<Files>)

  /** What a run finds: the locks, directory entries it does not know, and what a new lock file holds. */
  datatype Env = Env(guardFree: bool, rootStrange: bool, privStrange: bool, lockFree: bool, newLock: Content)

  // ----- one run -----

  function WithLock(fs: Files, e: Env): Files {
    if Lock in fs then fs else fs[Lock := e.newLock]
  }

  function MoveOne(d: Disk, n: Name): Disk
    requires n in d.root && d.stage.Some?
  {
    d.(root := d.root - {n}, stage := Some(d.stage.value[n := d.root[n]]))
  }

  function Moves(d: Disk, names: seq<Name>): (r: seq<Disk>)
    requires d.stage.Some?
    ensures forall i :: 0 <= i < |r| ==> r[i].stage.Some?
    decreases |names|
  {
    if names == [] then []
    else if names[0] in d.root then [MoveOne(d, names[0])] + Moves(MoveOne(d, names[0]), names[1..])
    else Moves(d, names[1..])
  }

  function Last(d: Disk, ds: seq<Disk>): Disk {
    if ds == [] then d else ds[|ds| - 1]
  }

  function Published(d: Disk): Disk
    requires d.stage.Some?
  {
    Disk(d.root, None, d.stage)
  }

  /** The disks of a migration, each one change after the one before. */
  function Migrated(d: Disk, e: Env): seq<Disk> {
    var locked := d.(root := WithLock(d.root, e));
    var first := if Lock in d.root then [] else [locked];
    if !e.lockFree then first
    else
      var staged := locked.(stage := Some(map[]));
      var moves := Moves(staged, FILES);
      first + [staged] + moves + [Published(Last(staged, moves))]
  }

  function Normalized(d: Disk, e: Env): seq<Disk> {
    match d.priv
    case None => [d.(priv := Some(map[]))]
    case Some(fs) =>
      if fs == map[] || Db !in fs || Lock in fs then [] else [d.(priv := Some(WithLock(fs, e)))]
  }

  predicate Ambiguous(d: Disk) {
    d.priv.Some? && d.priv.value != map[] && d.root != map[]
  }

  function States(d: Disk, e: Env): seq<Disk> {
    if !e.guardFree || e.rootStrange || d.stage.Some? || (d.priv.Some? && e.privStrange) || Ambiguous(d) then []
    else if d.root == map[] then Normalized(d, e)
    else if Db !in d.root then []
    else Migrated(d, e)
  }

  predicate Succeeds(d: Disk, e: Env) {
    && e.guardFree && !e.rootStrange && d.stage.None? && !(d.priv.Some? && e.privStrange) && !Ambiguous(d)
    && if d.root == map[] then d.priv.None? || d.priv.value == map[] || (Db in d.priv.value && e.lockFree)
       else Db in d.root && e.lockFree
  }

  /** The disk of a run that stops after `n` changes. */
  function Stopped(d: Disk, e: Env, n: nat): Disk {
    var ds := States(d, e);
    if n == 0 || ds == [] then d else ds[if n <= |ds| then n - 1 else |ds| - 1]
  }

  // ----- any number of runs -----

  datatype Attempt = Attempt(env: Env, changes: nat)

  function Attempts(d: Disk, runs: seq<Attempt>): Disk {
    if runs == [] then d
    else Stopped(Attempts(d, runs[..|runs| - 1]), runs[|runs| - 1].env, runs[|runs| - 1].changes)
  }

  predicate NoFiles(fs: Option<Files>) {
    fs.None? || fs.value == map[]
  }

  /** The files are the original ones and perhaps a lock file. */
  predicate Whole(origin: Files, fs: Files) {
    && (forall n :: n in origin ==> n in fs && fs[n] == origin[n])
    && (forall n :: n in fs ==> n in origin || n == Lock)
  }

  predicate Untouched(o: Disk, d: Disk) {
    d.stage.None? && NoFiles(d.priv) && Whole(o.root, d.root)
  }

  predicate Underway(o: Disk, d: Disk) {
    && d.stage.Some? && NoFiles(d.priv)
    && d.root.Keys !! d.stage.value.Keys && Whole(o.root, d.root + d.stage.value)
    && (Db in d.stage.value ==> d.root == map[])
  }

  predicate Complete(o: Disk, d: Disk) {
    d.root == map[] && d.stage.None? && d.priv.Some? && Whole(o.root, d.priv.value)
  }

  /** A volume with a legacy database and nothing else. */
  predicate Legacy(o: Disk) {
    Db in o.root && o.stage.None? && NoFiles(o.priv)
  }

  predicate Phase(o: Disk, d: Disk) {
    Untouched(o, d) || Underway(o, d) || Complete(o, d)
  }

  /** What is left of the order of the moves. */
  predicate Left(names: seq<Name>) {
    || names == FILES || names == [Journal, Wal, Shm, Db] || names == [Wal, Shm, Db]
    || names == [Shm, Db] || names == [Db] || names == []
  }

  lemma LeftNext(names: seq<Name>)
    requires Left(names) && names != []
    ensures Left(names[1..]) && (names[0] == Db ==> names[1..] == []) && names == [names[0]] + names[1..]
  {
  }

  /** The names still in the root are still to be moved. */
  predicate Remaining(d: Disk, names: seq<Name>) {
    Left(names) && forall n :: n in d.root ==> n in names
  }

  lemma MoveOneRemains(d: Disk, names: seq<Name>)
    requires Remaining(d, names) && names != []
    ensures Remaining(d.(root := d.root - {names[0]}), names[1..])
    ensures names[0] == Db ==> d.root - {names[0]} == map[]
  {
    hide Left;
    LeftNext(names);
  }

  lemma UnionMoves(root: Files, stage: Files, n: Name)
    requires n in root && root.Keys !! stage.Keys
    ensures (root - {n}) + stage[n := root[n]] == root + stage
    ensures (root - {n}).Keys !! stage[n := root[n]].Keys
  {
  }

  lemma MoveOneStays(o: Disk, d: Disk, names: seq<Name>)
    requires Underway(o, d) && Remaining(d, names) && names != [] && names[0] in d.root
    ensures Underway(o, MoveOne(d, names[0])) && Remaining(MoveOne(d, names[0]), names[1..])
  {
    hide Whole, Left;
    MoveOneRemains(d, names);
    UnionMoves(d.root, d.stage.value, names[0]);
  }

  lemma SkipStays(d: Disk, names: seq<Name>)
    requires Remaining(d, names) && names != [] && names[0] !in d.root
    ensures Remaining(d, names[1..])
  {
    hide Left;
    LeftNext(names);
  }

  lemma {:induction false} MovesStay(o: Disk, d: Disk, names: seq<Name>)
    requires Underway(o, d) && Remaining(d, names)
    ensures forall s :: s in Moves(d, names) ==> Underway(o, s)
    ensures Underway(o, Last(d, Moves(d, names))) && Last(d, Moves(d, names)).root == map[]
    decreases |names|
  {
    if names == [] {
      assert d.root == map[];
    } else if names[0] in d.root {
      MoveOneStays(o, d, names);
      hide Whole, Left, Remaining;
      MovesStay(o, MoveOne(d, names[0]), names[1..]);
    } else {
      SkipStays(d, names);
      hide Whole, Left, Remaining;
      MovesStay(o, d, names[1..]);
    }
  }

  function Staged(d: Disk, e: Env): Disk {
    d.(root := WithLock(d.root, e), stage := Some(map[]))
  }

  lemma StagedIsUnderway(o: Disk, d: Disk, e: Env)
    requires Untouched(o, d)
    ensures Untouched(o, d.(root := WithLock(d.root, e)))
    ensures Underway(o, Staged(d, e)) && Remaining(Staged(d, e), FILES)
  {
    var root := WithLock(d.root, e);
    assert root + map[] == root;
    forall n | n in root ensures n in FILES {
      AllNames(n);
    }
  }

  lemma PublishedIsComplete(o: Disk, d: Disk)
    requires Underway(o, d) && d.root == map[]
    ensures Complete(o, Published(d))
  {
    assert d.root + d.stage.value == d.stage.value;
  }

  ghost predicate AllPhase(o: Disk, ds: seq<Disk>) {
    forall s :: s in ds ==> Phase(o, s)
  }

  lemma AllOfBoth(o: Disk, a: seq<Disk>, b: seq<Disk>)
    requires AllPhase(o, a) && AllPhase(o, b)
    ensures AllPhase(o, a + b)
  {
    hide Phase;
  }

  lemma MigrationStays(o: Disk, d: Disk, e: Env)
    requires Legacy(o) && Untouched(o, d)
    ensures AllPhase(o, Migrated(d, e))
    ensures e.lockFree ==> Complete(o, Last(d, Migrated(d, e))) && Migrated(d, e) != []
  {
    StagedIsUnderway(o, d, e);
    hide Untouched, Underway, Complete, Moves, WithLock, Remaining, Whole, NoFiles;
    var staged := Staged(d, e);
    var moves := Moves(staged, FILES);
    MovesStay(o, staged, FILES);
    PublishedIsComplete(o, Last(staged, moves));
    var locked := d.(root := WithLock(d.root, e));
    var first := if Lock in d.root then [] else [locked];
    assert AllPhase(o, first) && AllPhase(o, [staged]) && AllPhase(o, moves) && AllPhase(o, [Published(Last(staged, moves))]);
    AllOfBoth(o, first, [staged]);
    AllOfBoth(o, first + [staged], moves);
    AllOfBoth(o, first + [staged] + moves, [Published(Last(staged, moves))]);
    hide AllPhase, Phase;
  }

  lemma AllNames(n: Name)
    ensures n in FILES
  {
    assert FILES[0] == Lock && FILES[1] == Journal && FILES[2] == Wal && FILES[3] == Shm && FILES[4] == Db;
  }

  lemma RunStays(o: Disk, d: Disk, e: Env)
    requires Legacy(o) && Phase(o, d)
    ensures forall s :: s in States(d, e) ==> Phase(o, s)
  {
    if Untouched(o, d) {
      assert Db in d.root;
      MigrationStays(o, d, e);
      hide Migrated, Phase;
    } else {
      hide Migrated;
    }
  }

  lemma {:induction false} AttemptsStay(o: Disk, runs: seq<Attempt>)
    requires Legacy(o)
    ensures Phase(o, Attempts(o, runs))
    decreases |runs|
  {
    if runs != [] {
      var d := Attempts(o, runs[..|runs| - 1]);
      AttemptsStay(o, runs[..|runs| - 1]);
      RunStays(o, d, runs[|runs| - 1].env);
      hide Phase, States;
    }
  }

  /** How many of the three places hold a name, and what is there. */
  function Places(d: Disk, n: Name): nat {
    (if n in d.root then 1 else 0) + (if d.stage.Some? && n in d.stage.value then 1 else 0)
    + (if d.priv.Some? && n in d.priv.value then 1 else 0)
  }

  predicate Holds(d: Disk, n: Name, c: Content) {
    || (n in d.root && d.root[n] == c)
    || (d.stage.Some? && n in d.stage.value && d.stage.value[n] == c)
    || (d.priv.Some? && n in d.priv.value && d.priv.value[n] == c)
  }

  /**
   The migration is safe at every moment of every run, after any number of earlier
   runs that stopped anywhere: each artifact is in exactly one place with what it
   held, the database leaves the root last, and the private directory is empty or
   holds the complete set.
   */
  lemma {:induction false} MigrationIsSafe(o: Disk, runs: seq<Attempt>, n: Name)
    requires Legacy(o)
    ensures var d := Attempts(o, runs);
            && (n in o.root ==> Places(d, n) == 1 && Holds(d, n, o.root[n]))
            && (Db !in d.root ==> d.root == map[])
            && (NoFiles(d.priv) || (d.root == map[] && d.stage.None? && Whole(o.root, d.priv.value)))
  {
    hide Attempts;
    var d := Attempts(o, runs);
    AttemptsStay(o, runs);
    if Underway(o, d) {
      assert forall m :: m in d.root + d.stage.value ==> m in d.root || m in d.stage.value;
      assert n in o.root ==> n in d.root + d.stage.value;
      assert Db in d.root + d.stage.value;
    }
  }

  /** A run that finds staging changes nothing and fails, so split artifacts wait for an operator. */
  lemma {:induction false} StagingStopsEverything(o: Disk, runs: seq<Attempt>, more: seq<Attempt>)
    requires Legacy(o) && Attempts(o, runs).stage.Some?
    ensures Attempts(Attempts(o, runs), more) == Attempts(o, runs)
    ensures forall e :: !Succeeds(Attempts(o, runs), e)
    decreases |more|
  {
    if more != [] {
      StagingStopsEverything(o, runs, more[..|more| - 1]);
      hide Migrated, Normalized;
    }
  }

  /** A run succeeds on an unambiguous volume; it leaves no legacy artifact, no staging and a complete private directory. */
  lemma {:induction false} SuccessIsComplete(o: Disk, e: Env)
    requires Legacy(o) && Succeeds(o, e)
    ensures States(o, e) != [] && Complete(o, Last(o, States(o, e)))
    ensures forall f :: Last(o, States(o, e)).priv.Some? && Lock in Last(o, States(o, e)).priv.value && States(Last(o, States(o, e)), f) == []
  {
    MigrationStays(o, o, e);
    LockMoves(o, e);
    hide Migrated, Whole;
  }

  /** The published set has a lock file. */
  lemma LockMoves(o: Disk, e: Env)
    requires Legacy(o) && e.lockFree
    ensures var d := Last(o, Migrated(o, e)); d.priv.Some? && Lock in d.priv.value
  {
    var locked := o.(root := WithLock(o.root, e));
    StagedIsUnderway(locked, locked, e);
    MovesStay(locked, Staged(o, e), FILES);
    PublishedIsComplete(locked, Last(Staged(o, e), Moves(Staged(o, e), FILES)));
    hide Underway, Moves, Remaining;
  }

  // ----- the code -----

  // ----- any volume -----

  /** What the files of a place are not: a set of recovery files without their database. */
  predicate Orphaned(fs: Files) {
    fs != map[] && Db !in fs
  }

  /** There is one place that may hold the state, nothing is half moved, and nobody else is at work. */
  predicate ClearVolume(d: Disk, e: Env) {
    && e.guardFree && !e.rootStrange && d.stage.None?
    && (d.priv.Some? ==> !e.privStrange && (d.priv.value == map[] || d.root == map[]) && !Orphaned(d.priv.value))
    && !Orphaned(d.root)
  }

  /** The state of a clear volume, wherever it is. */
  function StateOf(d: Disk): Files {
    if d.root != map[] then d.root else if d.priv.Some? then d.priv.value else map[]
  }

  /**
   A volume whose state is not clear is never touched: one that is guarded by another run,
   holds unknown entries, a staging directory, files in both places or recovery files
   without their database stays exactly as it is, and the run fails.
   */
  lemma {:induction false} UnclearVolumesAreLeftAlone(d: Disk, e: Env, changes: nat)
    requires !ClearVolume(d, e)
    ensures !Succeeds(d, e) && States(d, e) == [] && Stopped(d, e, changes) == d
  {
    hide Migrated, WithLock;
  }

  /**
   Every clear volume is prepared: unless its database is in use, the run succeeds and
   leaves an empty root and a private directory with exactly the files there were, and a
   lock file if there is a database.
   */
  lemma {:induction false} ClearVolumesArePrepared(d: Disk, e: Env)
    requires ClearVolume(d, e)
    ensures Succeeds(d, e) <==> StateOf(d) == map[] || e.lockFree
    ensures Succeeds(d, e) ==>
              var f := Last(d, States(d, e));
              && f.root == map[] && f.stage.None? && f.priv.Some?
              && (StateOf(d) == map[] ==> f.priv.value == map[])
              && (StateOf(d) != map[] ==> f.priv.value == if Lock in StateOf(d) then StateOf(d) else StateOf(d)[Lock := e.newLock])
  {
    if d.root != map[] {
      if e.lockFree {
        MigratedExactly(d, e);
      }
      hide Migrated;
    }
  }

  lemma MigratedExactly(d: Disk, e: Env)
    requires Db in d.root && d.stage.None? && NoFiles(d.priv) && e.lockFree
    ensures Migrated(d, e) != []
    ensures Last(d, Migrated(d, e)) == Disk(map[], None, Some(WithLock(d.root, e)))
  {
    hide Moves, WithLock, Underway, Remaining, Left, Untouched, Last;
    WholeIsUntouched(d);
    StagedIsUnderway(d, d, e);
    AllMoved(Staged(d, e), FILES);
    var locked := d.(root := WithLock(d.root, e));
    var moves := Moves(Staged(d, e), FILES);
    assert locked.root + map[] == locked.root;
    LastOf(d, (if Lock in d.root then [] else [locked]) + [Staged(d, e)] + moves, Published(Last(Staged(d, e), moves)));
  }

  lemma WholeIsUntouched(d: Disk)
    requires d.stage.None? && NoFiles(d.priv)
    ensures Untouched(d, d)
  {
  }

  lemma LastOf(d: Disk, ds: seq<Disk>, x: Disk)
    ensures Last(d, ds + [x]) == x
  {
  }

  lemma {:induction false} AllMoved(d: Disk, names: seq<Name>)
    requires d.stage.Some? && Remaining(d, names) && d.root.Keys !! d.stage.value.Keys
    ensures var f := Last(d, Moves(d, names));
            f.root == map[] && f.stage.Some? && f.stage.value == d.root + d.stage.value && f.priv == d.priv
    decreases |names|
  {
    hide Left;
    if names == [] {
      assert d.root == map[];
      assert d.root + d.stage.value == d.stage.value;
    } else if names[0] in d.root {
      MoveOneRemains(d, names);
      UnionMoves(d.root, d.stage.value, names[0]);
      AllMoved(MoveOne(d, names[0]), names[1..]);
    } else {
      SkipStays(d, names);
      AllMoved(d, names[1..]);
    }
  }

  lemma StoppedAt(d: Disk, e: Env, trace: seq<Disk>, changes: nat)
    requires trace <= States(d, e)
    requires |trace| == changes || (trace == States(d, e) && |trace| <= changes)
    ensures Stopped(d, e, changes) == Last(d, trace)
  {
    hide States;
  }

  lemma {:induction false} MovesFrom(d: Disk, names: seq<Name>, i: nat)
    requires d.stage.Some? && i < |names|
    ensures Moves(d, names[i..])
         == if names[i] in d.root then [MoveOne(d, names[i])] + Moves(MoveOne(d, names[i]), names[i + 1..])
            else Moves(d, names[i + 1..])
  {
    assert names[i..][0] == names[i] && names[i..][1..] == names[i + 1..];
  }

  function Change(d: Disk, n: Name): seq<Disk>
    requires d.stage.Some?
  {
    if n in d.root then [MoveOne(d, n)] else []
  }

  function Locked(d: Disk, e: Env): seq<Disk> {
    if Lock in d.root then [] else [d.(root := WithLock(d.root, e))]
  }

  lemma MigratedIs(d: Disk, e: Env)
    ensures e.lockFree ==>
      var moves := Moves(Staged(d, e), FILES);
      Migrated(d, e) == Locked(d, e) + [Staged(d, e)] + moves + [Published(Last(Staged(d, e), moves))]
    ensures !e.lockFree ==> Migrated(d, e) == Locked(d, e)
  {
    hide Moves;
  }

  lemma NoMoves(d: Disk)
    requires d.stage.Some?
    ensures Moves(d, []) == []
  {
  }

  class VolumeRoot {
    var root: Files
    var stage: Option<Files>
    var priv: Option<Files>
    // How many more changes the run lives to make.
    var left: nat
    // The disks so far, one a change.
    ghost var trace: seq<Disk>

    ghost function Model(): Disk
      reads this
    {
      Disk(root, stage, priv)
    }

    constructor (d: Disk, changes: nat)
      ensures Model() == d && trace == [] && left == changes
    {
      root, stage, priv, left, trace := d.root, d.stage, d.priv, changes, [];
    }

    /** One run; it is stopped before the change that it does not live to make. */
    method Prepare(e: Env) returns (ok: bool)
      requires trace == []
      modifies this
      ensures Model() == Stopped(old(Model()), e, old(left))
      ensures ok <==> Succeeds(old(Model()), e) && |States(old(Model()), e)| <= old(left)
    {
      hide Migrated, Normalized;
      ghost var d, changes := Model(), left;
      StoppedAt(d, e, [], if States(d, e) == [] then changes else 0);
      if !e.guardFree || e.rootStrange || stage.Some? {
        return false;
      }
      if priv.Some? {
        if e.privStrange || (priv.value != map[] && root != map[]) {
          return false;
        }
      }
      if root == map[] {
        ok := Normalize(e);
      } else if Db !in root {
        return false;
      } else {
        ok := Migrate(e);
      }
      StoppedAt(d, e, trace, changes);
    }

    /** Without legacy artifacts the private directory is made, or its lock is. */
    method Normalize(e: Env) returns (ok: bool)
      requires trace == [] && root == map[] && stage.None?
      modifies this
      ensures Model() == Last(old(Model()), trace) && trace <= Normalized(old(Model()), e)
      ensures left + |trace| == old(left) && (left == 0 || trace == Normalized(old(Model()), e))
      ensures ok <==> trace == Normalized(old(Model()), e)
                      && (old(priv).None? || old(priv).value == map[] || (Db in old(priv).value && e.lockFree))
    {
      if priv.None? {
        if left == 0 {
          return false;
        }
        priv, left := Some(map[]), left - 1;
        trace := trace + [Model()];
        return true;
      }
      if priv.value == map[] {
        return true;
      }
      if Db !in priv.value {
        return false;
      }
      if Lock !in priv.value {
        if left == 0 {
          return false;
        }
        priv, left := Some(priv.value[Lock := e.newLock]), left - 1;
        trace := trace + [Model()];
      }
      return e.lockFree;
    }

    method Migrate(e: Env) returns (ok: bool)
      requires trace == [] && Db in root && stage.None? && NoFiles(priv)
      modifies this
      ensures Model() == Last(old(Model()), trace) && trace <= Migrated(old(Model()), e)
      ensures left + |trace| == old(left) && (left == 0 || trace == Migrated(old(Model()), e))
      ensures ok <==> trace == Migrated(old(Model()), e) && e.lockFree
    {
      hide Moves, Migrated;
      ghost var d := Model();
      ghost var moves := Moves(Staged(d, e), FILES);
      MigratedIs(d, e);
      var made := MakeLock(e);
      if !made || !e.lockFree || left == 0 {
        return false;
      }
      stage, left := Some(map[]), left - 1;
      trace := trace + [Model()];
      ghost var moved := MoveAll();
      if left == 0 {
        return false;
      }
      stage, priv, left := None, stage, left - 1;
      trace := trace + [Model()];
      return true;
    }

    method MakeLock(e: Env) returns (ok: bool)
      requires trace == [] && stage.None?
      modifies `root, `left, `trace
      ensures !ok ==> left == 0 && old(left) == 0 && Model() == old(Model()) && trace == [] && Lock !in root
      ensures ok ==> root == WithLock(old(root), e) && trace == Locked(old(Model()), e) && left + |trace| == old(left)
    {
      if Lock in root {
        return true;
      }
      if left == 0 {
        return false;
      }
      root, left := root[Lock := e.newLock], left - 1;
      trace := trace + [Model()];
      return true;
    }

    /** Move the artifacts one by one; the first one that is not moved ends it. */
    method MoveAll() returns (ghost moved: seq<Disk>)
      requires stage.Some?
      modifies `root, `stage, `left, `trace
      ensures stage.Some? && left + |moved| == old(left) && trace == old(trace) + moved
      ensures moved <= Moves(old(Model()), FILES) && (left == 0 || moved == Moves(old(Model()), FILES))
      ensures Model() == Last(old(Model()), moved)
    {
      hide Moves, MoveOne;
      ghost var start := Model();
      moved := [];
      assert FILES[0..] == FILES;
      for i := 0 to |FILES|
        invariant stage.Some? && left + |moved| == old(left) && trace == old(trace) + moved
        invariant Moves(start, FILES) == moved + Moves(Model(), FILES[i..])
        invariant Model() == Last(start, moved)
      {
        MovesFrom(Model(), FILES, i);
        ghost var was := Model();
        var ok := MoveNext(FILES[i]);
        if !ok {
          return;
        }
        ghost var ds := Change(was, FILES[i]);
        assert Moves(was, FILES[i..]) == ds + Moves(Model(), FILES[i + 1..]);
        assert moved + (ds + Moves(Model(), FILES[i + 1..])) == (moved + ds) + Moves(Model(), FILES[i + 1..]);
        moved := moved + ds;
      }
      assert FILES[|FILES|..] == [];
      assert Moves(Model(), []) == [] by { NoMoves(Model()); }
      assert Moves(start, FILES) == moved;
    }

    method MoveNext(n: Name) returns (ok: bool)
      requires stage.Some?
      modifies `root, `stage, `left, `trace
      ensures stage.Some?
      ensures !ok ==> left == 0 && old(left) == 0 && Model() == old(Model()) && trace == old(trace)
      ensures ok ==> var ds := Change(old(Model()), n);
                     trace == old(trace) + ds && left + |ds| == old(left) && Model() == Last(old(Model()), ds)
    {
      if n !in root {
        return true;
      }
      if left == 0 {
        return false;
      }
      MoveFile(n);
      trace := trace + [Model()];
      left := left - 1;
      return true;
    }

    method MoveFile(n: Name)
      requires stage.Some? && n in root
      modifies `root, `stage
      ensures Model() == MoveOne(old(Model()), n)
    {
      stage := Some(stage.value[n := root[n]]);
      root := root - {n};
    }
  }
}
