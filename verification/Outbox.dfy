/**
 The durable outbox under the delivery loop, over whole runs.

 One loop fetches, sends and reports; events are applied at any time between
 those steps; the process may crash and restart at every step, which loses what
 the loop holds in memory and keeps the tables.
 */
module Outbox {
  import opened Events
  import opened Tables
  import opened Policy
  import opened Controller

  datatype Phase = Idle | Holding(p: Delivery) | Sent(p: Delivery)

  /** `sends` counts what the sink was given; `enqueued` lists the identities in order of enqueueing. */
  datatype Machine = Machine(db: Db, phase: Phase, sends: multiset<NoteId>, enqueued: seq<NoteId>)

  datatype Step =
    | Submit(e: Event, contract: string, p: Policy, now: int, faults: set<Statement>)
    | DoFetch(now: int, up: bool)
    | DoSend
    | Report(ok: bool, now: int, up: bool)
    | Crash

  datatype Setup = Setup(ord: Orders, oversized: Payload -> bool)

  ghost predicate StepOk(s: Step) {
    s.Submit? ==> 0 < s.p.recurrence
  }

  ghost function Next(cfg: Setup, m: Machine, s: Step): Machine
    requires StepOk(s)
  {
    match s
    case Submit(e, contract, p, now, faults) =>
      var r := Applied(cfg.ord, m.db, e, contract, p, now, faults);
      m.(db := r.db,
         enqueued := if r.result.Done? && r.result.enqueued
                     then m.enqueued + [NoteId(KeyOf(contract, e), r.db.next)] else m.enqueued)
    case DoFetch(now, up) =>
      if !m.phase.Idle? then m
      else
        var f := Fetched(cfg.ord.outbox, m.db, cfg.oversized, now, up);
        m.(db := f.db, phase := if f.ok && f.delivery.Some? then Holding(f.delivery.value) else Idle)
    case DoSend =>
      if m.phase.Holding? then m.(phase := Sent(m.phase.p), sends := m.sends + multiset{m.phase.p.id}) else m
    case Report(ok, now, up) =>
      if m.phase.Sent? && 0 <= m.phase.p.attempts then
        m.(db := if up then Reported(m.db, m.phase.p, ok, now) else m.db, phase := Idle)
      else m
    case Crash => m.(phase := Idle)
  }

  ghost function Run(cfg: Setup, steps: seq<Step>): Machine
    requires forall i :: 0 <= i < |steps| ==> StepOk(steps[i])
  {
    if steps == [] then Machine(FRESH, Idle, multiset{}, [])
    else Next(cfg, Run(cfg, steps[..|steps| - 1]), steps[|steps| - 1])
  }

  // ----- the invariant -----

  /** The attempts that the loop still owes a send for the row. */
  function Owed(m: Machine, id: NoteId): nat {
    if m.phase.Holding? && m.phase.p.id == id then 1 else 0
  }

  ghost predicate RowsBounded(m: Machine) {
    forall id :: id in m.db.outbox.rows ==>
      0 <= m.db.outbox.rows[id].attempts <= MAX_ATTEMPTS
      && m.sends[id] + Owed(m, id) <= m.db.outbox.rows[id].attempts
  }

  ghost predicate SendsBounded(m: Machine) {
    && (forall id :: m.sends[id] <= MAX_ATTEMPTS)
    && (forall id :: id in m.sends ==> ListedId(m.enqueued, id))
  }

  /** What the loop holds is the latest attempt of a row that is still pending. */
  ghost predicate InStep(m: Machine) {
    !m.phase.Idle? ==>
      && m.phase.p.id in m.db.outbox.rows
      && m.db.outbox.rows[m.phase.p.id].status == Pending
      && m.db.outbox.rows[m.phase.p.id].attempts == m.phase.p.attempts
      && 1 <= m.phase.p.attempts <= MAX_ATTEMPTS
  }

  /** Identities are handed out in sequence, one for every number, and every row has one of them. */
  ghost predicate Listed(m: Machine) {
    && |m.enqueued| == m.db.next
    && (forall k :: 0 <= k < |m.enqueued| ==> m.enqueued[k].sequence == k + 1)
    && (forall id :: id in m.db.outbox.rows ==> ListedId(m.enqueued, id))
  }

  ghost predicate ListedId(enqueued: seq<NoteId>, id: NoteId) {
    0 < id.sequence <= |enqueued| && enqueued[id.sequence - 1] == id
  }

  ghost predicate Good(m: Machine) {
    Controller.Inv(m.db) && Conserved(m.db) && RowsBounded(m) && SendsBounded(m) && InStep(m) && Listed(m)
  }

  // ----- every step keeps it -----

  /** What an applied event can do to the outbox. */
  ghost predicate OutboxMoved(db: Db, r: Reply, id: NoteId) {
    if r.result.Done? && r.result.enqueued
    then id in r.db.outbox.rows && Queued(db, r.db, id, r.db.outbox.rows[id])
    else r.db.outbox == db.outbox && r.db.next == db.next
  }

  lemma QueuedIsThere(db: Db, db': Db, id: NoteId, note: Note)
    requires Queued(db, db', id, note)
    ensures id in db'.outbox.rows && db'.outbox.rows[id] == note
  {
  }

  lemma AppliedMoves(ord: Orders, db: Db, e: Event, contract: string, p: Policy, now: int, faults: set<Statement>)
    requires GoodOrders(ord) && Controller.Inv(db) && 0 < p.recurrence
    ensures var r := Applied(ord, db, e, contract, p, now, faults);
            && Controller.Inv(r.db) && (Conserved(db) ==> Conserved(r.db))
            && OutboxMoved(db, r, NoteId(KeyOf(contract, e), db.next + 1))
  {
    hide Applied, Conserved, Controller.Inv, Incidents.Enqueues, Incidents.Counted, Decide, Inserted, Counts, NewNote, Queued, OutboxFull;
    AllOrNothing(ord, db, e, contract, p, now, faults);
    var r := Applied(ord, db, e, contract, p, now, faults);
    if r.result.Done? && r.result.enqueued {
      var id, d := NoteId(KeyOf(contract, e), db.next + 1), Decide(p, e);
      var row := Incidents.Counted(p, IncidentAt(db, id.incident), d, now, db.next + 1);
      QueuedIsThere(db, r.db, id, NewNote(id.incident, e, d, row.count, db.next + 1, now));
    }
  }

  /** Only terminal rows are evicted, and the new row was never sent. */
  lemma SubmitKeeps(cfg: Setup, m: Machine, s: Step)
    requires GoodOrders(cfg.ord) && Good(m) && s.Submit? && StepOk(s)
    ensures Good(Next(cfg, m, s))
  {
    hide Applied, Conserved, Controller.Inv, Queued, RowsBounded, SendsBounded, InStep, Listed;
    AppliedMoves(cfg.ord, m.db, s.e, s.contract, s.p, s.now, s.faults);
    var r := Applied(cfg.ord, m.db, s.e, s.contract, s.p, s.now, s.faults);
    var m' := Next(cfg, m, s);
    var id := NoteId(KeyOf(s.contract, s.e), m.db.next + 1);
    if r.result.Done? && r.result.enqueued {
      QueuedNext(m.db, r.db, id, r.db.outbox.rows[id]);
      QueuedKeeps(m, m', id);
    } else {
      SameOutboxKeeps(m, m');
    }
  }

  lemma SameOutboxKeeps(m: Machine, m': Machine)
    requires RowsBounded(m) && SendsBounded(m) && InStep(m) && Listed(m)
    requires m' == m.(db := m'.db) && m'.db.outbox == m.db.outbox && m'.db.next == m.db.next
    ensures RowsBounded(m') && SendsBounded(m') && InStep(m') && Listed(m')
  {
    hide ListedId;
  }

  lemma QueuedNext(db: Db, db': Db, id: NoteId, note: Note)
    requires Queued(db, db', id, note)
    ensures db'.next == db.next + 1
  {
  }

  lemma QueuedKeeps(m: Machine, m': Machine, id: NoteId)
    requires Good(m) && id in m'.db.outbox.rows && Queued(m.db, m'.db, id, m'.db.outbox.rows[id])
    requires m' == m.(db := m'.db, enqueued := m.enqueued + [id])
    ensures RowsBounded(m') && SendsBounded(m') && InStep(m') && Listed(m')
  {
    hide Controller.Inv, Conserved, Counted;
    assert id !in m.sends by {
      assert !ListedId(m.enqueued, id);
    }
    assert m.sends[id] == 0;
    forall k | k in m'.sends ensures ListedId(m'.enqueued, k) {
      assert ListedId(m.enqueued, k);
    }
    forall k | k in m'.db.outbox.rows ensures ListedId(m'.enqueued, k) {
      if k != id {
        assert ListedId(m.enqueued, k);
      }
    }
  }

  lemma FetchFacts(cfg: Setup, db: Db, now: int, up: bool)
    ensures var f := Fetched(cfg.ord.outbox, db, cfg.oversized, now, up);
            || (f.db == db && f.delivery.None?)
            || exists id :: IsDue(db, now, id) && f == Tried(db, cfg.oversized, id, now)
  {
    DueIsThere(cfg.ord.outbox, db, now);
    hide NextDue, Tried;
    if NextDue(cfg.ord.outbox, db, now).Some? && up {
      var id := NextDue(cfg.ord.outbox, db, now).value;
      assert Fetched(cfg.ord.outbox, db, cfg.oversized, now, up) == Tried(db, cfg.oversized, id, now);
    }
  }

  lemma UpdatedKeeps(db: Db, id: NoteId, n: Note)
    requires id in db.outbox.rows
    ensures Updated(db, id, n).outbox.rows.Keys == db.outbox.rows.Keys
    ensures Controller.Inv(db) ==> Controller.Inv(Updated(db, id, n))
    ensures Conserved(db) ==> Conserved(Updated(db, id, n))
  {
    var rows := db.outbox.rows[id := n];
    assert rows.Keys == db.outbox.rows.Keys;
    assert |rows| == |rows.Keys| && |db.outbox.rows| == |db.outbox.rows.Keys|;
  }

  lemma TriedKeeps(cfg: Setup, m: Machine, id: NoteId, now: int)
    requires Good(m) && m.phase.Idle? && IsDue(m.db, now, id)
    ensures var f := Tried(m.db, cfg.oversized, id, now);
            Good(m.(db := f.db, phase := if f.ok && f.delivery.Some? then Holding(f.delivery.value) else Idle))
  {
    hide Controller.Inv, Conserved;
    var f := Tried(m.db, cfg.oversized, id, now);
    if f.db != m.db {
      UpdatedKeeps(m.db, id, f.db.outbox.rows[id]);
      assert f.db == Updated(m.db, id, f.db.outbox.rows[id]);
    }
  }

  lemma ReportKeeps(m: Machine, ok: bool, now: int)
    requires Good(m) && m.phase.Sent?
    ensures Good(m.(db := Reported(m.db, m.phase.p, ok, now), phase := Idle))
  {
    hide Controller.Inv, Conserved, PowerOfTwo;
    var id := m.phase.p.id;
    var db := Reported(m.db, m.phase.p, ok, now);
    UpdatedKeeps(m.db, id, db.outbox.rows[id]);
    assert db == Updated(m.db, id, db.outbox.rows[id]);
  }

  lemma SendKeeps(m: Machine)
    requires Good(m) && m.phase.Holding?
    ensures Good(m.(phase := Sent(m.phase.p), sends := m.sends + multiset{m.phase.p.id}))
  {
    hide Controller.Inv, Conserved;
    var id := m.phase.p.id;
    var sends := m.sends + multiset{id};
    assert forall other :: sends[other] == m.sends[other] + (if other == id then 1 else 0);
    assert Owed(m, id) == 1;
    assert ListedId(m.enqueued, id);
    assert forall other :: other in sends ==> other in m.sends || other == id;
  }

  lemma NextKeeps(cfg: Setup, m: Machine, s: Step)
    requires GoodOrders(cfg.ord) && Good(m) && StepOk(s)
    ensures Good(Next(cfg, m, s))
  {
    match s {
      case Submit(_, _, _, _, _) => SubmitKeeps(cfg, m, s);
      case DoFetch(now, up) =>
        if m.phase.Idle? {
          FetchFacts(cfg, m.db, now, up);
          hide Good, Tried, Fetched;
          var f := Fetched(cfg.ord.outbox, m.db, cfg.oversized, now, up);
          if f.db != m.db || f.delivery.Some? {
            var id :| IsDue(m.db, now, id) && f == Tried(m.db, cfg.oversized, id, now);
            TriedKeeps(cfg, m, id, now);
          } else {
            assert m.(db := f.db, phase := Idle) == m;
          }
        }
      case DoSend =>
        if m.phase.Holding? {
          SendKeeps(m);
        }
      case Report(ok, now, up) =>
        if m.phase.Sent? {
          ReportKeeps(m, ok, now);
          DropKeeps(m);
        }
      case Crash => DropKeeps(m);
    }
  }

  lemma DropKeeps(m: Machine)
    requires Good(m)
    ensures Good(m.(phase := Idle))
  {
    hide Controller.Inv, Conserved;
  }

  lemma {:induction false} RunKeeps(cfg: Setup, steps: seq<Step>)
    requires GoodOrders(cfg.ord) && forall i :: 0 <= i < |steps| ==> StepOk(steps[i])
    ensures Good(Run(cfg, steps))
  {
    if steps == [] {
      StartGood();
    } else {
      RunKeeps(cfg, steps[..|steps| - 1]);
      NextKeeps(cfg, Run(cfg, steps[..|steps| - 1]), steps[|steps| - 1]);
      hide Good, Next;
    }
  }

  lemma StartGood()
    ensures Good(Machine(FRESH, Idle, multiset{}, []))
  {
  }

  // ----- what it means -----

  function WithStatus(rows: map<NoteId, Note>, s: Status): set<NoteId> {
    set id | id in rows && rows[id].status == s
  }

  /**
   Conservation.  In every run from empty tables, with crashes anywhere: what was
   ever enqueued is pending, delivered, dead or evicted, and nothing else is;
   identities are pairwise different for ever; no notification is sent more than
   eight times, and only enqueued ones are sent.
   */
  lemma {:induction false} OutboxConserves(cfg: Setup, steps: seq<Step>)
    requires GoodOrders(cfg.ord) && forall i :: 0 <= i < |steps| ==> StepOk(steps[i])
    ensures var m := Run(cfg, steps);
            var rows := m.db.outbox.rows;
            && |m.enqueued| == |WithStatus(rows, Pending)| + |WithStatus(rows, Delivered)| + |WithStatus(rows, Dead)|
                               + m.db.outbox.evicted
            && (forall k, l :: 0 <= k < l < |m.enqueued| ==> m.enqueued[k] != m.enqueued[l])
            && (forall id :: id in rows ==> id in m.enqueued)
            && (forall id :: m.sends[id] <= 8)
            && (forall id :: id in m.sends ==> id in m.enqueued)
            && |rows| <= STATE_CAPACITY && m.db.outbox.count == |rows|
  {
    RunKeeps(cfg, steps);
    var m := Run(cfg, steps);
    hide Run;
    var rows := m.db.outbox.rows;
    StatusesPartition(rows);
    forall id | id in rows || id in m.sends ensures id in m.enqueued {
      assert ListedId(m.enqueued, id);
    }
  }

  lemma StatusesPartition(rows: map<NoteId, Note>)
    ensures |rows| == |WithStatus(rows, Pending)| + |WithStatus(rows, Delivered)| + |WithStatus(rows, Dead)|
  {
    var a, b, c := WithStatus(rows, Pending), WithStatus(rows, Delivered), WithStatus(rows, Dead);
    forall id | id in rows ensures id in a + b + c {
      assert rows[id].status == Pending || rows[id].status == Delivered || rows[id].status == Dead;
    }
    assert rows.Keys == a + b + c;
    assert |rows| == |rows.Keys|;
  }

  /** A row that is finished. */
  predicate Terminal(n: Note) {
    n.status != Pending
  }

  /** What a step may do to a row. */
  ghost predicate RowKept(before: Note, rows: map<NoteId, Note>, id: NoteId) {
    && (!Terminal(before) ==> id in rows)
    && (id in rows ==>
          && before.attempts <= rows[id].attempts
          && rows[id].payload == before.payload
          && (Terminal(before) ==> rows[id] == before))
  }

  lemma SubmitRespectsRows(cfg: Setup, m: Machine, s: Step, id: NoteId)
    requires GoodOrders(cfg.ord) && Good(m) && StepOk(s) && id in m.db.outbox.rows && s.Submit?
    ensures RowKept(m.db.outbox.rows[id], Next(cfg, m, s).db.outbox.rows, id)
  {
    hide Controller.Inv, Conserved, Applied, RowsBounded, SendsBounded, InStep, Listed, Counted;
    AppliedMoves(cfg.ord, m.db, s.e, s.contract, s.p, s.now, s.faults);
  }

  lemma FetchRespectsRows(cfg: Setup, m: Machine, s: Step, id: NoteId)
    requires GoodOrders(cfg.ord) && Good(m) && StepOk(s) && id in m.db.outbox.rows && s.DoFetch?
    ensures RowKept(m.db.outbox.rows[id], Next(cfg, m, s).db.outbox.rows, id)
  {
    hide Conserved, Fetched, RowsBounded, SendsBounded, InStep, Listed;
    FetchFacts(cfg, m.db, s.now, s.up);
  }

  /**
   Terminal rows never become pending again, pending rows are never evicted, and a
   row's attempts never go down, whatever step a good machine takes.
   */
  lemma {:induction false} StepRespectsRows(cfg: Setup, m: Machine, s: Step, id: NoteId)
    requires GoodOrders(cfg.ord) && Good(m) && StepOk(s) && id in m.db.outbox.rows
    ensures RowKept(m.db.outbox.rows[id], Next(cfg, m, s).db.outbox.rows, id)
  {
    hide Controller.Inv, Conserved, RowsBounded, SendsBounded, Listed, PowerOfTwo;
    match s {
      case Submit(_, _, _, _, _) => SubmitRespectsRows(cfg, m, s, id);
      case DoFetch(_, _) => FetchRespectsRows(cfg, m, s, id);
      case DoSend =>
      case Report(_, _, _) =>
      case Crash =>
    }
  }

  // ----- every send and every identity is accounted for -----

  /**
   What happened to one identity in a run: how often it was fetched, how often the
   loop crashed before it was sent, how often a sent one was reported as accepted,
   and how often a sent one ended in a crash, a rejection or a lost report.
   */
  datatype Tally = Tally(tries: nat, unsent: nat, confirmed: nat, unconfirmed: nat)

  ghost function Tallied(t: Tally, m: Machine, s: Step, m': Machine, id: NoteId): Tally {
    match s
    case DoFetch(_, _) =>
      if m.phase.Idle? && m'.phase.Holding? && m'.phase.p.id == id then t.(tries := t.tries + 1) else t
    case Report(ok, _, up) =>
      if !m.phase.Sent? || m.phase.p.id != id then t
      else if ok && up then t.(confirmed := t.confirmed + 1)
      else t.(unconfirmed := t.unconfirmed + 1)
    case Crash =>
      if m.phase.Idle? || m.phase.p.id != id then t
      else if m.phase.Holding? then t.(unsent := t.unsent + 1)
      else t.(unconfirmed := t.unconfirmed + 1)
    case _ => t
  }

  ghost function TallyOf(cfg: Setup, steps: seq<Step>, id: NoteId): Tally
    requires forall i :: 0 <= i < |steps| ==> StepOk(steps[i])
  {
    if steps == [] then Tally(0, 0, 0, 0)
    else
      var m, s := Run(cfg, steps[..|steps| - 1]), steps[|steps| - 1];
      Tallied(TallyOf(cfg, steps[..|steps| - 1], id), m, s, Next(cfg, m, s), id)
  }

  /** The identity was sent and its outcome is not yet known. */
  function InFlight(m: Machine, id: NoteId): nat {
    if m.phase.Sent? && m.phase.p.id == id then 1 else 0
  }

  ghost predicate SendsTallied(m: Machine, t: Tally, id: NoteId) {
    && t.tries == m.sends[id] + t.unsent + Owed(m, id)
    && m.sends[id] == t.confirmed + t.unconfirmed + InFlight(m, id)
  }

  /** What the table says of an identity is what happened to it. */
  ghost predicate FateTallied(m: Machine, t: Tally, id: NoteId) {
    var rows := m.db.outbox.rows;
    && t.confirmed <= 1 && t.tries <= MAX_ATTEMPTS
    && (!ListedId(m.enqueued, id) ==> t.tries == 0)
    && (id in rows ==>
          && rows[id].attempts == t.tries
          && (t.confirmed == 1 <==> rows[id].status == Delivered)
          && (rows[id].status == Dead ==> t.tries == MAX_ATTEMPTS))
    && (ListedId(m.enqueued, id) && id !in rows ==> t.confirmed == 1 || t.tries == MAX_ATTEMPTS)
  }

  lemma SubmitTallies(cfg: Setup, m: Machine, s: Step, t: Tally, id: NoteId)
    requires GoodOrders(cfg.ord) && Good(m) && s.Submit? && StepOk(s) && SendsTallied(m, t, id) && FateTallied(m, t, id)
    ensures SendsTallied(Next(cfg, m, s), t, id) && FateTallied(Next(cfg, m, s), t, id)
  {
    hide Applied, Conserved, Controller.Inv, RowsBounded, SendsBounded, InStep, Counted;
    AppliedMoves(cfg.ord, m.db, s.e, s.contract, s.p, s.now, s.faults);
  }

  lemma TriedTallies(cfg: Setup, m: Machine, now: int, due: NoteId, t: Tally, id: NoteId)
    requires Good(m) && m.phase.Idle? && IsDue(m.db, now, due) && SendsTallied(m, t, id) && FateTallied(m, t, id)
    ensures var f := Tried(m.db, cfg.oversized, due, now);
            var m' := m.(db := f.db, phase := if f.ok && f.delivery.Some? then Holding(f.delivery.value) else Idle);
            var t' := Tallied(t, m, DoFetch(now, true), m', id);
            SendsTallied(m', t', id) && FateTallied(m', t', id)
  {
    hide Controller.Inv, Conserved, RowsBounded, SendsBounded, InStep;
    assert ListedId(m.enqueued, due);
  }

  lemma FetchTallies(cfg: Setup, m: Machine, s: Step, t: Tally, id: NoteId)
    requires GoodOrders(cfg.ord) && Good(m) && s.DoFetch? && m.phase.Idle? && SendsTallied(m, t, id) && FateTallied(m, t, id)
    ensures var m' := Next(cfg, m, s);
            var t' := Tallied(t, m, s, m', id);
            SendsTallied(m', t', id) && FateTallied(m', t', id)
  {
    hide Good, Tried, Fetched, SendsTallied, FateTallied;
    FetchFacts(cfg, m.db, s.now, s.up);
    var f := Fetched(cfg.ord.outbox, m.db, cfg.oversized, s.now, s.up);
    if f.db == m.db && f.delivery.None? {
      assert Next(cfg, m, s) == m;
    } else {
      var due :| IsDue(m.db, s.now, due) && f == Tried(m.db, cfg.oversized, due, s.now);
      TriedTallies(cfg, m, s.now, due, t, id);
    }
  }

  lemma ReportTallies(cfg: Setup, m: Machine, s: Step, t: Tally, id: NoteId)
    requires Good(m) && s.Report? && m.phase.Sent? && SendsTallied(m, t, id) && FateTallied(m, t, id)
    ensures var m' := Next(cfg, m, s);
            var t' := Tallied(t, m, s, m', id);
            SendsTallied(m', t', id) && FateTallied(m', t', id)
  {
    hide Controller.Inv, Conserved, RowsBounded, SendsBounded, Listed, PowerOfTwo;
  }

  lemma StepTallies(cfg: Setup, m: Machine, s: Step, t: Tally, id: NoteId)
    requires GoodOrders(cfg.ord) && Good(m) && StepOk(s) && SendsTallied(m, t, id) && FateTallied(m, t, id)
    ensures var m' := Next(cfg, m, s);
            var t' := Tallied(t, m, s, m', id);
            SendsTallied(m', t', id) && FateTallied(m', t', id)
  {
    hide Good, Fetched, Reported, Applied, ListedId;
    match s {
      case Submit(_, _, _, _, _) => SubmitTallies(cfg, m, s, t, id);
      case DoFetch(_, _) =>
        if m.phase.Idle? {
          FetchTallies(cfg, m, s, t, id);
        }
      case DoSend =>
      case Report(_, _, _) =>
        if m.phase.Sent? {
          ReportTallies(cfg, m, s, t, id);
        }
      case Crash =>
    }
  }

  lemma {:induction false} RunTallies(cfg: Setup, steps: seq<Step>, id: NoteId)
    requires GoodOrders(cfg.ord) && forall i :: 0 <= i < |steps| ==> StepOk(steps[i])
    ensures SendsTallied(Run(cfg, steps), TallyOf(cfg, steps, id), id)
    ensures FateTallied(Run(cfg, steps), TallyOf(cfg, steps, id), id)
  {
    hide Good, Next, Tallied;
    if steps != [] {
      var before := steps[..|steps| - 1];
      RunTallies(cfg, before, id);
      RunKeeps(cfg, before);
      StepTallies(cfg, Run(cfg, before), steps[|steps| - 1], TallyOf(cfg, before, id), id);
    }
  }

  /**
   Exact accounts.  In every run from empty tables an identity is sent once for its
   confirmation and once more for each send that ended in a crash, a rejection or
   a lost report; it is confirmed at most once, and never sent again after that.
   An enqueued identity is still pending, or was confirmed, or was tried eight times.
   */
  lemma {:induction false} SendsAreAccounted(cfg: Setup, steps: seq<Step>, id: NoteId)
    requires GoodOrders(cfg.ord) && forall i :: 0 <= i < |steps| ==> StepOk(steps[i])
    ensures var m, t := Run(cfg, steps), TallyOf(cfg, steps, id);
            var rows := m.db.outbox.rows;
            && m.sends[id] == t.confirmed + t.unconfirmed + InFlight(m, id)
            && m.sends[id] <= 1 + t.unconfirmed
            && t.confirmed + (if m.phase.Idle? || m.phase.p.id != id then 0 else 1) <= 1
            && t.tries == m.sends[id] + t.unsent + Owed(m, id) <= 8
            && (id in m.enqueued ==>
                  (id in rows && rows[id].status == Pending) || t.confirmed == 1 || t.tries == 8)
            && (t.confirmed == 1 ==> id in m.enqueued && !(id in rows && rows[id].status == Pending))
  {
    hide Run, TallyOf, Controller.Inv, Conserved, SendsBounded;
    RunTallies(cfg, steps, id);
    RunKeeps(cfg, steps);
    var m, t := Run(cfg, steps), TallyOf(cfg, steps, id);
    assert id in m.enqueued <==> ListedId(m.enqueued, id) by {
      ListedIsIn(m, id);
    }
  }

  lemma ListedIsIn(m: Machine, id: NoteId)
    requires Listed(m)
    ensures id in m.enqueued <==> ListedId(m.enqueued, id)
  {
  }

  /** One step neither takes a confirmation back nor sends what the loop does not hold. */
  lemma StepOnly(cfg: Setup, m: Machine, s: Step, t: Tally, id: NoteId)
    requires StepOk(s)
    ensures var m' := Next(cfg, m, s);
            && t.confirmed <= Tallied(t, m, s, m', id).confirmed
            && (m'.sends[id] != m.sends[id] ==> m.phase.Holding? && m.phase.p.id == id)
  {
    hide Applied, Fetched, Reported;
  }

  /** However a run goes on, a confirmed notification is never sent again. */
  lemma {:induction false} ConfirmedIsFinal(cfg: Setup, steps: seq<Step>, more: seq<Step>, id: NoteId)
    requires GoodOrders(cfg.ord)
    requires forall i :: 0 <= i < |steps| ==> StepOk(steps[i])
    requires forall i :: 0 <= i < |more| ==> StepOk(more[i])
    requires TallyOf(cfg, steps, id).confirmed == 1
    ensures TallyOf(cfg, steps + more, id).confirmed == 1
    ensures Run(cfg, steps + more).sends[id] == Run(cfg, steps).sends[id]
    decreases |more|
  {
    hide Next, Tallied, StepOk;
    if more == [] {
      assert steps + more == steps;
    } else {
      var n := |more| - 1;
      var before := steps + more[..n];
      ConfirmedIsFinal(cfg, steps, more[..n], id);
      assert (steps + more)[..|steps + more| - 1] == before && (steps + more)[|steps + more| - 1] == more[n];
      StepOnly(cfg, Run(cfg, before), more[n], TallyOf(cfg, before, id), id);
      SendsAreAccounted(cfg, before, id);
      SendsAreAccounted(cfg, steps + more, id);
    }
  }
}
