/**
 The shared budget of concurrent provider calls.

 `Begun`, `Reserved` and `Recorded` are the three places where a call touches the
 shared usage, each under the lock; class `Client` is the code.  `BudgetHolds` is
 about every interleaving of any number of calls.
 */
module Budget {
  import opened Wrappers

  const OUTPUT_TOKENS: real := 16384.0
  const MILLION: real := 1000000.0
  const MAX_TRIES: nat := 3
  const MAX_COUNT: nat := 1_099_511_627_776

  datatype Config = Config(
    inputPrice: real, outputPrice: real, maxCost: real, maxAttempts: nat, maxBatches: nat, anthropic: bool)

  predicate ValidConfig(cfg: Config) {
    0.0 <= cfg.inputPrice && 0.0 <= cfg.outputPrice && 0.0 <= cfg.maxCost && 1 <= cfg.maxAttempts
  }

  datatype Breaker = BudgetExhausted | UsageIncomplete | ReservationUnderestimated

  datatype Usage = Usage(
    batches: nat, attempts: nat, finished: nat, metered: nat, unmetered: nat, input: nat, output: nat,
    reserved: real, cost: real, complete: bool, breaker: Option<Breaker>)

  const NO_USAGE: Usage := Usage(0, 0, 0, 0, 0, 0, 0, 0.0, 0.0, true, None)

  /** A token count of a response; an absent one differs from one that is no small number. */
  datatype Reading = Missing | Malformed | Tokens(n: nat)

  datatype Report = Report(input: Reading, output: Reading, creation: Reading, cached: Reading)

  function BatchLimit(cfg: Config): nat {
    if cfg.maxBatches == 0 then cfg.maxAttempts else cfg.maxBatches
  }

  function Reservation(cfg: Config, size: nat): real {
    (size as real * cfg.inputPrice + OUTPUT_TOKENS * cfg.outputPrice) / MILLION
  }

  function Count(r: Reading): Option<nat> {
    if r.Tokens? && r.n <= MAX_COUNT then Some(r.n) else None
  }

  function Extra(r: Reading): nat
    requires r.Missing? || Count(r).Some?
  {
    if r.Missing? then 0 else Count(r).value
  }

  /** The input tokens a response owns up to, if all of its counts can be read. */
  function InputOf(cfg: Config, r: Report): Option<nat> {
    var extra := [r.creation, r.cached];
    if Count(r.input).None? then None
    else if !cfg.anthropic then Count(r.input)
    else if exists x :: x in extra && !x.Missing? && Count(x).None? then None
    else
      assert r.creation == extra[0] && r.cached == extra[1];
      Some(Count(r.input).value + Extra(r.creation) + Extra(r.cached))
  }

  function CostOf(cfg: Config, input: nat, output: nat): real {
    (input as real * cfg.inputPrice + output as real * cfg.outputPrice) / MILLION
  }

  // ----- the three accesses -----

  function Begun(cfg: Config, u: Usage): (Usage, bool) {
    if u.batches >= BatchLimit(cfg) then (u, false) else (u.(batches := u.batches + 1), true)
  }

  function Reserved(cfg: Config, u: Usage, size: nat): (Usage, bool) {
    if u.breaker.Some? || u.attempts >= cfg.maxAttempts || u.reserved + Reservation(cfg, size) > cfg.maxCost
    then (u.(breaker := Some(BudgetExhausted)), false)
    else (u.(attempts := u.attempts + 1, reserved := u.reserved + Reservation(cfg, size)), true)
  }

  function Recorded(cfg: Config, u: Usage, r: Report, reserved: real): Usage {
    var input, output := InputOf(cfg, r), Count(r.output);
    if input.None? || output.None? then
      u.(finished := u.finished + 1, unmetered := u.unmetered + 1, complete := false, breaker := Some(UsageIncomplete))
    else
      var cost := CostOf(cfg, input.value, output.value);
      var v := u.(finished := u.finished + 1, metered := u.metered + 1, input := u.input + input.value,
                  output := u.output + output.value, cost := u.cost + cost);
      if cost > reserved then v.(breaker := Some(ReservationUnderestimated), complete := false) else v
  }

  // ----- concurrent calls -----

  /** Where a call is: about to try for the `tries`-th time, waiting for an answer, or over. */
  datatype Phase = Ready | Waiting | Over
  datatype Sender = Sender(size: nat, tries: nat, phase: Phase)

  datatype System = System(usage: Usage, senders: seq<Sender>)

  datatype Step =
    | Begin(size: nat)
    | GiveUp(id: nat)
    | Try(id: nat)
    | Answer(id: nat, report: Report, retry: bool)

  function After(cfg: Config, s: System, step: Step): System {
    match step
    case Begin(size) =>
      var (u, ok) := Begun(cfg, s.usage);
      if ok then System(u, s.senders + [Sender(size, 0, Ready)]) else s
    case GiveUp(id) =>
      if id < |s.senders| && s.senders[id].phase.Ready? then s.(senders := s.senders[id := s.senders[id].(phase := Over)]) else s
    case Try(id) =>
      if id < |s.senders| && s.senders[id].phase.Ready? then
        var p := s.senders[id];
        var (u, ok) := Reserved(cfg, s.usage, p.size);
        System(u, s.senders[id := if ok then p.(tries := p.tries + 1, phase := Waiting) else p.(phase := Over)])
      else s
    case Answer(id, report, retry) =>
      if id < |s.senders| && s.senders[id].phase.Waiting? then
        var p := s.senders[id];
        System(Recorded(cfg, s.usage, report, Reservation(cfg, p.size)),
               s.senders[id := p.(phase := if retry && p.tries < MAX_TRIES then Ready else Over)])
      else s
  }

  function Run(cfg: Config, steps: seq<Step>): System {
    if steps == [] then System(NO_USAGE, []) else After(cfg, Run(cfg, steps[..|steps| - 1]), steps[|steps| - 1])
  }

  // ----- sums over calls -----

  function Tries(ss: seq<Sender>): nat {
    if ss == [] then 0 else Tries(ss[..|ss| - 1]) + ss[|ss| - 1].tries
  }

  function Pending(p: Sender): nat { if p.phase.Waiting? then 1 else 0 }

  function Waits(ss: seq<Sender>): nat {
    if ss == [] then 0 else Waits(ss[..|ss| - 1]) + Pending(ss[|ss| - 1])
  }

  function Held(cfg: Config, p: Sender): real { if p.phase.Waiting? then Reservation(cfg, p.size) else 0.0 }

  /** The money reserved for answers still to come. */
  function Outstanding(cfg: Config, ss: seq<Sender>): real {
    if ss == [] then 0.0 else Outstanding(cfg, ss[..|ss| - 1]) + Held(cfg, ss[|ss| - 1])
  }

  lemma {:induction false} SumsOfChanged(cfg: Config, ss: seq<Sender>, i: nat, p: Sender)
    requires i < |ss|
    ensures var ts := ss[i := p];
            && Tries(ts) == Tries(ss) - ss[i].tries + p.tries
            && Waits(ts) == Waits(ss) - Pending(ss[i]) + Pending(p)
            && Outstanding(cfg, ts) == Outstanding(cfg, ss) - Held(cfg, ss[i]) + Held(cfg, p)
    decreases |ss|
  {
    hide Pending, Held;
    var ts, n := ss[i := p], |ss| - 1;
    if i == n {
      assert ts[..n] == ss[..n];
    } else {
      SumsOfChanged(cfg, ss[..n], i, p);
      assert ts[..n] == ss[..n][i := p];
    }
  }

  lemma SumsOfMore(cfg: Config, ss: seq<Sender>, p: Sender)
    ensures Tries(ss + [p]) == Tries(ss) + p.tries
    ensures Waits(ss + [p]) == Waits(ss) + Pending(p)
    ensures Outstanding(cfg, ss + [p]) == Outstanding(cfg, ss) + Held(cfg, p)
  {
    assert (ss + [p])[..|ss|] == ss;
  }

  lemma {:induction false} TriesAreFew(ss: seq<Sender>)
    requires forall i :: 0 <= i < |ss| ==> ss[i].tries <= MAX_TRIES
    ensures Tries(ss) <= MAX_TRIES * |ss|
    decreases |ss|
  {
    if ss != [] {
      TriesAreFew(ss[..|ss| - 1]);
    }
  }

  lemma {:induction false} OutstandingIsPositive(cfg: Config, ss: seq<Sender>)
    requires ValidConfig(cfg)
    ensures 0.0 <= Outstanding(cfg, ss)
    decreases |ss|
  {
    if ss != [] {
      OutstandingIsPositive(cfg, ss[..|ss| - 1]);
      ReservationIsPositive(cfg, ss[|ss| - 1].size);
    }
    hide Reservation;
  }

  lemma ReservationIsPositive(cfg: Config, size: nat)
    requires ValidConfig(cfg)
    ensures 0.0 <= Reservation(cfg, size)
  {
    assert 0.0 <= size as real * cfg.inputPrice;
    assert 0.0 <= OUTPUT_TOKENS * cfg.outputPrice;
  }

  // ----- what holds in every interleaving -----

  ghost predicate Inv(cfg: Config, s: System) {
    var u := s.usage;
    && |s.senders| == u.batches <= BatchLimit(cfg)
    && u.attempts == Tries(s.senders) <= cfg.maxAttempts
    && (forall i :: 0 <= i < |s.senders| ==> SenderOk(s.senders[i]))
    && u.attempts == u.finished + Waits(s.senders)
    && u.finished == u.metered + u.unmetered
    && u.reserved <= cfg.maxCost
    && (u.complete ==> u.cost + Outstanding(cfg, s.senders) <= u.reserved && u.unmetered == 0)
    && (!u.complete ==> u.breaker.Some?)
  }

  predicate SenderOk(p: Sender) {
    && p.tries <= MAX_TRIES && (p.phase.Ready? ==> p.tries < MAX_TRIES) && (p.phase.Waiting? ==> 0 < p.tries)
  }

  lemma BeginKeepsInv(cfg: Config, s: System, size: nat)
    requires Inv(cfg, s)
    ensures Inv(cfg, After(cfg, s, Begin(size)))
  {
    SumsOfMore(cfg, s.senders, Sender(size, 0, Ready));
    hide Tries, Waits, Outstanding;
  }

  lemma GiveUpKeepsInv(cfg: Config, s: System, id: nat)
    requires Inv(cfg, s)
    ensures Inv(cfg, After(cfg, s, GiveUp(id)))
  {
    if id < |s.senders| && s.senders[id].phase.Ready? {
      SumsOfChanged(cfg, s.senders, id, s.senders[id].(phase := Over));
    }
    hide Tries, Waits, Outstanding;
  }

  lemma TryKeepsInv(cfg: Config, s: System, id: nat)
    requires Inv(cfg, s)
    ensures Inv(cfg, After(cfg, s, Try(id)))
  {
    hide Tries, Waits, Outstanding, Reservation;
    if id < |s.senders| && s.senders[id].phase.Ready? {
      var p := s.senders[id];
      SumsOfChanged(cfg, s.senders, id, p.(tries := p.tries + 1, phase := Waiting));
      SumsOfChanged(cfg, s.senders, id, p.(phase := Over));
    }
  }

  lemma AnswerKeepsInv(cfg: Config, s: System, id: nat, r: Report, retry: bool)
    requires Inv(cfg, s)
    ensures Inv(cfg, After(cfg, s, Answer(id, r, retry)))
  {
    hide Tries, Waits, Outstanding, Reservation, CostOf, InputOf;
    if id < |s.senders| && s.senders[id].phase.Waiting? {
      var p := s.senders[id];
      SumsOfChanged(cfg, s.senders, id, p.(phase := if retry && p.tries < MAX_TRIES then Ready else Over));
    }
  }

  lemma {:induction false} RunKeepsInv(cfg: Config, steps: seq<Step>)
    requires ValidConfig(cfg)
    ensures Inv(cfg, Run(cfg, steps))
    decreases |steps|
  {
    if steps != [] {
      hide After, Inv;
      var s := Run(cfg, steps[..|steps| - 1]);
      RunKeepsInv(cfg, steps[..|steps| - 1]);
      match steps[|steps| - 1] {
        case Begin(size) => BeginKeepsInv(cfg, s, size);
        case GiveUp(id) => GiveUpKeepsInv(cfg, s, id);
        case Try(id) => TryKeepsInv(cfg, s, id);
        case Answer(id, r, retry) => AnswerKeepsInv(cfg, s, id, r, retry);
      }
    }
  }

  /**
   The budget holds at every moment of every interleaving: attempts, batches and
   reserved money stay within their limits, no call tries more than three times,
   every finished attempt is counted as metered or unmetered, and while the usage is
   complete nothing unmetered exists and the real cost is covered by what was reserved.
   */
  lemma {:induction false} BudgetHolds(cfg: Config, steps: seq<Step>)
    requires ValidConfig(cfg)
    ensures var u := Run(cfg, steps).usage;
            && u.attempts <= cfg.maxAttempts && u.attempts <= MAX_TRIES * u.batches && u.batches <= BatchLimit(cfg)
            && u.finished == u.metered + u.unmetered <= u.attempts
            && u.reserved <= cfg.maxCost
            && (u.complete ==> u.unmetered == 0 && u.cost <= u.reserved)
            && (!u.complete ==> u.breaker.Some?)
  {
    var s := Run(cfg, steps);
    RunKeepsInv(cfg, steps);
    TriesAreFew(s.senders);
    OutstandingIsPositive(cfg, s.senders);
    hide Run, Tries, Waits, Outstanding;
  }

  /** A tripped breaker stays tripped and lets no further attempt through. */
  lemma {:induction false} BreakerHolds(cfg: Config, s: System, steps: seq<Step>)
    requires s.usage.breaker.Some?
    ensures var t := RunFrom(cfg, s, steps);
            t.usage.breaker.Some? && t.usage.attempts == s.usage.attempts && t.usage.reserved == s.usage.reserved
    decreases |steps|
  {
    if steps != [] {
      BreakerHolds(cfg, s, steps[..|steps| - 1]);
      hide Reservation, CostOf, InputOf;
    }
  }

  function RunFrom(cfg: Config, s: System, steps: seq<Step>): System {
    if steps == [] then s else After(cfg, RunFrom(cfg, s, steps[..|steps| - 1]), steps[|steps| - 1])
  }

  // ----- the code -----

  /** How the transport of one attempt ended. */
  datatype Outcome = Outcome(report: Report, delivered: bool, retry: bool, cancelled: bool)

  /** The usage after a call that meets these outcomes, from attempt `i` on, and whether it succeeded. */
  function Called(cfg: Config, u: Usage, size: nat, cancelled: bool, outcome: nat -> Outcome, i: nat): (Usage, bool)
    decreases MAX_TRIES - i
  {
    if MAX_TRIES <= i || cancelled then (u, false)
    else
      var (v, ok) := Reserved(cfg, u, size);
      if !ok then (v, false)
      else
        var o := outcome(i);
        var w := Recorded(cfg, v, o.report, Reservation(cfg, size));
        if o.delivered then (w, true)
        else if !o.retry then (w, false)
        else Called(cfg, w, size, o.cancelled, outcome, i + 1)
  }

  class Client {
    const cfg: Config
    var usage: Usage

    constructor (cfg: Config)
      ensures this.cfg == cfg && usage == NO_USAGE
    {
      this.cfg := cfg;
      usage := NO_USAGE;
    }

    method Reserve(size: nat) returns (ok: bool)
      modifies this
      ensures (usage, ok) == Reserved(cfg, old(usage), size)
    {
      var reserve := (size as real * cfg.inputPrice + OUTPUT_TOKENS * cfg.outputPrice) / MILLION;
      if usage.breaker.Some? || usage.attempts >= cfg.maxAttempts || usage.reserved + reserve > cfg.maxCost {
        usage := usage.(breaker := Some(BudgetExhausted));
        return false;
      }
      usage := usage.(attempts := usage.attempts + 1);
      usage := usage.(reserved := usage.reserved + reserve);
      return true;
    }

    method Record(r: Report, reserved: real)
      modifies this
      ensures usage == Recorded(cfg, old(usage), r, reserved)
    {
      usage := usage.(finished := usage.finished + 1);
      var input, ok := ReadInput(r);
      var output := Count(r.output);
      if !ok || output.None? {
        usage := usage.(unmetered := usage.unmetered + 1, complete := false, breaker := Some(UsageIncomplete));
        return;
      }
      usage := usage.(metered := usage.metered + 1);
      usage := usage.(input := usage.input + input, output := usage.output + output.value);
      var cost := CostOf(cfg, input, output.value);
      usage := usage.(cost := usage.cost + cost);
      if cost > reserved {
        usage := usage.(breaker := Some(ReservationUnderestimated), complete := false);
      }
    }

    /** Anthropic reports cached input apart; those counts may be absent but not malformed. */
    method ReadInput(r: Report) returns (input: nat, ok: bool)
      ensures ok == InputOf(cfg, r).Some? && (ok ==> input == InputOf(cfg, r).value)
    {
      var first := Count(r.input);
      input, ok := if first.Some? then first.value else 0, first.Some?;
      if cfg.anthropic {
        var extra := [r.creation, r.cached];
        assert r.creation == extra[0] && r.cached == extra[1];
        for i := 0 to |extra|
          invariant ok == (first.Some? && forall j :: 0 <= j < i ==> extra[j].Missing? || Count(extra[j]).Some?)
          invariant ok ==> input == first.value + (if i < 1 then 0 else Extra(extra[0])) + (if i < 2 then 0 else Extra(extra[1]))
        {
          if !extra[i].Missing? {
            var n := Count(extra[i]);
            input := input + if n.Some? then n.value else 0;
            ok := ok && n.Some?;
          }
        }
      }
    }

    /** One call: at most three attempts, each reserved before it is sent and recorded after. */
    method Send(size: nat, tooLarge: bool, cancelled: bool, outcome: nat -> Outcome) returns (ok: bool)
      modifies this
      ensures var (u, begun) := Begun(cfg, old(usage));
              (usage, ok) == if !begun || tooLarge then (u, false) else Called(cfg, u, size, cancelled, outcome, 0)
    {
      if usage.batches >= BatchLimit(cfg) {
        return false;
      }
      usage := usage.(batches := usage.batches + 1);
      if tooLarge {
        return false;
      }
      ghost var start := usage;
      var stop := cancelled;
      for attempt := 0 to MAX_TRIES
        invariant Called(cfg, start, size, cancelled, outcome, 0) == Called(cfg, usage, size, stop, outcome, attempt)
      {
        hide Reserved, Recorded, Reservation;
        if stop {
          return false;
        }
        var admitted := Reserve(size);
        if !admitted {
          return false;
        }
        var o := outcome(attempt);
        Record(o.report, Reservation(cfg, size));
        if o.delivered {
          return true;
        }
        if !o.retry {
          return false;
        }
        stop := o.cancelled;
      }
      return false;
    }
  }
}
