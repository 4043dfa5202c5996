/** What the budget lets through, what an answer costs, and when a call tries again. */
module Spending {
  import opened Wrappers
  import opened Budget

  /** A token count that can be relied on. */
  predicate Readable(r: Reading) {
    r.Tokens? && r.n <= 1099511627776
  }

  /** What one attempt of this size may cost at most. */
  function Price(cfg: Config, size: nat): real {
    (size as real * cfg.inputPrice + 16384.0 * cfg.outputPrice) / 1000000.0
  }

  lemma ReservationIsPrice(cfg: Config, size: nat)
    ensures Reservation(cfg, size) == Price(cfg, size)
  {
  }

  /**
   An attempt is admitted exactly while no breaker is tripped, attempts are left and its
   price fits what is left of the money; a refused one trips the breaker and changes
   nothing else.
   */
  lemma {:induction false} AdmittedExactly(cfg: Config, u: Usage, size: nat)
    ensures var (v, ok) := Reserved(cfg, u, size);
            && (ok <==> u.breaker.None? && u.attempts < cfg.maxAttempts && u.reserved + Price(cfg, size) <= cfg.maxCost)
            && (ok ==> v == u.(attempts := u.attempts + 1, reserved := u.reserved + Price(cfg, size)))
            && (!ok ==> v == u.(breaker := Some(BudgetExhausted)))
  {
    ReservationIsPrice(cfg, size);
    hide Reservation, Price;
  }

  /** A call begins exactly while fewer than the allowed batches did; without a limit of their own they have that of the attempts. */
  lemma BegunExactly(cfg: Config, u: Usage)
    ensures Begun(cfg, u).1 <==> u.batches < if cfg.maxBatches != 0 then cfg.maxBatches else cfg.maxAttempts
    ensures Begun(cfg, u).0 == if Begun(cfg, u).1 then u.(batches := u.batches + 1) else u
  {
  }

  /** Every count that the provider should or does give can be read. */
  predicate Metered(cfg: Config, r: Report) {
    && Readable(r.input) && Readable(r.output)
    && (cfg.anthropic ==> (r.creation.Missing? || Readable(r.creation)) && (r.cached.Missing? || Readable(r.cached)))
  }

  function TokensOf(r: Reading): nat {
    if r.Tokens? then r.n else 0
  }

  /** The input that is paid for; Anthropic counts cached input apart. */
  function InputTokens(cfg: Config, r: Report): nat {
    TokensOf(r.input) + if cfg.anthropic then TokensOf(r.creation) + TokensOf(r.cached) else 0
  }

  lemma InputIs(cfg: Config, r: Report)
    ensures Metered(cfg, r) <==> InputOf(cfg, r).Some? && Count(r.output).Some?
    ensures Metered(cfg, r) ==> InputOf(cfg, r).value == InputTokens(cfg, r) && Count(r.output).value == TokensOf(r.output)
  {
    var extra := [r.creation, r.cached];
    assert r.creation == extra[0] && r.cached == extra[1];
    assert forall x :: x in extra <==> x == r.creation || x == r.cached;
  }

  function CostIn(cfg: Config, input: nat, output: nat): real {
    (input as real * cfg.inputPrice + output as real * cfg.outputPrice) / 1000000.0
  }

  /**
   An answer whose counts can be read is metered and paid for by its tokens; if it cost
   more than was reserved for it, or its counts cannot be read, the usage is incomplete
   from then on and the breaker trips.
   */
  lemma {:induction false} RecordedExactly(cfg: Config, u: Usage, r: Report, reserved: real)
    ensures var v := Recorded(cfg, u, r, reserved);
            var cost := CostIn(cfg, InputTokens(cfg, r), TokensOf(r.output));
            && v.finished == u.finished + 1 && v.batches == u.batches && v.attempts == u.attempts && v.reserved == u.reserved
            && (Metered(cfg, r) ==>
                  && v.metered == u.metered + 1 && v.unmetered == u.unmetered
                  && v.input == u.input + InputTokens(cfg, r) && v.output == u.output + TokensOf(r.output)
                  && v.cost == u.cost + cost
                  && v.breaker == (if reserved < cost then Some(ReservationUnderestimated) else u.breaker)
                  && v.complete == (u.complete && cost <= reserved))
            && (!Metered(cfg, r) ==>
                  && v.unmetered == u.unmetered + 1 && v.metered == u.metered
                  && v.input == u.input && v.output == u.output && v.cost == u.cost
                  && v.breaker == Some(UsageIncomplete) && !v.complete)
  {
    InputIs(cfg, r);
    hide InputOf, Count, Metered, InputTokens, TokensOf;
  }

  lemma CostsAdd(cfg: Config, a: nat, b: nat, c: nat, d: nat)
    ensures CostIn(cfg, a, b) + CostIn(cfg, c, d) == CostIn(cfg, a + c, b + d)
  {
    var p, q := cfg.inputPrice, cfg.outputPrice;
    Distributes(a as real, c as real, p);
    Distributes(b as real, d as real, q);
    assert (a + c) as real == a as real + c as real && (b + d) as real == b as real + d as real;
  }

  lemma Distributes(a: real, b: real, p: real)
    ensures (a + b) * p == a * p + b * p
  {
  }

  lemma CostStep(cfg: Config, s: System, step: Step)
    requires s.usage.cost == CostIn(cfg, s.usage.input, s.usage.output)
    ensures var u := After(cfg, s, step).usage; u.cost == CostIn(cfg, u.input, u.output)
  {
    hide CostIn, Reservation, Recorded;
    match step {
      case Answer(id, report, _) =>
        if id < |s.senders| && s.senders[id].phase.Waiting? {
          var reserved := Reservation(cfg, s.senders[id].size);
          RecordedExactly(cfg, s.usage, report, reserved);
          CostsAdd(cfg, s.usage.input, s.usage.output, InputTokens(cfg, report), TokensOf(report.output));
        }
      case _ =>
    }
  }

  /** In every interleaving the cost is exactly the price of all tokens that were metered. */
  lemma {:induction false} CostIsThePriceOfTheTokens(cfg: Config, steps: seq<Step>)
    ensures var u := Run(cfg, steps).usage; u.cost == CostIn(cfg, u.input, u.output)
  {
    hide After, CostIn;
    if steps == [] {
      NothingCosts(cfg);
    } else {
      CostIsThePriceOfTheTokens(cfg, steps[..|steps| - 1]);
      CostStep(cfg, Run(cfg, steps[..|steps| - 1]), steps[|steps| - 1]);
    }
  }

  lemma NothingCosts(cfg: Config)
    ensures CostIn(cfg, 0, 0) == 0.0
  {
  }

  // ----- one call -----

  /** The usage before attempt number `k` of a call, when every attempt before it was made and answered. */
  function UsageBefore(cfg: Config, u: Usage, size: nat, outcome: nat -> Outcome, k: nat): Usage {
    if k == 0 then u
    else Recorded(cfg, Reserved(cfg, UsageBefore(cfg, u, size, outcome, k - 1), size).0, outcome(k - 1).report, Price(cfg, size))
  }

  predicate Admits(cfg: Config, u: Usage, size: nat) {
    u.breaker.None? && u.attempts < cfg.maxAttempts && u.reserved + Price(cfg, size) <= cfg.maxCost
  }

  /** The outcome lets the call go on: it was not delivered, may be retried, and nobody cancelled. */
  predicate GoesOn(o: Outcome) {
    !o.delivered && o.retry && !o.cancelled
  }

  /** Attempt number `k` of the call is made. */
  ghost predicate Made(cfg: Config, u: Usage, size: nat, cancelled: bool, outcome: nat -> Outcome, k: nat) {
    && k < 3 && !cancelled
    && (forall j :: 0 <= j <= k ==> Admits(cfg, UsageBefore(cfg, u, size, outcome, j), size))
    && (forall j :: 0 <= j < k ==> GoesOn(outcome(j)))
  }

  lemma AdmitsIs(cfg: Config, u: Usage, size: nat)
    ensures Reserved(cfg, u, size).1 <==> Admits(cfg, u, size)
  {
    AdmittedExactly(cfg, u, size);
    hide Reserved, Price;
  }

  lemma {:induction false} CalledFrom(cfg: Config, u: Usage, size: nat, outcome: nat -> Outcome, i: nat)
    requires i <= 3 && forall j :: 0 <= j < i ==> Admits(cfg, UsageBefore(cfg, u, size, outcome, j), size) && GoesOn(outcome(j))
    ensures Called(cfg, UsageBefore(cfg, u, size, outcome, i), size, false, outcome, i).1
       <==> exists k :: i <= k && Made(cfg, u, size, false, outcome, k) && outcome(k).delivered
    decreases 3 - i
  {
    hide Recorded, Reserved, Admits, Price, Reservation;
    if i < 3 {
      var v := UsageBefore(cfg, u, size, outcome, i);
      AdmitsIs(cfg, v, size);
      ReservationIsPrice(cfg, size);
      if Admits(cfg, v, size) {
        assert Made(cfg, u, size, false, outcome, i);
        if GoesOn(outcome(i)) {
          CalledFrom(cfg, u, size, outcome, i + 1);
        } else {
          Stops(cfg, u, size, outcome, i);
        }
      } else {
        assert forall k :: i <= k ==> !Made(cfg, u, size, false, outcome, k);
      }
    }
  }

  lemma Stops(cfg: Config, u: Usage, size: nat, outcome: nat -> Outcome, i: nat)
    requires i < 3 && !GoesOn(outcome(i)) && Made(cfg, u, size, false, outcome, i)
    ensures forall k :: i < k ==> !Made(cfg, u, size, false, outcome, k)
    ensures Called(cfg, UsageBefore(cfg, u, size, outcome, i), size, false, outcome, i).1 == outcome(i).delivered
  {
    hide Recorded, Reserved, Admits, Price, Reservation;
    assert Admits(cfg, UsageBefore(cfg, u, size, outcome, i), size);
    AdmitsIs(cfg, UsageBefore(cfg, u, size, outcome, i), size);
    assert !GoesOn(outcome(i));
    if !outcome(i).delivered && outcome(i).retry {
      assert outcome(i).cancelled;
    }
  }

  /**
   A call succeeds exactly when one of its at most three attempts is made and delivered:
   the budget admits it and every attempt before it, and each of those came to nothing,
   may be retried and was not followed by a cancellation.
   */
  lemma {:induction false} CallSucceedsExactly(cfg: Config, u: Usage, size: nat, cancelled: bool, outcome: nat -> Outcome)
    ensures Called(cfg, u, size, cancelled, outcome, 0).1
       <==> exists k :: Made(cfg, u, size, cancelled, outcome, k) && outcome(k).delivered
  {
    hide Recorded, Reserved, Admits;
    if !cancelled {
      CalledFrom(cfg, u, size, outcome, 0);
    }
  }

  /**
   After an answer a call may try again exactly when the answer allows it and it has tried
   fewer than three times; otherwise it is over.  No other call notices.
   */
  lemma {:induction false} AnswersEndCalls(cfg: Config, s: System, id: nat, report: Report, retry: bool)
    requires id < |s.senders| && s.senders[id].phase.Waiting?
    ensures var t := After(cfg, s, Answer(id, report, retry));
            && |t.senders| == |s.senders| && t.senders[id].tries == s.senders[id].tries
            && (t.senders[id].phase.Ready? <==> retry && s.senders[id].tries < 3)
            && (t.senders[id].phase.Over? <==> !(retry && s.senders[id].tries < 3))
            && (forall other :: 0 <= other < |s.senders| && other != id ==> t.senders[other] == s.senders[other])
  {
    hide Recorded;
  }

  /** A call that gave up is over: it never tries again. */
  lemma {:induction false} OverIsOver(cfg: Config, s: System, steps: seq<Step>, id: nat)
    requires id < |s.senders| && (s.senders[id].phase.Over? || (s.senders[id].phase.Ready? && steps != [] && steps[0] == GiveUp(id)))
    ensures var t := RunFrom(cfg, s, steps);
            id < |t.senders| && t.senders[id].tries == s.senders[id].tries && (steps != [] || s.senders[id].phase.Over? ==> t.senders[id].phase.Over?)
    decreases |steps|
  {
    hide Reserved, Recorded, Begun;
    if steps != [] {
      var n := |steps| - 1;
      if n == 0 {
        assert steps[..0] == [];
      } else {
        OverIsOver(cfg, s, steps[..n], id);
      }
    }
  }
}
