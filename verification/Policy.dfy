/** The notification policy: a pure decision on one judged event. */
module Policy {
  import opened Wrappers
  import opened Verdict
  import opened Events

  datatype Policy = Policy(
    categories: seq<Category>, severities: seq<Severity>, minConfidence: real,
    cooldown: int, window: int, recurrence: int, maxEscalation: int,
    // What to do when the evidence does not allow a decision.
    reviewAbstained: bool)

  datatype Decision = Notify | ForReview | Ignore | Abstain

  /** The bounds a loaded policy satisfies. */
  predicate ValidPolicy(p: Policy) {
    && 0 < |p.categories| <= 9 && 0 < |p.severities| <= 5
    && 0.0 <= p.minConfidence <= 1.0
    && 1 <= p.cooldown <= 86_400 && 1 <= p.window <= 604_800
    && 2 <= p.recurrence <= 100_000 && 1 <= p.maxEscalation <= 32
    && (forall c :: c in p.categories ==> !c.UnknownCategory? && !c.OtherCategory?)
    && (forall s :: s in p.severities ==> !s.UnknownSeverity? && !s.OtherSeverity?)
  }

  predicate Sure(p: Policy, c: Option<real>) {
    c.Some? && p.minConfidence <= c.value <= 1.0
  }

  function Decide(p: Policy, e: Event): Decision {
    var o := e.judgment.opinion;
    var unclear := if p.reviewAbstained then ForReview else Abstain;
    if e.parseUncertain || e.truncated || e.sensitive || o.error != NoError
       || o.importance == UnknownImportance || o.importance == Uncertain then unclear
    else if !Sure(p, o.importanceConfidence) || !Sure(p, o.severityConfidence) || !Sure(p, o.categoryConfidence) then unclear
    else if o.importance == Important && (o.category in p.categories || o.severity in p.severities) then Notify
    else Ignore
  }

  /** Asking for more confidence, or for fewer kinds, never creates a notification. */
  lemma StricterNotifiesLess(p: Policy, q: Policy, e: Event)
    requires p.minConfidence <= q.minConfidence
    requires forall c :: c in q.categories ==> c in p.categories
    requires forall s :: s in q.severities ==> s in p.severities
    requires Decide(q, e) == Notify
    ensures Decide(p, e) == Notify
  {
  }

  // ----- what decides -----

  /** Neither the evidence nor the answer is in doubt. */
  predicate Clear(e: Event) {
    var o := e.judgment.opinion;
    !e.parseUncertain && !e.truncated && !e.sensitive && o.error == NoError
    && o.importance != UnknownImportance && o.importance != Uncertain
  }

  /** The confidence is given and lies between `least` and one. */
  ghost predicate Enough(least: real, c: Option<real>) {
    exists x: real :: c == Some(x) && !(x < least) && !(1.0 < x)
  }

  ghost predicate Certain(p: Policy, o: Opinion) {
    && Enough(p.minConfidence, o.importanceConfidence)
    && Enough(p.minConfidence, o.severityConfidence)
    && Enough(p.minConfidence, o.categoryConfidence)
  }

  function WithSeverity(e: Event, s: Severity): Event {
    e.(judgment := e.judgment.(opinion := e.judgment.opinion.(severity := s)))
  }

  function WithCategory(e: Event, c: Category): Event {
    e.(judgment := e.judgment.(opinion := e.judgment.opinion.(category := c)))
  }

  /** Of a clear and certain event, one listed kind is enough, whatever the other one is and is compared with. */
  lemma ListedKindPages(p: Policy, e: Event, severities: seq<Severity>, s: Severity, categories: seq<Category>, c: Category)
    requires Clear(e) && Certain(p, e.judgment.opinion) && e.judgment.opinion.importance == Important
    ensures e.judgment.opinion.category in p.categories ==>
              Decide(p.(severities := severities), WithSeverity(e, s)) == Notify
    ensures e.judgment.opinion.severity in p.severities ==>
              Decide(p.(categories := categories), WithCategory(e, c)) == Notify
  {
  }

  /** Every decision of a policy, by what is known of the event. */
  lemma DecisionsAre(p: Policy, e: Event)
    ensures var o := e.judgment.opinion;
            var sure := Clear(e) && Certain(p, o);
            && (Decide(p, e) == Notify <==>
                  sure && o.importance == Important
                  && ((exists c :: c in p.categories && c == o.category) || (exists s :: s in p.severities && s == o.severity)))
            && (Decide(p, e) == Ignore <==>
                  sure && (o.importance != Important || (o.category !in p.categories && o.severity !in p.severities)))
            && (Decide(p, e) == ForReview <==> !sure && p.reviewAbstained)
            && (Decide(p, e) == Abstain <==> !sure && !p.reviewAbstained)
  {
    var o := e.judgment.opinion;
    SureIsEnough(p, o.importanceConfidence);
    SureIsEnough(p, o.severityConfidence);
    SureIsEnough(p, o.categoryConfidence);
    hide Enough, Sure;
  }

  lemma SureIsEnough(p: Policy, c: Option<real>)
    ensures Sure(p, c) <==> Enough(p.minConfidence, c)
  {
  }
}
