/** What the evaluator promises: optimal, order-free, self-consistent advice, and how v1.4 extends v1.3. */
module PreflightTheorems {

  import opened Wrappers
  import opened EngineTypes
  import opened Sequences
  import opened Sorting
  import opened Cohorts
  import opened CohortTheorems
  import opened Preflight

  // ----- optimality over every integer

  /** An amount the user would accept instead, and that has a healthy cohort. */
  ghost predicate HealthyAmount(search: Search, amount: int) {
    amount != search.current && search.constraint.Inside(amount) && CohortAt(search, amount).healthy
  }

  lemma CandidateOrderTotal(current: int)
    ensures TotalPreorder(CandidateOrder(current))
  {
  }

  /** Healthy amounts have live matches, so the enumeration over observed amounts meets every one. */
  lemma HealthyIsCandidate(search: Search, amount: int)
    requires HealthyAmount(search, amount)
    ensures amount in CandidateAmounts(search)
  {
    HealthyBounds(search.actor, search.token, amount, search.now, search.observations);
    var o := Trailing(search.token, amount, search.now, search.observations)[0];
    assert o in Trailing(search.token, amount, search.now, search.observations);
    assert o in Matching(search.token, amount, search.now, search.observations);
    assert o in Observed(search.token, search.now, search.observations);
    var eligible := Filter(search.observations, Candidacy(search));
    assert Candidacy(search)(o);
    assert o in eligible;
    var k :| 0 <= k < |eligible| && eligible[k] == o;
    assert Map(eligible, AmountOf())[k] == amount;
  }

  lemma CandidateIsAcceptable(search: Search, amount: int)
    requires amount in CandidateAmounts(search)
    ensures amount != search.current && search.constraint.Inside(amount)
  {
    var eligible := Filter(search.observations, Candidacy(search));
    var k :| 0 <= k < |eligible| && Map(eligible, AmountOf())[k] == amount;
    assert eligible[k] in eligible;
  }

  /** The filtered candidates are exactly the healthy acceptable amounts, with their cohorts. */
  lemma HealthyCandidatesExact(search: Search, c: Candidate)
    ensures c in HealthyCandidates(search) <==> c == WithCohort(search)(c.amount) && HealthyAmount(search, c.amount)
  {
    var amounts := CandidateAmounts(search);
    var entries := Map(amounts, WithCohort(search));
    if c in HealthyCandidates(search) {
      var k :| 0 <= k < |entries| && entries[k] == c;
      CandidateIsAcceptable(search, amounts[k]);
      assert IsHealthy()(c);
    }
    if c == WithCohort(search)(c.amount) && HealthyAmount(search, c.amount) {
      HealthyIsCandidate(search, c.amount);
      var k :| 0 <= k < |amounts| && amounts[k] == c.amount;
      assert entries[k] == c;
      assert IsHealthy()(c);
    }
  }

  /** Strictly preferred to every other healthy amount in the authorised range, observed or not. */
  ghost predicate Optimal(search: Search, best: Candidate) {
    && best == WithCohort(search)(best.amount)
    && HealthyAmount(search, best.amount)
    && forall a :: HealthyAmount(search, a) && a != best.amount
                   ==> !CandidateOrder(search.current)(WithCohort(search)(a), best)
  }

  lemma PreferredOverOthers(search: Search, best: Candidate, a: int)
    requires best in HealthyCandidates(search)
    requires forall c :: c in HealthyCandidates(search) ==> CandidateOrder(search.current)(best, c)
    requires HealthyAmount(search, a)
    ensures a != best.amount ==> !CandidateOrder(search.current)(WithCohort(search)(a), best)
  {
    HealthyCandidatesExact(search, WithCohort(search)(a));
    assert CandidateOrder(search.current)(best, WithCohort(search)(a));
  }

  /** The recommended alternative is optimal, and there is none exactly when no amount qualifies. */
  lemma BestAlternativeOptimal(search: Search)
    ensures BestAlternative(search).None? <==> forall a :: !HealthyAmount(search, a)
    ensures BestAlternative(search).Some? ==> Optimal(search, BestAlternative(search).value)
  {
    var healthy := HealthyCandidates(search);
    if healthy != [] {
      CandidateOrderTotal(search.current);
      SortHead(CandidateOrder(search.current), healthy);
      var best := Sort(CandidateOrder(search.current), healthy)[0];
      HealthyCandidatesExact(search, best);
      forall a | HealthyAmount(search, a) && a != best.amount
        ensures !CandidateOrder(search.current)(WithCohort(search)(a), best)
      {
        PreferredOverOthers(search, best, a);
      }
    }
    forall a | HealthyAmount(search, a) ensures healthy != [] {
      HealthyCandidatesExact(search, WithCohort(search)(a));
    }
  }

  lemma OptimalUnique(search: Search, x: Candidate, y: Candidate)
    requires Optimal(search, x) && Optimal(search, y)
    ensures x == y
  {
    CandidateOrderTotal(search.current);
  }

  /**
   For an unhealthy flexible shield, v1.3 proposes a change exactly when it is the optimal one, and
   refuses exactly when no other integer inside the range is healthy.
   */
  lemma RecommendationDecides(intent: Intent, current: int, cohort: CohortQuality, now: int,
                              observations: seq<CohortObservation>, best: Candidate)
    requires intent.Shield? && intent.amount.Flexible? && !cohort.healthy
    ensures var search := SearchFor(intent, current, now, observations);
            var r := RecommendationV13(intent, current, cohort, now, observations);
            && (r == Some(NoSaferExecution) <==> forall a :: !HealthyAmount(search, a))
            && (r == Some(ChangeTo(current, best)) <==> Optimal(search, best))
  {
    AlternativeDecides(SearchFor(intent, current, now, observations), best);
  }

  lemma AlternativeDecides(search: Search, best: Candidate)
    ensures BestAlternative(search).None? <==> forall a :: !HealthyAmount(search, a)
    ensures BestAlternative(search) == Some(best) <==> Optimal(search, best)
  {
    hide BestAlternative, CohortAt;
    BestAlternativeOptimal(search);
    if Optimal(search, best) {
      assert HealthyAmount(search, best.amount);
      OptimalUnique(search, best, BestAlternative(search).value);
    }
  }

  /**
   For an unhealthy flexible shield or withdrawal, v1.4 proposes a change exactly when it is the optimal one,
   and otherwise never a change: it waits when waiting may help and the deadline allows, or refuses.
   */
  lemma RecommendationDecidesV14(intent: Intent, current: int, cohort: CohortQuality, now: int,
                                 observations: seq<CohortObservation>, best: Candidate)
    requires intent.amount.Flexible? && !cohort.healthy
    ensures var search := SearchFor(intent, current, now, observations);
            var r := RecommendationV14(intent, current, cohort, now, observations);
            && (r == Some(ChangeTo(current, best)) <==> Optimal(search, best))
            && ((forall a :: !HealthyAmount(search, a))
                <==> r == Some(NoSaferExecution) || r == Some(WaitFor(COHORT_SECONDS)))
  {
    AlternativeDecides(SearchFor(intent, current, now, observations), best);
  }

  // ----- only the evidence inside the horizon counts, in any order

  /** Cohorts are seen for 30 days, registrations for 30 minutes; nothing else is read. */
  ghost predicate SameEvidence(a: PreflightInput, b: PreflightInput) {
    && a.intent == b.intent && a.now == b.now && a.tokenDecimals == b.tokenDecimals
    && SameHorizon(a.now, ShieldSource(a.deposits), ShieldSource(b.deposits))
    && SameHorizon(a.now, Map(a.withdrawals, WithdrawalAsCohort()), Map(b.withdrawals, WithdrawalAsCohort()))
    && (forall r: RegistrationObservation :: a.now - CHANNEL_SECONDS <= r.timestamp < a.now ==>
          (r in a.registrations <==> r in b.registrations))
  }

  ghost predicate SameSearch(a: Search, b: Search) {
    && a.actor == b.actor && a.token == b.token && a.now == b.now && a.current == b.current
    && a.constraint == b.constraint && SameHorizon(a.now, a.observations, b.observations)
  }

  lemma SameCandidate(a: Search, b: Search, x: int)
    requires SameSearch(a, b)
    ensures WithCohort(a)(x) == WithCohort(b)(x)
    ensures HealthyAmount(a, x) == HealthyAmount(b, x)
  {
    CohortSame(a.actor, a.token, x, a.now, a.observations, b.observations);
  }

  lemma SameOptimum(a: Search, b: Search, c: Candidate)
    requires SameSearch(a, b) && Optimal(a, c)
    ensures Optimal(b, c)
  {
    SameCandidate(a, b, c.amount);
    forall x | HealthyAmount(b, x) && x != c.amount
      ensures !CandidateOrder(b.current)(WithCohort(b)(x), c)
    {
      SameCandidate(a, b, x);
    }
  }

  lemma SameAlternative(a: Search, b: Search)
    requires SameSearch(a, b)
    ensures BestAlternative(a) == BestAlternative(b)
  {
    BestAlternativeOptimal(a);
    BestAlternativeOptimal(b);
    forall x ensures HealthyAmount(a, x) == HealthyAmount(b, x) {
      SameCandidate(a, b, x);
    }
    if BestAlternative(a).Some? {
      SameOptimum(a, b, BestAlternative(a).value);
      OptimalUnique(b, BestAlternative(a).value, BestAlternative(b).value);
    }
  }

  lemma SameRegistrations(account: Address, now: int, a: seq<RegistrationObservation>, b: seq<RegistrationObservation>)
    requires forall r: RegistrationObservation :: now - CHANNEL_SECONDS <= r.timestamp < now && r in a ==> r in b
    ensures RecentlyRegistered(account, now, a) ==> RecentlyRegistered(account, now, b)
  {
    if RecentlyRegistered(account, now, a) {
      var i :| 0 <= i < |a| && a[i].account == account && now - CHANNEL_SECONDS <= a[i].timestamp < now;
      assert a[i] in a;
      var j :| 0 <= j < |b| && b[j] == a[i];
    }
  }

  lemma UnmatchedSame(intent: Intent, now: int, a: seq<CohortObservation>, b: seq<CohortObservation>)
    requires SameHorizon(now, a, b)
    ensures Unmatched(intent, now, a) == Unmatched(intent, now, b)
  {
    CohortSame(intent.account, intent.token, intent.amount.Selected(), now, a, b);
  }

  lemma RegisteredSame(a: PreflightInput, b: PreflightInput)
    requires SameEvidence(a, b)
    ensures RecentlyRegistered(a.intent.account, a.now, a.registrations)
            == RecentlyRegistered(b.intent.account, b.now, b.registrations)
  {
    SameRegistrations(a.intent.account, a.now, a.registrations, b.registrations);
    SameRegistrations(a.intent.account, a.now, b.registrations, a.registrations);
  }

  lemma CohortOfIntentSame(intent: Intent, now: int, a: seq<CohortObservation>, b: seq<CohortObservation>)
    requires SameHorizon(now, a, b)
    ensures var amount := intent.amount.Selected();
            CohortAt(SearchFor(intent, amount, now, a), amount) == CohortAt(SearchFor(intent, amount, now, b), amount)
  {
    var amount := intent.amount.Selected();
    SameCandidate(SearchFor(intent, amount, now, a), SearchFor(intent, amount, now, b), amount);
  }

  lemma RecommendationSame(intent: Intent, cohort: CohortQuality, now: int,
                           a: seq<CohortObservation>, b: seq<CohortObservation>)
    requires SameHorizon(now, a, b)
    ensures var amount := intent.amount.Selected();
            && RecommendationV13(intent, amount, cohort, now, a) == RecommendationV13(intent, amount, cohort, now, b)
            && RecommendationV14(intent, amount, cohort, now, a) == RecommendationV14(intent, amount, cohort, now, b)
  {
    var amount := intent.amount.Selected();
    SameAlternative(SearchFor(intent, amount, now, a), SearchFor(intent, amount, now, b));
  }

  /** v1.3 gives one answer to any two inputs that hold the same evidence inside the horizon. */
  lemma EvaluateSame(a: PreflightInput, b: PreflightInput)
    requires SameEvidence(a, b)
    ensures EvaluatePreflight(a) == EvaluatePreflight(b)
  {
    var source, source' := ShieldSource(a.deposits), ShieldSource(b.deposits);
    var amount := a.intent.amount.Selected();
    UnmatchedSame(a.intent, a.now, source, source');
    RegisteredSame(a, b);
    CohortOfIntentSame(a.intent, a.now, source, source');
    RecommendationSame(a.intent, CohortAt(SearchFor(a.intent, amount, a.now, source), amount), a.now, source, source');
  }

  /** In particular the order in which observations are listed does not matter. */
  lemma PermutedEvidence(a: PreflightInput, b: PreflightInput)
    requires a.intent == b.intent && a.now == b.now && a.tokenDecimals == b.tokenDecimals
    requires multiset(a.deposits) == multiset(b.deposits) && multiset(a.withdrawals) == multiset(b.withdrawals)
    requires multiset(a.registrations) == multiset(b.registrations)
    ensures SameEvidence(a, b)
  {
    MapPermutation(a.deposits, b.deposits, DepositAsCohort());
    MapPermutation(a.withdrawals, b.withdrawals, WithdrawalAsCohort());
    FilterPermutation(ShieldSource(a.deposits), ShieldSource(b.deposits), InHorizon(a.now));
    FilterPermutation(Map(a.withdrawals, WithdrawalAsCohort()), Map(b.withdrawals, WithdrawalAsCohort()),
            InHorizon(a.now));
    PermutationBasics(a.registrations, b.registrations);
  }

  lemma CounterpartsSame(a: PreflightInput, b: PreflightInput)
    requires SameEvidence(a, b)
    ensures Counterparts(a.intent, a.now, a.deposits) == [] <==> Counterparts(b.intent, b.now, b.deposits) == []
    ensures NearbyCounterparts(a.intent, a.now, a.deposits) == []
            <==> NearbyCounterparts(b.intent, b.now, b.deposits) == []
  {
    hide ShieldSource, Matching, SameHorizon;
    MatchingSame(a.intent.token, a.intent.amount.Selected(), a.now, ShieldSource(a.deposits), ShieldSource(b.deposits));
    FilterPermutation(Counterparts(a.intent, a.now, a.deposits), Counterparts(b.intent, b.now, b.deposits),
                      Since(a.now - PROXIMITY_SECONDS));
  }

  lemma FactsSame(a: PreflightInput, b: PreflightInput, healthy: bool)
    requires SameEvidence(a, b) && a.tokenDecimals >= 0
    ensures FactsFor(a, ObservationsFor(a.intent, a.deposits, a.withdrawals), healthy)
            == FactsFor(b, ObservationsFor(b.intent, b.deposits, b.withdrawals), healthy)
  {
    UnmatchedSame(a.intent, a.now, ObservationsFor(a.intent, a.deposits, a.withdrawals),
                  ObservationsFor(b.intent, b.deposits, b.withdrawals));
    RegisteredSame(a, b);
    CounterpartsSame(a, b);
  }

  /** v1.4 likewise, for shields and withdrawals. */
  lemma EvaluateSameV14(a: PreflightInput, b: PreflightInput)
    requires SameEvidence(a, b)
    ensures EvaluatePreflightV14(a) == EvaluatePreflightV14(b)
  {
    if !a.intent.Other? && 0 <= a.tokenDecimals <= 255 {
      var source := ObservationsFor(a.intent, a.deposits, a.withdrawals);
      var source' := ObservationsFor(b.intent, b.deposits, b.withdrawals);
      var amount := a.intent.amount.Selected();
      var cohort := CohortAt(SearchFor(a.intent, amount, a.now, source), amount);
      FactsSame(a, b, cohort.healthy);
      CohortOfIntentSame(a.intent, a.now, source, source');
      RecommendationSame(a.intent, cohort, a.now, source, source');
    }
  }

  // ----- how signals entail each other

  lemma UnmatchedIsUnhealthy(actor: Address, token: Address, amount: int, now: int,
                             observations: seq<CohortObservation>)
    requires Matching(token, amount, now, observations) == []
    ensures !Cohort(actor, token, amount, now, observations).healthy
  {
    if Cohort(actor, token, amount, now, observations).healthy {
      HealthyBounds(actor, token, amount, now, observations);
      assert false;
    }
  }

  function Bit(s: Signal): nat {
    if s.status == Fired then 1 else 0
  }

  lemma FiredCountSnoc(signals: seq<Signal>, s: Signal)
    ensures FiredCount(signals + [s]) == FiredCount(signals) + Bit(s)
  {
    FilterConcat(signals, [s], IsFired());
  }

  lemma FiredCountOf5(a: Signal, b: Signal, c: Signal, d: Signal, e: Signal)
    ensures FiredCount([a, b, c, d, e]) == Bit(a) + Bit(b) + Bit(c) + Bit(d) + Bit(e)
  {
    assert [a, b, c, d, e] == [] + [a] + [b] + [c] + [d] + [e];
    FiredCountSnoc([] + [a] + [b] + [c] + [d], e);
    FiredCountSnoc([] + [a] + [b] + [c], d);
    FiredCountSnoc([] + [a] + [b], c);
    FiredCountSnoc([] + [a], b);
    FiredCountSnoc([], a);
  }

  lemma FiredCountOf6(a: Signal, b: Signal, c: Signal, d: Signal, e: Signal, f: Signal)
    ensures FiredCount([a, b, c, d, e, f]) == FiredCount([a, b, c, d, e]) + Bit(f)
  {
    assert [a, b, c, d, e, f] == [a, b, c, d, e] + [f];
    FiredCountSnoc([a, b, c, d, e], f);
  }

  lemma ReportsV13(unmatched: bool, registered: bool, healthy: bool)
    ensures var signals := SignalsV13(unmatched, registered, healthy);
            && (HasFired(signals, S1) <==> unmatched)
            && (HasFired(signals, S5) <==> !healthy)
            && FiredCount(signals)
                    == (if unmatched then 1 else 0) + (if registered then 1 else 0) + (if healthy then 0 else 1)
  {
    var signals := SignalsV13(unmatched, registered, healthy);
    assert signals[0] == FiredIf(S1, unmatched) && signals[4] == FiredIf(S5, !healthy);
    FiredCountOf5(signals[0], signals[1], signals[2], signals[3], signals[4]);
  }

  lemma ReportsV14(shield: bool, facts: Facts)
    ensures var signals := SignalsV14(shield, facts);
            && (HasFired(signals, S1) <==> facts.unmatched)
            && (HasFired(signals, S2) <==> !shield && facts.counterpart)
            && (HasFired(signals, S3) <==> !shield && facts.nearby)
            && (HasFired(signals, S5) <==> !facts.healthy)
            && (HasFired(signals, S7) <==> facts.unmatched && facts.round)
            && FiredCount(signals) == FiredCount(signals[..5]) + (if facts.unmatched && facts.round then 1 else 0)
            && FiredCount(signals[..5]) >= (if facts.unmatched then 1 else 0) + (if facts.healthy then 0 else 1)
  {
    var signals := SignalsV14(shield, facts);
    assert signals[0] == FiredIf(S1, facts.unmatched) && signals[4] == FiredIf(S5, !facts.healthy);
    assert !shield ==> signals[1] == FiredIf(S2, facts.counterpart) && signals[2] == FiredIf(S3, facts.nearby);
    assert signals[5] == FiredIf(S7, facts.unmatched && facts.round);
    assert signals[..5] == [signals[0], signals[1], signals[2], signals[3], signals[4]];
    FiredCountOf5(signals[0], signals[1], signals[2], signals[3], signals[4]);
    FiredCountOf6(signals[0], signals[1], signals[2], signals[3], signals[4], signals[5]);
  }

  /** A new amount always has an unhealthy cohort too, so v1.3 never allows it silently. */
  lemma EntailmentsV13(input: PreflightInput)
    requires input.intent.Shield?
    ensures var r := EvaluatePreflight(input);
            HasFired(r.signals, S1) ==> HasFired(r.signals, S5) && r.band != LowBand && r.decision != Allow
  {
    var intent, source := input.intent, ShieldSource(input.deposits);
    var amount := intent.amount.Selected();
    var registered := RecentlyRegistered(intent.account, input.now, input.registrations);
    var healthy := EvaluatePreflight(input).cohort.healthy;
    ReportsV13(Unmatched(intent, input.now, source), registered, healthy);
    if Unmatched(intent, input.now, source) {
      UnmatchedIsUnhealthy(intent.account, intent.token, amount, input.now, source);
    }
  }

  /**
   In v1.4 a new amount is unhealthy, a new round amount is always denied, and so is a withdrawal that
   follows a matching deposit within the hour, because the nearby deposit is a counterpart as well.
   */
  lemma EntailmentsV14(input: PreflightInput)
    requires EvaluatePreflightV14(input).Ok? && EvaluatePreflightV14(input).value.Supported?
    ensures var r := EvaluatePreflightV14(input).value;
            && (HasFired(r.signals, S1) ==> HasFired(r.signals, S5) && r.band != LowBand)
            && (HasFired(r.signals, S7) ==>
                  HasFired(r.signals, S1) && HasFired(r.signals, S5) && r.band == HighBand && r.decision == Deny)
            && (HasFired(r.signals, S3) ==> HasFired(r.signals, S2) && r.band == HighBand && r.decision == Deny)
  {
    var intent := input.intent;
    var source := ObservationsFor(intent, input.deposits, input.withdrawals);
    var healthy := EvaluatePreflightV14(input).value.cohort.healthy;
    ReportsV14(intent.Shield?, FactsFor(input, source, healthy));
    if Unmatched(intent, input.now, source) {
      UnmatchedIsUnhealthy(ActorFor(intent), intent.token, intent.amount.Selected(), input.now, source);
    }
  }

  // ----- following a recommendation settles the matter

  function Follow(input: PreflightInput, amount: int): PreflightInput
    requires input.intent.Shield?
  {
    input.(intent := Shield(input.intent.account, input.intent.token, Exact(amount), input.intent.deadline))
  }

  lemma RecommendedIsMatched(search: Search, best: Candidate)
    requires Optimal(search, best)
    ensures Matching(search.token, best.amount, search.now, search.observations) != []
  {
    HealthyBounds(search.actor, search.token, best.amount, search.now, search.observations);
  }

  /** Re-evaluating the recommended amount as an exact intent is allowed, and asks for nothing further. */
  lemma RecommendationSettles(input: PreflightInput)
    requires input.intent.Shield?
    requires EvaluatePreflight(input).recommendation.Some? && EvaluatePreflight(input).recommendation.value.ChangeAmount?
    ensures var advice := EvaluatePreflight(input).recommendation.value;
            var again := EvaluatePreflight(Follow(input, advice.to));
            && again.cohort == advice.cohort
            && !HasFired(again.signals, S1) && !HasFired(again.signals, S5)
            && again.recommendation == None
            && again.band == LowBand && again.decision == Allow
  {
    var search := SearchFor(input.intent, input.intent.amount.Selected(), input.now, ShieldSource(input.deposits));
    BestAlternativeOptimal(search);
    var best := BestAlternative(search).value;
    RecommendedIsMatched(search, best);
    ReportsV13(false, RecentlyRegistered(input.intent.account, input.now, input.registrations), true);
  }

  lemma LowWhenSettled(facts: Facts)
    requires !facts.unmatched && facts.healthy
    ensures var signals := SignalsV14(true, facts);
            && BandForV14(signals) == LowBand
            && !HasFired(signals, S1) && !HasFired(signals, S5) && !HasFired(signals, S7)
  {
    var signals := SignalsV14(true, facts);
    ReportsV14(true, facts);
    assert signals[..5] == [signals[0], signals[1], signals[2], signals[3], signals[4]];
    FiredCountOf5(signals[0], signals[1], signals[2], signals[3], signals[4]);
  }

  lemma AdviceIsOptimal(input: PreflightInput)
    requires input.intent.Shield? && EvaluatePreflightV14(input).Ok?
    requires var r := EvaluatePreflightV14(input).value.recommendation; r.Some? && r.value.ChangeAmount?
    ensures var advice := EvaluatePreflightV14(input).value.recommendation.value;
            var search := SearchFor(input.intent, input.intent.amount.Selected(), input.now,
                    ShieldSource(input.deposits));
            Optimal(search, Candidate(advice.to, advice.cohort))
  {
    hide CohortAt, FactsFor, SignalsV14, BandForV14;
    BestAlternativeOptimal(SearchFor(input.intent, input.intent.amount.Selected(), input.now,
            ShieldSource(input.deposits)));
  }

  lemma HealthyExactSettles(input: PreflightInput)
    requires input.intent.Shield? && EvaluatePreflightV14(input).Ok?
    requires EvaluatePreflightV14(input).value.cohort.healthy
    requires !Unmatched(input.intent, input.now, ShieldSource(input.deposits))
    ensures var r := EvaluatePreflightV14(input).value;
            && !HasFired(r.signals, S1) && !HasFired(r.signals, S5) && !HasFired(r.signals, S7)
            && r.recommendation == None && r.band == LowBand && r.decision == Allow
  {
    LowWhenSettled(FactsFor(input, ShieldSource(input.deposits), true));
  }

  lemma RecommendationSettlesV14(input: PreflightInput)
    requires input.intent.Shield? && EvaluatePreflightV14(input).Ok?
    requires var r := EvaluatePreflightV14(input).value.recommendation; r.Some? && r.value.ChangeAmount?
    ensures var advice := EvaluatePreflightV14(input).value.recommendation.value;
            var again := EvaluatePreflightV14(Follow(input, advice.to));
            && again.Ok?
            && again.value.cohort == advice.cohort
            && !HasFired(again.value.signals, S1) && !HasFired(again.value.signals, S5)
            && !HasFired(again.value.signals, S7)
            && again.value.recommendation == None
            && again.value.band == LowBand && again.value.decision == Allow
  {
    hide FactsFor, SignalsV14, BandForV14, RecommendationV14, Cohort;
    var advice := EvaluatePreflightV14(input).value.recommendation.value;
    AdviceIsOptimal(input);
    RecommendedIsMatched(SearchFor(input.intent, input.intent.amount.Selected(), input.now,
            ShieldSource(input.deposits)),
                         Candidate(advice.to, advice.cohort));
    HealthyExactSettles(Follow(input, advice.to));
  }

  // ----- v1.4 is a conservative extension of v1.3 on shields

  lemma ExtensionOfSignals(facts: Facts)
    ensures var before, after := SignalsV13(facts.unmatched, facts.registered, facts.healthy), SignalsV14(true, facts);
            && after[..5] == before
            && (HasFired(after, S7) ==> facts.unmatched)
            && (!HasFired(after, S7) ==> BandForV14(after) == BandFor(before))
            && (HasFired(after, S7) && !facts.healthy ==> BandForV14(after) == HighBand)
  {
    ReportsV13(facts.unmatched, facts.registered, facts.healthy);
    ReportsV14(true, facts);
    assert SignalsV14(true, facts)[..5] == SignalsV13(facts.unmatched, facts.registered, facts.healthy);
  }

  /**
   On a shield both versions report the same cohort and the same S1 to S5. The band differs only when
   S7 fires, and is then HIGH. The advice differs only where v1.3 refuses and waiting may help.
   */
  lemma V14ExtendsV13(input: PreflightInput)
    requires input.intent.Shield? && 0 <= input.tokenDecimals <= 255
    ensures var r13, r14 := EvaluatePreflight(input), EvaluatePreflightV14(input);
            && r14.Ok?
            && r14.value.cohort == r13.cohort && r14.value.amount == r13.amount
            && |r14.value.signals| == 6 && r14.value.signals[..5] == r13.signals
            && r14.value.band == (if HasFired(r14.value.signals, S7) then HighBand else r13.band)
            && r14.value.recommendation ==
               if && r13.recommendation == Some(NoSaferExecution)
                  && MayBenefitFromRecheck(r13.cohort)
                  && input.intent.deadline - input.now >= COHORT_SECONDS
               then Some(WaitFor(COHORT_SECONDS)) else r13.recommendation
  {
    hide Cohort, FiredCount;
    var intent, source := input.intent, ShieldSource(input.deposits);
    var r13 := EvaluatePreflight(input);
    var facts := FactsFor(input, source, r13.cohort.healthy);
    ExtensionOfSignals(facts);
    if facts.unmatched {
      UnmatchedIsUnhealthy(intent.account, intent.token, intent.amount.Selected(), input.now, source);
    }
  }
}
