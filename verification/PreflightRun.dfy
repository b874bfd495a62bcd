/**
 The evaluator as it runs. Each version filters and loops over its own observation type; every method
 is proved to return exactly what the functions of module Preflight say.
 */
module PreflightRun {

  import opened Wrappers
  import opened EngineTypes
  import opened Sequences
  import opened Sorting
  import opened Cohorts
  import opened Preflight
  import opened PreflightTheorems

  function DepositSeen(token: Address, now: int): DepositObservation -> bool {
    (d: DepositObservation) => d.timestamp >= now - OBSERVATION_SECONDS && d.timestamp < now && d.token == token
  }

  function DepositOf(amount: int): DepositObservation -> bool {
    (d: DepositObservation) => d.amount == amount
  }

  function DepositSince(start: int): DepositObservation -> bool {
    (d: DepositObservation) => d.timestamp >= start
  }

  /** Filtering deposits and then viewing them as cohort members is the same as the reverse. */
  lemma DepositFilters(token: Address, amount: int, now: int, start: int, deposits: seq<DepositObservation>)
    ensures var seen := Filter(deposits, DepositSeen(token, now));
            var matching := Filter(seen, DepositOf(amount));
            && ShieldSource(seen) == Observed(token, now, ShieldSource(deposits))
            && ShieldSource(matching) == Matching(token, amount, now, ShieldSource(deposits))
            && ShieldSource(Filter(matching, DepositSince(start)))
               == Filter(Matching(token, amount, now, ShieldSource(deposits)), Since(start))
            && ShieldSource(Filter(seen, DepositSince(start)))
               == Filter(Observed(token, now, ShieldSource(deposits)), Since(start))
  {
    var seen := Filter(deposits, DepositSeen(token, now));
    var matching := Filter(seen, DepositOf(amount));
    FilterMap(deposits, DepositAsCohort(), SeenIn(token, now), DepositSeen(token, now));
    FilterMap(seen, DepositAsCohort(), OfAmount(amount), DepositOf(amount));
    FilterMap(matching, DepositAsCohort(), Since(start), DepositSince(start));
    FilterMap(seen, DepositAsCohort(), Since(start), DepositSince(start));
  }

  method CohortFor(intent: Intent, amount: int, now: int, deposits: seq<DepositObservation>)
    returns (q: CohortQuality)
    requires intent.Shield?
    ensures q == Cohort(intent.account, intent.token, amount, now, ShieldSource(deposits))
  {
    var observed := Filter(deposits, DepositSeen(intent.token, now));
    var matching := Filter(observed, DepositOf(amount));
    var trailing := Filter(matching, DepositSince(now - COHORT_SECONDS));
    var traffic := |Filter(observed, DepositSince(now - COHORT_SECONDS))|;
    var projection := DepositObservation(MAX_SAFE_INTEGER, now, ProjectedTx, intent.account, intent.token, amount);
    var projected := trailing + [projection];
    var projectedObservation := matching + [projected[|projected| - 1]];
    DepositFilters(intent.token, amount, now, now - COHORT_SECONDS, deposits);
    MapConcat(trailing, [projection], DepositAsCohort());
    MapConcat(matching, [projection], DepositAsCohort());
    assert ShieldSource([projection]) == [Projection(intent.account, intent.token, amount, now)];
    q := AssessCohort(ShieldSource(projected), ShieldSource(projectedObservation), traffic);
  }

  method CohortForV14(intent: Intent, amount: int, now: int, deposits: seq<DepositObservation>,
                      withdrawals: seq<WithdrawalObservation>)
    returns (q: CohortQuality)
    requires !intent.Other?
    ensures q == Cohort(ActorFor(intent), intent.token, amount, now, ObservationsFor(intent, deposits, withdrawals))
  {
    var observations := ObservationsFor(intent, deposits, withdrawals);
    var observed := Filter(observations, SeenIn(intent.token, now));
    var matching := Filter(observed, OfAmount(amount));
    var trailing := Filter(matching, Since(now - COHORT_SECONDS));
    var traffic := |Filter(observed, Since(now - COHORT_SECONDS))|;
    var actor := if intent.Shield? then intent.account else intent.recipient;
    var projected := trailing + [CohortObservation(MAX_SAFE_INTEGER, now, ProjectedTx, actor, intent.token, amount)];
    var projectedObservation := matching + [projected[|projected| - 1]];
    q := AssessCohort(projected, projectedObservation, traffic);
  }

  // ----- candidate enumeration

  function AmountsSeen(search: Search, k: nat): seq<int>
    requires k <= |search.observations|
  {
    Map(Filter(search.observations[..k], Candidacy(search)), AmountOf())
  }

  lemma AmountsSeenStep(search: Search, k: nat)
    requires k < |search.observations|
    ensures AmountsSeen(search, k + 1)
            == if Candidacy(search)(search.observations[k]) then
                 AmountsSeen(search, k) + [search.observations[k].amount]
               else AmountsSeen(search, k)
  {
    var seen, next := search.observations[..k], search.observations[k];
    assert search.observations[..k + 1] == seen + [next];
    FilterConcat(seen, [next], Candidacy(search));
    MapConcat(Filter(seen, Candidacy(search)), [next], AmountOf());
  }

  predicate Has(candidates: seq<Candidate>, amount: int) {
    exists i :: 0 <= i < |candidates| && candidates[i].amount == amount
  }

  /** The candidate map in insertion order, after the loop has looked at the first k observations. */
  ghost predicate Enumerated(candidates: seq<Candidate>, search: Search, k: nat)
    requires k <= |search.observations|
  {
    candidates == Map(Distinct(AmountsSeen(search, k)), WithCohort(search))
  }

  lemma DistinctStep(amounts: seq<int>, amount: int, view: int -> Candidate)
    requires forall a :: view(a).amount == a
    ensures var entries := Map(Distinct(amounts), view);
            Map(Distinct(amounts + [amount]), view) == if Has(entries, amount) then entries else entries + [view(amount)]
  {
    assert (amounts + [amount])[..|amounts|] == amounts;
    var distinct, entries := Distinct(amounts), Map(Distinct(amounts), view);
    assert forall i :: 0 <= i < |entries| ==> entries[i].amount == distinct[i];
    if amount in amounts {
      var i :| 0 <= i < |distinct| && distinct[i] == amount;
      assert entries[i].amount == amount;
    } else {
      assert !Has(entries, amount);
      assert Map(distinct + [amount], view) == entries + [view(amount)];
    }
  }

  lemma EnumerationStep(candidates: seq<Candidate>, search: Search, k: nat)
    requires k < |search.observations| && Enumerated(candidates, search, k)
    ensures var amount := search.observations[k].amount;
            Enumerated(if Candidacy(search)(search.observations[k]) && !Has(candidates, amount) then
                         candidates + [WithCohort(search)(amount)]
                       else candidates, search, k + 1)
  {
    AmountsSeenStep(search, k);
    DistinctStep(AmountsSeen(search, k), search.observations[k].amount, WithCohort(search));
  }

  lemma NothingEnumerated(search: Search)
    ensures Enumerated([], search, 0)
  {
    assert search.observations[..0] == [];
  }

  /** Filtering and sorting the filled map picks the optimum over the whole range, or nothing when nothing qualifies. */
  method PickBest(candidates: seq<Candidate>, current: int, ghost search: Search) returns (best: Option<Candidate>)
    requires Enumerated(candidates, search, |search.observations|) && search.current == current
    ensures best == BestAlternative(search)
    ensures best.Some? ==> Optimal(search, best.value)
    ensures best.None? ==> forall amount :: !HealthyAmount(search, amount)
  {
    hide HealthyAmount, Optimal;
    BestAlternativeOptimal(search);
    assert search.observations[..|search.observations|] == search.observations;
    var healthy := Sort(CandidateOrder(current), Filter(candidates, IsHealthy()));
    best := if |healthy| == 0 then None else Some(healthy[0]);
  }

  method Enumerate(intent: Intent, currentAmount: int, now: int, deposits: seq<DepositObservation>)
    returns (candidates: seq<Candidate>)
    requires intent.Shield?
    ensures Enumerated(candidates, SearchFor(intent, currentAmount, now, ShieldSource(deposits)), |deposits|)
  {
    candidates := [];
    ghost var search := SearchFor(intent, currentAmount, now, ShieldSource(deposits));
    for k := 0 to |deposits|
      invariant Enumerated(candidates, search, k)
    {
      var deposit := deposits[k];
      EnumerationStep(candidates, search, k);
      if && deposit.timestamp >= now - COHORT_SECONDS
         && deposit.timestamp < now
         && deposit.token == intent.token
         && deposit.amount != currentAmount
         && intent.amount.Inside(deposit.amount)
      {
        if !Has(candidates, deposit.amount) {
          var cohort := CohortFor(intent, deposit.amount, now, deposits);
          candidates := candidates + [Candidate(deposit.amount, cohort)];
        }
      }
    }
  }

  method RecommendationFor(intent: Intent, currentAmount: int, currentCohort: CohortQuality, now: int,
                           deposits: seq<DepositObservation>)
    returns (r: Option<Recommendation>)
    requires intent.Shield?
    ensures r == RecommendationV13(intent, currentAmount, currentCohort, now, ShieldSource(deposits))
  {
    if currentCohort.healthy {
      return None;
    }
    if intent.amount.Exact? {
      return Some(NoSaferExecution);
    }
    var candidates := Enumerate(intent, currentAmount, now, deposits);
    var best := PickBest(candidates, currentAmount, SearchFor(intent, currentAmount, now, ShieldSource(deposits)));
    match best
    case None => r := Some(NoSaferExecution);
    case Some(c) =>
      r := Some(ChangeAmount(currentAmount, c.amount, Deviation(c.amount, currentAmount), c.cohort));
  }

  method EnumerateV14(intent: Intent, currentAmount: int, now: int, deposits: seq<DepositObservation>,
                      withdrawals: seq<WithdrawalObservation>)
    returns (candidates: seq<Candidate>)
    requires !intent.Other?
    ensures var source := ObservationsFor(intent, deposits, withdrawals);
            Enumerated(candidates, SearchFor(intent, currentAmount, now, source), |source|)
  {
    hide Enumerated, Cohort, Distinct, Map;
    candidates := [];
    var source := ObservationsFor(intent, deposits, withdrawals);
    NothingEnumerated(SearchFor(intent, currentAmount, now, source));
    ghost var search := SearchFor(intent, currentAmount, now, source);
    for k := 0 to |source|
      invariant Enumerated(candidates, search, k)
    {
      var observation := source[k];
      EnumerationStep(candidates, search, k);
      if && observation.timestamp >= now - COHORT_SECONDS
         && observation.timestamp < now
         && observation.token == intent.token
         && observation.amount != currentAmount
         && intent.amount.Inside(observation.amount)
         && !Has(candidates, observation.amount)
      {
        var cohort := CohortForV14(intent, observation.amount, now, deposits, withdrawals);
        candidates := candidates + [Candidate(observation.amount, cohort)];
      }
    }
  }

  method RecommendationForV14(intent: Intent, currentAmount: int, currentCohort: CohortQuality, now: int,
                              deposits: seq<DepositObservation>, withdrawals: seq<WithdrawalObservation>)
    returns (r: Option<Recommendation>)
    requires !intent.Other?
    ensures r == RecommendationV14(intent, currentAmount, currentCohort, now,
                                   ObservationsFor(intent, deposits, withdrawals))
  {
    if currentCohort.healthy {
      return None;
    }
    if intent.amount.Flexible? {
      var candidates := EnumerateV14(intent, currentAmount, now, deposits, withdrawals);
      ghost var source := ObservationsFor(intent, deposits, withdrawals);
      var best := PickBest(candidates, currentAmount, SearchFor(intent, currentAmount, now, source));
      if best.Some? {
        var c := best.value;
        return Some(ChangeAmount(currentAmount, c.amount, Deviation(c.amount, currentAmount), c.cohort));
      }
    }
    if (currentCohort.projectedCohort <= THIN_COHORT || BurstConcentration in currentCohort.failures)
       && intent.deadline - now >= COHORT_SECONDS
    {
      return Some(WaitFor(COHORT_SECONDS));
    }
    return Some(NoSaferExecution);
  }

  // ----- the observations that signals speak of

  /** The first recent registration of the account, if it has one. */
  method FindRegistration(account: Address, now: int, registrations: seq<RegistrationObservation>)
    returns (found: Option<RegistrationObservation>)
    ensures found.Some? <==> RecentlyRegistered(account, now, registrations)
    ensures found.Some? ==> found.value in registrations && found.value.account == account
                            && now - CHANNEL_SECONDS <= found.value.timestamp < now
  {
    for k := 0 to |registrations|
      invariant !RecentlyRegistered(account, now, registrations[..k])
    {
      var r := registrations[k];
      if r.account == account && r.timestamp >= now - CHANNEL_SECONDS && r.timestamp < now {
        return Some(r);
      }
    }
    assert registrations[..|registrations|] == registrations;
    return None;
  }

  function LatestFirst(): (DepositObservation, DepositObservation) -> bool {
    (x: DepositObservation, y: DepositObservation) => x.timestamp >= y.timestamp
  }

  function DepositNear(now: int): DepositObservation -> bool {
    (d: DepositObservation) => now - d.timestamp <= PROXIMITY_SECONDS
  }

  /** For a withdrawal, the deposits it could be linked to, and the nearest of them within the hour. */
  method FindCounterparts(intent: Intent, amount: int, now: int, deposits: seq<DepositObservation>)
    returns (counterparts: seq<DepositObservation>, nearby: Option<DepositObservation>)
    requires amount == intent.amount.Selected()
    ensures intent.Withdraw? ==> ShieldSource(counterparts) == Counterparts(intent, now, deposits)
    ensures intent.Withdraw? ==> (nearby.Some? <==> NearbyCounterparts(intent, now, deposits) != [])
    ensures nearby.Some? ==> nearby.value in counterparts && now - nearby.value.timestamp <= PROXIMITY_SECONDS
                             && forall d :: d in counterparts ==> d.timestamp <= nearby.value.timestamp
  {
    counterparts := if intent.Withdraw? then Filter(Filter(deposits, DepositSeen(intent.token, now)), DepositOf(amount))
                    else [];
    var near := Filter(counterparts, DepositNear(now));
    var sorted := Sort(LatestFirst(), near);
    nearby := if |sorted| == 0 then None else Some(sorted[0]);
    DepositFilters(intent.token, amount, now, now - PROXIMITY_SECONDS, deposits);
    FilterSame(counterparts, DepositNear(now), DepositSince(now - PROXIMITY_SECONDS));
    if near != [] {
      SortHead(LatestFirst(), near);
      NearestIsLatest(counterparts, now, sorted[0]);
    }
  }

  lemma NearestIsLatest(counterparts: seq<DepositObservation>, now: int, head: DepositObservation)
    requires head in Filter(counterparts, DepositNear(now))
    requires forall d :: d in Filter(counterparts, DepositNear(now)) ==> LatestFirst()(head, d)
    ensures forall d :: d in counterparts ==> d.timestamp <= head.timestamp
  {
    forall d | d in counterparts ensures d.timestamp <= head.timestamp {
      if DepositNear(now)(d) {
        assert d in Filter(counterparts, DepositNear(now));
      }
    }
  }

  method RunPreflight(input: PreflightInput) returns (r: PreflightResult)
    ensures r == EvaluatePreflight(input)
  {
    if !input.intent.Shield? {
      return Unsupported(V13);
    }
    var intent := input.intent;
    var amount := intent.amount.Selected();
    var priorExact := Filter(Filter(input.deposits, DepositSeen(intent.token, input.now)), DepositOf(amount));
    DepositFilters(intent.token, amount, input.now, input.now - COHORT_SECONDS, input.deposits);
    assert |ShieldSource(priorExact)| == |priorExact|;
    var registered := FindRegistration(intent.account, input.now, input.registrations);
    var cohort := CohortFor(intent, amount, input.now, input.deposits);
    var signals := [
      Signal(S1, if |priorExact| == 0 then Fired else Clear),
      Signal(S2, NotApplicable),
      Signal(S3, NotApplicable),
      Signal(S4, if registered.None? then Clear else Fired),
      Signal(S5, if cohort.healthy then Clear else Fired)
    ];
    assert signals == SignalsV13(|priorExact| == 0, registered.Some?, cohort.healthy);
    var band := BandFor(signals);
    var recommendation := RecommendationFor(intent, amount, cohort, input.now, input.deposits);
    r := Supported(V13, input.now, amount, band, DecisionFor(band), signals, cohort, recommendation);
  }

  method RunPreflightV14(input: PreflightInput) returns (r: Result<PreflightResult, RangeError>)
    ensures r == EvaluatePreflightV14(input)
  {
    hide Cohort, RecommendationV14, BandForV14, IsRoundAmount, RecentlyRegistered, Map;
    if input.intent.Other? {
      return Ok(Unsupported(V14));
    }
    if input.tokenDecimals < 0 || input.tokenDecimals > 255 {
      return Err(TokenDecimalsOutOfRange);
    }
    var intent := input.intent;
    var amount := intent.amount.Selected();
    var observations := ObservationsFor(intent, input.deposits, input.withdrawals);
    var priorExact := Filter(Filter(observations, SeenIn(intent.token, input.now)), OfAmount(amount));
    var counterparts, nearby := FindCounterparts(intent, amount, input.now, input.deposits);
    var registered: Option<RegistrationObservation> := None;
    if intent.Shield? {
      registered := FindRegistration(intent.account, input.now, input.registrations);
    }
    var cohort := CohortForV14(intent, amount, input.now, input.deposits, input.withdrawals);
    var signals := [
      Signal(S1, if |priorExact| == 0 then Fired else Clear),
      Signal(S2, if intent.Shield? then NotApplicable else if |counterparts| == 0 then Clear else Fired),
      Signal(S3, if intent.Shield? then NotApplicable else if nearby.None? then Clear else Fired),
      Signal(S4, if intent.Withdraw? then NotApplicable else if registered.None? then Clear else Fired),
      Signal(S5, if cohort.healthy then Clear else Fired),
      Signal(S7, if |priorExact| == 0 && IsRoundAmount(amount, input.tokenDecimals) then Fired else Clear)
    ];
    assert signals == SignalsV14(intent.Shield?, FactsFor(input, observations, cohort.healthy));
    var band := BandForV14(signals);
    var recommendation :=
      RecommendationForV14(intent, amount, cohort, input.now, input.deposits, input.withdrawals);
    r := Ok(Supported(V14, input.now, amount, band, DecisionFor(band), signals, cohort, recommendation));
  }
}
