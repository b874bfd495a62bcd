/**
 The preflight evaluator in its two frozen versions. The functions say what each version answers; the
 methods follow the code that computes it, with its own filters and loops per version.
 */
module Preflight {

  import opened Wrappers
  import opened EngineTypes
  import opened Sequences
  import opened Sorting
  import opened Cohorts
  import Numerals

  // ----- what a version looks at

  function DepositAsCohort(): DepositObservation -> CohortObservation {
    (d: DepositObservation) => CohortObservation(d.block, d.timestamp, d.tx, d.depositor, d.token, d.amount)
  }

  function WithdrawalAsCohort(): WithdrawalObservation -> CohortObservation {
    (w: WithdrawalObservation) => CohortObservation(w.block, w.timestamp, w.tx, w.recipient, w.token, w.amount)
  }

  function ShieldSource(deposits: seq<DepositObservation>): seq<CohortObservation> {
    Map(deposits, DepositAsCohort())
  }

  function ObservationsFor(intent: Intent, deposits: seq<DepositObservation>, withdrawals: seq<WithdrawalObservation>):
    seq<CohortObservation>
  {
    if intent.Shield? then ShieldSource(deposits) else Map(withdrawals, WithdrawalAsCohort())
  }

  /** The address that the proposed action would add to its cohort. */
  function ActorFor(intent: Intent): Address {
    if intent.Withdraw? then intent.recipient else intent.account
  }

  predicate RecentlyRegistered(account: Address, now: int, registrations: seq<RegistrationObservation>) {
    exists i :: 0 <= i < |registrations| && registrations[i].account == account
                && now - CHANNEL_SECONDS <= registrations[i].timestamp < now
  }

  // ----- recommendations

  function Deviation(a: int, b: int): nat {
    if a >= b then a - b else b - a
  }

  /** A search for a better amount: whose action, against which evidence, and within which bounds. */
  datatype Search = Search(
    actor: Address,
    token: Address,
    now: int,
    current: int,
    constraint: AmountConstraint,
    observations: seq<CohortObservation>)

  function SearchFor(intent: Intent, current: int, now: int, observations: seq<CohortObservation>): Search {
    Search(ActorFor(intent), intent.token, now, current, intent.amount, observations)
  }

  function Candidacy(search: Search): CohortObservation -> bool {
    (o: CohortObservation) =>
      search.now - COHORT_SECONDS <= o.timestamp < search.now && o.token == search.token
      && o.amount != search.current && search.constraint.Inside(o.amount)
  }

  function AmountOf(): CohortObservation -> int {
    (o: CohortObservation) => o.amount
  }

  /** The distinct members of s in order of first appearance. */
  function Distinct(s: seq<int>): (r: seq<int>)
    ensures forall x :: x in r ==> x in s
    ensures forall x :: x in s ==> x in r
    ensures forall i, j :: 0 <= i < j < |r| ==> r[i] != r[j]
  {
    if s == [] then []
    else
      var init, last := s[..|s| - 1], s[|s| - 1];
      var earlier := Distinct(init);
      assert s == init + [last];
      if last in earlier then earlier else earlier + [last]
  }

  function CandidateAmounts(search: Search): seq<int> {
    Distinct(Map(Filter(search.observations, Candidacy(search)), AmountOf()))
  }

  datatype Candidate = Candidate(amount: int, cohort: CohortQuality)

  function CohortAt(search: Search, amount: int): CohortQuality {
    Cohort(search.actor, search.token, amount, search.now, search.observations)
  }

  function WithCohort(search: Search): int -> Candidate {
    (amount: int) => Candidate(amount, CohortAt(search, amount))
  }

  function IsHealthy(): Candidate -> bool {
    (c: Candidate) => c.cohort.healthy
  }

  /** Least deviation first, then the larger cohort, then the smaller amount. */
  function CandidateOrder(current: int): (Candidate, Candidate) -> bool {
    (x: Candidate, y: Candidate) =>
      var dx, dy := Deviation(x.amount, current), Deviation(y.amount, current);
      if dx != dy then dx < dy
      else if x.cohort.projectedCohort != y.cohort.projectedCohort then
        x.cohort.projectedCohort > y.cohort.projectedCohort
      else x.amount <= y.amount
  }

  function HealthyCandidates(search: Search): seq<Candidate> {
    Filter(Map(CandidateAmounts(search), WithCohort(search)), IsHealthy())
  }

  function BestAlternative(search: Search): Option<Candidate> {
    var ordered := Sort(CandidateOrder(search.current), HealthyCandidates(search));
    if ordered == [] then None else Some(ordered[0])
  }

  function ChangeTo(current: int, best: Candidate): Recommendation {
    ChangeAmount(current, best.amount, Deviation(best.amount, current), best.cohort)
  }

  function RecommendationV13(intent: Intent, current: int, cohort: CohortQuality, now: int,
                             observations: seq<CohortObservation>): Option<Recommendation>
  {
    if cohort.healthy then None
    else if intent.amount.Exact? then Some(NoSaferExecution)
    else
      match BestAlternative(SearchFor(intent, current, now, observations))
      case None => Some(NoSaferExecution)
      case Some(best) => Some(ChangeTo(current, best))
  }

  predicate MayBenefitFromRecheck(cohort: CohortQuality) {
    cohort.projectedCohort <= THIN_COHORT || BurstConcentration in cohort.failures
  }

  function RecommendationV14(intent: Intent, current: int, cohort: CohortQuality, now: int,
                             observations: seq<CohortObservation>): Option<Recommendation>
  {
    if cohort.healthy then None
    else
      var best :=
        if intent.amount.Flexible? then BestAlternative(SearchFor(intent, current, now, observations)) else None;
      if best.Some? then Some(ChangeTo(current, best.value))
      else if MayBenefitFromRecheck(cohort) && intent.deadline - now >= COHORT_SECONDS then
        Some(WaitFor(COHORT_SECONDS))
      else Some(NoSaferExecution)
  }

  // ----- bands

  function IsFired(): Signal -> bool {
    (s: Signal) => s.status == Fired
  }

  function FiredCount(signals: seq<Signal>): nat {
    |Filter(signals, IsFired())|
  }

  function BandFor(signals: seq<Signal>): Band {
    var fired := FiredCount(signals);
    if fired >= 3 then HighBand else if fired == 2 then MediumBand else LowBand
  }

  predicate HasFired(signals: seq<Signal>, id: SignalId) {
    exists i :: 0 <= i < |signals| && signals[i] == Signal(id, Fired)
  }

  function BandForV14(signals: seq<Signal>): Band {
    if HasFired(signals, S2) && HasFired(signals, S3) then HighBand
    else BandFor(signals)
  }

  function DecisionFor(band: Band): Decision {
    match band
    case HighBand => Deny
    case MediumBand => Warn
    case LowBand => Allow
  }

  predicate IsRoundAmount(amount: int, tokenDecimals: nat) {
    amount > 0
    && var retained :=
         if tokenDecimals <= ROUND_AMOUNT_DECIMAL_PLACES then tokenDecimals else ROUND_AMOUNT_DECIMAL_PLACES;
       amount % Numerals.Pow10(tokenDecimals - retained) == 0
  }

  function FiredIf(id: SignalId, condition: bool): Signal {
    Signal(id, if condition then Fired else Clear)
  }

  // ----- the evaluators

  function Unmatched(intent: Intent, now: int, observations: seq<CohortObservation>): bool {
    Matching(intent.token, intent.amount.Selected(), now, observations) == []
  }

  function SignalsV13(unmatched: bool, registered: bool, healthy: bool): seq<Signal> {
    [ FiredIf(S1, unmatched),
      Signal(S2, NotApplicable),
      Signal(S3, NotApplicable),
      FiredIf(S4, registered),
      FiredIf(S5, !healthy) ]
  }

  function EvaluatePreflight(input: PreflightInput): PreflightResult {
    var intent := input.intent;
    if !intent.Shield? then Unsupported(V13)
    else
      var amount := intent.amount.Selected();
      var observations := ShieldSource(input.deposits);
      var cohort := CohortAt(SearchFor(intent, amount, input.now, observations), amount);
      var signals := SignalsV13(Unmatched(intent, input.now, observations),
                                RecentlyRegistered(intent.account, input.now, input.registrations), cohort.healthy);
      var band := BandFor(signals);
      Supported(V13, input.now, amount, band, DecisionFor(band), signals, cohort,
                RecommendationV13(intent, amount, cohort, input.now, observations))
  }

  /** Deposits of the same token and amount that a withdrawal could be linked to. */
  function Counterparts(intent: Intent, now: int, deposits: seq<DepositObservation>): seq<CohortObservation> {
    Matching(intent.token, intent.amount.Selected(), now, ShieldSource(deposits))
  }

  function NearbyCounterparts(intent: Intent, now: int, deposits: seq<DepositObservation>): seq<CohortObservation> {
    Filter(Counterparts(intent, now, deposits), Since(now - PROXIMITY_SECONDS))
  }

  /** The yes-or-no facts that the v1.4 signals report. */
  datatype Facts = Facts(unmatched: bool, counterpart: bool, nearby: bool, registered: bool, healthy: bool, round: bool)

  function FactsFor(input: PreflightInput, observations: seq<CohortObservation>, healthy: bool): Facts
    requires input.tokenDecimals >= 0
  {
    var intent, now := input.intent, input.now;
    Facts(Unmatched(intent, now, observations),
          Counterparts(intent, now, input.deposits) != [],
          NearbyCounterparts(intent, now, input.deposits) != [],
          RecentlyRegistered(intent.account, now, input.registrations),
          healthy,
          IsRoundAmount(intent.amount.Selected(), input.tokenDecimals))
  }

  function SignalsV14(shield: bool, facts: Facts): seq<Signal> {
    [ FiredIf(S1, facts.unmatched),
      if shield then Signal(S2, NotApplicable) else FiredIf(S2, facts.counterpart),
      if shield then Signal(S3, NotApplicable) else FiredIf(S3, facts.nearby),
      if shield then FiredIf(S4, facts.registered) else Signal(S4, NotApplicable),
      FiredIf(S5, !facts.healthy),
      FiredIf(S7, facts.unmatched && facts.round) ]
  }

  datatype RangeError = TokenDecimalsOutOfRange

  function EvaluatePreflightV14(input: PreflightInput): Result<PreflightResult, RangeError> {
    var intent := input.intent;
    if intent.Other? then Ok(Unsupported(V14))
    else if !(0 <= input.tokenDecimals <= 255) then Err(TokenDecimalsOutOfRange)
    else
      var amount := intent.amount.Selected();
      var observations := ObservationsFor(intent, input.deposits, input.withdrawals);
      var cohort := CohortAt(SearchFor(intent, amount, input.now, observations), amount);
      var signals := SignalsV14(intent.Shield?, FactsFor(input, observations, cohort.healthy));
      var band := BandForV14(signals);
      Ok(Supported(V14, input.now, amount, band, DecisionFor(band), signals, cohort,
                   RecommendationV14(intent, amount, cohort, input.now, observations)))
  }
}
