/**
 A source that the validator accepts and that still changes the verdict: it lies exactly at the horizon, and a
 deposit of the same timestamp lies in the block below it.
 */
module HorizonEdge {

  import opened EngineTypes
  import opened Sequences
  import opened Cohorts
  import opened Preflight
  import opened PreflightTheorems
  import opened Chain
  import opened PoolEvents
  import opened Index
  import opened Snapshots
  import opened Freshness
  import opened Store
  import opened IndexedStore
  import opened Publication
  import opened BoundarySearch
  import opened Refinement
  import opened History

  const NOW: nat := 1 + OBSERVATION_SECONDS
  const AMOUNT: nat := 5

  /** The deployment block, the deposit, the source at the same time, and the present. */
  function EdgeChain(cfg: Config, depositor: Address, token: Address): seq<Body> {
    [Body(0, []), Body(1, [DepositLog(cfg, 7, depositor, token, AMOUNT)]), Body(1, []), Body(NOW, [])]
  }

  function EdgeSource(cfg: Config, depositor: Address, token: Address): Source {
    Source(PointOf(HeaderAt(EdgeChain(cfg, depositor, token), 2)), 1)
  }

  function EdgeRow(cfg: Config, depositor: Address, token: Address): PoolEvent {
    DepositRow(cfg, EdgeChain(cfg, depositor, token), 1, 7, depositor, token, AMOUNT)
  }

  // ----- what the index of this chain holds

  ghost predicate EdgeConfig(cfg: Config, depositor: Address, token: Address) {
    && ValidConfig(cfg) && cfg.deploymentBlock == 0
    && cfg.isAddress(cfg.pool) && cfg.isAddress(depositor) && cfg.isAddress(token)
  }

  lemma EdgeIndex(cfg: Config, model: ModelVersion, depositor: Address, token: Address)
    requires EdgeConfig(cfg, depositor, token)
    ensures var chain := EdgeChain(cfg, depositor, token);
            && IndexOf(cfg, model, chain, 2, 4) == [] && Clean(cfg, model, chain, 2, 4)
            && IndexOf(cfg, model, chain, 0, 4) == [EdgeRow(cfg, depositor, token)]
  {
    hide IndexOf, Clean;
    var chain := EdgeChain(cfg, depositor, token);
    QuietIndex(cfg, model, chain, 0, 1);
    SingleDeposit(cfg, model, chain, 1, 7, depositor, token, AMOUNT);
    QuietIndex(cfg, model, chain, 2, 4);
    IndexSplit(cfg, model, chain, 0, 1, 4);
    IndexSplit(cfg, model, chain, 1, 2, 4);
  }

  // ----- the verdicts

  /** A deposit at the horizon decides whether S1 fires, and with it between ALLOW and WARN. */
  lemma EdgeDepositDecides(d: DepositObservation, now: int, account: Address, decimals: int)
    requires d.timestamp == now - OBSERVATION_SECONDS
    ensures var intent := Shield(account, d.token, Exact(d.amount), now);
            var with := EvaluatePreflight(PreflightInput(intent, now, [d], [], [], decimals));
            var without := EvaluatePreflight(PreflightInput(intent, now, [], [], [], decimals));
            && with.Supported? && without.Supported?
            && with.signals[0] == Signal(S1, Clear) && with.decision == Allow
            && without.signals[0] == Signal(S1, Fired) && without.decision == Warn
  {
    hide Cohort, Matching, RecommendationV13, FiredCount;
    var intent := Shield(account, d.token, Exact(d.amount), now);
    EdgeMatches(d, now);
    UnhealthyAtEdge(account, d.token, d.amount, now, ShieldSource([d]));
    UnhealthyAtEdge(account, d.token, d.amount, now, ShieldSource([]));
    ReportsV13(false, false, false);
    ReportsV13(true, false, false);
  }

  lemma EdgeMatches(d: DepositObservation, now: int)
    requires d.timestamp == now - OBSERVATION_SECONDS
    ensures Matching(d.token, d.amount, now, ShieldSource([d])) == ShieldSource([d])
    ensures Matching(d.token, d.amount, now, ShieldSource([])) == []
  {
  }

  lemma UnhealthyAtEdge(account: Address, token: Address, amount: int, now: int, observations: seq<CohortObservation>)
    requires |observations| <= 1
    ensures !Cohort(account, token, amount, now, observations).healthy
  {
    hide TopMultiplicity, ActiveDays;
  }

  // ----- the witness

  /** The search puts the source there, the validator accepts the snapshot in time, and the verdict differs. */
  ghost predicate AcceptedButDifferent(s: PublicSnapshot, cfg: Config, model: ModelVersion, depositor: Address,
                                       token: Address, account: Address)
  {
    var chain, intent := EdgeChain(cfg, depositor, token), Shield(account, token, Exact(AMOUNT), NOW);
    var shown := EvaluatePreflight(SnapshotInput(s, intent, NOW, 6));
    var full := EvaluatePreflight(HistoryInput(PoolHistory(cfg, model, chain, 3), intent, NOW, 6));
    && Structural(s, Evaluation(3, NOW), cfg) && Timely(s.facts, NOW)
    && s.facts.sourceFrom.timestamp == NOW - OBSERVATION_SECONDS
    && shown.Supported? && shown.signals[0] == Signal(S1, Fired) && shown.decision == Warn
    && full.Supported? && full.signals[0] == Signal(S1, Clear) && full.decision == Allow
  }

  lemma EmptyShown(s: PublicSnapshot, intent: Intent)
    requires Shows(s, [])
    ensures SnapshotInput(s, intent, NOW, 6) == PreflightInput(intent, NOW, [], [], [], 6)
  {
    assert |multiset(s.depositObservations)| == 0 && |multiset(s.registrationObservations)| == 0;
    assert |multiset(OrEmpty(s.withdrawalObservations))| == 0;
    assert s.depositObservations == [] && s.registrationObservations == [] && OrEmpty(s.withdrawalObservations) == [];
  }

  lemma AcceptedSourceMissesTheEdge(cfg: Config, model: ModelVersion, depositor: Address, token: Address,
                                    account: Address)
    requires EdgeConfig(cfg, depositor, token)
    ensures var chain := EdgeChain(cfg, depositor, token);
            Monotone(chain) && IsBoundary(HeaderAt(chain, 2), chain, cfg.deploymentBlock, 3, NOW - OBSERVATION_SECONDS)
    ensures exists s :: AcceptedButDifferent(s, cfg, model, depositor, token, account)
  {
    hide Structural, EvaluatePreflight, PoolHistory, Shows, EdgeConfig, EdgeRow;
    EdgeBoundary(cfg, depositor, token);
    var s := EdgeSnapshot(cfg, model, depositor, token);
    var intent := Shield(account, token, Exact(AMOUNT), NOW);
    EmptyShown(s, intent);
    EdgeHistory(cfg, model, depositor, token, intent);
    EdgeRowFacts(cfg, depositor, token);
    EdgeDepositDecides(AsDeposit()(EdgeRow(cfg, depositor, token)), NOW, account, 6);
    assert AcceptedButDifferent(s, cfg, model, depositor, token, account);
  }

  lemma EdgeBoundary(cfg: Config, depositor: Address, token: Address)
    requires EdgeConfig(cfg, depositor, token)
    ensures var chain := EdgeChain(cfg, depositor, token);
            Monotone(chain) && IsBoundary(HeaderAt(chain, 2), chain, cfg.deploymentBlock, 3, NOW - OBSERVATION_SECONDS)
  {
    hide ValidConfig;
  }

  lemma EdgeRowFacts(cfg: Config, depositor: Address, token: Address)
    ensures var d := AsDeposit()(EdgeRow(cfg, depositor, token));
            d.timestamp == NOW - OBSERVATION_SECONDS && d.token == token && d.amount == AMOUNT
  {
  }

  /** The snapshot of the from-scratch index from the source on: accepted, in time, and without any event. */
  lemma EdgeSnapshot(cfg: Config, model: ModelVersion, depositor: Address, token: Address) returns (s: PublicSnapshot)
    requires EdgeConfig(cfg, depositor, token)
    ensures Structural(s, Evaluation(3, NOW), cfg) && Timely(s.facts, NOW) && Shows(s, [])
    ensures s.facts.sourceFrom.timestamp == NOW - OBSERVATION_SECONDS
  {
    hide IndexOf, Clean, Structural, Anchored, Carries, Refers, FromScratchIndex, ValidConfig, Shows;
    var chain, source := EdgeChain(cfg, depositor, token), EdgeSource(cfg, depositor, token);
    EdgeIndex(cfg, model, depositor, token);
    EdgeBoundary(cfg, depositor, token);
    ScratchHolds(cfg, model, chain, source, 3);
    ScratchAnchored(cfg, model, chain, source, 3);
    ScratchPublishes(cfg, model, chain, source, 3, 3, NOW);
    var db := FromScratchIndex(cfg, model, chain, source, 3);
    s :| Assembled(s, db, cfg, chain, 3) && Structural(s, Evaluation(3, NOW), cfg);
    SnapshotShowsIndex(s, db, cfg, chain, 3);
    assert s.facts.sourceFrom == source.at;
  }

  lemma EdgeHistory(cfg: Config, model: ModelVersion, depositor: Address, token: Address, intent: Intent)
    requires EdgeConfig(cfg, depositor, token)
    ensures HistoryInput(PoolHistory(cfg, model, EdgeChain(cfg, depositor, token), 3), intent, NOW, 6)
            == PreflightInput(intent, NOW, [AsDeposit()(EdgeRow(cfg, depositor, token))], [], [], 6)
  {
    hide IndexOf;
    EdgeIndex(cfg, model, depositor, token);
    var row := EdgeRow(cfg, depositor, token);
    assert Filter([row], IsDeposit()) == [row] && Filter([row], IsWithdrawal()) == [];
    assert Filter([row], IsRegistration()) == [];
  }
}
