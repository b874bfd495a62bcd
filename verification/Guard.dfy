/**
 The guarded signing pipeline: an intent and its evidence become a plan, the plan is simulated, the user
 authorises it, and only then does one deposit reach the wallet.
 */
module Guard {

  import opened Wrappers
  import opened EngineTypes
  import opened Numerals
  import opened Amounts
  import PoolEvents
  import Preflight

  const FRESHNESS_POLICY := "FRESHNESS_POLICY-v1"
  const GUARD_POLICY := "GUARD_POLICY-v1"
  const MAX_AGE := 120

  datatype Code =
    | InvalidIntent | UnsupportedAction | UnsupportedToken | InvalidAmount | InvalidFlexibility
    | RecommendationUnavailable | RecommendationOutOfBounds | RecommendationMismatch
    | PreflightUnavailable | StalePreflight | SnapshotHashMismatch | ModelVersionMismatch | GuardPolicyMismatch
    | DecisionIdMismatch | GuardDenied | WalletNetworkMismatch | UnsupportedWalletApi | AccountMismatch
    | DisplayedAmountMismatch | SimulationRequired | SimulationMismatch | UserApprovalRequired
    | WarningAcknowledgementRequired

  function Need(condition: bool, code: Code): (o: Outcome<Code>)
    ensures o.Pass? <==> condition
  {
    if condition then Pass else Fail(code)
  }

  function Or<T>(value: Option<T>, code: Code): Result<T, Code> {
    if value.Some? then Ok(value.value) else Err(code)
  }

  // ----- text identities

  function Lower(c: char): char {
    if 'A' <= c <= 'F' then c - 'A' + 'a' else c
  }

  function LowerAll(s: string): string {
    seq(|s|, i requires 0 <= i < |s| => Lower(s[i]))
  }

  /** A hexadecimal literal in its one canonical spelling: lower case, no leading zeros. */
  function NormalizeFelt(text: string): Option<string> {
    if |text| < 3 || text[..2] != "0x" || !AllDigits(LowerAll(text[2..]), Sixteen) then None
    else Some(AmountToFelt(Value(LowerAll(text[2..]), Sixteen)))
  }

  function AmountToFelt(amount: nat): string {
    "0x" + Print(amount, Sixteen)
  }

  /** The number a hexadecimal literal denotes. */
  function FeltValue(text: string): nat
    requires |text| >= 2
  {
    Value(LowerAll(text[2..]), Sixteen)
  }

  predicate IsSnapshotHash(text: string) {
    |text| == 66 && text[..2] == "0x" && AllDigits(text[2..], Sixteen)
  }

  predicate NoColon(s: string) {
    forall i :: 0 <= i < |s| ==> s[i] != ':'
  }

  // ----- what goes in

  datatype WireBounds = ExactBounds | FlexibleBounds(min: string, max: string)

  datatype WireIntent = WireIntent(
    chainId: string, account: string, token: string, amount: string,
    evaluationBlock: int, evaluationTimestamp: int, bounds: WireBounds, deadline: int)

  datatype NormalIntent = NormalIntent(
    chainId: string, account: string, token: string, amount: AmountConstraint,
    evaluationBlock: int, evaluationTimestamp: int, deadline: int)

  datatype Boundary = Boundary(
    chainId: string, pool: string,
    observedBlock: int, observedHash: string, observedTimestamp: int,
    indexedBlock: int, indexedHash: string, indexedTimestamp: int,
    headBlock: int, headHash: string, headTimestamp: int,
    snapshotHash: string, engineVersion: string, freshnessPolicy: string, guardPolicy: string)

  datatype FreshnessReport = FreshnessReport(
    policy: string, maximumSourceAge: int, maximumIndexLag: int, sourceComplete: bool,
    observedBlock: int, indexedBlock: int, headBlock: int, sourceAge: int, indexLag: int)

  datatype WireRecommendation =
    | ChangeAmountTo(from: string, to: string, deviation: string, healthy: bool)
    | OtherAdvice

  datatype WireSignal = WireSignal(id: SignalId, status: SignalStatus, summary: string)

  datatype Response =
    | Unavailable
    | Available(
        modelVersion: string, guardPolicy: string, snapshotHash: string, decision: Decision, band: Band,
        signals: seq<WireSignal>, cohort: CohortQuality, recommendation: Option<WireRecommendation>,
        freshness: FreshnessReport, decisionId: string)

  datatype SelectionSource = Original | Recommended

  datatype Selection = Selection(source: SelectionSource, token: string, amount: string)

  datatype Wallet = Wallet(chainId: string, account: string, apiVersion: Option<seq<nat>>)

  /** What a decision identity commits to. */
  datatype Payload = Payload(
    modelVersion: string, guardPolicy: string, snapshotHash: string, intent: WireIntent, decision: Decision,
    band: Band, signals: seq<WireSignal>, cohort: CohortQuality, recommendation: Option<WireRecommendation>)

  datatype GuardConfig = GuardConfig(
    chainId: string, pool: string, tokens: set<string>,
    address: string -> Option<string>, decisionId: Payload -> string)

  /**
   Normalisation accepts colon-free text and settles, the configured identities are normal, and the digest tells
   payloads apart.
   */
  ghost predicate ValidGuard(cfg: GuardConfig) {
    && (forall s :: cfg.address(s).Some? ==>
          cfg.address(cfg.address(s).value) == cfg.address(s) && NoColon(s))
    && cfg.address(cfg.pool) == Some(cfg.pool) && NormalizeFelt(cfg.chainId) == Some(cfg.chainId)
    && (forall p :: NoColon(cfg.decisionId(p)))
    && (forall p, q :: cfg.decisionId(p) == cfg.decisionId(q) ==> p == q)
  }

  datatype SigningInput = SigningInput(
    originalIntent: WireIntent, initialPreflight: Response, selection: Selection, displayedAmount: string,
    finalIntent: WireIntent, finalPreflight: Response, snapshot: Boundary, wallet: Wallet, now: int)

  datatype WalletAction = Deposit(token: string, amount: string) | OtherWalletAction

  datatype Plan = Plan(
    originalIntent: WireIntent, finalIntent: WireIntent, selection: Selection, action: WalletAction,
    displayedAmount: string, chainId: string, pool: string, account: string, snapshotHash: string,
    decisionId: string, modelVersion: string, guardPolicy: string, decision: Decision, band: Band,
    warningAcknowledgementRequired: bool, indexedTimestamp: int)

  datatype Simulation = Simulation(
    simulated: bool, contract: string, entryPoint: string, calldataLength: int, proofEmpty: bool)

  datatype SimulatedPlan = SimulatedPlan(plan: Plan, simulation: Simulation, binding: string)

  datatype Authorization = Authorization(
    action: WalletAction, binding: string, chainId: string, pool: string, account: string,
    snapshotHash: string, decisionId: string, decision: Decision, source: SelectionSource, authorizedAt: int,
    explicitUserApproval: bool)

  // ----- checks

  predicate SupportedModel(version: string) {
    version == "CUTOUT-v1.3" || version == "CUTOUT-v1.4"
  }

  predicate Fresh(now: int, indexedTimestamp: int) {
    0 <= now - indexedTimestamp <= MAX_AGE
  }

  function ParseAmount(text: string, code: Code): Result<nat, Code> {
    var parsed := ParseBaseUnitAmount(text);
    if parsed.Ok? then Ok(parsed.value) else Err(code)
  }

  function ParseBounds(amount: nat, bounds: WireBounds): Result<AmountConstraint, Code> {
    match bounds
    case ExactBounds => Ok(Exact(amount))
    case FlexibleBounds(minText, maxText) =>
      var min :- ParseAmount(minText, InvalidFlexibility);
      var max :- ParseAmount(maxText, InvalidFlexibility);
      :- Need(min <= amount <= max, InvalidFlexibility);
      Ok(Flexible(amount, min, max))
  }

  function CheckedIntent(wire: WireIntent, cfg: GuardConfig): Result<NormalIntent, Code> {
    var amount :- ParseAmount(wire.amount, InvalidFlexibility);
    var constraint :- ParseBounds(amount, wire.bounds);
    var chainId :- Or(NormalizeFelt(wire.chainId), InvalidIntent);
    :- Need(chainId == cfg.chainId, InvalidIntent);
    var account :- Or(cfg.address(wire.account), InvalidIntent);
    var token :- Or(cfg.address(wire.token), InvalidIntent);
    :- Need(token in cfg.tokens, UnsupportedToken);
    :- Need(wire.evaluationBlock >= 0 && wire.evaluationTimestamp >= 0, InvalidIntent);
    :- Need(wire.deadline >= wire.evaluationTimestamp, InvalidIntent);
    Ok(NormalIntent(chainId, account, token, constraint, wire.evaluationBlock, wire.evaluationTimestamp, wire.deadline))
  }

  function CheckBoundary(s: Boundary, cfg: GuardConfig): Outcome<Code> {
    if NormalizeFelt(s.chainId) != Some(cfg.chainId) || cfg.address(s.pool) != Some(cfg.pool) then
      Fail(SnapshotHashMismatch)
    else if NormalizeFelt(s.observedHash).None? || NormalizeFelt(s.indexedHash).None?
            || NormalizeFelt(s.headHash).None? then Fail(InvalidIntent)
    else if !IsSnapshotHash(s.snapshotHash) then Fail(SnapshotHashMismatch)
    else if s.observedBlock < 0 || s.observedTimestamp < 0 then Fail(StalePreflight)
    else if !(s.observedBlock <= s.indexedBlock <= s.headBlock
              && s.observedTimestamp <= s.indexedTimestamp <= s.headTimestamp) then Fail(StalePreflight)
    else if !SupportedModel(s.engineVersion) || s.freshnessPolicy != FRESHNESS_POLICY then Fail(ModelVersionMismatch)
    else if s.guardPolicy != GUARD_POLICY then Fail(GuardPolicyMismatch)
    else Pass
  }

  function CheckFreshness(f: FreshnessReport, s: Boundary, now: int): Outcome<Code> {
    if now < 0 then Fail(StalePreflight)
    else if f.policy != FRESHNESS_POLICY || f.maximumSourceAge != MAX_AGE || f.maximumIndexLag != MAX_AGE
            || !f.sourceComplete then Fail(StalePreflight)
    else if f.observedBlock != s.observedBlock || f.indexedBlock != s.indexedBlock || f.headBlock != s.headBlock then
      Fail(SnapshotHashMismatch)
    else if !(0 <= f.sourceAge <= MAX_AGE) || f.indexLag != s.headTimestamp - s.indexedTimestamp
            || !(0 <= f.indexLag <= MAX_AGE) || !Fresh(now, s.indexedTimestamp) then Fail(StalePreflight)
    else Pass
  }

  function PayloadOf(intent: WireIntent, r: Response): Payload
    requires r.Available?
  {
    Payload(r.modelVersion, r.guardPolicy, r.snapshotHash, intent, r.decision, r.band, r.signals, r.cohort,
            r.recommendation)
  }

  function CheckPreflight(r: Response, intent: WireIntent, s: Boundary, now: int, cfg: GuardConfig): (o: Outcome<Code>)
    ensures o.Pass? ==> r.Available?
  {
    if r.Unavailable? then Fail(PreflightUnavailable)
    else if r.modelVersion != s.engineVersion || !SupportedModel(r.modelVersion) then Fail(ModelVersionMismatch)
    else if r.guardPolicy != GUARD_POLICY || r.guardPolicy != s.guardPolicy then Fail(GuardPolicyMismatch)
    else if Preflight.DecisionFor(r.band) != r.decision then Fail(GuardPolicyMismatch)
    else if !IsSnapshotHash(r.snapshotHash) || r.snapshotHash != s.snapshotHash then Fail(SnapshotHashMismatch)
    else
      var freshness := CheckFreshness(r.freshness, s, now);
      if freshness.Fail? then freshness
      else if cfg.decisionId(PayloadOf(intent, r)) != r.decisionId then Fail(DecisionIdMismatch)
      else Pass
  }

  function CheckSelection(intent: NormalIntent, r: Response, selection: Selection, cfg: GuardConfig): Result<nat, Code>
    requires r.Available?
  {
    var token :- Or(cfg.address(selection.token), RecommendationMismatch);
    :- Need(token == intent.token, RecommendationMismatch);
    var amount :- ParseAmount(selection.amount, Code.InvalidAmount);
    :- Need(intent.amount.Inside(amount), RecommendationOutOfBounds);
    if selection.source == Original then
      :- Need(amount == intent.amount.Selected(), RecommendationMismatch);
      Ok(amount)
    else
      :- Need(r.recommendation.Some? && r.recommendation.value.ChangeAmountTo?, RecommendationUnavailable);
      var advice := r.recommendation.value;
      var to :- ParseAmount(advice.to, Code.InvalidAmount);
      var from :- ParseAmount(advice.from, Code.InvalidAmount);
      var deviation :- ParseAmount(advice.deviation, Code.InvalidAmount);
      :- Need(from == intent.amount.Selected() && to == amount && deviation == Preflight.Deviation(to, from)
              && advice.healthy, RecommendationMismatch);
      Ok(amount)
  }

  /** Component by component, the first difference decides. */
  predicate AtLeast(actual: seq<nat>, required: seq<nat>)
    requires |actual| == |required|
  {
    actual == [] || actual[0] > required[0] || (actual[0] == required[0] && AtLeast(actual[1..], required[1..]))
  }

  const REQUIRED_WALLET_API: seq<nat> := [0, 10, 3]

  predicate WalletApiSupported(version: Option<seq<nat>>) {
    version.Some? && |version.value| == 3 && AtLeast(version.value, REQUIRED_WALLET_API)
  }

  method CompareVersions(actual: seq<nat>, required: seq<nat>) returns (supported: bool)
    requires |actual| == |required|
    ensures supported == AtLeast(actual, required)
  {
    var k := 0;
    while k < |actual|
      invariant k <= |actual|
      invariant AtLeast(actual, required) == AtLeast(actual[k..], required[k..])
    {
      if actual[k] != required[k] {
        return actual[k] > required[k];
      }
      assert actual[k..][1..] == actual[k + 1..] && required[k..][1..] == required[k + 1..];
      k := k + 1;
    }
    return true;
  }

  function CheckWallet(w: Wallet, account: string, cfg: GuardConfig): Outcome<Code> {
    if !WalletApiSupported(w.apiVersion) then Fail(UnsupportedWalletApi)
    else if NormalizeFelt(w.chainId) != Some(cfg.chainId) then Fail(WalletNetworkMismatch)
    else if cfg.address(w.account) != Some(account) then Fail(AccountMismatch)
    else Pass
  }

  /** Exactly one deposit of a positive u128; its token and amount in canonical spelling. */
  function SingleDeposit(actions: seq<WalletAction>, expected: Option<WalletAction>, cfg: GuardConfig):
    Result<WalletAction, Code>
    requires expected.Some? ==> expected.value.Deposit?
  {
    if |actions| != 1 || !actions[0].Deposit? then Err(UnsupportedAction)
    else
      var token :- Or(cfg.address(actions[0].token), Code.InvalidAmount);
      var amount :- Or(NormalizeFelt(actions[0].amount), Code.InvalidAmount);
      :- Need(|amount| >= 2 && 0 < FeltValue(amount) <= PoolEvents.MAX_U128, Code.InvalidAmount);
      :- Need(expected.None? || cfg.address(expected.value.token) == Some(token), UnsupportedToken);
      :- Need(expected.None? || NormalizeFelt(expected.value.amount) == Some(amount), DisplayedAmountMismatch);
      Ok(Deposit(token, amount))
  }

  // ----- the four stages

  function CreatePlan(input: SigningInput, cfg: GuardConfig): Result<Plan, Code> {
    var s := input.snapshot;
    :- CheckBoundary(s, cfg);
    var original :- CheckedIntent(input.originalIntent, cfg);
    :- Need(original.evaluationBlock == s.observedBlock, SnapshotHashMismatch);
    :- CheckPreflight(input.initialPreflight, input.originalIntent, s, input.now, cfg);
    var selected :- CheckSelection(original, input.initialPreflight, input.selection, cfg);
    var displayed :- ParseAmount(input.displayedAmount, Code.InvalidAmount);
    :- Need(displayed == selected, DisplayedAmountMismatch);
    var final :- CheckedIntent(input.finalIntent, cfg);
    :- Need(final.amount == Exact(selected) && final.chainId == original.chainId
            && final.account == original.account && final.token == original.token
            && final.evaluationBlock == s.observedBlock, RecommendationMismatch);
    :- CheckPreflight(input.finalPreflight, input.finalIntent, s, input.now, cfg);
    :- Need(input.finalPreflight.decision != Deny, GuardDenied);
    :- CheckWallet(input.wallet, final.account, cfg);
    var built := Deposit(final.token, AmountToFelt(selected));
    var action :- SingleDeposit([built], Some(built), cfg);
    Ok(Plan(input.originalIntent, input.finalIntent,
            input.selection.(token := final.token, amount := Print(selected, Ten)), action,
            Print(selected, Ten), final.chainId, s.pool, final.account, s.snapshotHash,
            input.finalPreflight.decisionId, input.finalPreflight.modelVersion, input.finalPreflight.guardPolicy,
            input.finalPreflight.decision, input.finalPreflight.band,
            input.finalPreflight.decision == Warn, s.indexedTimestamp))
  }

  function CheckPlan(plan: Plan, now: int, cfg: GuardConfig): Outcome<Code> {
    if !SupportedModel(plan.modelVersion) || plan.guardPolicy != GUARD_POLICY
       || Preflight.DecisionFor(plan.band) != plan.decision
       || plan.decision == Deny || !plan.finalIntent.bounds.ExactBounds?
       || plan.finalIntent.amount != plan.selection.amount || plan.displayedAmount != plan.selection.amount
       || cfg.address(plan.finalIntent.token) != cfg.address(plan.selection.token)
       || cfg.address(plan.finalIntent.account) != Some(plan.account)
       || NormalizeFelt(plan.finalIntent.chainId) != Some(plan.chainId) then Fail(InvalidIntent)
    else
      var amount := ParseAmount(plan.selection.amount, Code.InvalidAmount);
      if amount.Err? then Fail(amount.error)
      else
        var expected := Deposit(plan.selection.token, AmountToFelt(amount.value));
        var checked := SingleDeposit([plan.action], Some(expected), cfg);
        if checked.Err? then Fail(checked.error)
        else if !Fresh(now, plan.indexedTimestamp) then Fail(StalePreflight)
        else Pass
  }

  function JoinFields(fields: seq<string>): string {
    if fields == [] then []
    else if |fields| == 1 then fields[0]
    else fields[0] + ":" + JoinFields(fields[1..])
  }

  function ActionBinding(chainId: string, pool: string, account: string, action: WalletAction,
                         snapshotHash: string, decisionId: string): string
    requires action.Deposit?
  {
    JoinFields([chainId, pool, account, "deposit", action.token, action.amount, snapshotHash, decisionId])
  }

  function PlanBinding(plan: Plan): string
    requires plan.action.Deposit?
  {
    ActionBinding(plan.chainId, plan.pool, plan.account, plan.action, plan.snapshotHash, plan.decisionId)
  }

  function Simulate(plan: Plan, simulation: Simulation, now: int, cfg: GuardConfig): Result<SimulatedPlan, Code> {
    var contract := cfg.address(simulation.contract);
    :- CheckPlan(plan, now, cfg);
    :- Need(simulation.simulated && contract == Some(plan.pool)
            && simulation.entryPoint == "apply_actions" && simulation.calldataLength > 0 && simulation.proofEmpty,
            SimulationMismatch);
    :- Need(plan.action.Deposit?, UnsupportedAction);
    Ok(SimulatedPlan(plan, simulation, PlanBinding(plan)))
  }

  function Authorize(simulated: SimulatedPlan, approval: bool, acknowledged: bool, now: int, cfg: GuardConfig):
    Result<Authorization, Code>
  {
    var plan := simulated.plan;
    :- CheckPlan(plan, now, cfg);
    :- Need(plan.action.Deposit? && simulated.binding == PlanBinding(plan), SimulationRequired);
    :- Need(approval, UserApprovalRequired);
    :- Need(!plan.warningAcknowledgementRequired || acknowledged, WarningAcknowledgementRequired);
    :- Need(Fresh(now, plan.indexedTimestamp), StalePreflight);
    Ok(Authorization(plan.action, simulated.binding, plan.chainId, plan.pool, plan.account, plan.snapshotHash,
                     plan.decisionId, plan.decision, plan.selection.source, now, true))
  }

  /** What is handed to the wallet. */
  function Submit(a: Authorization, cfg: GuardConfig): Result<WalletAction, Code> {
    var expected := a.action;
    :- Need(expected.Deposit?, UnsupportedAction);
    var action :- SingleDeposit([a.action], Some(expected), cfg);
    :- Need(a.explicitUserApproval
            && a.binding == ActionBinding(a.chainId, a.pool, a.account, a.action, a.snapshotHash, a.decisionId),
            UserApprovalRequired);
    Ok(action)
  }

  /** One run from the signing input to the wallet. */
  datatype Run = Run(input: SigningInput, simulation: Simulation, simulatedAt: int, approval: bool,
                     acknowledged: bool, authorizedAt: int)

  function Execute(run: Run, cfg: GuardConfig): Result<WalletAction, Code> {
    var plan :- CreatePlan(run.input, cfg);
    var simulated :- Simulate(plan, run.simulation, run.simulatedAt, cfg);
    var authorization :- Authorize(simulated, run.approval, run.acknowledged, run.authorizedAt, cfg);
    Submit(authorization, cfg)
  }

  // ----- spelling

  lemma HexDigitsAreLower(n: nat)
    ensures LowerAll(Print(n, Sixteen)) == Print(n, Sixteen)
    ensures AllDigits(Print(n, Sixteen), Sixteen)
  {
    PrintRead(n, Sixteen);
    DigitsAreLower(Print(n, Sixteen));
  }

  lemma DigitsAreLower(s: string)
    requires AllDigits(s, Sixteen)
    ensures LowerAll(s) == s && NoColon(s)
  {
    forall i | 0 <= i < |s| ensures Lower(s[i]) == s[i] && s[i] != ':' {
      assert DigitValue(s[i]) < 16;
    }
  }

  /** The spelling of an amount is already canonical, and denotes the amount. */
  lemma FeltOfAmount(amount: nat)
    ensures NormalizeFelt(AmountToFelt(amount)) == Some(AmountToFelt(amount))
    ensures FeltValue(AmountToFelt(amount)) == amount && NoColon(AmountToFelt(amount))
  {
    HexDigitsAreLower(amount);
    PrintRead(amount, Sixteen);
    DigitsAreLower(Print(amount, Sixteen));
    var text := AmountToFelt(amount);
    assert text[2..] == Print(amount, Sixteen) && text[..2] == "0x";
  }

  lemma NormalFelt(text: string)
    requires NormalizeFelt(text).Some?
    ensures NormalizeFelt(NormalizeFelt(text).value) == NormalizeFelt(text) && NoColon(NormalizeFelt(text).value)
  {
    FeltOfAmount(Value(LowerAll(text[2..]), Sixteen));
  }

  // ----- the binding

  lemma HeadUntilColon(a: string, b: string, x: string, y: string)
    requires NoColon(a) && NoColon(b) && a + ":" + x == b + ":" + y
    ensures a == b && x == y
  {
    var s, t := a + ":" + x, b + ":" + y;
    assert s[|a|] == ':' && t[|b|] == ':';
    assert forall i :: 0 <= i < |a| ==> s[i] == a[i];
    assert forall i :: 0 <= i < |b| ==> t[i] == b[i];
    assert |a| == |b|;
    assert s[..|a|] == a && t[..|b|] == b && s[|a| + 1..] == x && t[|b| + 1..] == y;
  }

  function Colons(s: string): nat {
    if s == [] then 0 else (if s[0] == ':' then 1 else 0) + Colons(s[1..])
  }

  function ColonsWithin(fields: seq<string>): nat {
    if fields == [] then 0 else Colons(fields[0]) + ColonsWithin(fields[1..])
  }

  lemma {:induction false} ColonsConcat(a: string, b: string)
    ensures Colons(a + b) == Colons(a) + Colons(b)
  {
    if a == [] {
      assert a + b == b;
    } else {
      assert (a + b)[1..] == a[1..] + b;
      ColonsConcat(a[1..], b);
    }
  }

  lemma {:induction false} NoColonsCounted(s: string)
    ensures Colons(s) == 0 <==> NoColon(s)
  {
    if s != [] {
      NoColonsCounted(s[1..]);
      assert s == [s[0]] + s[1..];
    }
  }

  /** A join has the colons of its fields and one between any two neighbours. */
  lemma {:induction false} ColonsOfJoin(fields: seq<string>)
    requires fields != []
    ensures Colons(JoinFields(fields)) == ColonsWithin(fields) + |fields| - 1
  {
    if |fields| == 1 {
      assert fields[1..] == [];
    } else {
      ColonsOfJoin(fields[1..]);
      ColonsConcat(fields[0] + ":", JoinFields(fields[1..]));
      ColonsConcat(fields[0], ":");
    }
  }

  lemma {:induction false} NoColonsWithin(fields: seq<string>)
    ensures ColonsWithin(fields) == 0 <==> forall i :: 0 <= i < |fields| ==> NoColon(fields[i])
  {
    if fields != [] {
      NoColonsWithin(fields[1..]);
      NoColonsCounted(fields[0]);
      assert fields == [fields[0]] + fields[1..];
    }
  }

  lemma {:induction false} JoinInjectiveWithoutColons(a: seq<string>, b: seq<string>)
    requires |a| == |b| && JoinFields(a) == JoinFields(b)
    requires forall i :: 0 <= i < |a| ==> NoColon(a[i]) && NoColon(b[i])
    ensures a == b
  {
    if |a| > 1 {
      HeadUntilColon(a[0], b[0], JoinFields(a[1..]), JoinFields(b[1..]));
      JoinInjectiveWithoutColons(a[1..], b[1..]);
      assert a == [a[0]] + a[1..] && b == [b[0]] + b[1..];
    }
  }

  /** Colon-free fields joined cannot be had from as many other fields, whatever colons those contain. */
  lemma JoinInjective(a: seq<string>, b: seq<string>)
    requires |a| == |b| && JoinFields(a) == JoinFields(b)
    requires forall i :: 0 <= i < |a| ==> NoColon(a[i])
    ensures a == b
  {
    hide JoinFields, NoColon;
    if a != [] {
      ColonsOfJoin(a);
      ColonsOfJoin(b);
    }
    NoColonsWithin(a);
    NoColonsWithin(b);
    JoinInjectiveWithoutColons(a, b);
  }

  predicate BindingFieldsOk(a: Authorization) {
    && a.action.Deposit? && NoColon(a.chainId) && NoColon(a.pool) && NoColon(a.account)
    && NoColon(a.action.token) && NoColon(a.action.amount) && NoColon(a.snapshotHash) && NoColon(a.decisionId)
  }

  /**
   The binding of colon-free fields names one action on one account, chain and pool under one snapshot and one
   decision; no other fields, colons or not, have the same binding.
   */
  lemma BindingInjective(a: Authorization, b: Authorization)
    requires BindingFieldsOk(a) && b.action.Deposit?
    requires ActionBinding(a.chainId, a.pool, a.account, a.action, a.snapshotHash, a.decisionId)
             == ActionBinding(b.chainId, b.pool, b.account, b.action, b.snapshotHash, b.decisionId)
    ensures a.chainId == b.chainId && a.pool == b.pool && a.account == b.account && a.action == b.action
    ensures a.snapshotHash == b.snapshotHash && a.decisionId == b.decisionId
  {
    var x := [a.chainId, a.pool, a.account, "deposit", a.action.token, a.action.amount, a.snapshotHash, a.decisionId];
    var y := [b.chainId, b.pool, b.account, "deposit", b.action.token, b.action.amount, b.snapshotHash, b.decisionId];
    JoinInjective(x, y);
    assert x[0] == y[0] && x[1] == y[1] && x[2] == y[2] && x[4] == y[4] && x[5] == y[5] && x[6] == y[6] && x[7] == y[7];
  }

  // ----- what a run that reaches the wallet has established

  /** The amount is the one proposed, or a healthy change the first evidence recommended. */
  ghost predicate SelectionJustified(amount: nat, original: NormalIntent, r: Response, selection: Selection)
  {
    && r.Available?
    && (selection.source == Original ==> amount == original.amount.Selected())
    && (selection.source == Recommended ==>
          && r.recommendation.Some? && r.recommendation.value.ChangeAmountTo? && r.recommendation.value.healthy
          && ParseBaseUnitAmount(r.recommendation.value.to) == Ok(amount)
          && ParseBaseUnitAmount(r.recommendation.value.from) == Ok(original.amount.Selected()))
  }

  /** What creating a plan has established about it. */
  ghost predicate PlanFaithful(plan: Plan, input: SigningInput, cfg: GuardConfig) {
    && CheckedIntent(input.originalIntent, cfg).Ok?
    && var original := CheckedIntent(input.originalIntent, cfg).value;
    && ParseBaseUnitAmount(input.displayedAmount).Ok?
    && var amount := ParseBaseUnitAmount(input.displayedAmount).value;
    && plan.action == Deposit(original.token, AmountToFelt(amount))
    && ParseBaseUnitAmount(input.selection.amount) == Ok(amount)
    && original.amount.Inside(amount)
    && SelectionJustified(amount, original, input.initialPreflight, input.selection)
    && plan.chainId == cfg.chainId
    && plan.pool == input.snapshot.pool && cfg.address(plan.pool) == Some(cfg.pool)
    && cfg.address(input.wallet.account) == Some(plan.account) && original.account == plan.account
    && plan.decision == Preflight.DecisionFor(plan.band) && plan.decision != Deny
    && plan.warningAcknowledgementRequired == (plan.decision == Warn)
    && input.finalPreflight.Available? && plan.decision == input.finalPreflight.decision
    && plan.decisionId == cfg.decisionId(PayloadOf(input.finalIntent, input.finalPreflight))
    && plan.snapshotHash == input.snapshot.snapshotHash && IsSnapshotHash(plan.snapshotHash)
    && plan.indexedTimestamp == input.snapshot.indexedTimestamp && Fresh(input.now, plan.indexedTimestamp)
  }

  lemma SelectionFacts(intent: NormalIntent, r: Response, selection: Selection, cfg: GuardConfig)
    requires r.Available? && CheckSelection(intent, r, selection, cfg).Ok?
    ensures ParseBaseUnitAmount(selection.amount) == Ok(CheckSelection(intent, r, selection, cfg).value)
    ensures intent.amount.Inside(CheckSelection(intent, r, selection, cfg).value)
    ensures cfg.address(selection.token) == Some(intent.token)
    ensures SelectionJustified(CheckSelection(intent, r, selection, cfg).value, intent, r, selection)
  {
  }

  lemma IntentFacts(wire: WireIntent, cfg: GuardConfig)
    requires CheckedIntent(wire, cfg).Ok?
    ensures var n := CheckedIntent(wire, cfg).value;
            && n.chainId == cfg.chainId && Some(n.account) == cfg.address(wire.account)
            && Some(n.token) == cfg.address(wire.token) && n.evaluationBlock == wire.evaluationBlock
  {
  }

  lemma PreflightFacts(r: Response, intent: WireIntent, s: Boundary, now: int, cfg: GuardConfig)
    requires CheckPreflight(r, intent, s, now, cfg).Pass?
    ensures r.decision == Preflight.DecisionFor(r.band) && r.decisionId == cfg.decisionId(PayloadOf(intent, r))
    ensures Fresh(now, s.indexedTimestamp) && IsSnapshotHash(s.snapshotHash)
  {
  }

  lemma DepositFacts(action: WalletAction, cfg: GuardConfig)
    requires action.Deposit? && SingleDeposit([action], Some(action), cfg).Ok?
    ensures var d := SingleDeposit([action], Some(action), cfg).value;
            d.Deposit? && cfg.address(action.token) == Some(d.token) && NormalizeFelt(action.amount) == Some(d.amount)
  {
  }

  lemma PlanIsFaithful(input: SigningInput, cfg: GuardConfig)
    requires ValidGuard(cfg) && CreatePlan(input, cfg).Ok?
    ensures PlanFaithful(CreatePlan(input, cfg).value, input, cfg)
  {
    hide CheckedIntent, CheckSelection, CheckPreflight, SingleDeposit, CheckBoundary, CheckWallet, AmountToFelt, Print;
    hide NormalizeFelt, ParseBaseUnitAmount, SelectionJustified;
    var s := input.snapshot;
    var original, final := CheckedIntent(input.originalIntent, cfg).value, CheckedIntent(input.finalIntent, cfg).value;
    IntentFacts(input.originalIntent, cfg);
    IntentFacts(input.finalIntent, cfg);
    SelectionFacts(original, input.initialPreflight, input.selection, cfg);
    PreflightFacts(input.finalPreflight, input.finalIntent, s, input.now, cfg);
    var amount := CheckSelection(original, input.initialPreflight, input.selection, cfg).value;
    FeltOfAmount(amount);
    DepositFacts(Deposit(final.token, AmountToFelt(amount)), cfg);
    WalletFacts(input.wallet, final.account, cfg);
    BoundaryFacts(s, cfg);
  }

  /** The exact intent of a plan spells its amount and identities the way the plan does. */
  lemma FinalIntentFacts(wire: WireIntent, amount: nat, cfg: GuardConfig)
    requires CheckedIntent(wire, cfg).Ok? && CheckedIntent(wire, cfg).value.amount == Exact(amount)
    ensures wire.bounds.ExactBounds? && wire.amount == Print(amount, Ten)
    ensures 0 < amount <= PoolEvents.MAX_U128 && ParseBaseUnitAmount(Print(amount, Ten)) == Ok(amount)
    ensures NormalizeFelt(wire.chainId) == Some(cfg.chainId)
  {
    hide Print;
    BaseUnitRoundTrip(wire.amount, amount);
    BaseUnitRoundTrip(Print(amount, Ten), amount);
  }

  lemma BuiltDeposit(token: string, amount: nat, cfg: GuardConfig)
    requires cfg.address(token) == Some(token) && 0 < amount <= PoolEvents.MAX_U128
    ensures var built := Deposit(token, AmountToFelt(amount));
            SingleDeposit([built], Some(built), cfg) == Ok(built)
  {
    hide NormalizeFelt, FeltValue;
    FeltOfAmount(amount);
  }

  /** The plan is for one exact amount, spelled alike everywhere. */
  ghost predicate ExactPlan(plan: Plan, amount: nat, cfg: GuardConfig) {
    && CheckedIntent(plan.finalIntent, cfg).Ok?
    && var final := CheckedIntent(plan.finalIntent, cfg).value;
    && final.amount == Exact(amount) && plan.action == Deposit(final.token, AmountToFelt(amount))
    && plan.selection.token == final.token && plan.selection.amount == Print(amount, Ten)
    && plan.displayedAmount == plan.selection.amount && plan.account == final.account
    && plan.chainId == cfg.chainId && SupportedModel(plan.modelVersion) && plan.guardPolicy == GUARD_POLICY
    && plan.decision == Preflight.DecisionFor(plan.band) && plan.decision != Deny
  }

  /** The source rebuilds and rechecks the action it has just made; that never fails. */
  lemma CreatedPlanParts(input: SigningInput, plan: Plan, cfg: GuardConfig) returns (amount: nat)
    requires ValidGuard(cfg) && CreatePlan(input, cfg) == Ok(plan)
    ensures ExactPlan(plan, amount, cfg)
  {
    hide CheckedIntent, CheckSelection, SingleDeposit, CheckBoundary, CheckWallet, AmountToFelt, Print;
    hide NormalizeFelt, ParseBaseUnitAmount;
    var original, final := CheckedIntent(input.originalIntent, cfg).value, CheckedIntent(input.finalIntent, cfg).value;
    amount := CheckSelection(original, input.initialPreflight, input.selection, cfg).value;
    IntentFacts(input.finalIntent, cfg);
    FinalIntentFacts(input.finalIntent, amount, cfg);
    BuiltDeposit(final.token, amount, cfg);
  }

  /** A created plan passes its later re-examination exactly while its evidence is fresh. */
  lemma CreatedPlanChecks(input: SigningInput, plan: Plan, now: int, cfg: GuardConfig)
    requires ValidGuard(cfg) && CreatePlan(input, cfg) == Ok(plan)
    ensures CheckPlan(plan, now, cfg).Pass? <==> Fresh(now, plan.indexedTimestamp)
  {
    hide CreatePlan, CheckedIntent, SingleDeposit, AmountToFelt, Print, NormalizeFelt, ParseBaseUnitAmount;
    var amount := CreatedPlanParts(input, plan, cfg);
    var final := CheckedIntent(plan.finalIntent, cfg).value;
    IntentFacts(plan.finalIntent, cfg);
    FinalIntentFacts(plan.finalIntent, amount, cfg);
    BuiltDeposit(final.token, amount, cfg);
  }

  lemma BoundaryFacts(s: Boundary, cfg: GuardConfig)
    ensures CheckBoundary(s, cfg).Pass? ==> cfg.address(s.pool) == Some(cfg.pool)
  {
  }

  lemma WalletFacts(w: Wallet, account: string, cfg: GuardConfig)
    ensures CheckWallet(w, account, cfg).Pass? ==> cfg.address(w.account) == Some(account)
  {
  }

  /** What reached the wallet, related to everything the run was given. */
  ghost predicate Submitted(action: WalletAction, run: Run, cfg: GuardConfig) {
    var input := run.input;
    && CheckedIntent(input.originalIntent, cfg).Ok? && ParseBaseUnitAmount(input.displayedAmount).Ok?
    && var original := CheckedIntent(input.originalIntent, cfg).value;
    && var amount := ParseBaseUnitAmount(input.displayedAmount).value;
    && action == Deposit(original.token, AmountToFelt(amount)) && FeltValue(action.amount) == amount
    && ParseBaseUnitAmount(input.selection.amount) == Ok(amount) && original.amount.Inside(amount)
    && SelectionJustified(amount, original, input.initialPreflight, input.selection)
    && cfg.address(input.wallet.account) == Some(original.account)
    && input.finalPreflight.Available? && input.finalPreflight.decision != Deny
    && (input.finalPreflight.decision == Warn ==> run.acknowledged) && run.approval
    && Fresh(input.now, input.snapshot.indexedTimestamp)
    && Fresh(run.simulatedAt, input.snapshot.indexedTimestamp)
    && Fresh(run.authorizedAt, input.snapshot.indexedTimestamp)
  }

  lemma PlanCheckFacts(plan: Plan, now: int, cfg: GuardConfig)
    ensures CheckPlan(plan, now, cfg).Pass? ==> Fresh(now, plan.indexedTimestamp) && plan.action.Deposit?
  {
  }

  /**
   Whatever intents, evidence, selections, simulations and times a run was given: a deposit reaches the wallet
   only as the one displayed and selected amount, inside the user's bounds, of the user's token, for the
   connected account, under a decision that is not a denial, acknowledged, approved, and fresh when planning,
   simulating and authorising.
   */
  lemma OnlyTheReviewedDeposit(run: Run, cfg: GuardConfig)
    requires ValidGuard(cfg) && Execute(run, cfg).Ok?
    ensures Submitted(Execute(run, cfg).value, run, cfg)
  {
    hide CreatePlan, CheckPlan, SingleDeposit, CheckedIntent, AmountToFelt, NormalizeFelt, ParseBaseUnitAmount;
    hide ActionBinding, FeltValue, SelectionJustified;
    var plan := CreatePlan(run.input, cfg).value;
    PlanIsFaithful(run.input, cfg);
    PlanCheckFacts(plan, run.simulatedAt, cfg);
    PlanCheckFacts(plan, run.authorizedAt, cfg);
    DepositFacts(plan.action, cfg);
    IntentFacts(run.input.originalIntent, cfg);
    FeltOfAmount(ParseBaseUnitAmount(run.input.displayedAmount).value);
  }

  /** The simulation ran the deposit entry point of the configured pool, however its address is spelled. */
  predicate SimulatesPool(simulation: Simulation, cfg: GuardConfig) {
    && simulation.simulated && cfg.address(simulation.contract) == Some(cfg.pool)
    && simulation.entryPoint == "apply_actions" && simulation.calldataLength > 0 && simulation.proofEmpty
  }

  /**
   Once a plan is created, the deposit reaches the wallet exactly when the snapshot spelled the pool the canonical
   way, the pool was simulated, the user approves, a warning is acknowledged, and the evidence is still fresh when
   simulating and when authorising. The plan keeps the snapshot's own spelling, so any other one fails here.
   */
  lemma WhatStillHasToHappen(run: Run, plan: Plan, cfg: GuardConfig)
    requires ValidGuard(cfg) && CreatePlan(run.input, cfg) == Ok(plan)
    ensures Execute(run, cfg).Ok?
            <==> && run.input.snapshot.pool == cfg.pool && SimulatesPool(run.simulation, cfg) && run.approval
                 && (plan.decision == Warn ==> run.acknowledged)
                 && Fresh(run.simulatedAt, plan.indexedTimestamp) && Fresh(run.authorizedAt, plan.indexedTimestamp)
  {
    hide CreatePlan, CheckPlan, SingleDeposit, CheckedIntent, AmountToFelt, NormalizeFelt, ParseBaseUnitAmount;
    hide ActionBinding, Print, SelectionJustified;
    PlanIsFaithful(run.input, cfg);
    CreatedPlanChecks(run.input, plan, run.simulatedAt, cfg);
    CreatedPlanChecks(run.input, plan, run.authorizedAt, cfg);
    var amount := CreatedPlanParts(run.input, plan, cfg);
    var final := CheckedIntent(plan.finalIntent, cfg).value;
    IntentFacts(plan.finalIntent, cfg);
    FinalIntentFacts(plan.finalIntent, amount, cfg);
    BuiltDeposit(final.token, amount, cfg);
  }

  function Respelled(input: SigningInput, pool: string): SigningInput {
    input.(snapshot := input.snapshot.(pool := pool))
  }

  /**
   A snapshot that spells the pool in any other way that normalises to it is planned just as well, and no run with it
   ever reaches the wallet.
   */
  lemma OtherSpellingIsPlannedInVain(input: SigningInput, pool: string, cfg: GuardConfig)
    requires ValidGuard(cfg) && CreatePlan(input, cfg).Ok?
    requires cfg.address(pool) == Some(cfg.pool) && pool != cfg.pool
    ensures CreatePlan(Respelled(input, pool), cfg).Ok?
    ensures forall run: Run :: run.input == Respelled(input, pool) ==> Execute(run, cfg).Err?
  {
    RespellingAccepted(input, pool, cfg);
    forall run: Run | run.input == Respelled(input, pool) ensures Execute(run, cfg).Err? {
      hide CreatePlan, Execute;
      WhatStillHasToHappen(run, CreatePlan(run.input, cfg).value, cfg);
    }
  }

  lemma RespellingAccepted(input: SigningInput, pool: string, cfg: GuardConfig)
    requires CreatePlan(input, cfg).Ok? && cfg.address(pool) == Some(cfg.pool)
    ensures CreatePlan(Respelled(input, pool), cfg).Ok?
  {
    hide CheckedIntent, CheckSelection, SingleDeposit, CheckWallet, AmountToFelt, Print, NormalizeFelt;
    hide ParseBaseUnitAmount;
  }

  /**
   An authorisation that has been altered in any bound field after it was issued is refused, whichever
   run its binding came from.
   */
  lemma AlteredAuthorizationRefused(issued: Authorization, altered: Authorization, cfg: GuardConfig)
    requires BindingFieldsOk(issued)
    requires issued.binding
             == ActionBinding(issued.chainId, issued.pool, issued.account, issued.action, issued.snapshotHash,
                              issued.decisionId)
    requires altered.binding == issued.binding && Submit(altered, cfg).Ok?
    ensures altered.action == issued.action && altered.account == issued.account && altered.chainId == issued.chainId
    ensures altered.pool == issued.pool && altered.snapshotHash == issued.snapshotHash
    ensures altered.decisionId == issued.decisionId
  {
    hide ActionBinding, SingleDeposit;
    BindingInjective(issued, altered);
  }

  /** Authorisations issued by runs satisfy what the binding needs. */
  lemma IssuedBindingOk(run: Run, plan: Plan, cfg: GuardConfig)
    requires ValidGuard(cfg) && CreatePlan(run.input, cfg) == Ok(plan)
    ensures NoColon(plan.chainId) && NoColon(plan.pool) && NoColon(plan.account) && NoColon(plan.snapshotHash)
    ensures NoColon(plan.decisionId) && plan.action.Deposit? && NoColon(plan.action.token) && NoColon(plan.action.amount)
  {
    hide CreatePlan, CheckedIntent, AmountToFelt, NormalizeFelt, ParseBaseUnitAmount;
    PlanIsFaithful(run.input, cfg);
    IntentFacts(run.input.originalIntent, cfg);
    NormalFelt(cfg.chainId);
    FeltOfAmount(ParseBaseUnitAmount(run.input.displayedAmount).value);
    DigitsAreLower(plan.snapshotHash[2..]);
    assert plan.snapshotHash == plan.snapshotHash[..2] + plan.snapshotHash[2..];
  }

  /** Two runs that bind the same way agreed on the final intent and on all the evidence behind the decision. */
  lemma BindingFixesEvidence(a: Run, b: Run, planA: Plan, planB: Plan, cfg: GuardConfig)
    requires ValidGuard(cfg) && CreatePlan(a.input, cfg) == Ok(planA) && CreatePlan(b.input, cfg) == Ok(planB)
    requires planA.action.Deposit? && planB.action.Deposit? && PlanBinding(planA) == PlanBinding(planB)
    ensures a.input.finalIntent == b.input.finalIntent && planA.action == planB.action
    ensures a.input.finalPreflight.Available? && b.input.finalPreflight.Available?
    ensures PayloadOf(a.input.finalIntent, a.input.finalPreflight)
            == PayloadOf(b.input.finalIntent, b.input.finalPreflight)
  {
    hide CreatePlan, ActionBinding, CheckedIntent, NoColon;
    IssuedBindingOk(a, planA, cfg);
    IssuedBindingOk(b, planB, cfg);
    PlanIsFaithful(a.input, cfg);
    PlanIsFaithful(b.input, cfg);
    BindingInjective(AuthorizationOf(planA), AuthorizationOf(planB));
  }

  function AuthorizationOf(plan: Plan): Authorization
    requires plan.action.Deposit?
  {
    Authorization(plan.action, PlanBinding(plan), plan.chainId, plan.pool, plan.account, plan.snapshotHash,
                  plan.decisionId, plan.decision, plan.selection.source, 0, true)
  }
}
