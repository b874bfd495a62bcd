/** Values exchanged with the preflight evaluator, and the frozen model constants. */
module EngineTypes {

  import opened Wrappers

  // Addresses and hashes are compared after normalisation, so each is named by its felt value.
  type Address = nat

  const DAY := 86_400
  const OBSERVATION_SECONDS := 30 * 24 * 60 * 60
  const COHORT_SECONDS := 24 * 60 * 60
  const PROXIMITY_SECONDS := 60 * 60
  const CHANNEL_SECONDS := 30 * 60
  const THIN_COHORT := 5
  const MIN_ADDRESSES := 3
  const MIN_ACTIVE_DAYS := 7
  const ROUND_AMOUNT_DECIMAL_PLACES := 2
  const MAX_SAFE_INTEGER := 9_007_199_254_740_991

  datatype ModelVersion = V13 | V14

  /** An exact quotient; two are compared by cross-multiplication. */
  datatype Ratio = Ratio(num: nat, den: nat) {
    predicate Exceeds(limit: Ratio) {
      num * limit.den > limit.num * den
    }
  }

  const MAX_TOP_SHARE := Ratio(1, 2)
  const MAX_BURST_SHARE := Ratio(3, 5)

  // The projected deposit carries a marker that is no transaction hash.
  datatype TxHash = Tx(hash: nat) | ProjectedTx

  datatype DepositObservation =
    DepositObservation(block: int, timestamp: int, tx: TxHash, depositor: Address, token: Address, amount: int)

  datatype WithdrawalObservation =
    WithdrawalObservation(block: int, timestamp: int, tx: TxHash, recipient: Address, token: Address, amount: int)

  datatype RegistrationObservation =
    RegistrationObservation(block: int, timestamp: int, tx: TxHash, account: Address)

  /** A deposit or withdrawal seen only as a cohort member. */
  datatype CohortObservation =
    CohortObservation(block: int, timestamp: int, tx: TxHash, actor: Address, token: Address, amount: int)

  datatype AmountConstraint =
    | Exact(value: int)
    | Flexible(target: int, min: int, max: int)
  {
    function Selected(): int {
      match this
      case Exact(value) => value
      case Flexible(target, _, _) => target
    }

    predicate Inside(amount: int) {
      match this
      case Exact(value) => amount == value
      case Flexible(_, min, max) => min <= amount <= max
    }
  }

  datatype OtherAction = PrivateTransfer | Swap

  datatype Intent =
    | Shield(account: Address, token: Address, amount: AmountConstraint, deadline: int)
    | Withdraw(account: Address, recipient: Address, token: Address, amount: AmountConstraint, deadline: int)
    | Other(action: OtherAction, account: Address, token: Address, amount: AmountConstraint, deadline: int)

  datatype Failure =
    | ThinCohort
    | LowAddressDiversity
    | TopAddressConcentration
    | InsufficientActiveDays
    | BurstConcentration

  datatype CohortQuality = CohortQuality(
    existingMatches: nat,
    projectedCohort: nat,
    trafficEvents: nat,
    distinctAddresses: nat,
    distinctTransactions: nat,
    topAddressShare: Ratio,
    activeDays: nat,
    maxBurstShare: Ratio,
    healthy: bool,
    failures: seq<Failure>)

  datatype SignalId = S1 | S2 | S3 | S4 | S5 | S7
  datatype SignalStatus = Fired | Clear | NotApplicable
  datatype Signal = Signal(id: SignalId, status: SignalStatus)

  datatype Band = LowBand | MediumBand | HighBand
  datatype Decision = Allow | Warn | Deny

  datatype Recommendation =
    | ChangeAmount(from: int, to: int, absoluteDeviation: nat, cohort: CohortQuality)
    | WaitFor(suggestedHorizonSeconds: nat)
    | NoSaferExecution

  datatype PreflightInput = PreflightInput(
    intent: Intent,
    now: int,
    deposits: seq<DepositObservation>,
    withdrawals: seq<WithdrawalObservation>,
    registrations: seq<RegistrationObservation>,
    tokenDecimals: int)

  datatype PreflightResult =
    | Unsupported(version: ModelVersion)
    | Supported(
        version: ModelVersion,
        evaluatedAt: int,
        amount: int,
        band: Band,
        decision: Decision,
        signals: seq<Signal>,
        cohort: CohortQuality,
        recommendation: Option<Recommendation>)
}
