/** Results and optional fields. */
module Wrappers {
  datatype Option<+T> = None | Some(value: T)

  datatype Result<+T, +E> = Success(value: T) | Failure(error: E)
  {
    predicate IsFailure() {
      Failure?
    }

    function PropagateFailure<U>(): Result<U, E>
      requires Failure?
    {
      Failure(error)
    }

    function Extract(): T
      requires Success?
    {
      value
    }
  }
}

/**
 The shared contracts of the paper-trading core.  Instants are microseconds of UTC, identifiers are
 numbers, and a fingerprint is the fingerprinted value itself.
 */
module Contracts {
  import opened Numbers
  import opened Wrappers

  type Amount = n: int | 0 <= n < LEDGER_BOUND
  type Positive = n: int | 0 < n < LEDGER_BOUND witness 1
  type SlippageBps = n: int | 0 <= n <= BPS
  /** A raw supply has at most 78 digits. */
  const SUPPLY_BOUND: int := 1000000000000000000000000000000000000000000000000000000000000000000000000000000
  type RawSupply = n: int | 0 <= n < SUPPLY_BOUND
  type Fraction = x: real | 0.0 <= x <= 1.0
  type Id = nat
  type Instant = int

  const SECOND: int := 1_000_000
  const DAY: int := 86_400_000_000

  /** The UTC day an instant falls on. */
  function LossDay(at: Instant): int {
    at / DAY
  }

  datatype Side = BUY | SELL
  datatype TradingMode = OBSERVE | PAPER | LIVE_AUTONOMOUS
  datatype SafetyStatus = PASS | FAIL | UNKNOWN
  datatype RiskOutcome = APPROVE | REJECT | PAUSE_SYSTEM

  datatype Timing = Timing(
    detectedAt: Instant,
    decisionAt: Option<Instant>,
    signedAt: Option<Instant>,
    sentAt: Option<Instant>,
    confirmedAt: Option<Instant>
  )

  datatype Token = Token(
    createdAt: Instant,
    decimals: nat,
    tradable: SafetyStatus,
    totalSupplyRaw: Option<RawSupply>,
    totalSupplyDecimals: Option<nat>
  )

  datatype Liquidity = Liquidity(
    createdAt: Instant,
    liquidityUsd: Option<Amount>,
    routing: SafetyStatus,
    estimatedSlippageBps: Option<Amount>,
    liquidityExact: bool
  )

  datatype Holders = Holders(
    createdAt: Instant,
    holderCount: Option<nat>,
    topTenFraction: Option<Fraction>,
    concentrationCheck: SafetyStatus
  )

  datatype LpStatus = LP_PASS | LP_BLOCKED | LP_UNKNOWN | LP_UNSUPPORTED
  datatype PoolLocatorCode = CONTRACT_ADDRESS | BYTES32_POOL_ID

  const V4_POOL_CENSUS: string := "V4_POOL_CENSUS"

  datatype LpControl = LpControl(
    createdAt: Instant,
    status: LpStatus,
    poolLocatorKind: Option<PoolLocatorCode>,
    poolId: Option<string>,
    basis: Option<string>,
    censusBlock: Option<nat>
  )

  datatype MarketSnapshot = MarketSnapshot(
    id: Id,
    assetId: string,
    observedAt: Instant,
    priceUsd: Positive,
    priceExact: bool,
    liquidity: Liquidity,
    token: Token,
    holders: Holders,
    feeBps: Option<Amount>,
    lpControl: Option<LpControl>
  )

  datatype TradeIntent = TradeIntent(
    id: Id,
    assetId: string,
    side: Side,
    quantity: Positive,
    signalPrice: Positive,
    maxSlippageBps: SlippageBps,
    mode: TradingMode,
    timing: Timing
  )

  /** `maxSnapshotAgeSeconds` and `approvalTtlSeconds` are positive, the ratio lies in (0, 1]. */
  datatype RiskLimits = RiskLimits(
    killSwitch: bool,
    maxExposureUsd: Positive,
    maxPositionSizeUsd: Positive,
    maxSlippageBps: SlippageBps,
    dailyLossLimitUsd: Positive,
    minLiquidityUsd: Positive,
    minLiquidityFdvRatio: Fraction,
    maxTopTenHolderFraction: Fraction,
    maxSnapshotAgeSeconds: nat,
    approvalTtlSeconds: nat
  )

  datatype RiskContext = RiskContext(
    cashUsd: Option<Amount>,
    exposureUsd: Option<Amount>,
    positionQuantity: Option<Amount>,
    dailyLossUsd: Option<Amount>,
    accounting: SafetyStatus
  )

  datatype CheckName = TOKEN | ROUTING | HOLDERS | ACCOUNTING

  datatype Reason =
    | KILL_SWITCH
    | MODE_NOT_EXECUTABLE
    | ASSET_MISMATCH
    | STALE_OR_FUTURE_MARKET
    | STALE_OR_FUTURE_SAFETY_DATA
    | INVALID_OR_STALE_INTENT_TIMING
    | SAFETY_CHECK(name: CheckName, status: SafetyStatus)
    | LP_CONTROL_UNKNOWN
    | LP_CONTROL_BLOCKED
    | LP_CONTROL_UNSUPPORTED
    | LP_CONTROL_EVIDENCE_INCONSISTENT
    | HOLDER_METRICS_UNKNOWN
    | HOLDER_CONCENTRATION_LIMIT
    | LIQUIDITY_UNKNOWN
    | INSUFFICIENT_LIQUIDITY
    | FDV_UNKNOWN
    | FDV_DECIMALS_MISMATCH
    | LIQUIDITY_FDV_RATIO_UNVERIFIED
    | LIQUIDITY_FDV_RATIO_UNDECIDABLE
    | LIQUIDITY_FDV_RATIO_LIMIT
    | SLIPPAGE_UNKNOWN
    | SLIPPAGE_LIMIT
    | FEES_UNKNOWN
    | INVALID_FEES
    | PORTFOLIO_DATA_UNKNOWN
    | DAILY_LOSS_LIMIT
    | INSUFFICIENT_CASH
    | MAX_EXPOSURE
    | MAX_POSITION_SIZE
    | INSUFFICIENT_POSITION
    | WITHIN_LIMITS

  datatype RiskMetrics = RiskMetrics(
    requestedNotionalUsd: Amount,
    worstCaseNotionalUsd: Amount,
    exposureUsd: Option<Amount>,
    dailyLossUsd: Option<Amount>,
    liquidityUsd: Option<Amount>,
    estimatedSlippageBps: Option<Amount>,
    liquidityFdvRatio: Option<int>
  )

  datatype RiskDecision = RiskDecision(
    intent: TradeIntent,
    market: MarketSnapshot,
    outcome: RiskOutcome,
    reasonCodes: seq<Reason>,
    positionSizeLimitUsd: Amount,
    maxAdditionalNotionalUsd: Amount,
    maxSlippageBps: SlippageBps,
    metrics: RiskMetrics,
    evaluatedAt: Instant,
    expiresAt: Instant
  )

  datatype OrderIntent = OrderIntent(
    intent: TradeIntent,
    risk: RiskDecision,
    executionRequestedAt: Instant
  )

  datatype ExecutionResult = ExecutionResult(
    intentId: Id,
    assetId: string,
    side: Side,
    quantity: Positive,
    quotePrice: Positive,
    executionPrice: Positive,
    slippageBps: Amount,
    feesUsd: Amount,
    gasUsd: Amount,
    createdAt: Instant
  )

  datatype Position = Position(
    assetId: string,
    marketPairId: Option<string>,
    marketChain: Option<string>,
    marketNetwork: Option<string>,
    marketProvider: Option<string>,
    cycleId: Option<Id>,
    quantity: Amount,
    costBasisUsd: Amount,
    realizedPnlUsd: int
  )

  datatype Trade = Trade(
    intentId: Id,
    assetId: string,
    side: Side,
    quantity: Positive,
    priceUsd: Positive,
    feesUsd: Amount,
    realizedPnlUsd: int,
    createdAt: Instant
  )

  datatype PnLSnapshot = PnLSnapshot(
    cashUsd: int,
    marketValueUsd: int,
    equityUsd: int,
    realizedPnlUsd: int,
    unrealizedPnlUsd: int,
    totalPnlUsd: int,
    feesPaidUsd: int
  )

  /** Why a paper operation raises instead of returning. */
  datatype Error =
    | ValidationError
    | PaperNotEnabled
    | EntryHalted
    | NormalEntryDisabled
    | IdempotencyConflict
    | IncompleteIntent
    | ImmutableRecordReused
    | DuplicateRecord
    | HeldInAnotherMarket(pairId: string)
    | ExecutionRefused
    | PositionMismatch
    | InsufficientCash
    | SellExceedsPosition
    | MissingMark
    | ApprovalExpired
    | FillRefused
}
