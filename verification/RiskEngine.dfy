/**
 SENTINEL: the deterministic, fail-closed verdict on one order.

 `Evaluate` appends reasons in the order the engine reports them; `Decide` is the same verdict as a
 function of its inputs, and the theorems are about `Decide`.
 */
module RiskEngine {
  import opened Numbers
  import opened Wrappers
  import opened Contracts

  // ---------------------------------------------------------------------------------- the figures

  /** `1 + bps / BPS` in the default context. */
  function Factor28(bps: int): real {
    Sig(LEAD28, 1.0 + Sig(LEAD28, bps as real / BPS as real))
  }

  /** `1 + bps / BPS` in the 78-digit context of the capacity computation. */
  function Factor78(bps: int): real {
    Sig(LEAD78, 1.0 + Sig(LEAD78, bps as real / BPS as real))
  }

  /** The order at the snapshot price, before costs. */
  function Notional(quantity: int, price: int): int {
    Quantize(Sig(LEAD28, Product(quantity, price)))
  }

  /** One cost factor applied and brought back to the ledger's scale, default context. */
  function Raised28(amount: int, factor: real): int {
    Quantize(Sig(LEAD28, Times(amount as real, factor)))
  }

  /** One cost factor applied and brought back to the ledger's scale, 78 digits. */
  function Raised78(amount: int, factor: real): int {
    Quantize(Sig(LEAD78, Times(amount as real, factor)))
  }

  /** What a notional costs after the worst permitted slippage and the known fee. */
  function WorstCost(notional: int, slippage: int, fee: int): int {
    Raised28(Raised28(notional, Factor28(slippage)), Factor28(fee))
  }

  /** The same two roundings as the capacity loop performs them. */
  function LoopCost(capacity: int, slippage: int, fee: int): int {
    Raised78(Raised78(capacity, Factor78(slippage)), Factor78(fee))
  }

  function PermittedSlippage(intent: TradeIntent, limits: RiskLimits): SlippageBps {
    if intent.maxSlippageBps <= limits.maxSlippageBps then intent.maxSlippageBps else limits.maxSlippageBps
  }

  function KnownFee(market: MarketSnapshot): int {
    match market.feeBps
    case Some(fee) => fee
    case None => 0
  }

  /** The on-chain supply in whole tokens; a zero supply is as unknown as a missing one. */
  function TotalSupply(token: Token): Option<real> {
    match (token.totalSupplyRaw, token.totalSupplyDecimals)
    case (Some(raw), Some(decimals)) =>
      if raw == 0 then None else Some(raw as real / TenTo(decimals) as real)
    case _ => None
  }

  // --------------------------------------------------------------------------------- the reasons

  function When(holds: bool, reason: Reason): seq<Reason> {
    if holds then [reason] else []
  }

  predicate Stale(now: Instant, at: Instant, limits: RiskLimits) {
    now - at < 0 || now - at > limits.maxSnapshotAgeSeconds * SECOND
  }

  /** LP-control evidence binds a purchase only, its age included. */
  function NestedInstants(side: Side, market: MarketSnapshot): seq<Instant> {
    [market.token.createdAt, market.liquidity.createdAt, market.holders.createdAt]
    + if side == BUY && market.lpControl.Some? then [market.lpControl.value.createdAt] else []
  }

  predicate AnyStale(now: Instant, instants: seq<Instant>, limits: RiskLimits) {
    exists i :: 0 <= i < |instants| && Stale(now, instants[i], limits)
  }

  predicate TimingInvalid(timing: Timing, now: Instant, limits: RiskLimits) {
    || timing.decisionAt.None?
    || !(timing.detectedAt <= timing.decisionAt.value <= now)
    || now - timing.detectedAt > limits.maxSnapshotAgeSeconds * SECOND
    || timing.signedAt.Some? || timing.sentAt.Some? || timing.confirmedAt.Some?
  }

  function GateReasons(intent: TradeIntent, market: MarketSnapshot, limits: RiskLimits, now: Instant): seq<Reason> {
    When(limits.killSwitch, KILL_SWITCH)
    + When(intent.mode != PAPER, MODE_NOT_EXECUTABLE)
    + When(intent.assetId != market.assetId, ASSET_MISMATCH)
    + When(Stale(now, market.observedAt, limits), STALE_OR_FUTURE_MARKET)
    + When(AnyStale(now, NestedInstants(intent.side, market), limits), STALE_OR_FUTURE_SAFETY_DATA)
    + When(TimingInvalid(intent.timing, now, limits), INVALID_OR_STALE_INTENT_TIMING)
  }

  /** The safety checks in reporting order; for a sale only an unknown holder domain counts. */
  function Checks(side: Side, market: MarketSnapshot, context: RiskContext): seq<(CheckName, SafetyStatus)> {
    [(TOKEN, market.token.tradable), (ROUTING, market.liquidity.routing)]
    + (if side == BUY || market.holders.concentrationCheck == UNKNOWN
       then [(HOLDERS, market.holders.concentrationCheck)] else [])
    + [(ACCOUNTING, context.accounting)]
  }

  function FailedChecks(checks: seq<(CheckName, SafetyStatus)>): seq<Reason> {
    if checks == [] then []
    else
      var last := checks[|checks| - 1];
      FailedChecks(checks[..|checks| - 1]) + When(last.1 != PASS, SAFETY_CHECK(last.0, last.1))
  }

  /** Why a purchase in this market is not covered by LP-control evidence. */
  function LpControlRefusal(market: MarketSnapshot): Option<Reason> {
    match market.lpControl
    case None => Some(LP_CONTROL_UNKNOWN)
    case Some(control) =>
      match control.status
      case LP_BLOCKED => Some(LP_CONTROL_BLOCKED)
      case LP_UNKNOWN => Some(LP_CONTROL_UNKNOWN)
      case LP_UNSUPPORTED => Some(LP_CONTROL_UNSUPPORTED)
      case LP_PASS =>
        if || control.poolLocatorKind != Some(BYTES32_POOL_ID)
           || control.poolId.None?
           || control.basis != Some(V4_POOL_CENSUS)
           || control.censusBlock.None?
        then Some(LP_CONTROL_EVIDENCE_INCONSISTENT)
        else None
  }

  function LpReasons(side: Side, market: MarketSnapshot): seq<Reason> {
    if side == BUY && LpControlRefusal(market).Some? then [LpControlRefusal(market).value] else []
  }

  function HolderReasons(side: Side, market: MarketSnapshot, limits: RiskLimits): seq<Reason> {
    var holders := market.holders;
    if holders.holderCount.None? || holders.topTenFraction.None? then [HOLDER_METRICS_UNKNOWN]
    else
      When(side == BUY && (holders.holderCount.value == 0
                           || holders.topTenFraction.value > limits.maxTopTenHolderFraction),
           HOLDER_CONCENTRATION_LIMIT)
  }

  function LiquidityReasons(side: Side, market: MarketSnapshot, limits: RiskLimits): seq<Reason> {
    match market.liquidity.liquidityUsd
    case None => [LIQUIDITY_UNKNOWN]
    case Some(liquidity) =>
      When(if side == BUY then liquidity < limits.minLiquidityUsd else liquidity <= 0, INSUFFICIENT_LIQUIDITY)
  }

  /** `supply * price` in the 160-digit context. */
  function Fdv(supply: real, price: real): real {
    Sig(LEAD160, Times(supply, price))
  }

  /** The ratio verdict on a purchase whose supply and liquidity are both known. */
  function RatioReasons(market: MarketSnapshot, supply: real, liquidity: Amount, limits: RiskLimits): seq<Reason> {
    var fdv := Fdv(supply, market.priceUsd as real);
    var lowestPrice := if market.priceExact then market.priceUsd else market.priceUsd - 1;
    var highestLiquidity := if market.liquidity.liquidityExact then liquidity else liquidity + 1;
    if liquidity as real > fdv then [LIQUIDITY_FDV_RATIO_UNVERIFIED]
    else if highestLiquidity as real > Fdv(supply, lowestPrice as real) then [LIQUIDITY_FDV_RATIO_UNDECIDABLE]
    else if (liquidity as real) < Sig(LEAD160, Times(limits.minLiquidityFdvRatio, fdv)) then [LIQUIDITY_FDV_RATIO_LIMIT]
    else []
  }

  function FdvReasons(side: Side, market: MarketSnapshot, limits: RiskLimits): seq<Reason> {
    if side != BUY then []
    else
      match TotalSupply(market.token)
      case None => [FDV_UNKNOWN]
      case Some(supply) =>
        if market.token.totalSupplyDecimals != Some(market.token.decimals) then [FDV_DECIMALS_MISMATCH]
        else if market.liquidity.liquidityUsd.None? then []
        else RatioReasons(market, supply, market.liquidity.liquidityUsd.value, limits)
  }

  /** The recorded ratio: present exactly where the verdict above was reached. */
  function FdvRatio(side: Side, market: MarketSnapshot): Option<int> {
    match (TotalSupply(market.token), market.liquidity.liquidityUsd)
    case (Some(supply), Some(liquidity)) =>
      var fdv := Fdv(supply, market.priceUsd as real);
      if side == BUY && market.token.totalSupplyDecimals == Some(market.token.decimals) && fdv != 0.0
      then Some(QuantizeDown(Times(Sig(LEAD160, liquidity as real / fdv), UNIT as real)))
      else None
    case _ => None
  }

  function CostReasons(market: MarketSnapshot, permitted: SlippageBps): seq<Reason> {
    (match market.liquidity.estimatedSlippageBps
     case None => [SLIPPAGE_UNKNOWN]
     case Some(slippage) => When(slippage > permitted || slippage >= BPS, SLIPPAGE_LIMIT))
    + (match market.feeBps
       case None => [FEES_UNKNOWN]
       case Some(fee) => When(fee >= BPS, INVALID_FEES))
  }

  predicate PortfolioKnown(context: RiskContext) {
    && context.cashUsd.Some? && context.exposureUsd.Some?
    && context.positionQuantity.Some? && context.dailyLossUsd.Some?
  }

  function PortfolioReasons(side: Side, context: RiskContext, limits: RiskLimits): seq<Reason> {
    When(!PortfolioKnown(context), PORTFOLIO_DATA_UNKNOWN)
    + When(side == BUY && context.dailyLossUsd.Some? && context.dailyLossUsd.value >= limits.dailyLossLimitUsd,
           DAILY_LOSS_LIMIT)
  }

  /** Every reason that has nothing to do with the order's size. */
  function UnsizedReasons(intent: TradeIntent, market: MarketSnapshot, context: RiskContext,
                          limits: RiskLimits, now: Instant): seq<Reason>
  {
    GateReasons(intent, market, limits, now)
    + FailedChecks(Checks(intent.side, market, context))
    + LpReasons(intent.side, market)
    + HolderReasons(intent.side, market, limits)
    + LiquidityReasons(intent.side, market, limits)
    + FdvReasons(intent.side, market, limits)
    + CostReasons(market, PermittedSlippage(intent, limits))
    + PortfolioReasons(intent.side, context, limits)
  }

  /** `position_quantity * price_usd + worst_cost` in the default context. */
  function PositionAfter(held: int, price: int, cost: int): real {
    Sig(LEAD28, Sig(LEAD28, Product(held, price)) + cost as real)
  }

  /** The three budget checks of a purchase that would cost `cost`. */
  function SizingReasons(cost: int, price: int, context: RiskContext, limits: RiskLimits): seq<Reason> {
    When(context.cashUsd.Some? && cost > context.cashUsd.value, INSUFFICIENT_CASH)
    + When(context.exposureUsd.Some? && Whole28(context.exposureUsd.value + cost) > limits.maxExposureUsd,
           MAX_EXPOSURE)
    + When(context.positionQuantity.Some?
           && PositionAfter(context.positionQuantity.value, price, cost) > limits.maxPositionSizeUsd as real,
           MAX_POSITION_SIZE)
  }

  function SizeReasons(intent: TradeIntent, cost: int, market: MarketSnapshot, context: RiskContext,
                       limits: RiskLimits): seq<Reason>
  {
    if intent.side == BUY then SizingReasons(cost, market.priceUsd, context, limits)
    else When(context.positionQuantity.Some? && intent.quantity > context.positionQuantity.value,
              INSUFFICIENT_POSITION)
  }

  /** The reasons a resized request could cure. */
  const SIZING_REASONS: set<Reason> := {INSUFFICIENT_CASH, MAX_EXPOSURE, MAX_POSITION_SIZE}

  predicate OnlySizing(reasons: seq<Reason>) {
    forall r :: r in reasons ==> r in SIZING_REASONS
  }

  // -------------------------------------------------------------------------------- the capacity

  /** What cash, exposure and the position still allow, before costs; all of it exact at 78 digits. */
  function Budget(cash: Amount, exposure: Amount, held: Amount, price: Positive, limits: RiskLimits): (r: real)
    ensures 0.0 <= r <= cash as real
  {
    var position := Sig(LEAD78, limits.maxPositionSizeUsd as real - Sig(LEAD78, Product(held, price)));
    var exposureLeft := (limits.maxExposureUsd - exposure) as real;
    var least := if exposureLeft < cash as real then exposureLeft else cash as real;
    var smaller := if position < least then position else least;
    if smaller > 0.0 then smaller else 0.0
  }

  lemma FactorAtLeastOne(bps: int)
    requires bps >= 0
    ensures Factor28(bps) >= 1.0 && Factor78(bps) >= 1.0
  {
    var share := bps as real / BPS as real;
    SigMonotone(LEAD28, 0.0, share);
    SigMonotone(LEAD78, 0.0, share);
    SigWhole(LEAD28, 1);
    SigWhole(LEAD78, 1);
    SigMonotone(LEAD28, 1.0, 1.0 + Sig(LEAD28, share));
    SigMonotone(LEAD78, 1.0, 1.0 + Sig(LEAD78, share));
  }

  lemma ProductAtLeastOne(x: real, y: real)
    requires x >= 1.0 && y >= 1.0
    ensures Times(x, y) >= 1.0
  {
    assert (x - 1.0) * y >= 0.0;
  }

  lemma ShareAtMost(whole: real, divisor: real)
    requires whole >= 0.0 && divisor >= 1.0
    ensures 0.0 <= whole / divisor <= whole
  {
    var q := whole / divisor;
    assert q * divisor == whole;
    assert q >= 0.0;
    assert q * (divisor - 1.0) >= 0.0;
  }

  /** The combined factor the budget is divided by. */
  function CombinedFactor(slippage: nat, fee: nat): (r: real)
    ensures r >= 1.0
  {
    FactorAtLeastOne(slippage);
    FactorAtLeastOne(fee);
    ProductAtLeastOne(Factor78(slippage), Factor78(fee));
    SigWhole(LEAD78, 1);
    SigMonotone(LEAD78, 1.0, Times(Factor78(slippage), Factor78(fee)));
    Sig(LEAD78, Times(Factor78(slippage), Factor78(fee)))
  }

  /** The division, floored to the ledger, before the intermediate roundings are corrected for. */
  function FirstCapacity(budget: real, slippage: nat, fee: nat): (r: int)
    requires 0.0 <= budget <= (LEDGER_BOUND - 1) as real
    ensures 0 <= r < LEDGER_BOUND
  {
    var quotient := budget / CombinedFactor(slippage, fee);
    ShareAtMost(budget, CombinedFactor(slippage, fee));
    SigMonotone(LEAD78, 0.0, quotient);
    SigWhole(LEAD78, LEDGER_BOUND - 1);
    SigMonotone(LEAD78, quotient, (LEDGER_BOUND - 1) as real);
    QuantizeDown(Sig(LEAD78, quotient))
  }

  /** Where the correction loop comes to rest. */
  function Settle(capacity: nat, budget: real, slippage: nat, fee: nat): (r: nat)
    ensures r <= capacity
  {
    if capacity > 0 && LoopCost(capacity, slippage, fee) as real > budget
    then Settle(capacity - 1, budget, slippage, fee)
    else capacity
  }

  /** The notional a resized purchase may still ask for, before costs; zero where a fact is missing. */
  function Capacity(context: RiskContext, market: MarketSnapshot, limits: RiskLimits, permitted: SlippageBps): Amount {
    match (context.cashUsd, context.exposureUsd, context.positionQuantity, market.feeBps)
    case (Some(cash), Some(exposure), Some(held), Some(fee)) =>
      var budget := Budget(cash, exposure, held, market.priceUsd, limits);
      Settle(FirstCapacity(budget, permitted, fee), budget, permitted, fee)
    case _ => 0
  }

  method AdditionalBuyNotional(context: RiskContext, market: MarketSnapshot, limits: RiskLimits,
                               permitted: SlippageBps)
    returns (capacity: Amount)
    ensures capacity == Capacity(context, market, limits, permitted)
  {
    if context.cashUsd.None? || context.exposureUsd.None? || context.positionQuantity.None? || market.feeBps.None? {
      return 0;
    }
    var budget := Budget(context.cashUsd.value, context.exposureUsd.value, context.positionQuantity.value,
                         market.priceUsd, limits);
    var fee := market.feeBps.value;
    capacity := FirstCapacity(budget, permitted, fee);
    while capacity > 0 && LoopCost(capacity, permitted, fee) as real > budget
      invariant Settle(capacity, budget, permitted, fee) == Capacity(context, market, limits, permitted)
    {
      capacity := capacity - 1;
    }
  }

  // --------------------------------------------------------------------------------- the verdict

  /** Every reason the engine reports, in its order. */
  function Reasons(intent: TradeIntent, market: MarketSnapshot, context: RiskContext,
                   limits: RiskLimits, now: Instant): seq<Reason>
  {
    UnsizedReasons(intent, market, context, limits, now)
    + SizeReasons(intent, OrderCost(intent, market, limits), market, context, limits)
  }

  function OrderNotional(intent: TradeIntent, market: MarketSnapshot): int {
    Notional(intent.quantity, market.priceUsd)
  }

  function OrderCost(intent: TradeIntent, market: MarketSnapshot, limits: RiskLimits): int {
    WorstCost(OrderNotional(intent, market), PermittedSlippage(intent, limits), KnownFee(market))
  }

  /** Whether the decision's own figures are valid amounts; otherwise its construction raises. */
  predicate Representable(intent: TradeIntent, market: MarketSnapshot, limits: RiskLimits) {
    && 0 <= OrderNotional(intent, market) < LEDGER_BOUND
    && 0 <= OrderCost(intent, market, limits) < LEDGER_BOUND
  }

  function Outcome(killSwitch: bool, reasons: seq<Reason>): RiskOutcome {
    if killSwitch then PAUSE_SYSTEM else if reasons != [] then REJECT else APPROVE
  }

  /** The record a verdict is written down in. */
  function Assemble(intent: TradeIntent, market: MarketSnapshot, context: RiskContext, limits: RiskLimits,
                    now: Instant, reasons: seq<Reason>, capacity: Amount): RiskDecision
    requires Representable(intent, market, limits)
  {
    RiskDecision(
      intent, market,
      Outcome(limits.killSwitch, reasons),
      if reasons == [] then [WITHIN_LIMITS] else reasons,
      limits.maxPositionSizeUsd,
      capacity,
      PermittedSlippage(intent, limits),
      RiskMetrics(OrderNotional(intent, market), OrderCost(intent, market, limits), context.exposureUsd,
                  context.dailyLossUsd, market.liquidity.liquidityUsd,
                  market.liquidity.estimatedSlippageBps, FdvRatio(intent.side, market)),
      now, now + limits.approvalTtlSeconds * SECOND)
  }

  function Decide(intent: TradeIntent, market: MarketSnapshot, context: RiskContext, limits: RiskLimits,
                  now: Instant): Result<RiskDecision, Error>
  {
    if !Representable(intent, market, limits) then Failure(ValidationError)
    else
      var reasons := Reasons(intent, market, context, limits, now);
      var capacity :=
        if intent.side == BUY && OnlySizing(reasons)
        then Capacity(context, market, limits, PermittedSlippage(intent, limits)) else 0;
      Success(Assemble(intent, market, context, limits, now, reasons, capacity))
  }

  method FirstStale(now: Instant, instants: seq<Instant>, limits: RiskLimits) returns (found: bool)
    ensures found == AnyStale(now, instants, limits)
  {
    found := false;
    for i := 0 to |instants|
      invariant !found
      invariant forall j :: 0 <= j < i ==> !Stale(now, instants[j], limits)
    {
      if Stale(now, instants[i], limits) {
        return true;
      }
    }
  }

  /** The gates in order: the kill switch alone also pauses the system. */
  method CollectGates(intent: TradeIntent, market: MarketSnapshot, limits: RiskLimits, now: Instant)
    returns (reasons: seq<Reason>, pause: bool)
    ensures reasons == GateReasons(intent, market, limits, now)
    ensures pause == limits.killSwitch
  {
    reasons, pause := [], false;
    if limits.killSwitch {
      reasons := reasons + [KILL_SWITCH];
      pause := true;
    }
    ghost var killed := When(limits.killSwitch, KILL_SWITCH);
    assert reasons == killed;
    if intent.mode != PAPER { reasons := reasons + [MODE_NOT_EXECUTABLE]; }
    ghost var modal := killed + When(intent.mode != PAPER, MODE_NOT_EXECUTABLE);
    assert reasons == modal;
    if intent.assetId != market.assetId { reasons := reasons + [ASSET_MISMATCH]; }
    ghost var matched := modal + When(intent.assetId != market.assetId, ASSET_MISMATCH);
    assert reasons == matched;
    if Stale(now, market.observedAt, limits) { reasons := reasons + [STALE_OR_FUTURE_MARKET]; }
    ghost var aged := matched + When(Stale(now, market.observedAt, limits), STALE_OR_FUTURE_MARKET);
    assert reasons == aged;
    var stale := FirstStale(now, NestedInstants(intent.side, market), limits);
    if stale { reasons := reasons + [STALE_OR_FUTURE_SAFETY_DATA]; }
    ghost var nested := aged + When(stale, STALE_OR_FUTURE_SAFETY_DATA);
    assert reasons == nested;
    if TimingInvalid(intent.timing, now, limits) { reasons := reasons + [INVALID_OR_STALE_INTENT_TIMING]; }
  }

  method CollectChecks(before: seq<Reason>, checks: seq<(CheckName, SafetyStatus)>)
    returns (reasons: seq<Reason>)
    ensures reasons == before + FailedChecks(checks)
  {
    reasons := before;
    for i := 0 to |checks|
      invariant reasons == before + FailedChecks(checks[..i])
    {
      assert checks[..i + 1][..i] == checks[..i];
      if checks[i].1 != PASS { reasons := reasons + [SAFETY_CHECK(checks[i].0, checks[i].1)]; }
    }
    assert checks[..|checks|] == checks;
  }

  method CollectReasons(intent: TradeIntent, market: MarketSnapshot, context: RiskContext, limits: RiskLimits,
                        now: Instant)
    returns (reasons: seq<Reason>, pause: bool)
    ensures reasons == UnsizedReasons(intent, market, context, limits, now)
    ensures pause == limits.killSwitch
  {
    reasons, pause := CollectGates(intent, market, limits, now);
    reasons := CollectChecks(reasons, Checks(intent.side, market, context));
    reasons := reasons + LpReasons(intent.side, market);
    reasons := reasons + HolderReasons(intent.side, market, limits);
    reasons := reasons + LiquidityReasons(intent.side, market, limits);
    reasons := reasons + FdvReasons(intent.side, market, limits);
    reasons := reasons + CostReasons(market, PermittedSlippage(intent, limits));
    reasons := reasons + PortfolioReasons(intent.side, context, limits);
  }

  method Evaluate(intent: TradeIntent, market: MarketSnapshot, context: RiskContext, limits: RiskLimits,
                  now: Instant)
    returns (decision: Result<RiskDecision, Error>)
    ensures decision == Decide(intent, market, context, limits, now)
  {
    var reasons, pause := CollectReasons(intent, market, context, limits, now);
    reasons := reasons + SizeReasons(intent, OrderCost(intent, market, limits), market, context, limits);
    var capacity := 0;
    if intent.side == BUY && OnlySizing(reasons) {
      capacity := AdditionalBuyNotional(context, market, limits, PermittedSlippage(intent, limits));
    }
    if !Representable(intent, market, limits) {
      return Failure(ValidationError);
    }
    var verdict := Assemble(intent, market, context, limits, now, reasons, capacity);
    decision := Success(verdict.(outcome := if pause then PAUSE_SYSTEM
                                            else if reasons != [] then REJECT else APPROVE));
  }
}
