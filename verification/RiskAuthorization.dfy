/**
 The workflow-facing reading of a decision, and what LIMITED promises: a resized purchase whose notional
 stays within the reported capacity is approved.
 */
module RiskAuthorization {
  import opened Numbers
  import opened Wrappers
  import opened Contracts
  import opened RiskEngine

  datatype Authorization = APPROVED | LIMITED | REJECTED

  function Classify(outcome: RiskOutcome, codes: seq<Reason>, positionSizeLimit: Amount, capacity: Amount): Authorization {
    match outcome
    case APPROVE => APPROVED
    case PAUSE_SYSTEM => REJECTED
    case REJECT =>
      if codes == [] || !OnlySizing(codes) then REJECTED
      else if capacity <= 0 || positionSizeLimit <= 0 then REJECTED
      else LIMITED
  }

  function ClassifyDecision(decision: RiskDecision): Authorization {
    Classify(decision.outcome, decision.reasonCodes, decision.positionSizeLimitUsd, decision.maxAdditionalNotionalUsd)
  }

  // ------------------------------------------------------------------------------ what a verdict means

  lemma {:induction false} FailedChecksUnsized(checks: seq<(CheckName, SafetyStatus)>)
    ensures forall r :: r in FailedChecks(checks) ==> r.SAFETY_CHECK?
  {
    if checks != [] {
      FailedChecksUnsized(checks[..|checks| - 1]);
    }
  }

  /** No code in the list is one a resize could cure. */
  predicate NoSizing(reasons: seq<Reason>) {
    forall r :: r in reasons ==> r !in SIZING_REASONS
  }

  lemma NoSizingJoins(a: seq<Reason>, b: seq<Reason>)
    requires NoSizing(a) && NoSizing(b)
    ensures NoSizing(a + b)
  {
  }

  lemma WhenNotSizing(before: seq<Reason>, holds: bool, reason: Reason)
    requires NoSizing(before) && reason !in SIZING_REASONS
    ensures NoSizing(before + When(holds, reason))
  {
  }

  lemma GatesNotSizing(intent: TradeIntent, market: MarketSnapshot, limits: RiskLimits, now: Instant)
    ensures NoSizing(GateReasons(intent, market, limits, now))
  {
    hide AnyStale, TimingInvalid, Stale, NestedInstants, When;
    var stale, aged := AnyStale(now, NestedInstants(intent.side, market), limits), Stale(now, market.observedAt, limits);
    var killed := [] + When(limits.killSwitch, KILL_SWITCH);
    WhenNotSizing([], limits.killSwitch, KILL_SWITCH);
    assert killed == When(limits.killSwitch, KILL_SWITCH);
    var modal := killed + When(intent.mode != PAPER, MODE_NOT_EXECUTABLE);
    WhenNotSizing(killed, intent.mode != PAPER, MODE_NOT_EXECUTABLE);
    var matched := modal + When(intent.assetId != market.assetId, ASSET_MISMATCH);
    WhenNotSizing(modal, intent.assetId != market.assetId, ASSET_MISMATCH);
    var seen := matched + When(aged, STALE_OR_FUTURE_MARKET);
    WhenNotSizing(matched, aged, STALE_OR_FUTURE_MARKET);
    var nested := seen + When(stale, STALE_OR_FUTURE_SAFETY_DATA);
    WhenNotSizing(seen, stale, STALE_OR_FUTURE_SAFETY_DATA);
    WhenNotSizing(nested, TimingInvalid(intent.timing, now, limits), INVALID_OR_STALE_INTENT_TIMING);
  }

  lemma EvidenceNotSizing(side: Side, market: MarketSnapshot, limits: RiskLimits)
    ensures NoSizing(LpReasons(side, market))
    ensures NoSizing(HolderReasons(side, market, limits))
    ensures NoSizing(LiquidityReasons(side, market, limits))
    ensures NoSizing(FdvReasons(side, market, limits))
  {
    hide TotalSupply, Fdv, Times, Sig;
  }

  /** Reasons that do not depend on the size are never the ones a resize could cure. */
  lemma UnsizedNotSizing(intent: TradeIntent, market: MarketSnapshot, context: RiskContext, limits: RiskLimits,
                         now: Instant)
    ensures NoSizing(UnsizedReasons(intent, market, context, limits, now))
  {
    hide GateReasons, FailedChecks, LpReasons, HolderReasons, LiquidityReasons, FdvReasons, Checks;
    var checks := FailedChecks(Checks(intent.side, market, context));
    var gates := GateReasons(intent, market, limits, now);
    var lp := LpReasons(intent.side, market);
    var holders := HolderReasons(intent.side, market, limits);
    var liquidity := LiquidityReasons(intent.side, market, limits);
    var fdv := FdvReasons(intent.side, market, limits);
    FailedChecksUnsized(Checks(intent.side, market, context));
    GatesNotSizing(intent, market, limits, now);
    EvidenceNotSizing(intent.side, market, limits);
    NoSizingJoins(gates, checks);
    NoSizingJoins(gates + checks, lp);
    NoSizingJoins(gates + checks + lp, holders);
    NoSizingJoins(gates + checks + lp + holders, liquidity);
    NoSizingJoins(gates + checks + lp + holders + liquidity, fdv);
    var costs := CostReasons(market, PermittedSlippage(intent, limits));
    var portfolio := PortfolioReasons(intent.side, context, limits);
    assert NoSizing(costs) && NoSizing(portfolio);
    NoSizingJoins(gates + checks + lp + holders + liquidity + fdv, costs);
    NoSizingJoins(gates + checks + lp + holders + liquidity + fdv + costs, portfolio);
  }

  /** The three budget checks pass for a purchase of this notional. */
  predicate Affordable(notional: int, slippage: SlippageBps, market: MarketSnapshot, context: RiskContext,
                       limits: RiskLimits)
  {
    SizingReasons(WorstCost(notional, slippage, KnownFee(market)), market.priceUsd, context, limits) == []
  }

  /** Approval, spelled out: nothing unsized, and for a purchase nothing unaffordable. */
  lemma ApprovedExactly(intent: TradeIntent, market: MarketSnapshot, context: RiskContext, limits: RiskLimits,
                        now: Instant)
    ensures var decision := Decide(intent, market, context, limits, now);
            (decision.Success? && decision.value.outcome == APPROVE)
            <==> && Representable(intent, market, limits)
                 && UnsizedReasons(intent, market, context, limits, now) == []
                 && (intent.side == BUY ==>
                       Affordable(OrderNotional(intent, market), PermittedSlippage(intent, limits), market, context, limits))
                 && (intent.side == SELL ==>
                       !(context.positionQuantity.Some? && intent.quantity > context.positionQuantity.value))
  {
    hide Representable, WorstCost, OrderNotional, PermittedSlippage, FailedChecks, Checks, LpReasons, HolderReasons,
         LiquidityReasons, FdvReasons, CostReasons, PortfolioReasons, Capacity, FdvRatio, KnownFee;
    assert limits.killSwitch ==> KILL_SWITCH in UnsizedReasons(intent, market, context, limits, now);
  }

  /** What an approved purchase's clean record establishes about its inputs. */
  lemma CleanUnsized(intent: TradeIntent, market: MarketSnapshot, context: RiskContext, limits: RiskLimits,
                     now: Instant)
    requires UnsizedReasons(intent, market, context, limits, now) == []
    ensures PortfolioKnown(context) && context.accounting == PASS
    ensures market.feeBps.Some? && market.feeBps.value < BPS
    ensures market.liquidity.estimatedSlippageBps.Some?
    ensures market.liquidity.estimatedSlippageBps.value <= PermittedSlippage(intent, limits)
    ensures market.liquidity.estimatedSlippageBps.value < BPS
    ensures !limits.killSwitch && intent.mode == PAPER && intent.assetId == market.assetId
    ensures intent.side == BUY ==> LpControlRefusal(market).None?
  {
    hide AnyStale, TimingInvalid, Stale, NestedInstants, HolderReasons, LiquidityReasons, FdvReasons, LpControlRefusal;
    assert FailedChecks(Checks(intent.side, market, context)) == [];
    CleanChecks(Checks(intent.side, market, context), (ACCOUNTING, context.accounting));
    assert CostReasons(market, PermittedSlippage(intent, limits)) == [];
    assert PortfolioReasons(intent.side, context, limits) == [];
    assert LpReasons(intent.side, market) == [];
    assert GateReasons(intent, market, limits, now) == [];
  }

  lemma {:induction false} CleanChecks(checks: seq<(CheckName, SafetyStatus)>, item: (CheckName, SafetyStatus))
    requires FailedChecks(checks) == [] && item in checks
    ensures item.1 == PASS
  {
    if item != checks[|checks| - 1] {
      CleanChecks(checks[..|checks| - 1], item);
    }
  }

  lemma {:induction false} CleanConverse(checks: seq<(CheckName, SafetyStatus)>)
    requires forall item :: item in checks ==> item.1 == PASS
    ensures FailedChecks(checks) == []
  {
    if checks != [] {
      CleanConverse(checks[..|checks| - 1]);
    }
  }

  /** A reading is neither from the future nor older than the limits allow. */
  predicate FreshAt(now: Instant, at: Instant, limits: RiskLimits) {
    0 <= now - at <= limits.maxSnapshotAgeSeconds * SECOND
  }

  /** The order itself: executable, about this market, decided on time and not yet acted on. */
  predicate OrderInTime(intent: TradeIntent, market: MarketSnapshot, limits: RiskLimits, now: Instant) {
    && !limits.killSwitch && intent.mode == PAPER && intent.assetId == market.assetId
    && intent.timing.decisionAt.Some? && intent.timing.detectedAt <= intent.timing.decisionAt.value <= now
    && FreshAt(now, intent.timing.detectedAt, limits)
    && intent.timing.signedAt.None? && intent.timing.sentAt.None? && intent.timing.confirmedAt.None?
  }

  /** Every piece of evidence is present and fresh; LP-control evidence counts for a purchase only. */
  predicate EvidenceFresh(side: Side, market: MarketSnapshot, limits: RiskLimits, now: Instant) {
    && FreshAt(now, market.observedAt, limits) && FreshAt(now, market.token.createdAt, limits)
    && FreshAt(now, market.liquidity.createdAt, limits) && FreshAt(now, market.holders.createdAt, limits)
    && (side == BUY && market.lpControl.Some? ==> FreshAt(now, market.lpControl.value.createdAt, limits))
  }

  /** The market is safe to trade: for a sale only what a sale can still use is asked. */
  predicate MarketSound(side: Side, market: MarketSnapshot, limits: RiskLimits) {
    var holders, liquidity := market.holders, market.liquidity.liquidityUsd;
    && market.token.tradable == PASS && market.liquidity.routing == PASS
    && (if side == BUY then holders.concentrationCheck == PASS else holders.concentrationCheck != UNKNOWN)
    && holders.holderCount.Some? && holders.topTenFraction.Some? && liquidity.Some?
    && (side == BUY ==>
          && LpControlRefusal(market).None?
          && holders.holderCount.value > 0 && holders.topTenFraction.value <= limits.maxTopTenHolderFraction
          && liquidity.value >= limits.minLiquidityUsd
          && TotalSupply(market.token).Some? && market.token.totalSupplyDecimals == Some(market.token.decimals)
          && RatioReasons(market, TotalSupply(market.token).value, liquidity.value, limits) == [])
    && (side == SELL ==> liquidity.value > 0)
  }

  /** Costs are known and within what was permitted, and the account is known and not at its daily loss. */
  predicate TermsSound(intent: TradeIntent, market: MarketSnapshot, context: RiskContext, limits: RiskLimits) {
    var slippage, fee := market.liquidity.estimatedSlippageBps, market.feeBps;
    && slippage.Some? && slippage.value <= intent.maxSlippageBps && slippage.value <= limits.maxSlippageBps && slippage.value < BPS
    && fee.Some? && fee.value < BPS
    && PortfolioKnown(context) && context.accounting == PASS
    && (intent.side == BUY ==> context.dailyLossUsd.value < limits.dailyLossLimitUsd)
  }

  lemma GatesExactly(intent: TradeIntent, market: MarketSnapshot, limits: RiskLimits, now: Instant)
    ensures GateReasons(intent, market, limits, now) == []
            <==> OrderInTime(intent, market, limits, now) && EvidenceFresh(intent.side, market, limits, now)
  {
    var instants := NestedInstants(intent.side, market);
    assert instants[0] == market.token.createdAt && instants[1] == market.liquidity.createdAt
           && instants[2] == market.holders.createdAt;
    assert intent.side == BUY && market.lpControl.Some? ==> instants[3] == market.lpControl.value.createdAt;
  }

  lemma {:induction false} ChecksExactly(checks: seq<(CheckName, SafetyStatus)>)
    ensures FailedChecks(checks) == [] <==> forall item :: item in checks ==> item.1 == PASS
  {
    if FailedChecks(checks) == [] {
      forall item | item in checks ensures item.1 == PASS {
        CleanChecks(checks, item);
      }
    } else if forall item :: item in checks ==> item.1 == PASS {
      CleanConverse(checks);
    }
  }

  lemma StatusesExactly(side: Side, market: MarketSnapshot, context: RiskContext)
    ensures FailedChecks(Checks(side, market, context)) == []
            <==> && market.token.tradable == PASS && market.liquidity.routing == PASS && context.accounting == PASS
                 && (if side == BUY then market.holders.concentrationCheck == PASS
                     else market.holders.concentrationCheck != UNKNOWN)
  {
    hide FailedChecks;
    var checks := Checks(side, market, context);
    ChecksExactly(checks);
    assert checks[0] == (TOKEN, market.token.tradable) && checks[1] == (ROUTING, market.liquidity.routing);
    assert checks[|checks| - 1] == (ACCOUNTING, context.accounting);
    assert |checks| == 4 ==> checks[2] == (HOLDERS, market.holders.concentrationCheck);
  }

  lemma EvidenceExactly(intent: TradeIntent, market: MarketSnapshot, context: RiskContext, limits: RiskLimits)
    ensures && FailedChecks(Checks(intent.side, market, context)) == []
            && LpReasons(intent.side, market) == [] && HolderReasons(intent.side, market, limits) == []
            && LiquidityReasons(intent.side, market, limits) == [] && FdvReasons(intent.side, market, limits) == []
            <==> MarketSound(intent.side, market, limits) && context.accounting == PASS
  {
    hide FailedChecks, Checks, LpControlRefusal, TotalSupply, RatioReasons;
    StatusesExactly(intent.side, market, context);
  }

  lemma TermsExactly(intent: TradeIntent, market: MarketSnapshot, context: RiskContext, limits: RiskLimits)
    ensures && CostReasons(market, PermittedSlippage(intent, limits)) == []
            && PortfolioReasons(intent.side, context, limits) == [] && context.accounting == PASS
            <==> TermsSound(intent, market, context, limits)
  {
  }

  /** No reason at all is reported, size aside, exactly when every condition holds, each said on its own. */
  lemma CleanExactly(intent: TradeIntent, market: MarketSnapshot, context: RiskContext, limits: RiskLimits, now: Instant)
    ensures UnsizedReasons(intent, market, context, limits, now) == []
            <==> && OrderInTime(intent, market, limits, now) && EvidenceFresh(intent.side, market, limits, now)
                 && MarketSound(intent.side, market, limits) && TermsSound(intent, market, context, limits)
  {
    hide GateReasons, FailedChecks, Checks, LpReasons, HolderReasons, LiquidityReasons, FdvReasons, CostReasons,
         PortfolioReasons, PermittedSlippage, OrderInTime, EvidenceFresh, MarketSound, TermsSound;
    GatesExactly(intent, market, limits, now);
    EvidenceExactly(intent, market, context, limits);
    TermsExactly(intent, market, context, limits);
  }

  /** LIMITED, spelled out: a clean purchase refused on size alone, with some capacity left. */
  lemma LimitedExactly(intent: TradeIntent, market: MarketSnapshot, context: RiskContext, limits: RiskLimits,
                       now: Instant)
    requires Representable(intent, market, limits)
    ensures var permitted := PermittedSlippage(intent, limits);
            var decision := Decide(intent, market, context, limits, now).value;
            ClassifyDecision(decision) == LIMITED
            <==> && intent.side == BUY
                 && UnsizedReasons(intent, market, context, limits, now) == []
                 && !Affordable(OrderNotional(intent, market), permitted, market, context, limits)
                 && Capacity(context, market, limits, permitted) > 0
    ensures var decision := Decide(intent, market, context, limits, now).value;
            ClassifyDecision(decision) == LIMITED ==>
              decision.maxAdditionalNotionalUsd == Capacity(context, market, limits, PermittedSlippage(intent, limits))
  {
    hide Representable, WorstCost, OrderNotional, PermittedSlippage, FailedChecks, Checks, LpReasons, HolderReasons,
         LiquidityReasons, FdvReasons, CostReasons, PortfolioReasons, Capacity, FdvRatio, KnownFee, PositionAfter,
         Whole28, GateReasons;
    var unsized := UnsizedReasons(intent, market, context, limits, now);
    var sized := SizeReasons(intent, OrderCost(intent, market, limits), market, context, limits);
    UnsizedNotSizing(intent, market, context, limits, now);
    assert unsized != [] ==> unsized[0] in unsized + sized;
    assert sized != [] ==> sized[0] in unsized + sized;
    if limits.killSwitch { KilledIsUnsized(intent, market, context, limits, now); }
  }

  lemma KilledIsUnsized(intent: TradeIntent, market: MarketSnapshot, context: RiskContext, limits: RiskLimits,
                        now: Instant)
    requires limits.killSwitch
    ensures UnsizedReasons(intent, market, context, limits, now) != []
  {
    assert GateReasons(intent, market, limits, now)[0] == KILL_SWITCH;
  }
}
