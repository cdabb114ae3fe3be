/**
 The promise behind LIMITED.  A resized purchase within the reported capacity is approved exactly when
 the capacity itself is affordable in the engine's 28-digit arithmetic; the capacity loop checks this at
 78 digits only, and on an odd enough slippage the two disagree by one quantum.
 */
module Resizing {
  import opened Numbers
  import opened Wrappers
  import opened Contracts
  import opened RiskEngine
  import opened RiskCapacity
  import opened RiskAuthorization

  lemma RaisedMonotone(amount: int, amount': int, factor: real)
    requires amount <= amount' && factor >= 0.0
    ensures Raised28(amount, factor) <= Raised28(amount', factor)
  {
    TimesMonotone(amount as real, amount' as real, factor);
    SigMonotone(LEAD28, Times(amount as real, factor), Times(amount' as real, factor));
    QuantizeMonotone(Sig(LEAD28, Times(amount as real, factor)), Sig(LEAD28, Times(amount' as real, factor)));
  }

  /** A larger notional never costs less. */
  lemma WorstCostMonotone(notional: int, notional': int, slippage: nat, fee: nat)
    requires notional <= notional'
    ensures WorstCost(notional, slippage, fee) <= WorstCost(notional', slippage, fee)
  {
    FactorAtLeastOne(slippage);
    FactorAtLeastOne(fee);
    RaisedMonotone(notional, notional', Factor28(slippage));
    RaisedMonotone(Raised28(notional, Factor28(slippage)), Raised28(notional', Factor28(slippage)), Factor28(fee));
  }

  lemma WorstCostNonNegative(notional: nat, slippage: nat, fee: nat)
    ensures WorstCost(notional, slippage, fee) >= 0
  {
    hide Factor28, Raised28;
    RaisedZero(Factor28(slippage));
    RaisedZero(Factor28(fee));
    WorstCostMonotone(0, notional, slippage, fee);
  }

  lemma RaisedZero(factor: real)
    ensures Raised28(0, factor) == 0
  {
    assert Times(0 as real, factor) == 0.0;
  }

  lemma SizingMonotone(cost: int, cost': int, price: int, context: RiskContext, limits: RiskLimits)
    requires cost <= cost'
    requires SizingReasons(cost', price, context, limits) == []
    ensures SizingReasons(cost, price, context, limits) == []
  {
    if context.exposureUsd.Some? {
      Whole28Monotone(context.exposureUsd.value + cost, context.exposureUsd.value + cost');
    }
    if context.positionQuantity.Some? {
      var held := Sig(LEAD28, Product(context.positionQuantity.value, price));
      SigMonotone(LEAD28, held + cost as real, held + cost' as real);
    }
  }

  /** Affordability is downward closed: the engine never refuses the smaller of two purchases alone. */
  lemma AffordableShrinks(notional: int, notional': int, slippage: SlippageBps, market: MarketSnapshot,
                          context: RiskContext, limits: RiskLimits)
    requires notional <= notional'
    requires Affordable(notional', slippage, market, context, limits)
    ensures Affordable(notional, slippage, market, context, limits)
  {
    hide WorstCost, SizingReasons;
    var fee := KnownFee(market);
    WorstCostMonotone(notional, notional', slippage, fee);
    SizingMonotone(WorstCost(notional, slippage, fee), WorstCost(notional', slippage, fee), market.priceUsd,
                   context, limits);
  }

  /** Every notional within the capacity is affordable exactly when the capacity is. */
  lemma HonouredExactly(capacity: nat, slippage: SlippageBps, market: MarketSnapshot, context: RiskContext,
                        limits: RiskLimits)
    ensures (forall n: nat :: n <= capacity ==> Affordable(n, slippage, market, context, limits))
            <==> Affordable(capacity, slippage, market, context, limits)
  {
    hide Affordable;
    if Affordable(capacity, slippage, market, context, limits) {
      forall n: nat | n <= capacity
        ensures Affordable(n, slippage, market, context, limits)
      {
        AffordableShrinks(n, capacity, slippage, market, context, limits);
      }
    }
  }

  /** With the held value in whole quanta, 28 digits decide a position limit they can hold exactly. */
  lemma PositionDecided(held: nat, price: nat, value: nat, cost: nat, limit: nat)
    requires Product(held, price) == value as real && limit < EXACT28
    ensures PositionAfter(held, price, cost) <= limit as real <==> value + cost <= limit
  {
    hide Sig, Product;
    SigWhole(LEAD28, limit);
    SigWhole(LEAD28, limit + 1);
    if value <= limit {
      SigWhole(LEAD28, value);
      if value + cost <= limit {
        SigMonotone(LEAD28, (value + cost) as real, limit as real);
      } else {
        SigMonotone(LEAD28, (limit + 1) as real, (value + cost) as real);
      }
    } else {
      SigMonotone(LEAD28, (limit + 1) as real, value as real);
      SigMonotone(LEAD28, (limit + 1) as real, Sig(LEAD28, value as real) + cost as real);
    }
  }

  /**
   Affordability is one comparison: of a known account whose holding is worth whole quanta, under USD limits
   below 10^10 dollars, a purchase that costs anything is affordable exactly when its 28-digit worst case fits
   the least of cash, exposure left and position left.
   */
  lemma AffordableExactly(notional: nat, slippage: SlippageBps, market: MarketSnapshot, context: RiskContext,
                          limits: RiskLimits, value: nat)
    requires PortfolioKnown(context) && WorstCost(notional, slippage, KnownFee(market)) > 0
    requires Product(context.positionQuantity.value, market.priceUsd) == value as real
    requires limits.maxExposureUsd < EXACT28 && limits.maxPositionSizeUsd < EXACT28
    ensures Affordable(notional, slippage, market, context, limits)
            <==> WorstCost(notional, slippage, KnownFee(market)) as real
                 <= Budget(context.cashUsd.value, context.exposureUsd.value, context.positionQuantity.value, market.priceUsd, limits)
  {
    hide WorstCost, Product, PositionAfter, Budget;
    var cost := WorstCost(notional, slippage, KnownFee(market));
    BudgetExact(context.cashUsd.value, context.exposureUsd.value, context.positionQuantity.value, market.priceUsd, limits);
    Whole28Decides(context.exposureUsd.value + cost, limits.maxExposureUsd);
    PositionDecided(context.positionQuantity.value, market.priceUsd, value, cost, limits.maxPositionSizeUsd);
  }

  /** An affordable purchase of a known account has a representable cost. */
  lemma AffordableFits(notional: nat, slippage: SlippageBps, market: MarketSnapshot, context: RiskContext,
                       limits: RiskLimits)
    requires Affordable(notional, slippage, market, context, limits) && context.cashUsd.Some?
    ensures 0 <= WorstCost(notional, slippage, KnownFee(market)) < LEDGER_BOUND
  {
    WorstCostNonNegative(notional, slippage, KnownFee(market));
    hide WorstCost;
  }

  lemma NotionalNonNegative(quantity: nat, price: nat)
    ensures Notional(quantity, price) >= 0
  {
    assert Product(quantity, price) >= 0.0 by { assert quantity * price >= 0; }
    SigMonotone(LEAD28, 0.0, Product(quantity, price));
    QuantizeBound(Sig(LEAD28, Product(quantity, price)), 0);
  }

  /**
   Resize soundness: whenever a decision reads LIMITED and its capacity is affordable, every intent
   that differs from it in quantity alone and whose notional stays within the capacity is approved in
   the same market, context, limits and instant.
   */
  lemma ResizeSound(intent: TradeIntent, market: MarketSnapshot, context: RiskContext, limits: RiskLimits,
                    now: Instant, quantity: Positive)
    requires Representable(intent, market, limits)
    requires ClassifyDecision(Decide(intent, market, context, limits, now).value) == LIMITED
    requires var capacity := Decide(intent, market, context, limits, now).value.maxAdditionalNotionalUsd;
             && Affordable(capacity, PermittedSlippage(intent, limits), market, context, limits)
             && Notional(quantity, market.priceUsd) <= capacity
    ensures var resized := Decide(intent.(quantity := quantity), market, context, limits, now);
            && resized.Success?
            && resized.value.outcome == APPROVE
            && ClassifyDecision(resized.value) == APPROVED
  {
    hide Decide, WorstCost, Notional, Affordable, UnsizedReasons, Capacity;
    var permitted := PermittedSlippage(intent, limits);
    var resized := intent.(quantity := quantity);
    var notional := Notional(quantity, market.priceUsd);
    var capacity := Capacity(context, market, limits, permitted);
    LimitedExactly(intent, market, context, limits, now);
    CleanUnsized(intent, market, context, limits, now);
    NotionalNonNegative(quantity, market.priceUsd);
    AffordableShrinks(notional, capacity, permitted, market, context, limits);
    AffordableFits(notional, permitted, market, context, limits);
    SameUnsized(intent, quantity, market, context, limits, now);
    ApprovedExactly(resized, market, context, limits, now);
  }

  /** The size of an order never enters any reason but the sizing ones. */
  lemma SameUnsized(intent: TradeIntent, quantity: Positive, market: MarketSnapshot, context: RiskContext,
                    limits: RiskLimits, now: Instant)
    ensures UnsizedReasons(intent.(quantity := quantity), market, context, limits, now)
            == UnsizedReasons(intent, market, context, limits, now)
  {
    hide AnyStale, TimingInvalid, Stale, FailedChecks, Checks, LpReasons, HolderReasons, LiquidityReasons,
         FdvReasons, CostReasons, PortfolioReasons;
  }

  // ----------------------------------------------------------- when the capacity itself is affordable

  /**
   The capacity is affordable whenever 28 digits charge it no more than the documented cost and both
   USD limits stay below 10^10 dollars.
   */
  lemma CapacityAffordable(context: RiskContext, market: MarketSnapshot, limits: RiskLimits, permitted: SlippageBps)
    requires PortfolioKnown(context) && market.feeBps.Some? && market.feeBps.value < BPS
    requires limits.maxExposureUsd < EXACT28 && limits.maxPositionSizeUsd < EXACT28
    requires var capacity := Capacity(context, market, limits, permitted);
             && capacity > 0
             && WorstCost(capacity, permitted, market.feeBps.value) <= ExactCost(capacity, permitted, market.feeBps.value)
    ensures Affordable(Capacity(context, market, limits, permitted), permitted, market, context, limits)
  {
    hide WorstCost, ExactCost, Capacity, Budget, FirstCapacity, Product;
    var fee := market.feeBps.value;
    var cash, exposure, held := context.cashUsd.value, context.exposureUsd.value, context.positionQuantity.value;
    var capacity := Capacity(context, market, limits, permitted);
    var cost := WorstCost(capacity, permitted, fee);
    CapacityIsConservativeAndNear(context, market, limits, permitted);
    BudgetExact(cash, exposure, held, market.priceUsd, limits);
    CostPositive(capacity, permitted, fee);
    WorstCostNonNegative(capacity, permitted, fee);
    Whole28Decides(exposure + cost, limits.maxExposureUsd);
    PositionDecides(held, market.priceUsd, cost, limits.maxPositionSizeUsd);
    assert cost <= cash;
  }

  lemma CostPositive(capacity: nat, slippage: nat, fee: nat)
    requires 0 < capacity <= LEDGER_BOUND && slippage <= BPS && fee <= BPS
    ensures ExactCost(capacity, slippage, fee) >= capacity
  {
    RaisedSmall(capacity, slippage);
    AtLeastItself(Quantize(Times(capacity as real, ExactFactor(slippage))), fee);
  }

  lemma AtLeastItself(amount: nat, bps: nat)
    ensures Quantize(Times(amount as real, ExactFactor(bps))) >= amount
  {
    TimesFactor(amount, bps);
    assert amount * BPS <= amount * (BPS + bps);
    QuantizeBound(Times(amount as real, ExactFactor(bps)), amount);
  }

  /** Rounding the held value up cannot refuse what exactly fits a limit the context can hold. */
  lemma PositionDecides(held: nat, price: nat, cost: nat, limit: nat)
    requires limit < EXACT28
    requires Product(held, price) + cost as real <= limit as real
    ensures PositionAfter(held, price, cost) <= limit as real
  {
    hide Sig;
    var value := Product(held, price);
    assert value >= 0.0 by { assert held * price >= 0; }
    SigWhole(LEAD28, limit - cost);
    SigMonotone(LEAD28, value, (limit - cost) as real);
    SigWhole(LEAD28, limit);
    SigMonotone(LEAD28, Sig(LEAD28, value) + cost as real, limit as real);
  }

  /** One factor is exact in 28 digits when its `22 - k` decimals and the amount leave enough room. */
  lemma RaisedExact28(amount: nat, bps: nat, coefficient: nat, k: nat)
    requires bps <= BPS
    requires (BPS + bps) * TenTo(k) == coefficient * BPS
    requires amount * coefficient <= EXACT28
    ensures Raised28(amount, Factor28(bps)) == Quantize(Times(amount as real, ExactFactor(bps)))
  {
    hide Sig, Times, ExactFactor, Factor28, TenTo, Shifted;
    FactorsExact(bps);
    TimesFactor(amount, bps);
    var x := Times(amount as real, ExactFactor(bps));
    ShiftedTimes(x, k);
    CoefficientOf(amount, bps, coefficient, TenTo(k), x);
    SigFraction(LEAD28, x, amount * coefficient, k);
  }

  lemma CoefficientOf(amount: int, bps: int, coefficient: int, ten: int, x: real)
    requires (BPS + bps) * ten == coefficient * BPS
    requires x == (amount * (BPS + bps)) as real / BPS as real
    ensures x * ten as real == (amount * coefficient) as real
  {
    var n := amount * (BPS + bps);
    assert n * ten == (amount * coefficient) * BPS by {
      assert n * ten == amount * ((BPS + bps) * ten);
      assert amount * (coefficient * BPS) == (amount * coefficient) * BPS;
    }
    assert x * BPS as real == n as real;
    assert (x * BPS as real) * ten as real == (n * ten) as real;
    assert (x * BPS as real) * ten as real == (x * ten as real) * BPS as real;
  }

  /**
   With slippage and fee in whole basis points and a capacity of at most 250,000 dollars, 28 digits are
   enough: the engine charges exactly the documented cost.
   */
  lemma WholeBpsExact(capacity: nat, slippageBps: nat, feeBps: nat)
    requires slippageBps <= 10_000 && feeBps <= 10_000
    requires capacity <= 250_000 * UNIT
    ensures WorstCost(capacity, slippageBps * UNIT, feeBps * UNIT)
            == ExactCost(capacity, slippageBps * UNIT, feeBps * UNIT)
  {
    hide Sig, Times, Factor28, Raised28;
    assert TenTo(4) == 10_000;
    RaisedExact28(capacity, slippageBps * UNIT, 10_000 + slippageBps, 4) by {
      assert capacity * (10_000 + slippageBps) <= capacity * 20_000;
    }
    RaisedSmall(capacity, slippageBps * UNIT);
    var raised := Quantize(Times(capacity as real, ExactFactor(slippageBps * UNIT)));
    RaisedExact28(raised, feeBps * UNIT, 10_000 + feeBps, 4) by {
      assert raised * (10_000 + feeBps) <= raised * 20_000;
    }
  }

  /**
   Resize soundness without an arithmetic premise: slippage and fee in whole basis points, a capacity of
   at most 250,000 dollars and USD limits below 10^10 dollars.
   */
  lemma ResizeSoundInWholeBps(intent: TradeIntent, market: MarketSnapshot, context: RiskContext, limits: RiskLimits,
                              now: Instant, quantity: Positive, slippageBps: nat, feeBps: nat)
    requires Representable(intent, market, limits)
    requires ClassifyDecision(Decide(intent, market, context, limits, now).value) == LIMITED
    requires PermittedSlippage(intent, limits) == slippageBps * UNIT && KnownFee(market) == feeBps * UNIT
    requires limits.maxExposureUsd < EXACT28 && limits.maxPositionSizeUsd < EXACT28
    requires var capacity := Decide(intent, market, context, limits, now).value.maxAdditionalNotionalUsd;
             Notional(quantity, market.priceUsd) <= capacity <= 250_000 * UNIT
    ensures var resized := Decide(intent.(quantity := quantity), market, context, limits, now);
            resized.Success? && resized.value.outcome == APPROVE
  {
    hide Decide, WorstCost, ExactCost, Notional, Affordable, UnsizedReasons, Capacity, PermittedSlippage;
    LimitedExactly(intent, market, context, limits, now);
    CleanUnsized(intent, market, context, limits, now);
    WholeBpsExact(Capacity(context, market, limits, slippageBps * UNIT), slippageBps, feeBps);
    CapacityAffordable(context, market, limits, slippageBps * UNIT);
    ResizeSound(intent, market, context, limits, now, quantity);
  }

  // ------------------------------------------------------------------------ where the promise breaks

  /**
   An account with 1494.55... dollars of cash, nothing held, a 1 % fee and 59.68... basis points of
   permitted slippage: the capacity 1470.97... is what the loop reports, and a purchase of exactly that
   notional is refused for want of one quantum of cash.
   */
  const ODD_CASH: Amount := 1_494_554_577_025_915_971_823
  const ODD_SLIPPAGE: SlippageBps := 59_683_338_965_705_999_154
  const ODD_CAPACITY: Amount := 1_470_977_720_764_414_032_287

  function OddToken(now: Instant): Token {
    Token(now, 18, PASS, Some(1_000_000 * UNIT), Some(18))
  }

  function OddMarket(now: Instant): MarketSnapshot {
    MarketSnapshot(1, "paper:ODD", now, UNIT, true,
                   Liquidity(now, Some(200_000 * UNIT), PASS, Some(0), true),
                   OddToken(now),
                   Holders(now, Some(1000), Some(0.1), PASS),
                   Some(100 * UNIT),
                   Some(LpControl(now, LP_PASS, Some(BYTES32_POOL_ID), Some("pool"), Some(V4_POOL_CENSUS), Some(1))))
  }

  const ODD_CONTEXT: RiskContext := RiskContext(Some(ODD_CASH), Some(0), Some(0), Some(0), PASS)

  const DEFAULT_LIMITS: RiskLimits :=
    RiskLimits(false, 10_000 * UNIT, 2500 * UNIT, 100 * UNIT, 500 * UNIT, 100_000 * UNIT, 0.1, 0.35, 30, 5)

  function OddIntent(quantity: Positive, now: Instant): TradeIntent {
    TradeIntent(7, "paper:ODD", BUY, quantity, UNIT, ODD_SLIPPAGE, PAPER, Timing(now, Some(now), None, None, None))
  }

  /** The odd market is a clean one for any known account below its daily loss and whatever the USD limits are. */
  lemma OddUnsized(quantity: Positive, context: RiskContext, limits: RiskLimits, now: Instant)
    requires PortfolioKnown(context) && context.accounting == PASS && context.dailyLossUsd.value < limits.dailyLossLimitUsd
    requires limits == DEFAULT_LIMITS.(maxExposureUsd := limits.maxExposureUsd, maxPositionSizeUsd := limits.maxPositionSizeUsd,
                                       dailyLossLimitUsd := limits.dailyLossLimitUsd)
    ensures UnsizedReasons(OddIntent(quantity, now), OddMarket(now), context, limits, now) == []
  {
    hide UnsizedReasons, RatioReasons, TotalSupply;
    var intent, market := OddIntent(quantity, now), OddMarket(now);
    OddSupply(now);
    OddRatio(now);
    assert RatioReasons(market, 1_000_000.0, 200_000 * UNIT, limits) == [] by { SameFloor(market, limits); }
    CleanExactly(intent, market, context, limits, now);
  }

  lemma SameFloor(market: MarketSnapshot, limits: RiskLimits)
    requires limits.minLiquidityFdvRatio == DEFAULT_LIMITS.minLiquidityFdvRatio
    ensures RatioReasons(market, 1_000_000.0, 200_000 * UNIT, limits)
            == RatioReasons(market, 1_000_000.0, 200_000 * UNIT, DEFAULT_LIMITS)
  {
    hide Sig;
  }

  lemma OddSupply(now: Instant)
    ensures TotalSupply(OddToken(now)) == Some(1_000_000.0)
  {
    UnitPlaces();
  }

  lemma OddRatio(now: Instant)
    ensures RatioReasons(OddMarket(now), 1_000_000.0, 200_000 * UNIT, DEFAULT_LIMITS) == []
  {
    hide Sig;
    SigWhole(LEAD160, 1_000_000 * UNIT);
    SigWhole(LEAD160, 100_000 * UNIT);
    assert Times(1_000_000.0, UNIT as real) == (1_000_000 * UNIT) as real;
    assert Times(0.1, (1_000_000 * UNIT) as real) == (100_000 * UNIT) as real;
  }

  lemma OddCost()
    ensures ExactCost(ODD_CAPACITY, ODD_SLIPPAGE, 100 * UNIT) == 1_494_554_577_025_915_971_822
  {
    assert Quantize(Times(ODD_CAPACITY as real, ExactFactor(ODD_SLIPPAGE))) == 1_479_757_006_956_352_447_349;
  }

  /** The budget divided by both factors falls between the capacity and the next quantum. */
  lemma OddFirstCapacity()
    ensures FirstCapacity(ODD_CASH as real, ODD_SLIPPAGE, 100 * UNIT) == ODD_CAPACITY
  {
    hide Sig, FirstCapacity, Quotient;
    var first := FirstCapacity(ODD_CASH as real, ODD_SLIPPAGE, 100 * UNIT);
    var quotient := Quotient(ODD_CASH as real, ODD_SLIPPAGE, 100 * UNIT);
    FirstCapacityBounds(ODD_CASH as real, ODD_SLIPPAGE, 100 * UNIT);
    var t := 1.016028017235536305914554;
    assert Times(ExactFactor(ODD_SLIPPAGE), ExactFactor(100 * UNIT)) == t;
    assert first as real * t <= ODD_CASH as real + 1.0 / BPS as real;
    assert quotient * t == ODD_CASH as real;
  }

  lemma OddCapacityReported(now: Instant)
    ensures Capacity(ODD_CONTEXT, OddMarket(now), DEFAULT_LIMITS, ODD_SLIPPAGE) == ODD_CAPACITY
  {
    hide Sig, LoopCost, ExactCost, FirstCapacity, Budget;
    BudgetExact(ODD_CASH, 0, 0, UNIT, DEFAULT_LIMITS);
    OddFirstCapacity();
    OddCost();
    LoopCostExact(ODD_CAPACITY, ODD_SLIPPAGE, 100 * UNIT);
  }

  /** The 28-digit product lands on a half quantum that the exact product stays below. */
  lemma OddDoubleRounding()
    ensures Raised28(ODD_CAPACITY, Factor28(ODD_SLIPPAGE)) == 1_479_757_006_956_352_447_350
  {
    hide Sig, Factor28;
    FactorsExact(ODD_SLIPPAGE);
    var x := Times(ODD_CAPACITY as real, ExactFactor(ODD_SLIPPAGE));
    assert TenTo(6) == 1_000_000;
    ShiftedTimes(x, 6);
    var shifted := x * 1_000_000.0;
    assert Quantize(shifted) == 1_479_757_006_956_352_447_349_500_000;
    SigAt(LEAD28, x, 6, shifted);
    ShiftedTimes(Sig(LEAD28, x), 6);
    assert Sig(LEAD28, x) == 1_479_757_006_956_352_447_349.5;
  }

  lemma OddWorstCost()
    ensures WorstCost(ODD_CAPACITY, ODD_SLIPPAGE, 100 * UNIT) == ODD_CASH + 1
  {
    hide Sig, Factor28, Raised28, Times;
    OddDoubleRounding();
    assert TenTo(4) == 10_000;
    RaisedExact28(1_479_757_006_956_352_447_350, 100 * UNIT, 10_100, 4);
    OddFee();
  }

  lemma OddFee()
    ensures Quantize(Times(1_479_757_006_956_352_447_350 as real, ExactFactor(100 * UNIT))) == ODD_CASH + 1
  {
  }

  /**
   The promise fails: a request for 2000 dollars is LIMITED to the capacity above, and the request resized
   to exactly that capacity is refused.
   */
  lemma ResizeRefused(now: Instant)
    ensures var large := Decide(OddIntent(2000 * UNIT, now), OddMarket(now), ODD_CONTEXT, DEFAULT_LIMITS, now);
            && large.Success?
            && ClassifyDecision(large.value) == LIMITED
            && large.value.maxAdditionalNotionalUsd == ODD_CAPACITY
    ensures Notional(ODD_CAPACITY, OddMarket(now).priceUsd) == ODD_CAPACITY
    ensures var resized := Decide(OddIntent(ODD_CAPACITY, now), OddMarket(now), ODD_CONTEXT, DEFAULT_LIMITS, now);
            resized.Success? && resized.value.outcome == REJECT
  {
    hide Decide, WorstCost, UnsizedReasons, Capacity, Notional;
    var market := OddMarket(now);
    var large, resized := OddIntent(2000 * UNIT, now), OddIntent(ODD_CAPACITY, now);
    OddUnsized(2000 * UNIT, ODD_CONTEXT, DEFAULT_LIMITS, now);
    OddUnsized(ODD_CAPACITY, ODD_CONTEXT, DEFAULT_LIMITS, now);
    OddCapacityReported(now);
    OddWorstCost();
    WholeNotional(2000 * UNIT);
    WholeNotional(ODD_CAPACITY);
    OddLargeCost();
    LimitedExactly(large, market, ODD_CONTEXT, DEFAULT_LIMITS, now);
    ApprovedExactly(resized, market, ODD_CONTEXT, DEFAULT_LIMITS, now);
    RejectedOtherwise(large, market, now);
    RejectedOtherwise(resized, market, now);
  }

  /** At a price of one dollar the notional is the quantity. */
  lemma WholeNotional(quantity: nat)
    requires quantity <= EXACT28
    ensures Notional(quantity, UNIT) == quantity
  {
    hide Sig;
    assert Product(quantity, UNIT) == quantity as real;
    SigWhole(LEAD28, quantity);
  }

  lemma OddLargeCost()
    ensures ODD_CASH < WorstCost(2000 * UNIT, ODD_SLIPPAGE, 100 * UNIT) < LEDGER_BOUND
  {
    hide Sig, WorstCost, ExactCost;
    OddWorstCost();
    WorstCostMonotone(ODD_CAPACITY, 2000 * UNIT, ODD_SLIPPAGE, 100 * UNIT);
    WorstCostAtMost(2000 * UNIT, ODD_SLIPPAGE, 100 * UNIT);
  }

  /** Two factors of at most two each: the cost is at most four times the notional. */
  lemma WorstCostAtMost(notional: nat, slippage: nat, fee: nat)
    requires notional <= EXACT28 / 4 && slippage <= BPS && fee <= BPS
    ensures WorstCost(notional, slippage, fee) <= 4 * notional
  {
    hide Sig, Times, Factor28, Raised28;
    RaisedAtMostTwice(notional, slippage);
    RaisedAtMostTwice(2 * notional, fee);
    FactorAtLeastOne(fee);
    RaisedMonotone(Raised28(notional, Factor28(slippage)), 2 * notional, Factor28(fee));
  }

  lemma TwiceAtMost(amount: nat, bps: nat)
    requires bps <= BPS
    ensures Times(amount as real, ExactFactor(bps)) <= (2 * amount) as real
  {
    FactorWithin(bps);
    TimesAtMostTwice(ExactFactor(bps), amount as real);
  }

  lemma RaisedAtMostTwice(amount: nat, bps: nat)
    requires 2 * amount <= EXACT28 && bps <= BPS
    ensures Raised28(amount, Factor28(bps)) <= 2 * amount
  {
    hide Sig, Factor28, Times, ExactFactor;
    FactorsExact(bps);
    var x := Times(amount as real, ExactFactor(bps));
    TwiceAtMost(amount, bps);
    SigMonotone(LEAD28, x, (2 * amount) as real);
    SigWhole(LEAD28, 2 * amount);
    QuantizeBound(Sig(LEAD28, x), 2 * amount);
  }

  lemma RejectedOtherwise(intent: TradeIntent, market: MarketSnapshot, now: Instant)
    requires Representable(intent, market, DEFAULT_LIMITS)
    ensures var decision := Decide(intent, market, ODD_CONTEXT, DEFAULT_LIMITS, now);
            decision.Success? && (decision.value.outcome == APPROVE || decision.value.outcome == REJECT)
  {
    hide Representable, Reasons, Capacity, FdvRatio;
  }
}
