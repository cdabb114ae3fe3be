/**
 What binds a purchase and what binds a sale: the ratio bar against the fully diluted value decided for
 every reading the ledger's rounding allows, and the promise that an exit is never trapped by an entry
 criterion.
 */
module EntryAndExit {
  import opened Numbers
  import opened Wrappers
  import opened Contracts
  import opened RiskEngine
  import opened RiskCapacity
  import opened RiskAuthorization
  import opened Resizing
  import opened PaperExecution

  // ------------------------------------------------------------------- liquidity against the FDV

  /**
   A recorded price and liquidity that the snapshot's figures may stand for: the price may have been
   rounded up and the liquidity down, each by less than one quantum, unless it is flagged exact.
   */
  predicate Reading(market: MarketSnapshot, liquidity: Amount, price: real, depth: real) {
    && price > 0.0
    && (if market.priceExact then price == market.priceUsd as real
        else market.priceUsd as real - 1.0 < price <= market.priceUsd as real)
    && (if market.liquidity.liquidityExact then depth == liquidity as real
        else liquidity as real <= depth < liquidity as real + 1.0)
  }

  /** The pool is deeper than the whole token is valued at. */
  predicate Above(supply: real, price: real, depth: real) {
    depth > Times(supply, price)
  }

  /** The pool is thinner than the required share of the token's value. */
  predicate Below(supply: real, floor: real, price: real, depth: real) {
    depth < Times(floor, Times(supply, price))
  }

  /** Digits of a floor that 160 digits still multiply exactly. */
  const FLOOR_BOUND: int := 100000000000000000000000000000000000000000000

  lemma {:induction false} ShiftedProduct(x: real, a: nat, y: real, b: nat)
    ensures Shifted(Times(x, y), a + b) == Times(Shifted(x, a), Shifted(y, b))
  {
    ShiftedTimes(x, a);
    ShiftedTimes(y, b);
    ShiftedTimes(Times(x, y), a + b);
    TenToSum(a, b);
    FourFactors(x, y, TenTo(a), TenTo(b));
  }

  lemma FourFactors(x: real, y: real, a: int, b: int)
    ensures x * y * (a * b) as real == x * a as real * (y * b as real)
  {
    assert (a * b) as real == a as real * b as real;
    assert x * y * (a as real * b as real) == x * a as real * (y * b as real);
  }

  lemma CoefficientsFit(raw: nat, price: nat, share: nat)
    requires raw < SUPPLY_BOUND && price < LEDGER_BOUND && share <= FLOOR_BOUND
    ensures 0 <= raw * price <= 10 * LEAD160
    ensures 0 <= share * (raw * price) <= 10 * LEAD160
  {
    assert raw * price <= SUPPLY_BOUND * price;
    assert share * (raw * price) <= FLOOR_BOUND * (raw * price);
  }

  /** The valuation is computed without rounding. */
  lemma FdvExact(supply: real, raw: nat, decimals: nat, price: nat)
    requires 0 < raw < SUPPLY_BOUND && Shifted(supply, decimals) == raw as real && price < LEDGER_BOUND
    ensures Fdv(supply, price as real) == Times(supply, price as real)
    ensures Shifted(Times(supply, price as real), decimals + 0) == (raw * price) as real
  {
    hide Sig, Times;
    ShiftedProduct(supply, decimals, price as real, 0);
    WholeProduct(raw, price);
    CoefficientsFit(raw, price, 0);
    SigFraction(LEAD160, Times(supply, price as real), raw * price, decimals + 0);
  }

  /** With a short floor, so is the share of it the floor requires. */
  lemma ShareExact(supply: real, raw: nat, decimals: nat, floor: real, share: nat, places: nat, price: nat)
    requires 0 < raw < SUPPLY_BOUND && Shifted(supply, decimals) == raw as real && price < LEDGER_BOUND
    requires share <= FLOOR_BOUND && Shifted(floor, places) == share as real
    ensures Sig(LEAD160, Times(floor, Times(supply, price as real))) == Times(floor, Times(supply, price as real))
  {
    hide Sig, Times;
    FdvExact(supply, raw, decimals, price);
    CoefficientsFit(raw, price, share);
    ShiftedProduct(floor, places, Times(supply, price as real), decimals + 0);
    WholeProduct(share, raw * price);
    SigFraction(LEAD160, Times(floor, Times(supply, price as real)), share * (raw * price), places + (decimals + 0));
  }

  lemma {:induction false} ShiftedPositive(x: real, k: nat)
    requires Shifted(x, k) > 0.0
    ensures x > 0.0
  {
    if k > 0 {
      ShiftedPositive(x, k - 1);
    }
  }

  /** A reading arbitrarily close to the highest ratio the figures allow. */
  lemma HighestReading(market: MarketSnapshot, liquidity: Amount, supply: real) returns (price: real, depth: real)
    requires supply > 0.0
    requires Above(supply, LowestPrice(market) as real, HighestLiquidity(market, liquidity) as real)
    ensures Reading(market, liquidity, price, depth) && Above(supply, price, depth)
  {
    var lowest, highest := LowestPrice(market), HighestLiquidity(market, liquidity);
    var gap := highest as real - Times(supply, lowest as real);
    var step := gap / (2.0 * (1.0 + supply));
    assert step > 0.0 && step * (2.0 * (1.0 + supply)) == gap by { QuotientPositive(gap, 2.0 * (1.0 + supply)); }
    var small := if step < 1.0 then step else 1.0;
    price := if market.priceExact then market.priceUsd as real else lowest as real + small;
    depth := if market.liquidity.liquidityExact then liquidity as real else highest as real - small;
    StepInside(supply, lowest as real, highest as real, gap, step, small, price, depth);
  }

  lemma QuotientPositive(x: real, y: real)
    requires x > 0.0 && y > 0.0
    ensures x / y > 0.0 && x / y * y == x
  {
  }

  lemma StepInside(supply: real, lowest: real, highest: real, gap: real, step: real, small: real, price: real, depth: real)
    requires supply > 0.0 && 0.0 < small <= step
    requires gap == highest - Times(supply, lowest) && gap == step * (2.0 * (1.0 + supply))
    requires price <= lowest + small && depth >= highest - small
    ensures Above(supply, price, depth)
  {
    TimesMonotone(price, lowest + small, supply);
    assert Times(supply, price) == price * supply;
    assert (lowest + small) * supply == Times(supply, lowest) + small * supply;
    TimesMonotone(small, step, supply);
    assert step * (2.0 * (1.0 + supply)) == 2.0 * step + 2.0 * (step * supply);
    PositiveTimes(step, supply);
  }

  lemma PositiveTimes(x: real, y: real)
    requires x > 0.0 && y > 0.0
    ensures x * y > 0.0
  {
  }

  /** The least price and the greatest liquidity a snapshot's figures may stand for, not themselves reached. */
  function LowestPrice(market: MarketSnapshot): int {
    if market.priceExact then market.priceUsd else market.priceUsd - 1
  }

  function HighestLiquidity(market: MarketSnapshot, liquidity: Amount): int {
    if market.liquidity.liquidityExact then liquidity else liquidity + 1
  }

  /** The ratio is judged at all: supply, decimals and liquidity are known and agree. */
  predicate RatioJudged(market: MarketSnapshot) {
    && TotalSupply(market.token).Some? && market.token.totalSupplyDecimals == Some(market.token.decimals)
    && market.liquidity.liquidityUsd.Some?
  }

  function SupplyOf(market: MarketSnapshot): real
    requires RatioJudged(market)
  {
    TotalSupply(market.token).value
  }

  function LiquidityOf(market: MarketSnapshot): Amount
    requires RatioJudged(market)
  {
    market.liquidity.liquidityUsd.value
  }

  /** What 160 digits make of the required share of the valuation. */
  function RequiredDepth(market: MarketSnapshot, limits: RiskLimits): real
    requires RatioJudged(market)
  {
    Sig(LEAD160, Times(limits.minLiquidityFdvRatio, Times(SupplyOf(market), market.priceUsd as real)))
  }

  /** In which order the code's own comparisons decide: every valuation is exact. */
  lemma RatioComparisons(market: MarketSnapshot, limits: RiskLimits)
    requires RatioJudged(market)
    ensures SupplyOf(market) > 0.0
    ensures var supply, liquidity := SupplyOf(market), LiquidityOf(market);
            FdvReasons(BUY, market, limits)
            == if Above(supply, market.priceUsd as real, liquidity as real) then [LIQUIDITY_FDV_RATIO_UNVERIFIED]
               else if Above(supply, LowestPrice(market) as real, HighestLiquidity(market, liquidity) as real)
               then [LIQUIDITY_FDV_RATIO_UNDECIDABLE]
               else if (liquidity as real) < RequiredDepth(market, limits) then [LIQUIDITY_FDV_RATIO_LIMIT]
               else []
  {
    hide Sig, Times, TotalSupply;
    SupplyRecorded(market.token);
    var supply := SupplyOf(market);
    var raw, decimals := market.token.totalSupplyRaw.value, market.token.totalSupplyDecimals.value;
    FdvExact(supply, raw, decimals, market.priceUsd);
    FdvExact(supply, raw, decimals, LowestPrice(market));
    ShiftedPositive(supply, decimals);
  }

  /** The required share exceeds the liquidity by so little that 160 digits bring it down onto it. */
  predicate ShareLost(market: MarketSnapshot, limits: RiskLimits)
    requires RatioJudged(market)
  {
    && Below(SupplyOf(market), limits.minLiquidityFdvRatio, market.priceUsd as real, LiquidityOf(market) as real)
    && RequiredDepth(market, limits) == LiquidityOf(market) as real
  }

  /** Rounding the required share can only lose a shortfall, never invent one. */
  lemma RequiredExactly(market: MarketSnapshot, limits: RiskLimits)
    requires RatioJudged(market)
    ensures (LiquidityOf(market) as real) < RequiredDepth(market, limits)
            <==> && Below(SupplyOf(market), limits.minLiquidityFdvRatio, market.priceUsd as real, LiquidityOf(market) as real)
                 && !ShareLost(market, limits)
  {
    hide Sig, TotalSupply;
    var liquidity := LiquidityOf(market);
    var share := Times(limits.minLiquidityFdvRatio, Times(SupplyOf(market), market.priceUsd as real));
    SigWhole(LEAD160, liquidity);
    if share <= liquidity as real {
      SigMonotone(LEAD160, share, liquidity as real);
    } else {
      SigMonotone(LEAD160, liquidity as real, share);
    }
  }

  /** A floor of at most 44 digits, as `share` parts in `10^places`. */
  predicate FloorDigits(limits: RiskLimits, share: nat, places: nat) {
    share <= FLOOR_BOUND && Shifted(limits.minLiquidityFdvRatio, places) == share as real
  }

  /** A floor of at most 44 digits loses no shortfall: the 160-digit product is exact. */
  lemma ShortFloorKeepsShare(market: MarketSnapshot, limits: RiskLimits, share: nat, places: nat)
    requires RatioJudged(market) && FloorDigits(limits, share, places)
    ensures !ShareLost(market, limits)
  {
    hide Sig, Times, TotalSupply;
    SupplyRecorded(market.token);
    var raw, decimals := market.token.totalSupplyRaw.value, market.token.totalSupplyDecimals.value;
    ShareExact(SupplyOf(market), raw, decimals, limits.minLiquidityFdvRatio, share, places, market.priceUsd);
  }

  /** The figures themselves are a reading, and no reading is less above or more below than they are. */
  lemma ReadingOrders(market: MarketSnapshot, supply: real, floor: real, liquidity: Amount, price: real, depth: real)
    requires supply > 0.0 && floor >= 0.0 && Reading(market, liquidity, price, depth)
    ensures Above(supply, market.priceUsd as real, liquidity as real) ==> Above(supply, price, depth)
    ensures Above(supply, price, depth) ==> Above(supply, LowestPrice(market) as real, HighestLiquidity(market, liquidity) as real)
    ensures Below(supply, floor, price, depth) ==> Below(supply, floor, market.priceUsd as real, liquidity as real)
  {
    hide Times;
    var p := market.priceUsd as real;
    TimesOrders(supply, LowestPrice(market) as real, price);
    TimesOrders(supply, price, p);
    TimesOrders(floor, Times(supply, price), Times(supply, p));
  }

  /** UNVERIFIED: every reading the figures allow puts the liquidity above the whole valuation (iff). */
  lemma UnverifiedExactly(market: MarketSnapshot, limits: RiskLimits)
    requires RatioJudged(market)
    ensures FdvReasons(BUY, market, limits) == [LIQUIDITY_FDV_RATIO_UNVERIFIED]
            <==> forall price, depth | Reading(market, LiquidityOf(market), price, depth) :: Above(SupplyOf(market), price, depth)
  {
    hide FdvReasons, TotalSupply, Above, Below, RequiredDepth, ShareLost;
    var supply, liquidity := SupplyOf(market), LiquidityOf(market);
    RatioComparisons(market, limits);
    FiguresAreReading(market, liquidity);
    forall price, depth | Reading(market, LiquidityOf(market), price, depth) && Above(supply, market.priceUsd as real, liquidity as real)
      ensures Above(SupplyOf(market), price, depth)
    {
      ReadingOrders(market, supply, limits.minLiquidityFdvRatio, liquidity, price, depth);
    }
  }

  /** UNDECIDABLE: readings on both sides of the whole valuation are consistent with the figures (iff). */
  lemma UndecidableExactly(market: MarketSnapshot, limits: RiskLimits)
    requires RatioJudged(market)
    ensures FdvReasons(BUY, market, limits) == [LIQUIDITY_FDV_RATIO_UNDECIDABLE]
            <==> && (exists price, depth :: Reading(market, LiquidityOf(market), price, depth) && Above(SupplyOf(market), price, depth))
                 && (exists price, depth :: Reading(market, LiquidityOf(market), price, depth) && !Above(SupplyOf(market), price, depth))
  {
    hide FdvReasons, TotalSupply, Above, Below, RequiredDepth, ShareLost;
    var supply, liquidity := SupplyOf(market), LiquidityOf(market);
    RatioComparisons(market, limits);
    FiguresAreReading(market, liquidity);
    forall price, depth | Reading(market, LiquidityOf(market), price, depth)
      ensures Above(supply, market.priceUsd as real, liquidity as real) ==> Above(SupplyOf(market), price, depth)
      ensures Above(SupplyOf(market), price, depth) ==> Above(supply, LowestPrice(market) as real, HighestLiquidity(market, liquidity) as real)
    {
      ReadingOrders(market, supply, limits.minLiquidityFdvRatio, liquidity, price, depth);
    }
    if Above(supply, LowestPrice(market) as real, HighestLiquidity(market, liquidity) as real) {
      var price, depth := HighestReading(market, liquidity, supply);
    }
  }

  /**
   LIMIT: no reading is above the valuation, and some reading is below the required share of it, unless 160
   digits lose the difference (iff).
   */
  lemma LimitExactly(market: MarketSnapshot, limits: RiskLimits)
    requires RatioJudged(market)
    ensures FdvReasons(BUY, market, limits) == [LIQUIDITY_FDV_RATIO_LIMIT]
            <==> && NoneAbove(market, SupplyOf(market), LiquidityOf(market))
                 && !NoneBelow(market, SupplyOf(market), limits.minLiquidityFdvRatio, LiquidityOf(market))
                 && !ShareLost(market, limits)
  {
    hide FdvReasons, TotalSupply, Above, Below, RequiredDepth, ShareLost, NoneAbove, NoneBelow;
    var supply, liquidity := SupplyOf(market), LiquidityOf(market);
    RatioComparisons(market, limits);
    RequiredExactly(market, limits);
    ReadingsExactly(market, supply, limits.minLiquidityFdvRatio, liquidity);
  }

  /**
   No reason: every reading the figures allow has a ratio of at most one and of at least the minimum, or
   misses it by what 160 digits lose (iff).
   */
  lemma WithinRatioExactly(market: MarketSnapshot, limits: RiskLimits)
    requires RatioJudged(market)
    ensures FdvReasons(BUY, market, limits) == []
            <==> && NoneAbove(market, SupplyOf(market), LiquidityOf(market))
                 && (NoneBelow(market, SupplyOf(market), limits.minLiquidityFdvRatio, LiquidityOf(market)) || ShareLost(market, limits))
  {
    hide FdvReasons, TotalSupply, Above, Below, RequiredDepth, ShareLost, NoneAbove, NoneBelow;
    var supply, liquidity := SupplyOf(market), LiquidityOf(market);
    RatioComparisons(market, limits);
    RequiredExactly(market, limits);
    ReadingsExactly(market, supply, limits.minLiquidityFdvRatio, liquidity);
  }

  /** A million tokens of one dollar in a pool of exactly a tenth of their value. */
  function TenthMarket(now: Instant): MarketSnapshot {
    OddMarket(now).(liquidity := OddMarket(now).liquidity.(liquidityUsd := Some(100_000 * UNIT)))
  }

  lemma Places17()
    ensures TenTo(17) == 100_000_000_000_000_000
  {
    assert TenTo(8) == 100_000_000;
    TenToSum(8, 8);
  }

  lemma Places136()
    ensures TenTo(136) * (100_000 * UNIT) == LEAD160
  {
    hide TenTo;
    Places17();
    TenToSum(17, 17);
    TenToSum(34, 34);
    TenToSum(68, 68);
  }

  /** A value just above 10^23 quanta is 10^23 quanta in 160 digits. */
  lemma BroughtDown(x: real)
    requires (100_000 * UNIT) as real < x && (x - (100_000 * UNIT) as real) * TenTo(136) as real <= 0.5
    ensures Sig(LEAD160, x) == (100_000 * UNIT) as real
  {
    hide Sig, TenTo, Shifted;
    Places136();
    var tenth, ten := (100_000 * UNIT) as real, TenTo(136) as real;
    assert tenth * ten == LEAD160 as real;
    BeyondBy(x, tenth, ten);
    ShiftedTimes(x, 136);
    SigAt(LEAD160, x, 136, x * ten);
    QuantizeNearest(x * ten, LEAD160);
    ShiftedTimes(Sig(LEAD160, x), 136);
    CancelTimes(Sig(LEAD160, x), tenth, ten);
  }

  lemma BeyondBy(x: real, y: real, z: real)
    requires y < x && z > 0.0
    ensures y * z < x * z == y * z + (x - y) * z
  {
    PositiveTimes(x - y, z);
    assert (x - y) * z == x * z - y * z;
  }

  lemma CancelTimes(x: real, y: real, z: real)
    requires x * z == y * z && z > 0.0
    ensures x == y
  {
    assert (x - y) * z == 0.0;
    if x > y { PositiveTimes(x - y, z); } else if y > x { PositiveTimes(y - x, z); }
  }

  /** The exception is real: a floor above a tenth by less than 160 digits show passes a pool of a tenth. */
  lemma ShortfallLost(now: Instant, limits: RiskLimits)
    requires 0.0 < (limits.minLiquidityFdvRatio - 0.1) * (LEAD160 as real * 10.0) <= 0.5
    ensures RatioJudged(TenthMarket(now))
    ensures FdvReasons(BUY, TenthMarket(now), limits) == [] && ShareLost(TenthMarket(now), limits)
  {
    hide Sig, TotalSupply, FdvReasons;
    var market, floor := TenthMarket(now), limits.minLiquidityFdvRatio;
    OddSupply(now);
    var tenth := (100_000 * UNIT) as real;
    var share := Times(floor, Times(1_000_000.0, UNIT as real));
    ShareOfMillion(floor, tenth, share);
    BroughtDown(share);
    RatioComparisons(market, limits);
  }

  lemma ShareOfMillion(floor: real, tenth: real, share: real)
    requires tenth == (100_000 * UNIT) as real && share == Times(floor, Times(1_000_000.0, UNIT as real))
    requires 0.0 < (floor - 0.1) * (LEAD160 as real * 10.0) <= 0.5
    ensures tenth < share && (share - tenth) * TenTo(136) as real <= 0.5
  {
    hide TenTo;
    Places136();
    var more, ten := floor - 0.1, TenTo(136) as real;
    assert share - tenth == more * (10.0 * tenth);
    if more <= 0.0 { TimesMonotone(more, 0.0, LEAD160 as real * 10.0); }
    PositiveTimes(more, 10.0 * tenth);
    assert tenth * ten == LEAD160 as real;
    assert (10.0 * tenth) * ten == LEAD160 as real * 10.0;
    assert more * (10.0 * tenth) * ten == more * ((10.0 * tenth) * ten);
  }

  ghost predicate NoneAbove(market: MarketSnapshot, supply: real, liquidity: Amount) {
    forall price, depth | Reading(market, liquidity, price, depth) :: !Above(supply, price, depth)
  }

  ghost predicate NoneBelow(market: MarketSnapshot, supply: real, floor: real, liquidity: Amount) {
    forall price, depth | Reading(market, liquidity, price, depth) :: !Below(supply, floor, price, depth)
  }

  /** Two comparisons decide about all readings at once. */
  lemma ReadingsExactly(market: MarketSnapshot, supply: real, floor: real, liquidity: Amount)
    requires supply > 0.0 && floor >= 0.0
    ensures NoneAbove(market, supply, liquidity)
            <==> !Above(supply, LowestPrice(market) as real, HighestLiquidity(market, liquidity) as real)
    ensures NoneBelow(market, supply, floor, liquidity)
            <==> !Below(supply, floor, market.priceUsd as real, liquidity as real)
    ensures Above(supply, market.priceUsd as real, liquidity as real) ==> !NoneAbove(market, supply, liquidity)
  {
    hide Above, Below;
    FiguresAreReading(market, liquidity);
    forall price, depth | Reading(market, liquidity, price, depth)
      ensures Above(supply, price, depth) ==> Above(supply, LowestPrice(market) as real, HighestLiquidity(market, liquidity) as real)
      ensures Below(supply, floor, price, depth) ==> Below(supply, floor, market.priceUsd as real, liquidity as real)
    {
      ReadingOrders(market, supply, floor, liquidity, price, depth);
    }
    if Above(supply, LowestPrice(market) as real, HighestLiquidity(market, liquidity) as real) {
      var price, depth := HighestReading(market, liquidity, supply);
    }
  }

  lemma FiguresAreReading(market: MarketSnapshot, liquidity: Amount)
    ensures Reading(market, liquidity, market.priceUsd as real, liquidity as real)
  {
  }

  /** The supply the engine reads off a token is the one the verdict above is about. */
  lemma SupplyRecorded(token: Token)
    requires TotalSupply(token).Some?
    ensures token.totalSupplyRaw.Some? && token.totalSupplyRaw.value > 0
    ensures Shifted(TotalSupply(token).value, token.totalSupplyDecimals.value) == token.totalSupplyRaw.value as real
  {
    var raw, decimals := token.totalSupplyRaw.value, token.totalSupplyDecimals.value;
    ShiftedTimes(raw as real / TenTo(decimals) as real, decimals);
  }

  // ------------------------------------------------------------------------- exits are never trapped

  /** Two snapshots that differ only in what decides about entering a market. */
  predicate SameForExit(market: MarketSnapshot, market': MarketSnapshot) {
    && market.assetId == market'.assetId && market.observedAt == market'.observedAt
    && market.priceUsd == market'.priceUsd && market.feeBps == market'.feeBps
    && market.token.createdAt == market'.token.createdAt && market.token.tradable == market'.token.tradable
    && market.liquidity.createdAt == market'.liquidity.createdAt
    && market.liquidity.routing == market'.liquidity.routing
    && market.liquidity.estimatedSlippageBps == market'.liquidity.estimatedSlippageBps
    && (market.liquidity.liquidityUsd == market'.liquidity.liquidityUsd
        || (market.liquidity.liquidityUsd.Some? && market.liquidity.liquidityUsd.value > 0
            && market'.liquidity.liquidityUsd.Some? && market'.liquidity.liquidityUsd.value > 0))
    && market.holders.createdAt == market'.holders.createdAt
    && (market.holders.concentrationCheck == market'.holders.concentrationCheck
        || (market.holders.concentrationCheck != UNKNOWN && market'.holders.concentrationCheck != UNKNOWN))
    && market.holders.holderCount.Some? == market'.holders.holderCount.Some?
    && market.holders.topTenFraction.Some? == market'.holders.topTenFraction.Some?
  }

  /** Two portfolios a sale cannot tell apart: everything known, the same holding, the same accounting. */
  predicate SamePortfolioForExit(context: RiskContext, context': RiskContext) {
    && PortfolioKnown(context) && PortfolioKnown(context')
    && context.positionQuantity == context'.positionQuantity
    && context.accounting == context'.accounting
  }

  /**
   A sale is indifferent to every entry criterion: LP control, supply and price exactness, a known holder
   concentration, any positive liquidity, cash, exposure and a known daily loss leave its reasons and its
   outcome as they are.
   */
  lemma ExitIndifferent(intent: TradeIntent, market: MarketSnapshot, market': MarketSnapshot, context: RiskContext,
                        context': RiskContext, limits: RiskLimits, now: Instant)
    requires intent.side == SELL
    requires SameForExit(market, market') && SamePortfolioForExit(context, context')
    ensures Reasons(intent, market, context, limits, now) == Reasons(intent, market', context', limits, now)
    ensures var decision, decision' := Decide(intent, market, context, limits, now),
                                       Decide(intent, market', context', limits, now);
            && decision.Success? == decision'.Success?
            && (decision.Success? ==> && decision.value.outcome == decision'.value.outcome
                                      && decision.value.reasonCodes == decision'.value.reasonCodes)
  {
    hide WorstCost, Notional, Stale, AnyStale, TimingInvalid, FailedChecks, TotalSupply, Fdv, Capacity, FdvRatio,
         RatioReasons, PermittedSlippage;
    assert NestedInstants(SELL, market) == NestedInstants(SELL, market');
    assert GateReasons(intent, market, limits, now) == GateReasons(intent, market', limits, now);
    assert Checks(SELL, market, context) == Checks(SELL, market', context');
    assert HolderReasons(SELL, market, limits) == HolderReasons(SELL, market', limits);
    assert LiquidityReasons(SELL, market, limits) == LiquidityReasons(SELL, market', limits);
    assert CostReasons(market, PermittedSlippage(intent, limits)) == CostReasons(market', PermittedSlippage(intent, limits));
  }

  lemma FewerAreFresh(now: Instant, some: seq<Instant>, more: seq<Instant>, limits: RiskLimits)
    requires forall x :: x in some ==> x in more
    requires !AnyStale(now, more, limits)
    ensures !AnyStale(now, some, limits)
  {
    hide Stale;
    forall i | 0 <= i < |some|
      ensures !Stale(now, some[i], limits)
    {
      assert some[i] in some;
      var j :| 0 <= j < |more| && more[j] == some[i];
    }
  }

  /**
   Wherever a purchase is approved, the sale of any held quantity with the same timing and slippage is
   approved too, exactly when its own notional and worst case are figures the ledger can hold.
   */
  lemma ExitApprovedExactly(buy: TradeIntent, sell: TradeIntent, market: MarketSnapshot, context: RiskContext,
                            limits: RiskLimits, now: Instant)
    requires buy.side == BUY && sell == buy.(side := SELL, quantity := sell.quantity)
    requires var decision := Decide(buy, market, context, limits, now);
             decision.Success? && decision.value.outcome == APPROVE
    requires context.positionQuantity.Some? ==> sell.quantity <= context.positionQuantity.value
    ensures var decision := Decide(sell, market, context, limits, now);
            (decision.Success? && decision.value.outcome == APPROVE) <==> Representable(sell, market, limits)
  {
    hide Decide, WorstCost, Notional, Affordable, Stale, AnyStale, TimingInvalid, FailedChecks, FdvReasons,
         Representable, LpReasons;
    ApprovedExactly(buy, market, context, limits, now);
    ApprovedExactly(sell, market, context, limits, now);
    FewerAreFresh(now, NestedInstants(SELL, market), NestedInstants(BUY, market), limits)
      by { BuyGatesClean(buy, market, context, limits, now); }
    BuyGatesClean(buy, market, context, limits, now);
    assert GateReasons(sell, market, limits, now) == [];
    var bought, sold := Checks(BUY, market, context), Checks(SELL, market, context);
    forall item | item in sold
      ensures item.1 == PASS
    {
      CleanChecks(bought, item);
    }
    CleanConverse(sold);
    SaleEvidenceClean(market, limits);
    assert PortfolioReasons(SELL, context, limits) == [];
    SaleHasNoEntryBars(market, limits);
  }

  /**
   An exit is never trapped by what let it in: under a position limit of at most a quarter of the ledger's
   range, less one dollar, every held quantity may be sold wherever a purchase would be approved.
   */
  lemma EntryImpliesExit(buy: TradeIntent, sell: TradeIntent, market: MarketSnapshot, context: RiskContext,
                         limits: RiskLimits, now: Instant)
    requires buy.side == BUY && sell == buy.(side := SELL, quantity := sell.quantity)
    requires var decision := Decide(buy, market, context, limits, now);
             decision.Success? && decision.value.outcome == APPROVE
    requires context.positionQuantity.Some? ==> sell.quantity <= context.positionQuantity.value
    requires 4 * limits.maxPositionSizeUsd <= LEDGER_BOUND - UNIT
    ensures var decision := Decide(sell, market, context, limits, now);
            decision.Success? && decision.value.outcome == APPROVE
  {
    hide Decide, Representable, Affordable, UnsizedReasons, PositionAfter, WorstCost, OrderNotional;
    ExitApprovedExactly(buy, sell, market, context, limits, now);
    ApprovedExactly(buy, market, context, limits, now);
    CleanUnsized(buy, market, context, limits, now);
    HeldWithinLimit(buy, market, context, limits);
    SaleRepresentable(sell, market, limits, context.positionQuantity.value);
  }

  /** An affordable purchase puts the held value itself within the position limit, one rounding aside. */
  lemma HeldWithinLimit(buy: TradeIntent, market: MarketSnapshot, context: RiskContext, limits: RiskLimits)
    requires context.positionQuantity.Some? && Representable(buy, market, limits)
    requires Affordable(OrderNotional(buy, market), PermittedSlippage(buy, limits), market, context, limits)
    ensures Sig(LEAD28, Product(context.positionQuantity.value, market.priceUsd)) <= Up(limits.maxPositionSizeUsd as real)
  {
    hide Sig, WorstCost, OrderNotional, Whole28;
    var cost := OrderCost(buy, market, limits);
    var held := Sig(LEAD28, Product(context.positionQuantity.value, market.priceUsd));
    ProductOfTokens(context.positionQuantity.value, market.priceUsd);
    SigWithin(Product(context.positionQuantity.value, market.priceUsd));
    SigWithin(held + cost as real);
  }

  lemma SaleRepresentable(sell: TradeIntent, market: MarketSnapshot, limits: RiskLimits, held: Amount)
    requires sell.quantity <= held && 4 * limits.maxPositionSizeUsd <= LEDGER_BOUND - UNIT
    requires Sig(LEAD28, Product(held, market.priceUsd)) <= Up(limits.maxPositionSizeUsd as real)
    requires market.feeBps.Some? && market.feeBps.value < BPS
    ensures Representable(sell, market, limits)
  {
    hide Sig, Raised28, Factor28;
    var notional := OrderNotional(sell, market);
    ProductMonotone(sell.quantity, held, market.priceUsd);
    SigMonotone(LEAD28, Product(sell.quantity, market.priceUsd), Product(held, market.priceUsd));
    QuantizeError(Sig(LEAD28, Product(sell.quantity, market.priceUsd)));
    NotionalNonNegative(sell.quantity, market.priceUsd);
    var permitted, fee := PermittedSlippage(sell, limits), KnownFee(market);
    RaisedAtMost(notional, permitted);
    RaisedAtMost(Raised28(notional, Factor28(permitted)), fee);
    FourTimesWithin(limits.maxPositionSizeUsd as real, notional as real, Raised28(notional, Factor28(permitted)) as real,
                    OrderCost(sell, market, limits) as real);
  }

  lemma RaisedAtMost(amount: nat, bps: nat)
    requires bps <= BPS
    ensures 0.0 <= Raised28(amount, Factor28(bps)) as real <= Up(2.0 * amount as real) + 0.5
  {
    hide Sig, Factor28, Times, ExactFactor;
    FactorsExact(bps);
    BetweenOnceAndTwice(amount, bps);
    var x := Times(amount as real, ExactFactor(bps));
    SigWithin(x);
    QuantizeError(Sig(LEAD28, x));
    QuantizeBound(Sig(LEAD28, x), 0);
  }

  lemma BetweenOnceAndTwice(amount: nat, bps: nat)
    requires bps <= BPS
    ensures amount as real <= Times(amount as real, ExactFactor(bps)) <= 2.0 * amount as real
  {
    hide Times, ExactFactor;
    FactorWithin(bps);
    GrowsTo(ExactFactor(bps), amount as real);
    GrowsToTwice(ExactFactor(bps), amount as real);
  }

  lemma GrowsToTwice(x: real, y: real)
    requires x <= 2.0 && y >= 0.0
    ensures Times(y, x) <= 2.0 * y
  {
    TimesAtMostTwice(x, y);
    assert x * y == y * x;
  }

  lemma FourTimesWithin(limit: real, notional: real, raised: real, cost: real)
    requires 4.0 * limit <= (LEDGER_BOUND - UNIT) as real
    requires notional <= Up(limit) + 0.5 && raised <= Up(2.0 * notional) + 0.5 && cost <= Up(2.0 * raised) + 0.5
    ensures notional < LEDGER_BOUND as real || limit < 0.0
    ensures cost < LEDGER_BOUND as real
  {
  }

  /**
   Above that bound an exit can be trapped: 9.9 * 10^19 tokens of one dollar, a purchase of one quantum more
   is approved, and the sale of the holding raises because its worst case is no ledger figure.
   */
  const TRAPPED: Amount := 99_000_000_000_000_000_000_000_000_000_000_000_000

  const WIDE_LIMITS: RiskLimits :=
    DEFAULT_LIMITS.(maxExposureUsd := LEDGER_BOUND - 1, maxPositionSizeUsd := LEDGER_BOUND - 1)

  const TRAPPED_CONTEXT: RiskContext := RiskContext(Some(UNIT), Some(TRAPPED), Some(TRAPPED), Some(0), PASS)

  lemma ExitTrapped(now: Instant)
    ensures var buy := OddIntent(1, now);
            var bought, sold := Decide(buy, OddMarket(now), TRAPPED_CONTEXT, WIDE_LIMITS, now),
                                Decide(buy.(side := SELL, quantity := TRAPPED), OddMarket(now), TRAPPED_CONTEXT, WIDE_LIMITS, now);
            && bought.Success? && bought.value.outcome == APPROVE
            && sold == Failure(ValidationError)
  {
    hide Sig, Decide, WorstCost, UnsizedReasons, Notional;
    OddUnsized(1, TRAPPED_CONTEXT, WIDE_LIMITS, now);
    WholeNotional(1);
    WorstCostAtMost(1, ODD_SLIPPAGE, 100 * UNIT);
    WorstCostNonNegative(1, ODD_SLIPPAGE, 100 * UNIT);
    WideEnough(WorstCost(1, ODD_SLIPPAGE, 100 * UNIT));
    ApprovedExactly(OddIntent(1, now), OddMarket(now), TRAPPED_CONTEXT, WIDE_LIMITS, now);
    TrappedCost();
    NotRepresentable(OddIntent(1, now).(side := SELL, quantity := TRAPPED), OddMarket(now), TRAPPED_CONTEXT, WIDE_LIMITS, now);
  }

  lemma NotRepresentable(intent: TradeIntent, market: MarketSnapshot, context: RiskContext, limits: RiskLimits, now: Instant)
    requires OrderCost(intent, market, limits) >= LEDGER_BOUND
    ensures Decide(intent, market, context, limits, now) == Failure(ValidationError)
  {
    hide WorstCost, OrderNotional, Reasons, Capacity, Assemble;
  }

  lemma WideEnough(cost: nat)
    requires cost <= 4
    ensures SizingReasons(cost, UNIT, TRAPPED_CONTEXT, WIDE_LIMITS) == []
  {
    hide Sig;
    var n := TRAPPED + cost;
    assert Product(TRAPPED, UNIT) == TRAPPED as real;
    SigWithin(n as real);
    SigWithin(TRAPPED as real);
    SigWithin(Sig(LEAD28, TRAPPED as real) + cost as real);
    assert Whole28(n) <= LEDGER_BOUND - 1;
    assert PositionAfter(TRAPPED, UNIT, cost) <= (LEDGER_BOUND - 1) as real;
    assert cost <= UNIT;
  }

  lemma TrappedCost()
    ensures WorstCost(Notional(TRAPPED, UNIT), ODD_SLIPPAGE, 100 * UNIT) >= LEDGER_BOUND
  {
    hide Sig, Raised28, Factor28, Times;
    assert Product(TRAPPED, UNIT) == TRAPPED as real;
    SigWithin(TRAPPED as real);
    QuantizeError(Sig(LEAD28, TRAPPED as real));
    var notional := Notional(TRAPPED, UNIT);
    NotionalNonNegative(TRAPPED, UNIT);
    var raised := Raised28(notional, Factor28(ODD_SLIPPAGE));
    RaisedAtLeast(notional, ODD_SLIPPAGE);
    RaisedAtLeast(raised, 100 * UNIT);
    OddFactors(notional as real);
    OddFactors(raised as real);
    TrappedProduct(notional as real, raised as real, Raised28(raised, Factor28(100 * UNIT)) as real);
  }

  lemma TrappedProduct(notional: real, raised: real, cost: real)
    requires TRAPPED as real <= Up(notional + 0.5)
    requires notional * 1.0059683338965705999154 <= Up(raised + 0.5) && raised * 1.01 <= Up(cost + 0.5)
    ensures cost >= LEDGER_BOUND as real
  {
  }

  lemma OddFactors(amount: real)
    ensures Times(amount, ExactFactor(ODD_SLIPPAGE)) == amount * 1.0059683338965705999154
    ensures Times(amount, ExactFactor(100 * UNIT)) == amount * 1.01
  {
    assert ExactFactor(ODD_SLIPPAGE) == 1.0059683338965705999154;
    assert ExactFactor(100 * UNIT) == 1.01;
  }

  lemma SaleHasNoEntryBars(market: MarketSnapshot, limits: RiskLimits)
    ensures LpReasons(SELL, market) == [] && FdvReasons(SELL, market, limits) == []
  {
  }

  lemma SaleEvidenceClean(market: MarketSnapshot, limits: RiskLimits)
    requires HolderReasons(BUY, market, limits) == [] && LiquidityReasons(BUY, market, limits) == []
    ensures HolderReasons(SELL, market, limits) == [] && LiquidityReasons(SELL, market, limits) == []
  {
  }

  lemma BuyGatesClean(buy: TradeIntent, market: MarketSnapshot, context: RiskContext, limits: RiskLimits, now: Instant)
    requires UnsizedReasons(buy, market, context, limits, now) == []
    ensures GateReasons(buy, market, limits, now) == []
    ensures !AnyStale(now, NestedInstants(buy.side, market), limits)
    ensures FailedChecks(Checks(buy.side, market, context)) == []
    ensures HolderReasons(buy.side, market, limits) == [] && LiquidityReasons(buy.side, market, limits) == []
    ensures CostReasons(market, PermittedSlippage(buy, limits)) == []
    ensures PortfolioReasons(buy.side, context, limits) == []
  {
    hide AnyStale, TimingInvalid, Stale, NestedInstants, HolderReasons, LiquidityReasons, FdvReasons, LpReasons,
         CostReasons, PortfolioReasons, FailedChecks, Checks;
  }
}
