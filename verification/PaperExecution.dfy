/** The pure fill simulation, and what its price and fees are worth against SENTINEL's worst case. */
module PaperExecution {
  import opened Numbers
  import opened Wrappers
  import opened Contracts
  import opened RiskEngine
  import opened RiskCapacity

  /** `1 + sign * slippage / BPS`: a purchase pays the slippage, a sale gives it up. */
  function FillFactor(side: Side, slippage: int): real {
    var signed := if side == BUY then slippage else -slippage;
    Sig(LEAD28, 1.0 + Sig(LEAD28, signed as real / BPS as real))
  }

  function FillPrice(side: Side, price: int, slippage: int): int {
    Quantize(Sig(LEAD28, Times(price as real, FillFactor(side, slippage))))
  }

  /** `quantity * price * fee_bps / BPS`, every operation rounded to 28 digits. */
  function FillFees(quantity: int, price: int, fee: int): int {
    var value := Sig(LEAD28, Product(quantity, price));
    var charged := Sig(LEAD28, Times(value, fee as real / UNIT as real));
    Quantize(Sig(LEAD28, charged / 10_000.0))
  }

  function Execute(order: OrderIntent, market: MarketSnapshot): Result<ExecutionResult, Error> {
    var intent, slippage, fee := order.intent, market.liquidity.estimatedSlippageBps, market.feeBps;
    if order.risk.market != market || intent.assetId != market.assetId then Failure(ExecutionRefused)
    else if intent.side == BUY && LpControlRefusal(market).Some? then Failure(ExecutionRefused)
    else if slippage.None? || fee.None? then Failure(ExecutionRefused)
    else if slippage.value > order.risk.maxSlippageBps || slippage.value >= BPS || fee.value >= BPS
    then Failure(ExecutionRefused)
    else
      var price := FillPrice(intent.side, market.priceUsd, slippage.value);
      var fees := FillFees(intent.quantity, price, fee.value);
      if !(0 < price < LEDGER_BOUND && 0 <= fees < LEDGER_BOUND) then Failure(ValidationError)
      else
        Success(ExecutionResult(intent.id, market.assetId, intent.side, intent.quantity, market.priceUsd, price,
                                slippage.value, fees, 0, order.executionRequestedAt))
  }

  // ------------------------------------------------------------------------------ price and fees

  lemma FillFactorExact(slippage: int)
    requires 0 <= slippage < BPS
    ensures FillFactor(BUY, slippage) == ExactFactor(slippage)
    ensures FillFactor(SELL, slippage) == 1.0 - slippage as real / BPS as real
  {
    hide Sig;
    FactorsExact(slippage);
    var share := slippage as real / BPS as real;
    ShareShifts(slippage);
    assert (-slippage) as real / BPS as real == -share;
    SigOdd(LEAD28, share);
    SigFraction(LEAD28, share, slippage, 22);
    ShareShifts(BPS - slippage);
    assert (BPS - slippage) as real / BPS as real == 1.0 - share;
    SigFraction(LEAD28, 1.0 - share, BPS - slippage, 22);
  }

  lemma SaleFactorWithin(slippage: nat)
    requires slippage < BPS
    ensures 0.0 < 1.0 - slippage as real / BPS as real <= 1.0
  {
  }

  /**
   No price improvement: a purchase fills at or above the quote and a sale at or below it, as far as 28 digits
   do not move the quote itself to the other side; a quote below 10^10 dollars they do not move at all.
   */
  lemma FillPriceSide(side: Side, price: Positive, slippage: nat)
    requires slippage < BPS
    ensures price <= EXACT28 ==> Whole28(price) == price
    ensures side == BUY && Whole28(price) >= price ==> FillPrice(side, price, slippage) >= price
    ensures side == SELL ==> 0 <= FillPrice(side, price, slippage)
    ensures side == SELL && Whole28(price) <= price ==> FillPrice(side, price, slippage) <= price
  {
    hide Sig, FillFactor;
    FillFactorExact(slippage);
    var factor := FillFactor(side, slippage);
    var x := Times(price as real, factor);
    SaleFactorWithin(slippage);
    if price <= EXACT28 { Whole28Exact(price); }
    WholeKept28(price);
    SigWhole(LEAD28, 0);
    if side == BUY {
      GrowsTo(factor, price as real);
      SigMonotone(LEAD28, price as real, x);
    } else {
      ShrinksTo(factor, price as real);
      SigMonotone(LEAD28, x, price as real);
      SigMonotone(LEAD28, 0.0, x);
    }
    QuantizeBound(Sig(LEAD28, x), price);
    QuantizeBound(Sig(LEAD28, x), 0);
  }

  lemma WholeKept28(n: nat)
    ensures Sig(LEAD28, n as real) == Whole28(n) as real
  {
    SigStaysWhole(LEAD28, n);
  }

  /** The condition is exact: a quote that 28 digits lower is the price of a purchase without slippage. */
  lemma QuoteSideExactly(price: Positive)
    ensures (forall slippage: nat :: slippage < BPS ==> FillPrice(BUY, price, slippage) >= price) <==> Whole28(price) >= price
    ensures (forall slippage: nat :: slippage < BPS ==> FillPrice(SELL, price, slippage) <= price) <==> Whole28(price) <= price
  {
    hide Sig, FillPrice, Whole28;
    forall slippage: nat | slippage < BPS
      ensures Whole28(price) >= price ==> FillPrice(BUY, price, slippage) >= price
      ensures Whole28(price) <= price ==> FillPrice(SELL, price, slippage) <= price
    {
      FillPriceSide(BUY, price, slippage);
      FillPriceSide(SELL, price, slippage);
    }
    QuoteWithoutSlippage(BUY, price);
    QuoteWithoutSlippage(SELL, price);
    assert FillPrice(BUY, price, 0) == Whole28(price) == FillPrice(SELL, price, 0);
  }

  lemma QuoteWithoutSlippage(side: Side, price: Positive)
    ensures FillPrice(side, price, 0) == Whole28(price)
  {
    hide Sig, FillFactor, Whole28;
    FillFactorExact(0);
    WholeKept28(price);
    assert 0 as real / BPS as real == 0.0;
    assert FillFactor(side, 0) == 1.0;
    assert Times(price as real, 1.0) == price as real;
    QuantizeWhole(Whole28(price));
  }

  lemma GrowsTo(x: real, y: real)
    requires x >= 1.0 && y >= 0.0
    ensures Times(y, x) >= y
  {
    TimesAtLeast(x, y);
    assert x * y == y * x;
  }

  lemma ShrinksTo(x: real, y: real)
    requires 0.0 <= x <= 1.0 && y >= 0.0
    ensures 0.0 <= Times(y, x) <= y
  {
    TimesPositive(y, x);
    TimesPositive(y, 1.0 - x);
    assert y * (1.0 - x) == y - y * x;
  }

  /** The gross value of a fill at the ledger's scale, as the accounting books it. */
  function FillGross(quantity: int, price: int): int {
    Quantize(Sig(LEAD28, Product(quantity, price)))
  }

  /** Rounding to significant digits a second time changes nothing. */
  lemma {:induction false} SigTwice(x: real)
    requires x >= 0.0
    ensures Sig(LEAD28, Sig(LEAD28, x)) == Sig(LEAD28, x)
    decreases if x > 0.0 then Distance(LEAD28, x) else 0
  {
    if x > 0.0 {
      DistanceDrops(LEAD28, x);
      if x >= 10.0 * LEAD28 as real {
        SigTwice(x / 10.0);
        SigShift(LEAD28, Sig(LEAD28, x / 10.0));
      } else if x < LEAD28 as real {
        SigTwice(x * 10.0);
        SigShift(LEAD28, Sig(LEAD28, x));
      } else {
        QuantizeBound(x, LEAD28);
        QuantizeBound(x, 10 * LEAD28);
        SigWhole(LEAD28, Quantize(x));
      }
    }
  }

  /** A fee below the whole never exceeds the gross value, whatever 28 digits do to the products. */
  lemma FeesWithinGross(quantity: nat, price: nat, fee: nat)
    requires fee <= BPS
    ensures 0 <= FillFees(quantity, price, fee) <= FillGross(quantity, price)
  {
    hide Sig;
    var product := Product(quantity, price);
    assert product >= 0.0 by { assert quantity * price >= 0; }
    SigWhole(LEAD28, 0);
    SigMonotone(LEAD28, 0.0, product);
    var value := Sig(LEAD28, product);
    SigTwice(product);
    var rate := fee as real / UNIT as real;
    var charged := Times(value, rate);
    RateWithin(value, rate);
    SigMonotone(LEAD28, 0.0, charged);
    SigMonotone(LEAD28, charged, value * 10_000.0);
    FourPlaces(value);
    var kept := Sig(LEAD28, charged);
    SigMonotone(LEAD28, 0.0, kept / 10_000.0);
    SigMonotone(LEAD28, kept / 10_000.0, value);
    QuantizeMonotone(Sig(LEAD28, kept / 10_000.0), value);
    QuantizeBound(Sig(LEAD28, kept / 10_000.0), 0);
  }

  lemma RateWithin(value: real, rate: real)
    requires value >= 0.0 && 0.0 <= rate <= 10_000.0
    ensures 0.0 <= Times(value, rate) <= value * 10_000.0
  {
    var z := 10_000.0 - rate;
    assert value * rate >= 0.0 && value * z >= 0.0;
    assert value * z == value * 10_000.0 - value * rate;
  }

  lemma FourPlaces(value: real)
    requires Sig(LEAD28, value) == value
    ensures Sig(LEAD28, value * 10_000.0) == value * 10_000.0
  {
    hide Sig;
    SigShift(LEAD28, value);
    SigShift(LEAD28, value * 10.0);
    SigShift(LEAD28, value * 10.0 * 10.0);
    SigShift(LEAD28, value * 10.0 * 10.0 * 10.0);
    assert value * 10.0 * 10.0 * 10.0 * 10.0 == value * 10_000.0;
  }

  // --------------------------------------------------------- the fill against SENTINEL's worst case

  /** One 28-digit rounding moves a value by less than one part in 10^27, up or down. */
  function Up(x: real): real {
    x * 1.000000000000000000000000001
  }

  lemma SigWithin(x: real)
    requires x >= 0.0
    ensures 0.0 <= Sig(LEAD28, x) <= Up(x)
    ensures x <= Up(Sig(LEAD28, x))
  {
    hide Sig;
    SigError(LEAD28, x);
  }

  /** The gross value and the fee on it, in terms of the value before either was rounded. */
  lemma GrossAndFees(value: real, f: real, gross: real, fees: real)
    requires value >= 0.0 && 1.0 <= f
    requires gross <= value + 0.5
    requires fees <= Up(Up(Times(value, f - 1.0))) + 0.5
    ensures gross + fees <= Up(Up(Times(value, f))) + 1.0
  {
    assert value * (f - 1.0) == value * f - value;
  }

  /** The value of the tokens bought at the rounded fill price. */
  lemma ValueAtMost(tokens: real, price: real, s: real, filled: real, value: real)
    requires tokens >= 0.0 && s >= 0.0
    requires filled <= Up(Times(price, s)) + 0.5
    requires value <= Up(Times(tokens, filled))
    ensures value <= Up(Up(Times(Times(tokens, price), s))) + Up(tokens / 2.0)
  {
    Distribute(Times(price, s), filled, tokens);
    assert Times(tokens, filled) == filled * tokens;
    ThreeFactors(tokens, price, s);
  }

  lemma ThreeFactors(t: real, p: real, s: real)
    requires t >= 0.0 && s >= 0.0
    ensures Times(Times(t, p), s) == Times(p, s) * t
  {
    var tp, ps := Times(t, p), Times(p, s);
    Reassociate(t, p, s);
    TimesMonotone(tp, t * p, s);
    TimesMonotone(t * p, tp, s);
    TimesMonotone(ps, p * s, t);
    TimesMonotone(p * s, ps, t);
  }

  lemma Reassociate(t: real, p: real, s: real)
    ensures t * p * s == p * s * t
  {
  }

  lemma Distribute(exact: real, filled: real, tokens: real)
    requires tokens >= 0.0 && filled <= Up(exact) + 0.5
    ensures filled * tokens <= Up(exact * tokens) + tokens / 2.0
  {
    TimesMonotone(filled, Up(exact) + 0.5, tokens);
    var et := exact * tokens;
    assert (Up(exact) + 0.5) * tokens == Up(et) + tokens / 2.0;
  }

  lemma ValueRaised(tokens: real, f: real, exact: real, value: real)
    requires tokens >= 0.0 && 1.0 <= f <= 2.0
    requires value <= Up(Up(exact)) + Up(tokens / 2.0)
    ensures Times(value, f) <= Up(Up(Times(exact, f))) + Up(tokens)
  {
    TimesAtMostTwice(f, tokens);
    RaisedSum(exact, tokens, f);
    TimesMonotone(value, Up(Up(exact)) + Up(tokens / 2.0), f);
  }

  lemma RaisedSum(exact: real, tokens: real, f: real)
    requires f * tokens <= 2.0 * tokens
    ensures (Up(Up(exact)) + Up(tokens / 2.0)) * f <= Up(Up(exact * f)) + Up(tokens)
  {
    var ef, tf := exact * f, f * tokens;
    assert (Up(Up(exact)) + Up(tokens / 2.0)) * f == Up(Up(ef)) + Up(tf / 2.0);
    assert tf <= 2.0 * tokens;
  }

  /** One rounded factor of the worst case, read backwards. */
  lemma SlippedAtLeast(value: real, s: real, notional: real, slipped: real)
    requires 1.0 <= s <= 2.0
    requires value <= Up(notional + 0.5)
    requires Times(notional, s) <= Up(slipped + 0.5)
    ensures Times(value, s) <= Up(Up(slipped + 0.5)) + Up(1.0)
  {
    var ns := notional * s;
    TimesMonotone(value, Up(notional + 0.5), s);
    assert Up(notional + 0.5) * s == Up(ns) + Up(s / 2.0);
    assert value * s <= Up(ns) + Up(s / 2.0);
  }

  lemma CostAtLeast(raised: real, f: real, slipped: real, cost: real)
    requires 1.0 <= f <= 2.0 && cost >= 0.0
    requires raised <= Up(Up(slipped + 0.5)) + Up(1.0)
    requires Times(slipped, f) <= Up(cost + 0.5)
    ensures Times(raised, f) <= Up(Up(Up(cost + 3.5)))
  {
    var sf := slipped * f;
    TimesMonotone(raised, Up(Up(slipped + 0.5)) + Up(1.0), f);
    assert (Up(Up(slipped + 0.5)) + Up(1.0)) * f == Up(Up(sf)) + Up(Up(f / 2.0)) + Up(f);
    assert raised * f <= Up(Up(sf)) + Up(Up(f / 2.0)) + Up(f);
  }

  /**
   For every approved purchase the executor fills, the cash it takes exceeds SENTINEL's worst case by less
   than the number of tokens bought plus four and a half quanta, up to seven 28-digit roundings.
   */
  lemma ApprovedFillBound(quantity: Positive, price: Positive, slippage: SlippageBps, permitted: SlippageBps, fee: Amount)
    requires slippage <= permitted && slippage < BPS && fee < BPS
    ensures var filled := FillPrice(BUY, price, slippage);
            var cost := WorstCost(Notional(quantity, price), permitted, fee);
            var spent := FillGross(quantity, filled) + FillFees(quantity, filled, fee);
            var tokens := quantity as real / UNIT as real;
            spent as real <= Up(Up(Up(Up(Up(Up(Up(cost as real + 3.5))))))) + Up(Up(Up(tokens))) + 1.0
  {
    hide Sig, Times, ExactFactor, FillFactor, FillFees, Product, WorstCost, Notional;
    var s, f := ExactFactor(slippage), ExactFactor(fee);
    var tokens := quantity as real / UNIT as real;
    var filled := FillPrice(BUY, price, slippage);
    FilledAtMost(price, slippage);
    ProductOfTokens(quantity, filled);
    var value := Sig(LEAD28, Product(quantity, filled));
    SigWithin(Product(quantity, filled));
    FactorWithin(slippage);
    FactorWithin(fee);
    ValueAtMost(tokens, price as real, s, filled as real, value);
    ValueRaised(tokens, f, Times(Times(tokens, price as real), s), value);
    QuantizeError(value);
    FeesAtMost(quantity, filled, fee);
    GrossAndFees(value, f, FillGross(quantity, filled) as real, FillFees(quantity, filled, fee) as real);
    CostIsAtLeast(quantity, price, permitted, fee);
    SlippageOrders(tokens, price as real, slippage, permitted, fee);
  }

  lemma SlippageOrders(tokens: real, price: real, slippage: nat, permitted: nat, fee: nat)
    requires tokens >= 0.0 && price >= 0.0 && slippage <= permitted && fee <= BPS
    ensures Times(Times(Times(tokens, price), ExactFactor(slippage)), ExactFactor(fee))
            <= Times(Times(Times(tokens, price), ExactFactor(permitted)), ExactFactor(fee))
  {
    hide Times;
    FactorWithin(fee);
    var value := Times(tokens, price);
    assert value >= 0.0 by { TimesPositive(tokens, price); }
    TimesOrders(value, ExactFactor(slippage), ExactFactor(permitted));
    TimesOrdersLeft(Times(value, ExactFactor(slippage)), Times(value, ExactFactor(permitted)), ExactFactor(fee));
  }

  lemma TimesPositive(x: real, y: real)
    requires x >= 0.0 && y >= 0.0
    ensures Times(x, y) >= 0.0
  {
  }

  lemma TimesOrdersLeft(x: real, x': real, y: real)
    requires y >= 0.0 && x <= x'
    ensures Times(x, y) <= Times(x', y)
  {
    TimesMonotone(x, x', y);
  }

  /** A quantity times a price, in quanta, is the number of tokens times that price. */
  lemma ProductOfTokens(quantity: nat, price: nat)
    ensures Product(quantity, price) == Times(quantity as real / UNIT as real, price as real)
    ensures Product(quantity, price) >= 0.0
  {
    var q, p := quantity as real, price as real;
    assert (quantity * price) as real == q * p;
    assert q * p / UNIT as real == q / UNIT as real * p;
    assert q * p >= 0.0;
  }

  lemma FilledAtMost(price: Positive, slippage: nat)
    requires slippage < BPS
    ensures 0 <= FillPrice(BUY, price, slippage)
    ensures FillPrice(BUY, price, slippage) as real <= Up(Times(price as real, ExactFactor(slippage))) + 0.5
  {
    hide Sig, Times, ExactFactor, FillFactor;
    FillFactorExact(slippage);
    FactorWithin(slippage);
    var x := Times(price as real, ExactFactor(slippage));
    TimesPositive(price as real, ExactFactor(slippage));
    SigWithin(x);
    QuantizeError(Sig(LEAD28, x));
    QuantizeBound(Sig(LEAD28, x), 0);
  }

  lemma FeesAtMost(quantity: nat, filled: nat, fee: nat)
    requires fee < BPS
    ensures var value := Sig(LEAD28, Product(quantity, filled));
            FillFees(quantity, filled, fee) as real <= Up(Up(Times(value, ExactFactor(fee) - 1.0))) + 0.5
  {
    hide Sig, Product;
    ProductOfTokens(quantity, filled);
    SigWithin(Product(quantity, filled));
    var value := Sig(LEAD28, Product(quantity, filled));
    var charged := Times(value, fee as real / UNIT as real);
    ShareOfValue(value, fee as real);
    SigWithin(charged);
    var kept := Sig(LEAD28, charged);
    SigWithin(kept / 10_000.0);
    QuantizeError(Sig(LEAD28, kept / 10_000.0));
  }

  lemma ShareOfValue(value: real, fee: real)
    requires value >= 0.0 && fee >= 0.0
    ensures Times(value, fee / UNIT as real) >= 0.0
    ensures Times(value, fee / UNIT as real) / 10_000.0 == Times(value, 1.0 + fee / BPS as real - 1.0)
  {
    var vf := value * fee;
    assert vf >= 0.0;
    assert value * (fee / UNIT as real) == vf / UNIT as real;
    assert value * (fee / BPS as real) == vf / BPS as real;
    assert 1.0 + fee / BPS as real - 1.0 == fee / BPS as real;
  }

  lemma CostIsAtLeast(quantity: nat, price: Positive, permitted: nat, fee: nat)
    requires permitted <= BPS && fee < BPS
    ensures var tokens := quantity as real / UNIT as real;
            var exact := Times(Times(Times(tokens, price as real), ExactFactor(permitted)), ExactFactor(fee));
            exact <= Up(Up(Up(WorstCost(Notional(quantity, price), permitted, fee) as real + 3.5)))
  {
    hide Sig, Times, ExactFactor, Factor28, Product, Raised28;
    var s, f := ExactFactor(permitted), ExactFactor(fee);
    FactorWithin(permitted);
    FactorWithin(fee);
    FactorsExact(permitted);
    FactorsExact(fee);
    ProductOfTokens(quantity, price);
    var value := Product(quantity, price);
    SigWithin(value);
    var notional := Notional(quantity, price);
    QuantizeError(Sig(LEAD28, value));
    QuantizeBound(Sig(LEAD28, value), 0);
    var slipped := Raised28(notional, Factor28(permitted));
    RaisedAtLeast(notional, permitted);
    SlippedAtLeast(value, s, notional as real, slipped as real);
    RaisedAtLeast(slipped, fee);
    CostAtLeast(Times(value, s), f, slipped as real, Raised28(slipped, Factor28(fee)) as real);
  }

  lemma RaisedAtLeast(amount: nat, bps: nat)
    requires bps <= BPS
    ensures Raised28(amount, Factor28(bps)) >= 0
    ensures Times(amount as real, ExactFactor(bps)) <= Up(Raised28(amount, Factor28(bps)) as real + 0.5)
  {
    hide Sig, Times, ExactFactor, Factor28;
    FactorsExact(bps);
    FactorWithin(bps);
    var x := Times(amount as real, ExactFactor(bps));
    TimesPositive(amount as real, ExactFactor(bps));
    SigWithin(x);
    QuantizeError(Sig(LEAD28, x));
    QuantizeBound(Sig(LEAD28, x), 0);
  }

  /** In whole figures: below 10^25 quanta (ten million) of cost and tokens together, five quanta are enough. */
  lemma ApprovedFillWithinFive(quantity: Positive, price: Positive, slippage: SlippageBps, permitted: SlippageBps,
                               fee: Amount)
    requires slippage <= permitted && slippage < BPS && fee < BPS
    requires WorstCost(Notional(quantity, price), permitted, fee) as real + quantity as real / UNIT as real
             <= 10_000_000_000_000_000_000_000_000.0
    ensures var filled := FillPrice(BUY, price, slippage);
            var cost := WorstCost(Notional(quantity, price), permitted, fee);
            (FillGross(quantity, filled) + FillFees(quantity, filled, fee) - cost) as real
            < quantity as real / UNIT as real + 5.0
  {
    hide FillGross, FillFees, FillPrice, WorstCost;
    ApprovedFillBound(quantity, price, slippage, permitted, fee);
    var cost := WorstCost(Notional(quantity, price), permitted, fee);
    NotionalCostNonNegative(quantity, price, permitted, fee);
    SevenUps(cost as real + 3.5, quantity as real / UNIT as real);
  }

  lemma NotionalCostNonNegative(quantity: nat, price: Positive, permitted: nat, fee: nat)
    requires permitted <= BPS && fee < BPS
    ensures WorstCost(Notional(quantity, price), permitted, fee) >= 0
  {
    hide Sig, Times, Factor28, Product, Raised28;
    ProductOfTokens(quantity, price);
    SigWithin(Product(quantity, price));
    QuantizeBound(Sig(LEAD28, Product(quantity, price)), 0);
    RaisedAtLeast(Notional(quantity, price), permitted);
    RaisedAtLeast(Raised28(Notional(quantity, price), Factor28(permitted)), fee);
  }

  lemma SevenUps(x: real, y: real)
    requires x >= 0.0 && y >= 0.0
    requires x + y <= 10_000_000_000_000_000_000_000_004.0
    ensures Up(Up(Up(Up(Up(Up(Up(x))))))) + Up(Up(Up(y))) < x + y + 0.5
  {
  }
}
