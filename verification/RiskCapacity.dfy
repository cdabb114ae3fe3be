/**
 What the capacity of a purchase is worth: the correction loop is conservative, stops after at most one
 step, and gives away at most two quanta against the largest notional that fits.
 */
module RiskCapacity {
  import opened Numbers
  import opened Contracts
  import opened RiskEngine

  /** `1 + bps / BPS` without any rounding. */
  function ExactFactor(bps: int): real {
    1.0 + bps as real / BPS as real
  }

  /** The documented cost of a notional: two exact products, each rounded once to the ledger. */
  function ExactCost(notional: int, slippage: int, fee: int): int {
    Quantize(Times(Quantize(Times(notional as real, ExactFactor(slippage))) as real, ExactFactor(fee)))
  }

  lemma BpsPlaces()
    ensures TenTo(22) == BPS
  {
    assert TenTo(11) == 100_000_000_000;
    assert TenTo(22) == 100_000_000_000 * TenTo(11);
  }

  lemma UnitPlaces()
    ensures TenTo(18) == UNIT
  {
    assert TenTo(9) == 1_000_000_000;
    assert TenTo(18) == 1_000_000_000 * TenTo(9);
  }

  lemma ShareShifts(n: int)
    ensures Shifted(n as real / BPS as real, 22) == n as real
  {
    BpsPlaces();
    ShiftedTimes(n as real / BPS as real, 22);
  }

  /** The factors themselves carry few enough digits to be exact in either context. */
  lemma FactorsExact(bps: nat)
    ensures bps <= BPS ==> Factor28(bps) == ExactFactor(bps)
    ensures bps < LEDGER_BOUND ==> Factor78(bps) == ExactFactor(bps)
  {
    var share := bps as real / BPS as real;
    ShareShifts(bps);
    ShareShifts(BPS + bps);
    assert (BPS + bps) as real / BPS as real == 1.0 + share;
    if bps <= BPS {
      SigFraction(LEAD28, share, bps, 22);
      SigFraction(LEAD28, 1.0 + share, BPS + bps, 22);
    }
    if bps < LEDGER_BOUND {
      SigFraction(LEAD78, share, bps, 22);
      SigFraction(LEAD78, 1.0 + share, BPS + bps, 22);
    }
  }

  lemma TimesFactor(amount: int, bps: int)
    ensures Times(amount as real, ExactFactor(bps)) == (amount * (BPS + bps)) as real / BPS as real
  {
    var a, b := amount as real, bps as real;
    assert a * (1.0 + b / BPS as real) == a + a * (b / BPS as real);
    assert a * (b / BPS as real) == (a * b) / BPS as real;
    assert (amount * (BPS + bps)) as real == (amount * BPS) as real + a * b by {
      assert amount * (BPS + bps) == amount * BPS + amount * bps;
      assert (amount * bps) as real == a * b;
    }
  }

  lemma RaisedExact78(amount: nat, bps: nat)
    requires amount <= 2 * LEDGER_BOUND && bps < LEDGER_BOUND
    ensures Raised78(amount, Factor78(bps)) == Quantize(Times(amount as real, ExactFactor(bps)))
  {
    FactorsExact(bps);
    CoefficientFits(amount, bps);
    TimesFactor(amount, bps);
    ShareShifts(amount * (BPS + bps));
    SigFraction(LEAD78, Times(amount as real, ExactFactor(bps)), amount * (BPS + bps), 22);
  }

  lemma CoefficientFits(amount: nat, bps: nat)
    requires amount <= 2 * LEDGER_BOUND && bps < LEDGER_BOUND
    ensures 0 <= amount * (BPS + bps) <= 10 * LEAD78
  {
    assert amount * (BPS + bps) <= amount * (2 * LEDGER_BOUND);
  }

  lemma RaisedSmall(amount: nat, bps: nat)
    requires amount <= LEDGER_BOUND && bps <= BPS
    ensures amount <= Quantize(Times(amount as real, ExactFactor(bps))) <= 2 * amount
  {
    TimesFactor(amount, bps);
    assert amount * BPS <= amount * (BPS + bps) <= amount * (2 * BPS);
    var x := Times(amount as real, ExactFactor(bps));
    assert amount as real <= x <= (2 * amount) as real;
    QuantizeBound(x, amount);
    QuantizeBound(x, 2 * amount);
  }

  /** The 78-digit loop computes the documented cost with no rounding of its own. */
  lemma LoopCostExact(capacity: nat, slippage: nat, fee: nat)
    requires capacity <= LEDGER_BOUND && slippage <= BPS && fee < LEDGER_BOUND
    ensures LoopCost(capacity, slippage, fee) == ExactCost(capacity, slippage, fee)
  {
    RaisedExact78(capacity, slippage);
    RaisedSmall(capacity, slippage);
    RaisedExact78(Quantize(Times(capacity as real, ExactFactor(slippage))), fee);
  }

  /** The plain minimum of what cash and the two limits leave, never below zero. */
  function ExactBudget(cash: Amount, exposure: Amount, held: Amount, price: Positive, limits: RiskLimits): real {
    var position := limits.maxPositionSizeUsd as real - Product(held, price);
    var exposureLeft := (limits.maxExposureUsd - exposure) as real;
    var least := if exposureLeft < cash as real then exposureLeft else cash as real;
    var smaller := if position < least then position else least;
    if smaller > 0.0 then smaller else 0.0
  }

  /** 78 digits hold every figure of the budget: nothing of it is rounded. */
  lemma BudgetExact(cash: Amount, exposure: Amount, held: Amount, price: Positive, limits: RiskLimits)
    ensures Budget(cash, exposure, held, price, limits) == ExactBudget(cash, exposure, held, price, limits)
  {
    hide Sig, Product;
    ValueExact78(held, price, limits.maxPositionSizeUsd);
  }

  lemma ValueExact78(held: Amount, price: Positive, limit: Positive)
    ensures Sig(LEAD78, Product(held, price)) == Product(held, price)
    ensures Sig(LEAD78, limit as real - Product(held, price)) == limit as real - Product(held, price)
  {
    hide Sig;
    UnitPlaces();
    var n := held * price;
    ProductBound(held, price);
    var value := Product(held, price);
    ShiftedTimes(value, 18);
    SigFraction(LEAD78, value, n, 18);
    var left := limit as real - value;
    ShiftedTimes(left, 18);
    LeftInUnits(value, n, limit);
    SigFraction(LEAD78, left, limit * UNIT - n, 18);
  }

  lemma ProductBound(held: nat, price: nat)
    requires held < LEDGER_BOUND && price < LEDGER_BOUND
    ensures 0 <= held * price <= LEDGER_BOUND * LEDGER_BOUND
  {
    TimesOrdersWhole(held, LEDGER_BOUND, price);
    TimesOrdersWhole(price, LEDGER_BOUND, LEDGER_BOUND);
    assert LEDGER_BOUND * price == price * LEDGER_BOUND;
  }

  lemma TimesOrdersWhole(x: nat, y: nat, z: nat)
    requires x <= y
    ensures 0 <= x * z <= y * z
  {
    var more := y - x;
    assert more * z >= 0 && x * z >= 0;
    assert more * z == y * z - x * z;
  }

  lemma LeftInUnits(value: real, n: int, limit: int)
    requires value == n as real / UNIT as real
    ensures (limit as real - value) * UNIT as real == (limit * UNIT - n) as real
  {
  }

  lemma {:induction false} SettleFits(capacity: nat, budget: real, slippage: nat, fee: nat)
    requires budget >= 0.0 && slippage <= BPS && fee < LEDGER_BOUND
    ensures LoopCost(Settle(capacity, budget, slippage, fee), slippage, fee) as real <= budget
  {
    if capacity > 0 {
      if LoopCost(capacity, slippage, fee) as real > budget {
        SettleFits(capacity - 1, budget, slippage, fee);
      }
    } else {
      LoopCostExact(0, slippage, fee);
    }
  }

  lemma CombinedExact(slippage: nat, fee: nat)
    requires slippage <= BPS && fee <= BPS
    ensures CombinedFactor(slippage, fee) == Times(ExactFactor(slippage), ExactFactor(fee))
  {
    hide Sig, Times, ExactFactor;
    FactorsExact(slippage);
    FactorsExact(fee);
    var t := Times(ExactFactor(slippage), ExactFactor(fee));
    CrossFactors(slippage, fee);
    CrossFits(slippage, fee);
    BpsTwice();
    ShiftedTimes(t, 44);
    SigFraction(LEAD78, t, (BPS + slippage) * (BPS + fee), 44);
  }

  lemma BpsTwice()
    ensures TenTo(44) == BPS * BPS
  {
    BpsPlaces();
    TenToSum(22, 22);
  }

  lemma CrossFits(slippage: nat, fee: nat)
    requires slippage <= BPS && fee <= BPS
    ensures 0 <= (BPS + slippage) * (BPS + fee) <= 10 * LEAD78
  {
    assert (BPS + slippage) * (BPS + fee) <= (2 * BPS) * (BPS + fee);
  }

  lemma CrossFactors(slippage: int, fee: int)
    ensures Times(ExactFactor(slippage), ExactFactor(fee)) * (BPS * BPS) as real
            == ((BPS + slippage) * (BPS + fee)) as real
  {
    var a, b := (BPS + slippage) as real, (BPS + fee) as real;
    assert ExactFactor(slippage) == a / BPS as real;
    assert ExactFactor(fee) == b / BPS as real;
    assert a / BPS as real * (b / BPS as real) == (a * b) / (BPS as real * BPS as real);
    assert ((BPS + slippage) * (BPS + fee)) as real == a * b;
  }

  lemma {:induction false} TenToSum(a: nat, b: nat)
    ensures TenTo(a + b) == TenTo(a) * TenTo(b)
  {
    if a > 0 {
      TenToSum(a - 1, b);
      assert 10 * (TenTo(a - 1) * TenTo(b)) == (10 * TenTo(a - 1)) * TenTo(b);
    }
  }

  // ------------------------------------------------------------------------------- how good it is

  lemma StepSlack(c: real, s: real, f: real, w: real, budget: real, tiny: real)
    requires s >= 1.0 + tiny && f >= 1.0 && tiny >= 0.0
    requires c * (s * f) <= budget + tiny
    requires w <= (c - 1.0) * s + 0.5
    ensures w * f + 0.5 <= budget
  {
    var sf := s * f;
    var csf := c * sf;
    TimesMonotone(w, (c - 1.0) * s + 0.5, f);
    assert ((c - 1.0) * s + 0.5) * f == csf - sf + 0.5 * f;
    TimesAtLeast(f, s - 0.5);
    assert f * (s - 0.5) == sf - 0.5 * f;
    assert w * f <= csf - sf + 0.5 * f;
    assert s - 0.5 <= sf - 0.5 * f;
  }

  /** One quantum less than a first capacity is always affordable: two half-quantum roundings are all. */
  lemma OneStepSuffices(first: int, slippage: nat, fee: nat, budget: real)
    requires first >= 1 && slippage <= BPS && fee <= BPS
    requires Times(first as real, Times(ExactFactor(slippage), ExactFactor(fee))) <= budget + 1.0 / BPS as real
    ensures ExactCost(first - 1, slippage, fee) as real <= budget
  {
    var s, f := ExactFactor(slippage), ExactFactor(fee);
    var w := Quantize(Times((first - 1) as real, s));
    QuantizeError(Times((first - 1) as real, s));
    QuantizeError(Times(w as real, f));
    if slippage == 0 {
      assert s == 1.0;
      QuantizeWhole(first - 1);
      NoSlippageSlack(first as real, f, budget);
    } else {
      StepSlack(first as real, s, f, w as real, budget, 1.0 / BPS as real);
    }
  }

  lemma NoSlippageSlack(c: real, f: real, budget: real)
    requires f >= 1.0 && c * (1.0 * f) <= budget + 1.0 / BPS as real
    ensures (c - 1.0) * f + 0.5 <= budget
  {
    assert (c - 1.0) * f == c * f - f;
  }

  lemma FarSlack(n: real, quotient: real, s: real, f: real, w: real, t: real)
    requires s >= 1.0 && f >= 1.0 && t == Times(s, f)
    requires w >= n * s - 0.5
    requires w * f <= Times(quotient, t) + 0.5
    ensures n <= quotient + 1.0
  {
    var nt, qt := n * t, quotient * t;
    assert t >= f by { TimesAtLeast(s, f); }
    assert nt - 0.5 * f <= qt + 0.5 by {
      TimesMonotone(n * s - 0.5, w, f);
      assert (n * s - 0.5) * f == n * (s * f) - 0.5 * f;
      assert n * (s * f) == nt;
    }
    assert (n - quotient - 1.0) * t == nt - qt - t;
    SignOfFactor(n - quotient - 1.0, t);
  }

  lemma SignOfFactor(x: real, y: real)
    requires x * y <= 0.0 && y > 0.0
    ensures x <= 0.0
  {
  }

  /** Nothing that fits the budget lies two quanta above the first capacity. */
  lemma NothingFarAbove(n: nat, quotient: real, slippage: nat, fee: nat, budget: real)
    requires Times(quotient, Times(ExactFactor(slippage), ExactFactor(fee))) == budget
    requires ExactCost(n, slippage, fee) as real <= budget
    ensures n as real <= quotient + 1.0
  {
    var s, f := ExactFactor(slippage), ExactFactor(fee);
    var w := Quantize(Times(n as real, s));
    QuantizeError(Times(n as real, s));
    QuantizeError(Times(w as real, f));
    FarSlack(n as real, quotient, s, f, w as real, Times(s, f));
  }

  lemma FactorWithin(bps: nat)
    requires bps <= BPS
    ensures 1.0 <= ExactFactor(bps) <= 2.0
  {
  }

  lemma ProductWithin(s: real, f: real)
    requires 1.0 <= s <= 2.0 && 1.0 <= f <= 2.0
    ensures 1.0 <= s * f <= 4.0
  {
    TimesAtLeast(s, f);
    TimesAtMostTwice(s, f);
  }

  lemma FactorRange(slippage: nat, fee: nat)
    requires slippage <= BPS && fee <= BPS
    ensures 1.0 <= Times(ExactFactor(slippage), ExactFactor(fee)) <= 4.0
  {
    FactorWithin(slippage);
    FactorWithin(fee);
    ProductWithin(ExactFactor(slippage), ExactFactor(fee));
  }

  /** Rounding the quotient to 78 digits moves the budget it stands for by far less than a quantum. */
  lemma QuotientExcess(y: real, t: real, first: real)
    requires 0.0 <= y <= LEDGER_BOUND as real && 1.0 <= t <= 4.0
    requires first <= y + y / (2.0 * LEAD78 as real)
    ensures Times(first, t) <= Times(y, t) + 1.0 / BPS as real
  {
    var excess := y / (2.0 * LEAD78 as real);
    TimesMonotone(first, y + excess, t);
    assert (y + excess) * t == y * t + excess * t;
    TimesMonotone(t, 4.0, excess);
    assert excess * t == t * excess;
  }

  /** The exact quotient the first capacity was floored from. */
  function Quotient(budget: real, slippage: nat, fee: nat): real {
    budget / CombinedFactor(slippage, fee)
  }

  lemma FirstCapacityBounds(budget: real, slippage: nat, fee: nat)
    requires 0.0 <= budget <= (LEDGER_BOUND - 1) as real && slippage <= BPS && fee <= BPS
    ensures Times(FirstCapacity(budget, slippage, fee) as real, Times(ExactFactor(slippage), ExactFactor(fee)))
            <= budget + 1.0 / BPS as real
    ensures Times(Quotient(budget, slippage, fee), Times(ExactFactor(slippage), ExactFactor(fee))) == budget
    ensures Quotient(budget, slippage, fee) < FirstCapacity(budget, slippage, fee) as real + 1.0
  {
    hide ExactFactor, FirstCapacity, Quotient, Times;
    CombinedExact(slippage, fee);
    FactorRange(slippage, fee);
    QuotientBounds(budget, slippage, fee);
    QuotientExcess(Quotient(budget, slippage, fee), CombinedFactor(slippage, fee),
                   FirstCapacity(budget, slippage, fee) as real);
  }

  lemma QuotientBounds(budget: real, slippage: nat, fee: nat)
    requires 0.0 <= budget <= (LEDGER_BOUND - 1) as real
    ensures var y, first := Quotient(budget, slippage, fee), FirstCapacity(budget, slippage, fee) as real;
            && 0.0 <= y <= budget
            && Times(y, CombinedFactor(slippage, fee)) == budget
            && y - 1.0 < first <= y + y / (2.0 * LEAD78 as real)
  {
    hide CombinedFactor;
    ShareAtMost(budget, CombinedFactor(slippage, fee));
    FlooredQuotient(Quotient(budget, slippage, fee));
  }

  lemma FlooredQuotient(y: real)
    requires y >= 0.0
    ensures y - 1.0 < QuantizeDown(Sig(LEAD78, y)) as real || y > LEAD78 as real
    ensures QuantizeDown(Sig(LEAD78, y)) as real <= y + y / (2.0 * LEAD78 as real)
  {
    hide Sig;
    var kept := Sig(LEAD78, y);
    SigError(LEAD78, y);
    SigMonotone(LEAD78, 0.0, y);
    SigWhole(LEAD78, 0);
    assert QuantizeDown(kept) as real <= kept < QuantizeDown(kept) as real + 1.0;
    if y <= LEAD78 as real {
      SigWhole(LEAD78, y.Floor);
      SigMonotone(LEAD78, y.Floor as real, y);
      assert y.Floor <= QuantizeDown(kept);
    }
  }

  /**
   The capacity computation, whenever the engine reaches it (a known fee below the whole): its result
   is affordable, the loop took at most one step, and no affordable notional exceeds it by more than
   two quanta.
   */
  lemma CapacityIsConservativeAndNear(context: RiskContext, market: MarketSnapshot, limits: RiskLimits,
                                      permitted: SlippageBps)
    requires context.cashUsd.Some? && context.exposureUsd.Some? && context.positionQuantity.Some?
    requires market.feeBps.Some? && market.feeBps.value < BPS
    ensures var fee := market.feeBps.value;
            var budget := Budget(context.cashUsd.value, context.exposureUsd.value, context.positionQuantity.value,
                                 market.priceUsd, limits);
            var capacity := Capacity(context, market, limits, permitted);
            && ExactCost(capacity, permitted, fee) as real <= budget
            && FirstCapacity(budget, permitted, fee) - 1 <= capacity <= FirstCapacity(budget, permitted, fee)
            && forall n: nat :: ExactCost(n, permitted, fee) as real <= budget ==> n <= capacity + 2
  {
    var fee := market.feeBps.value;
    var budget := Budget(context.cashUsd.value, context.exposureUsd.value, context.positionQuantity.value,
                         market.priceUsd, limits);
    SettledCapacity(budget, permitted, fee);
  }

  lemma SettledCapacity(budget: real, slippage: nat, fee: nat)
    requires 0.0 <= budget <= (LEDGER_BOUND - 1) as real && slippage <= BPS && fee < BPS
    ensures var first := FirstCapacity(budget, slippage, fee);
            var capacity := Settle(first, budget, slippage, fee);
            && ExactCost(capacity, slippage, fee) as real <= budget
            && first - 1 <= capacity <= first
            && forall n: nat :: ExactCost(n, slippage, fee) as real <= budget ==> n <= capacity + 2
  {
    hide FirstCapacity, LoopCost, ExactCost, Quotient, ExactFactor;
    var first := FirstCapacity(budget, slippage, fee);
    var capacity := Settle(first, budget, slippage, fee);
    SettleFits(first, budget, slippage, fee);
    LoopCostExact(capacity, slippage, fee);
    FirstCapacityBounds(budget, slippage, fee);
    if first > 0 {
      OneStepSuffices(first, slippage, fee, budget);
      LoopCostExact(first - 1, slippage, fee);
    }
    forall n: nat | ExactCost(n, slippage, fee) as real <= budget
      ensures n <= capacity + 2
    {
      NothingFarAbove(n, Quotient(budget, slippage, fee), slippage, fee, budget);
    }
  }
}
