/** Limits from 10^10 dollars on: a rounded sum can pass a limit that the exact one does not. */
module LargeLimits {
  import opened Numbers
  import opened Wrappers
  import opened Contracts
  import opened Portfolio
  import opened PortfolioValuation
  import opened RiskEngine
  import opened RiskCapacity
  import opened RiskAuthorization
  import opened PaperExecution
  import opened Resizing
  import opened Accounting

  /** A limit of exactly 10^10 dollars, already held in full. */
  const FULL_LIMITS: RiskLimits := DEFAULT_LIMITS.(maxExposureUsd := EXACT28)

  const FULL_CONTEXT: RiskContext := RiskContext(Some(UNIT), Some(EXACT28), Some(0), Some(0), PASS)

  /** One quantum raised by at most a quarter is one quantum. */
  lemma RaisedOne(bps: nat)
    requires 4 * bps <= BPS
    ensures Raised28(1, Factor28(bps)) == 1
  {
    hide Sig, Factor28, ExactFactor;
    FactorsExact(bps);
    QuarterAtMost(bps);
    var x := ExactFactor(bps);
    assert Times(1.0, x) == x;
    SigWhole(LEAD28, 1);
    assert Shifted(1.25, 2) == 125.0;
    SigFraction(LEAD28, 1.25, 125, 2);
    SigMonotone(LEAD28, 1.0, x);
    SigMonotone(LEAD28, x, 1.25);
    QuantizeNearest(Sig(LEAD28, x), 1);
  }

  lemma QuarterAtMost(bps: nat)
    requires 4 * bps <= BPS
    ensures 1.0 <= ExactFactor(bps) <= 1.25
  {
  }

  /** Above the limit by one quantum and approved: the sum of exposure and cost rounds down onto the limit. */
  lemma ExposureMissed(now: Instant)
    ensures var intent, market := OddIntent(1, now), OddMarket(now);
            var decision := Decide(intent, market, FULL_CONTEXT, FULL_LIMITS, now);
            && decision.Success? && decision.value.outcome == APPROVE
            && FULL_CONTEXT.exposureUsd.value + OrderCost(intent, market, FULL_LIMITS) == FULL_LIMITS.maxExposureUsd + 1
  {
    hide Sig, Decide, UnsizedReasons, Raised28, Factor28, Whole28;
    OddUnsized(1, FULL_CONTEXT, FULL_LIMITS, now);
    WholeNotional(1);
    RaisedOne(ODD_SLIPPAGE);
    RaisedOne(100 * UNIT);
    OneBeyond();
    NothingHeld();
    ApprovedExactly(OddIntent(1, now), OddMarket(now), FULL_CONTEXT, FULL_LIMITS, now);
  }

  lemma NothingHeld()
    ensures PositionAfter(0, UNIT, 1) == 1.0
  {
    hide Sig;
    assert Product(0, UNIT) == 0.0;
    SigWhole(LEAD28, 0);
    SigWhole(LEAD28, 1);
  }

  /**
   The sum of realised and unrealised loss is not always exact: with 10^10 dollars realised, any unrealised
   loss of up to a quantum disappears from it, and a limit one quantum higher is not seen to be reached.
   */
  lemma LossMissed(positions: seq<Position>, terms: Terms, marks: map<string, PositionMark>)
    requires terms.realizedLossTodayUsd == EXACT28 && 0.0 < ExactLoss(positions, terms, marks) <= 1.0
    ensures RoundedLoss(positions, terms, marks) == EXACT28
    ensures terms.realizedLossTodayUsd as real + ExactLoss(positions, terms, marks) > RoundedLoss(positions, terms, marks) as real
  {
    hide Whole28, ExactLoss;
    QuantizeUpLeast(ExactLoss(positions, terms, marks), 1);
    QuantizeUpLeast(ExactLoss(positions, terms, marks), 0);
    OneBeyond();
  }

  /** A loss of 10^10 dollars and a quantum is at such a limit, and a purchase is approved. */
  lemma LossLimitMissed(now: Instant, positions: seq<Position>, terms: Terms, marks: map<string, PositionMark>)
    requires terms.realizedLossTodayUsd == EXACT28 && ExactLoss(positions, terms, marks) == 1.0
    ensures var limits := DEFAULT_LIMITS.(dailyLossLimitUsd := EXACT28 + 1);
            var context := RiskContext(Some(10), Some(0), Some(0), Some(EXACT28), PASS);
            var decision := Decide(OddIntent(1, now), OddMarket(now), context, limits, now);
            && context.dailyLossUsd.value == RoundedLoss(positions, terms, marks)
            && decision.Success? && decision.value.outcome == APPROVE
            && terms.realizedLossTodayUsd as real + ExactLoss(positions, terms, marks) == limits.dailyLossLimitUsd as real
  {
    hide Sig, Decide, UnsizedReasons, Raised28, Factor28, Whole28, ExactLoss, RoundedLoss;
    var limits := DEFAULT_LIMITS.(dailyLossLimitUsd := EXACT28 + 1);
    LossMissed(positions, terms, marks);
    var context := RiskContext(Some(10), Some(0), Some(0), Some(EXACT28), PASS);
    OddUnsized(1, context, limits, now);
    WholeNotional(1);
    RaisedOne(ODD_SLIPPAGE);
    RaisedOne(100 * UNIT);
    Whole28Exact(1);
    NothingHeld();
    ApprovedExactly(OddIntent(1, now), OddMarket(now), context, limits, now);
  }

  // ------------------------------------------------------------------------------ a portfolio of it

  /** One token that cost two quanta and is marked at one. */
  const LOSS_ROW: Position := Position("paper:OTHER", None, None, None, None, None, UNIT, 2, 0)

  function LossTerms(now: Instant): Terms {
    Terms(10, EXACT28, "paper:ODD", UNIT, now, 30, None, None)
  }

  function LossMarks(now: Instant): map<string, PositionMark> {
    map["paper:OTHER" := PositionMark("paper:OTHER", "paper:pool", "feed", 1, 1.0, now)]
  }

  /** Such a portfolio exists: its unrealised loss is one quantum, and the day's sum does not show it. */
  lemma LossPortfolio(now: Instant)
    ensures ExactLoss([LOSS_ROW], LossTerms(now), LossMarks(now)) == 1.0
    ensures RoundedLoss([LOSS_ROW], LossTerms(now), LossMarks(now)) == EXACT28
  {
    hide RoundedLoss;
    assert Worth(LOSS_ROW, 1.0) == 1.0;
    assert PriceOfHolding(LOSS_ROW, LossTerms(now), LossMarks(now)) == 1.0;
    var shortfalls := Shortfalls(LossTerms(now), LossMarks(now));
    assert shortfalls(LOSS_ROW) == 1.0;
    assert Total(shortfalls, []) == 0.0;
    assert [LOSS_ROW][..|[LOSS_ROW]| - 1] == [];
    assert Total(shortfalls, [LOSS_ROW]) == 1.0;
    LossMissed([LOSS_ROW], LossTerms(now), LossMarks(now));
  }

  // -------------------------------------------------------------------------------------- a quote

  /** A quote of 10^10 dollars and a quantum: without slippage a purchase fills a quantum below it. */
  lemma PurchaseBelowQuote()
    ensures FillPrice(BUY, EXACT28 + 1, 0) == EXACT28
  {
    hide FillPrice, Whole28;
    QuoteWithoutSlippage(BUY, EXACT28 + 1);
    OneBeyond();
  }
}
