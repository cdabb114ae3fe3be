/**
 What the valuation reader's refusal is for: one quantum of a token held without a recorded market, given a
 mark of a million dollars all the same, and an order that names its market and buys one token more at one.
 */
module UnnamedHolding {
  import opened Numbers
  import opened Wrappers
  import opened Contracts
  import opened PaperAccounts
  import opened MarketIdentities
  import opened Portfolio
  import opened PortfolioValuation
  import opened RiskEngine
  import opened RiskCapacity
  import opened RiskAuthorization
  import opened Resizing
  import opened PaperExecution
  import opened Accounting
  import opened ProfitAndLoss
  import opened PaperService
  import opened PaperRuns
  import opened PaperExposure

  /** A million dollars a token. */
  const HIGH: int := 1_000_000_000_000_000_000_000_000

  function FreeMarket(now: Instant): MarketSnapshot {
    OddMarket(now).(feeBps := Some(0))
  }

  const UNNAMED: Position := Position("paper:ODD", None, None, None, None, None, 1, 0, 0)

  function HighMark(now: Instant): PositionMark {
    PositionMark("paper:ODD", "paper:pool", "feed", 1, HIGH as real, now)
  }

  function OneToken(now: Instant): TradeIntent {
    OddIntent(UNIT, now).(maxSlippageBps := 0)
  }

  function NamedRequest(now: Instant): Request {
    Request(OneToken(now), FreeMarket(now), map["paper:ODD" := HighMark(now)], now, now,
            Some(MarketIdentity("feed", "paper", "net", "paper:pool", "paper:ODD", "paper:USD", "venue", None, false)),
            None, false, None, (at: Instant) => None, (before: Position, after: Position) => None)
  }

  function OpenAccount(now: Instant): AccountRow {
    AccountRow(100 * UNIT, 100 * UNIT, 0, LossDay(now), 0, false, NOT_AUTO, NOT_MANUAL)
  }

  function OpenStore(now: Instant): Store {
    Store(OpenAccount(now), [UNNAMED], map[], map[], map[], map[], map[], [], [], [])
  }

  const PAPER_RULES: Rules := Rules(DEFAULT_LIMITS, PAPER, false)

  const OPEN_CONTEXT: RiskContext := RiskContext(Some(100 * UNIT), Some(1_000_000), Some(1), Some(0), PASS)

  /** The holding is valued at its mark, a million quanta, and the account is known. */
  lemma OpenValuation(now: Instant)
    ensures var terms := TermsOf(OpenAccount(now), NamedRequest(now), DEFAULT_LIMITS);
            var state := Valuation(terms, [UNNAMED], NamedRequest(now).marks);
            && state.context == OPEN_CONTEXT && state.position == UNNAMED && state.conflictingMarket.None?
            && state.prices == map["paper:ODD" := HIGH as real]
  {
    hide LossDay, Whole28;
    var terms, marks := TermsOf(OpenAccount(now), NamedRequest(now), DEFAULT_LIMITS), NamedRequest(now).marks;
    var survey := SurveyOf([UNNAMED], terms, marks);
    assert PricingOf(UNNAMED, terms, marks) == Marked(HighMark(now));
    assert [UNNAMED][..0] == [];
    assert survey == SurveyStep(SurveyOf([], terms, marks), UNNAMED, terms, marks);
    assert survey.prices == map["paper:ODD" := HIGH as real];
    OneRow(UNNAMED, survey.prices);
    assert Worth(UNNAMED, HIGH as real) == 1_000_000.0;
    Whole28Exact(0);
    assert QuantizeUp(1_000_000.0) == 1_000_000 && QuantizeUp(0.0) == 0;
  }

  lemma OneRow(row: Position, prices: map<string, MarketPrice>)
    ensures Gross([row], prices) == Worth(row, PriceOr0(prices, row.assetId))
    ensures Underwater([row], prices) == Shortfall(row, PriceOr0(prices, row.assetId))
  {
    hide Worth, Shortfall, PriceOr0;
    assert [row][..0] == [];
  }

  lemma FreeUnsized(now: Instant)
    ensures UnsizedReasons(OneToken(now), FreeMarket(now), OPEN_CONTEXT, DEFAULT_LIMITS, now) == []
  {
    hide UnsizedReasons, RatioReasons, TotalSupply;
    OddSupply(now);
    OddRatio(now);
    assert RatioReasons(FreeMarket(now), 1_000_000.0, 200_000 * UNIT, DEFAULT_LIMITS) == [] by { SameRatio(now); }
    CleanExactly(OneToken(now), FreeMarket(now), OPEN_CONTEXT, DEFAULT_LIMITS, now);
  }

  lemma SameRatio(now: Instant)
    ensures RatioReasons(FreeMarket(now), 1_000_000.0, 200_000 * UNIT, DEFAULT_LIMITS)
            == RatioReasons(OddMarket(now), 1_000_000.0, 200_000 * UNIT, DEFAULT_LIMITS)
  {
    hide Sig;
  }

  lemma FreeCost()
    ensures WorstCost(UNIT, 0, 0) == UNIT
  {
    hide Sig, Factor28;
    FactorsExact(0);
    assert Times(UNIT as real, ExactFactor(0)) == UNIT as real;
    SigWhole(LEAD28, UNIT);
  }

  /** A dollar more fits every limit the order is judged by. */
  lemma OpenVerdict(now: Instant)
    ensures var decision := Decide(OneToken(now), FreeMarket(now), OPEN_CONTEXT, DEFAULT_LIMITS, now);
            decision.Success? && decision.value.outcome == APPROVE && decision.value.maxSlippageBps == 0
            && decision.value.intent == OneToken(now) && decision.value.market == FreeMarket(now)
            && decision.value.evaluatedAt == now && decision.value.expiresAt == now + 5 * SECOND
  {
    hide Sig, Reasons, WorstCost, UnsizedReasons, Notional, FdvRatio, Capacity;
    FreeUnsized(now);
    WholeNotional(UNIT);
    FreeCost();
    OpenSizing();
    ApprovedExactly(OneToken(now), FreeMarket(now), OPEN_CONTEXT, DEFAULT_LIMITS, now);
  }

  lemma OpenSizing()
    ensures SizingReasons(UNIT, UNIT, OPEN_CONTEXT, DEFAULT_LIMITS) == []
  {
    hide Sig;
    assert Product(1, UNIT) == 1.0;
    SigWhole(LEAD28, 1);
    SigWhole(LEAD28, UNIT + 1);
    SigWhole(LEAD28, 1_000_000 + UNIT);
  }

  function OpenDecision(now: Instant): RiskDecision {
    OpenVerdict(now);
    Decide(OneToken(now), FreeMarket(now), OPEN_CONTEXT, DEFAULT_LIMITS, now).value
  }

  /** One token for one dollar: no slippage, no fee. */
  function FreeFill(now: Instant): ExecutionResult {
    ExecutionResult(7, "paper:ODD", BUY, UNIT, UNIT, UNIT, 0, 0, 0, now)
  }

  lemma FreeExecution(now: Instant)
    ensures Execute(OrderIntent(OneToken(now), OpenDecision(now), now), FreeMarket(now)) == Success(FreeFill(now))
  {
    hide Sig, FillFactor, FillPrice, FillFees, OpenDecision;
    FreePrice();
    FreeFees();
    OpenVerdict(now);
    DecidedOn(now);
  }

  lemma DecidedOn(now: Instant)
    ensures OpenDecision(now).market == FreeMarket(now) && OpenDecision(now).intent == OneToken(now)
    ensures OpenDecision(now).outcome == APPROVE && OpenDecision(now).maxSlippageBps == 0
    ensures OpenDecision(now).evaluatedAt == now && OpenDecision(now).expiresAt == now + 5 * SECOND
    ensures Decide(OneToken(now), FreeMarket(now), OPEN_CONTEXT, DEFAULT_LIMITS, now) == Success(OpenDecision(now))
  {
    hide Decide;
    OpenVerdict(now);
  }

  lemma FreePrice()
    ensures FillPrice(BUY, UNIT, 0) == UNIT
  {
    hide Sig, FillFactor;
    FillFactorExact(0);
    assert Times(UNIT as real, ExactFactor(0)) == UNIT as real;
    SigWhole(LEAD28, UNIT);
  }

  lemma FreeFees()
    ensures FillFees(UNIT, UNIT, 0) == 0
  {
    hide Sig;
    SigWhole(LEAD28, 0);
    assert Times(Sig(LEAD28, Product(UNIT, UNIT)), 0 as real / UNIT as real) == 0.0;
  }

  const GROWN: Position := UNNAMED.(quantity := UNIT + 1, costBasisUsd := UNIT)

  function FreeBooking(now: Instant): Booking {
    Booking(GROWN, Trade(7, "paper:ODD", BUY, UNIT, UNIT, 0, 0, now), 99 * UNIT)
  }

  lemma FreeApplied(now: Instant)
    ensures ApplyFill(UNNAMED, FreeFill(now), 100 * UNIT) == Success(FreeBooking(now))
  {
    hide Sig, Whole28;
    assert Product(UNIT, UNIT) == UNIT as real;
    SigWhole(LEAD28, UNIT);
    Whole28Exact(0);
    Whole28Exact(UNIT);
    Whole28Exact(UNIT + 1);
    Whole28Exact(99 * UNIT);
  }

  function OpenSimulation(now: Instant): Simulation {
    Simulation(OrderIntent(OneToken(now), OpenDecision(now), now), FreeFill(now), FreeBooking(now))
  }

  /** The snapshot of the grown position is a million dollars and a million quanta, and it is taken. */
  lemma GrownSnapshot()
    ensures Worth(GROWN, HIGH as real) == (HIGH + 1_000_000) as real
    ensures CalculatePnl([GROWN], map["paper:ODD" := HIGH as real], 99 * UNIT, 0).Success?
  {
    hide Sig, Whole28;
    assert Worth(GROWN, HIGH as real) == (HIGH + 1_000_000) as real;
    SigWhole(LEAD28, HIGH + 1_000_000);
    assert [GROWN][..0] == [];
    assert MarketValue([], map["paper:ODD" := HIGH as real]) == Success(0.0);
    assert MarketValue([GROWN], map["paper:ODD" := HIGH as real]) == Success((HIGH + 1_000_000) as real);
    Whole28Exact(UNIT);
    Whole28Exact(0);
    assert Basis28([GROWN]) == UNIT && Realized28([GROWN]) == 0;
    Whole28Exact(HIGH + 1_000_000 - UNIT);
    Whole28Exact(99 * UNIT + HIGH + 1_000_000);
  }

  lemma OpenAssess(now: Instant)
    ensures var assessed := Assess(OpenAccount(now), [UNNAMED], NamedRequest(now), DEFAULT_LIMITS);
            && assessed.Success? && assessed.value.1 == OpenDecision(now)
            && assessed.value.0.position == UNNAMED && assessed.value.0.prices == map["paper:ODD" := HIGH as real]
  {
    hide Valuation, Decide, OpenDecision;
    OpenValuation(now);
    DecidedOn(now);
    assert Checked(DEFAULT_LIMITS, OpenAccount(now)) == DEFAULT_LIMITS;
  }

  lemma OpenSimulated(now: Instant)
    ensures Simulate(100 * UNIT, NamedRequest(now), UNNAMED, OpenDecision(now)) == Success(OpenSimulation(now))
  {
    hide Execute, ApplyFill, OpenDecision;
    DecidedOn(now);
    FreeExecution(now);
    FreeApplied(now);
  }

  /** The tables once market, intent and decision are recorded. */
  function OpenPersisted(now: Instant): Store {
    OpenStore(now).(markets := map[1 := FreeMarket(now)], intents := map[7 := OneToken(now)], risks := map[7 := OpenDecision(now)])
  }

  lemma OpenRecorded(now: Instant)
    ensures Persist(OpenStore(now), NamedRequest(now), OpenDecision(now)) == Success(OpenPersisted(now))
  {
    hide OpenDecision;
  }

  lemma OpenBooked(now: Instant, state: PortfolioState)
    requires state.prices == map["paper:ODD" := HIGH as real]
    ensures var booked := Book(OpenPersisted(now), NamedRequest(now), state, OpenSimulation(now), DEFAULT_LIMITS);
            booked.Success? && booked.value.positions == [GROWN]
  {
    hide CalculatePnl, Whole28, OpenDecision, LossDay;
    assert [UNNAMED][..0] == [];
    assert Others([], "paper:ODD") == [] && Others([UNNAMED], "paper:ODD") == [];
    assert Saved([UNNAMED], GROWN) == [GROWN];
    Whole28Exact(0);
    GrownSnapshot();
  }

  /**
   Handed a mark that the reader never gives, the session approves and books the order under a limit of ten
   thousand dollars, and leaves an exposure of a million: what it bought counts at the holding's mark.
   */
  lemma UnnamedMarkBreaksTheCap(now: Instant)
    ensures var effect := EffectOf(PAPER_RULES, OpenStore(now), NamedRequest(now));
            && PurchaseBooked(PAPER_RULES, OpenStore(now), NamedRequest(now))
            && Unique(OpenStore(now).positions)
            && !NoUnnamedMark([UNNAMED], NamedRequest(now).marks)
            && !MarkNotAbove([UNNAMED], TermsOf(OpenAccount(now), NamedRequest(now), DEFAULT_LIMITS), NamedRequest(now).marks)
            && Gross(Processed(PAPER_RULES, OpenStore(now), NamedRequest(now)).0.positions, effect.state.prices)
               == (HIGH + 1_000_000) as real
            && DEFAULT_LIMITS.maxExposureUsd == 10_000 * UNIT
  {
    hide Assess, Simulate, Book, Persist, OpenDecision, OpenSimulation, OpenPersisted, Processed;
    OpenAssess(now);
    OpenRecorded(now);
    DecidedOn(now);
    OpenSimulated(now);
    var state := Assess(OpenAccount(now), [UNNAMED], NamedRequest(now), DEFAULT_LIMITS).value.0;
    OpenBooked(now, state);
    OpenEffect(now, state);
    CommitsEffect(PAPER_RULES, OpenStore(now), NamedRequest(now));
    OneRow(GROWN, state.prices);
    GrownSnapshot();
    assert UsableMark(UNNAMED, NamedRequest(now).marks, TermsOf(OpenAccount(now), NamedRequest(now), DEFAULT_LIMITS));
    assert UNNAMED in [UNNAMED];
  }

  lemma OpenEffect(now: Instant, state: PortfolioState)
    requires Assess(OpenAccount(now), [UNNAMED], NamedRequest(now), DEFAULT_LIMITS) == Success((state, OpenDecision(now)))
    requires state.position == UNNAMED
    requires Book(OpenPersisted(now), NamedRequest(now), state, OpenSimulation(now), DEFAULT_LIMITS).Success?
    ensures EffectOf(PAPER_RULES, OpenStore(now), NamedRequest(now))
            == Booked(state, OpenDecision(now), OpenPersisted(now), OpenSimulation(now))
  {
    hide Assess, Simulate, Book, Persist, OpenDecision, LossDay;
    OpenRecorded(now);
    DecidedOn(now);
    OpenSimulated(now);
    assert RollLossDay(OpenAccount(now), now) == OpenAccount(now);
    assert OpenStore(now).(account := OpenAccount(now)) == OpenStore(now);
    assert Stop(NamedRequest(now), OpenDecision(now)) == None;
  }
}
