/**
 The way out, end to end: an approved sale of moderate size, processed while its approval stands, is answered
 with its fill, unless the slippage leaves its price nothing.
 */
module ExitPath {
  import opened Numbers
  import opened Wrappers
  import opened Contracts
  import opened PaperAccounts
  import opened Portfolio
  import opened PortfolioValuation
  import opened PaperExecution
  import opened Accounting
  import opened ProfitAndLoss
  import opened PaperService
  import opened PaperRuns
  import opened PaperMoney
  import opened PaperExposure
  import opened PaperHoldings

  /** 2.5 * 10^9 dollars: sums of four such figures are still exact in 28 digits. */
  const QUARTER: int := EXACT28 / 4

  // ----------------------------------------------------------------------------- what the sale books

  /** A sale between such figures is booked without any rounding but that of the released basis. */
  lemma SaleFigures(position: Position, fill: ExecutionResult, cash: nat)
    requires ApplyFill(position, fill, cash).Success? && fill.side == SELL && Honest(fill)
    requires cash <= QUARTER && FillGross(fill.quantity, fill.executionPrice) <= QUARTER
    requires position.costBasisUsd <= EXACT_BASIS
    ensures var booking := ApplyFill(position, fill, cash).value;
            && booking.position.assetId == position.assetId
            && 0 <= booking.cash <= 2 * QUARTER
            && booking.position.costBasisUsd <= position.costBasisUsd
            && -EXACT_BASIS <= booking.trade.realizedPnlUsd <= QUARTER
            && booking.position.realizedPnlUsd == Whole28(position.realizedPnlUsd + booking.trade.realizedPnlUsd)
  {
    hide Whole28, RemovedBasis, FillGross;
    var gross := FillGross(fill.quantity, fill.executionPrice);
    var removed := RemovedBasis(position.costBasisUsd, fill.quantity, position.quantity);
    GrossNonNegative(fill.quantity, fill.executionPrice);
    RemovedWithinBasis(position.costBasisUsd, fill.quantity, position.quantity);
    Whole28Exact(fill.feesUsd);
    Whole28Exact(gross - fill.feesUsd);
    Whole28Exact(cash + (gross - fill.feesUsd));
    Whole28Exact(position.costBasisUsd - removed);
    Whole28Exact(gross - fill.feesUsd - removed);
  }

  lemma SoldQuantity(position: Position, fill: ExecutionResult, cash: int)
    requires fill.side == SELL && ApplyFill(position, fill, cash).Success? && position.quantity <= LEDGER_BOUND / 10
    ensures ApplyFill(position, fill, cash).value.position.quantity <= Whole28(position.quantity)
  {
    hide Whole28, RemovedBasis, FillGross;
    Whole28Monotone(position.quantity - fill.quantity, position.quantity);
  }

  lemma {:induction false} OthersTurnover(positions: seq<Position>, assetId: string)
    ensures Turnover(Others(positions, assetId)) + Magnitude(RealizedIn(positions, assetId)) <= Turnover(positions)
    ensures |Others(positions, assetId)| <= |positions|
  {
    if positions != [] {
      var rest, last := positions[..|positions| - 1], positions[|positions| - 1];
      OthersTurnover(rest, assetId);
      if last.assetId != assetId {
        assert (Others(rest, assetId) + [last])[..|Others(rest, assetId)|] == Others(rest, assetId);
      } else {
        assert Others(positions, assetId) == Others(rest, assetId);
      }
    }
  }

  /** Replacing a row moves the turnover by no more than the row's own result. */
  lemma SavedTurnover(positions: seq<Position>, updated: Position)
    ensures Turnover(Saved(positions, updated))
            <= Turnover(positions) - Magnitude(RealizedIn(positions, updated.assetId)) + Magnitude(updated.realizedPnlUsd)
    ensures |Saved(positions, updated)| <= |positions| + 1
  {
    OthersTurnover(positions, updated.assetId);
    var others := Others(positions, updated.assetId);
    assert (others + [updated])[..|others|] == others;
  }

  // -------------------------------------------------------------------------------- what it is worth

  /** One rounding below 10^10 dollars moves a value by at most five quanta. */
  lemma RoundedUpByFive(x: real)
    requires 0.0 <= x <= EXACT28 as real
    ensures 0.0 <= Sig(LEAD28, x) <= x + 5.0
  {
    hide Sig;
    SigSign(LEAD28, x);
    SigError(LEAD28, x);
    assert x / (2.0 * LEAD28 as real) <= 5.0;
  }

  /** The folded market value exceeds the exact one by at most ten quanta a row. */
  lemma {:induction false} MarketValueWithin(positions: seq<Position>, prices: map<string, MarketPrice>)
    requires MarketValue(positions, prices).Success?
    requires Gross(positions, prices) + 10.0 * |positions| as real <= EXACT28 as real
    ensures 0.0 <= MarketValue(positions, prices).value <= Gross(positions, prices) + 10.0 * |positions| as real
  {
    hide Sig, Worth;
    if positions != [] {
      var rest, last := positions[..|positions| - 1], positions[|positions| - 1];
      var worth := Worth(last, PriceOr0(prices, last.assetId));
      WorthNonNegative(last, PriceOr0(prices, last.assetId));
      FiguresNonNegative(rest, prices);
      MarketValueWithin(rest, prices);
      if last.quantity != 0 {
        RoundedUpByFive(worth);
        RoundedUpByFive(MarketValue(rest, prices).value + Sig(LEAD28, worth));
      }
    }
  }

  /** A sale does not raise what the account holds. */
  lemma SaleLowersGross(positions: seq<Position>, terms: Terms, marks: map<string, PositionMark>, updated: Position)
    requires Unique(positions) && updated.assetId == terms.assetId
    requires updated.quantity <= OrderPosition(positions, terms).quantity
    ensures var prices := Valuation(terms, positions, marks).prices;
            Gross(Saved(positions, updated), prices) <= ExactExposure(positions, terms, marks)
  {
    hide Gross, SurveyOf, ExactExposure, Saved, Valuation, OrderPosition, PriceOr0, Unique, ExactLoss, Underwater;
    var prices := SurveyOf(positions, terms, marks).prices;
    var price := PriceOr0(prices, terms.assetId);
    ValuedPrices(positions, terms, marks);
    SurveyTotals(positions, terms, marks);
    PriceNonNegative(prices, terms.assetId);
    SavedGross(positions, updated, prices);
    WorthOfRow(positions, terms, price);
    FewerAreWorthLess(updated, OrderPosition(positions, terms), price);
  }

  lemma PriceNonNegative(prices: map<string, MarketPrice>, assetId: string)
    ensures PriceOr0(prices, assetId) >= 0.0
  {
  }

  lemma FewerAreWorthLess(fewer: Position, more: Position, price: real)
    requires fewer.quantity <= more.quantity && price >= 0.0
    ensures Worth(fewer, price) <= Worth(more, price)
  {
    TimesMonotone(fewer.quantity as real / UNIT as real, more.quantity as real / UNIT as real, price);
  }

  // ------------------------------------------------------------------------------------- the snapshot

  lemma SnapshotComputed(positions: seq<Position>, prices: map<string, MarketPrice>, cash: nat, feesPaid: nat)
    requires MarketValue(positions, prices).Success?
    requires Gross(positions, prices) + 10.0 * |positions| as real <= QUARTER as real
    requires cash <= 2 * QUARTER && feesPaid <= 2 * QUARTER
    requires BasisHeld(positions) <= EXACT_BASIS && Turnover(positions) <= 2 * QUARTER
    ensures CalculatePnl(positions, prices, cash, feesPaid).Success?
  {
    hide Whole28, MarketValue, Gross, Sig, BasisHeld, Turnover;
    MarketValueWithin(positions, prices);
    SumsExact(positions);
    var value := Quantize(MarketValue(positions, prices).value);
    QuantizeBound(MarketValue(positions, prices).value, 0);
    QuantizeBound(MarketValue(positions, prices).value, QUARTER);
    Whole28Exact(value - BasisHeld(positions));
    Whole28Exact(cash + value);
    Whole28Exact(RealizedSum(positions) + (value - BasisHeld(positions)));
  }

  lemma SaleCharged(account: AccountRow, fill: ExecutionResult, booking: Booking)
    requires fill.gasUsd == 0 && fill.feesUsd <= QUARTER && account.feesPaidUsd <= QUARTER
    requires account.realizedLossTodayUsd <= QUARTER
    requires 0 <= booking.cash <= 2 * QUARTER && booking.trade.realizedPnlUsd >= -EXACT_BASIS
    ensures Charged(account, fill, booking).Success?
    ensures Charged(account, fill, booking).value.feesPaidUsd == account.feesPaidUsd + fill.feesUsd
  {
    hide Whole28, LossDay;
    Whole28Exact(fill.feesUsd);
    Whole28Exact(account.feesPaidUsd + fill.feesUsd);
    Whole28Exact(account.realizedLossTodayUsd + Loss(booking.trade));
    Whole28Exact(Loss(booking.trade));
  }

  // --------------------------------------------------------------------------------- the transaction

  /** Figures of an account and an order far enough from where 28 digits run out, all readable beforehand. */
  predicate Moderate(store: Store, request: Request, terms: Terms) {
    && store.account.cashUsd <= QUARTER && store.account.feesPaidUsd <= QUARTER && store.account.realizedLossTodayUsd <= QUARTER
    && BasisHeld(store.positions) <= EXACT_BASIS && Turnover(store.positions) <= QUARTER / 2
    && request.market.priceUsd <= EXACT28 && FillGross(request.intent.quantity, request.market.priceUsd) <= QUARTER / 2
    && OrderPosition(store.positions, terms).quantity <= EXACT28
    && ExactExposure(store.positions, terms, request.marks) + 10.0 * (|store.positions| + 1) as real <= QUARTER as real
  }

  /** Nothing outside the evaluation and the arithmetic stands against the order. */
  predicate Unhindered(rules: Rules, store: Store, request: Request) {
    && rules.mode == PAPER && request.intent.id !in store.intents
    && (request.market.id in store.markets ==> store.markets[request.market.id] == request.market)
    && request.authorize(request.requestedAt).None?
  }

  lemma RowWithinSums(positions: seq<Position>, terms: Terms)
    requires Unique(positions)
    ensures OrderPosition(positions, terms).costBasisUsd <= BasisHeld(positions)
    ensures Magnitude(OrderPosition(positions, terms).realizedPnlUsd) <= Turnover(positions)
    ensures OrderPosition(positions, terms).realizedPnlUsd == RealizedIn(positions, terms.assetId)
    ensures OrderPosition(positions, terms).costBasisUsd == BasisIn(positions, terms.assetId)
  {
    hide OrderPosition, Unique;
    OrderPositionFigures(positions, terms);
    OfAssetWithin(positions, terms.assetId);
  }

  /** The rows of a simulated sale can be entered and its snapshot taken. */
  lemma SaleBooks(store: Store, request: Request, limits: RiskLimits, simulation: Simulation)
    requires Unique(store.positions) && request.intent.side == SELL
    requires Assess(store.account, store.positions, request, limits).Success?
    requires var (state, decision) := Assess(store.account, store.positions, request, limits).value;
             && decision.outcome == APPROVE
             && Simulate(store.account.cashUsd, request, state.position, decision) == Success(simulation)
    requires Moderate(store, request, TermsOf(store.account, request, limits))
    requires FillGross(simulation.fill.quantity, simulation.fill.executionPrice) <= QUARTER / 2
    requires request.intent.id !in store.orders && request.intent.id !in store.executions
    ensures Book(store, request, Assess(store.account, store.positions, request, limits).value.0, simulation, limits).Success?
  {
    hide Assess, Simulate, Execute, ApplyFill, OrderPosition, Saved, CalculatePnl, Charged, Gross, Turnover, BasisHeld, Unique,
         FillGross, Whole28, ExactExposure, Valuation, MarketValue, HaltAfter;
    var (state, decision) := Assess(store.account, store.positions, request, limits).value;
    var terms := TermsOf(store.account, request, limits);
    var Simulation(order, fill, booking) := simulation;
    AssessedPosition(store.account, store.positions, request, limits);
    SimulatedAbout(store.account.cashUsd, request, state.position, decision);
    ExecutedHonestly(order, request.market);
    OrderRowAsset(store.positions, terms);
    RowWithinSums(store.positions, terms);
    SaleFigures(state.position, fill, store.account.cashUsd);
    SoldQuantity(state.position, fill, store.account.cashUsd);
    Whole28Exact(state.position.quantity);
    Whole28Exact(state.position.realizedPnlUsd + booking.trade.realizedPnlUsd);
    SaleCharged(store.account, fill, booking);
    SavedRows(store.positions, booking.position);
    SavedTurnover(store.positions, booking.position);
    ApprovedIsPriced(store.account, store.positions, request, limits, booking.position);
    SaleLowersGross(store.positions, terms, request.marks, booking.position);
    SnapshotComputed(Saved(store.positions, booking.position), state.prices, booking.cash, store.account.feesPaidUsd + fill.feesUsd);
  }

  lemma NothingEntered(store: Store, id: Id)
    requires PaperRuns.Recorded(store) && id !in store.intents
    ensures id !in store.risks && id !in store.orders && id !in store.executions
  {
    hide DecisionsFit, OneTradeEach;
    NotFilledYet(store, id);
    assert id !in store.risks.Keys && id !in store.orders.Keys;
  }

  lemma PersistsNew(store: Store, request: Request, decision: RiskDecision)
    requires request.intent.id !in store.intents && request.intent.id !in store.risks
    requires request.market.id in store.markets ==> store.markets[request.market.id] == request.market
    ensures Persist(store, request, decision).Success?
    ensures var persisted := Persist(store, request, decision).value;
            && persisted.account == store.account && persisted.positions == store.positions
            && persisted.orders == store.orders && persisted.executions == store.executions
  {
  }

  /** The effect of such a sale: booked, or nothing where its price rounds to nothing. */
  lemma SaleEffect(rules: Rules, store: Store, request: Request)
    requires PaperRuns.Recorded(store) && Unique(store.positions) && request.intent.side == SELL && Unhindered(rules, store, request)
    requires forall before, after :: request.admit(before, after).None?
    requires var rolled, limits := store.(account := RollLossDay(store.account, request.now)), Governing(rules, request);
             && Assess(rolled.account, store.positions, request, limits).Success?
             && var (state, decision) := Assess(rolled.account, store.positions, request, limits).value;
             && decision.outcome == APPROVE && ApprovalWindow(decision, request.requestedAt).None?
             && Moderate(rolled, request, TermsOf(rolled.account, request, limits))
    ensures request.market.liquidity.estimatedSlippageBps.Some?
    ensures var slippage := request.market.liquidity.estimatedSlippageBps.value;
            if 2 * (request.market.priceUsd * (BPS - slippage)) > BPS then EffectOf(rules, store, request).Booked?
            else EffectOf(rules, store, request).Nothing?
  {
    hide Assess, Persist, Simulate, Book, Unique, PaperRuns.Recorded, FillGross, OrderPosition, LossDay, BasisHeld, Turnover, ExactExposure,
         Governing, Replayed, ApprovalWindow;
    var rolled, limits := store.(account := RollLossDay(store.account, request.now)), Governing(rules, request);
    var terms := TermsOf(rolled.account, request, limits);
    var (state, decision) := Assess(rolled.account, store.positions, request, limits).value;
    NothingEntered(store, request.intent.id);
    PersistsNew(rolled, request, decision);
    var persisted := Persist(rolled, request, decision).value;
    AssessedPosition(rolled.account, store.positions, request, limits);
    RowWithinSums(store.positions, terms);
    ApprovedSaleIsFilled(rolled.account, store.positions, request, limits, persisted.account.cashUsd);
    NewIsNotReplayed(store, request.intent);
    var simulated := Simulate(persisted.account.cashUsd, request, state.position, decision);
    if simulated.Success? {
      SimulatedAbout(persisted.account.cashUsd, request, state.position, decision);
      SaleBooks(persisted, request, limits, simulated.value);
    }
  }

  lemma NewIsNotReplayed(store: Store, intent: TradeIntent)
    requires intent.id !in store.intents
    ensures Replayed(store, intent) == Success(None)
  {
  }

  /**
   No exit is trapped on the way out: an approved sale of moderate figures, placed while its approval stands and
   against nothing a caller adds, is answered with its fill exactly when the slippage leaves its price more than
   half a quantum.
   */
  lemma ApprovedSaleIsAnswered(rules: Rules, store: Store, request: Request)
    requires PaperRuns.Recorded(store) && Unique(store.positions) && request.intent.side == SELL && Unhindered(rules, store, request)
    requires forall before, after :: request.admit(before, after).None?
    requires var rolled, limits := store.(account := RollLossDay(store.account, request.now)), Governing(rules, request);
             && Assess(rolled.account, store.positions, request, limits).Success?
             && var (state, decision) := Assess(rolled.account, store.positions, request, limits).value;
             && decision.outcome == APPROVE && ApprovalWindow(decision, request.requestedAt).None?
             && Moderate(rolled, request, TermsOf(rolled.account, request, limits))
    ensures request.market.liquidity.estimatedSlippageBps.Some?
    ensures var (after, answer) := Processed(rules, store, request);
            var slippage := request.market.liquidity.estimatedSlippageBps.value;
            && (answer.Success? <==> 2 * (request.market.priceUsd * (BPS - slippage)) > BPS)
            && (answer.Success? ==>
                  && answer.value.Filled? && answer.value.fill.intentId == request.intent.id
                  && answer.value.fill.quantity == request.intent.quantity && after.trades != store.trades)
            && (answer.Failure? ==> after == store)
  {
    hide Assess, Persist, Simulate, Book, Unique, PaperRuns.Recorded, FillGross, OrderPosition, LossDay, BasisHeld, Turnover, ExactExposure,
         Governing, Replayed, ApprovalWindow, EffectOf, Processed, Moderate;
    SaleEffect(rules, store, request);
    CommitsEffect(rules, store, request);
    EffectRests(rules, store, request);
    NewIsNotReplayed(store, request.intent);
    var effect := EffectOf(rules, store, request);
    if effect.Booked? {
      var rolled := store.(account := RollLossDay(store.account, request.now));
      PersistedTables(rolled, request, effect.decision);
      SimulatedAbout(effect.persisted.account.cashUsd, request, effect.state.position, effect.decision);
      BookedTables(effect.persisted, request, effect.state, effect.simulation, Governing(rules, request));
    }
  }
}
