/**
 What is held against what was traded: below 10^10 tokens a holding is exactly what its trades add up to, and
 an approved sale can always be carried out, unless the slippage leaves its price nothing.
 */
module PaperHoldings {
  import opened Numbers
  import opened Wrappers
  import opened Contracts
  import opened PaperAccounts
  import opened Portfolio
  import opened PortfolioValuation
  import opened RiskEngine
  import opened RiskCapacity
  import opened RiskAuthorization
  import opened Resizing
  import opened PaperExecution
  import opened Accounting
  import opened PaperService
  import opened EntryHalts
  import opened PaperRuns
  import opened PaperMoney
  import opened PaperExposure

  // --------------------------------------------------------------------------------- quantities add up

  function QuantityIn(positions: seq<Position>, assetId: string): nat {
    if positions == [] then 0
    else
      var last := positions[|positions| - 1];
      QuantityIn(positions[..|positions| - 1], assetId) + if last.assetId == assetId then last.quantity else 0
  }

  function Signed(trade: Trade): int {
    if trade.side == BUY then trade.quantity else 0 - trade.quantity
  }

  /** What the trades of an asset bought, less what they sold. */
  function NetTraded(trades: seq<Trade>, assetId: string): int {
    if trades == [] then 0
    else
      var last := trades[|trades| - 1];
      NetTraded(trades[..|trades| - 1], assetId) + if last.assetId == assetId then Signed(last) else 0
  }

  ghost predicate HeldAsTraded(store: Store) {
    forall assetId: string :: QuantityIn(store.positions, assetId) == NetTraded(store.trades, assetId)
  }

  /** Less than 10^10 tokens of anything: 28 digits hold the quantity. */
  predicate TokensWithin(positions: seq<Position>) {
    forall h :: h in positions ==> Within(h.quantity)
  }

  lemma {:induction false} OthersQuantity(positions: seq<Position>, removed: string, assetId: string)
    ensures QuantityIn(Others(positions, removed), assetId) == if assetId == removed then 0 else QuantityIn(positions, assetId)
  {
    if positions != [] {
      var rest, last := positions[..|positions| - 1], positions[|positions| - 1];
      OthersQuantity(rest, removed, assetId);
      if last.assetId != removed {
        assert (Others(rest, removed) + [last])[..|Others(rest, removed)|] == Others(rest, removed);
      } else {
        assert Others(positions, removed) == Others(rest, removed);
      }
    }
  }

  lemma SavedQuantity(positions: seq<Position>, updated: Position, assetId: string)
    ensures QuantityIn(Saved(positions, updated), assetId)
            == if assetId == updated.assetId then updated.quantity else QuantityIn(positions, assetId)
  {
    OthersQuantity(positions, updated.assetId, assetId);
    var others := Others(positions, updated.assetId);
    assert (others + [updated])[..|others|] == others;
  }

  lemma TradedOnce(trades: seq<Trade>, trade: Trade, assetId: string)
    ensures NetTraded(trades + [trade], assetId)
            == NetTraded(trades, assetId) + if trade.assetId == assetId then Signed(trade) else 0
  {
    assert (trades + [trade])[..|trades|] == trades;
  }

  lemma {:induction false} QuantityOfRow(positions: seq<Position>, assetId: string)
    requires Unique(positions)
    ensures var row := FirstOf(positions, assetId);
            QuantityIn(positions, assetId) == if row.Some? then row.value.quantity else 0
  {
    FirstOfNone(positions, assetId);
    if positions != [] {
      var rest, last := positions[..|positions| - 1], positions[|positions| - 1];
      assert positions == rest + [last];
      QuantityOfRow(rest, assetId);
      FirstOfNone(rest, assetId);
      if last.assetId == assetId {
        FirstOfUnique(positions, last);
      } else if FirstOf(rest, assetId).Some? {
        FirstOfUnique(positions, FirstOf(rest, assetId).value);
      }
    }
  }

  /** The quantity a fill leaves is the old one moved by the trade, if 28 digits hold the result. */
  lemma FillMovesQuantity(position: Position, fill: ExecutionResult, cash: int)
    requires ApplyFill(position, fill, cash).Success?
    requires Within(ApplyFill(position, fill, cash).value.position.quantity)
    ensures var booking := ApplyFill(position, fill, cash).value;
            && booking.position.quantity == position.quantity + Signed(booking.trade)
            && booking.position.assetId == position.assetId == booking.trade.assetId
  {
    hide Whole28, FillGross, RemovedBasis;
    WithinExact(if fill.side == BUY then position.quantity + fill.quantity else position.quantity - fill.quantity);
  }

  lemma OrderHeldAsTraded(rules: Rules, store: Store, request: Request)
    requires Unique(store.positions) && HeldAsTraded(store)
    requires TokensWithin(Processed(rules, store, request).0.positions)
    ensures HeldAsTraded(Processed(rules, store, request).0)
  {
    hide Assess, Refuse, Simulate, Book, EntryBar, EffectOf, Processed, Governing, Persist, LossDay, OrderPosition, Unique, ApplyFill,
         Saved, Signed;
    var effect, limits := EffectOf(rules, store, request), Governing(rules, request);
    CommitsEffect(rules, store, request);
    EffectRests(rules, store, request);
    if !effect.Nothing? {
      var rolled := store.(account := RollLossDay(store.account, request.now));
      PersistedTables(rolled, request, effect.decision);
      AssessedPosition(rolled.account, store.positions, request, limits);
      if effect.Refused? {
        RefuseTouchesControls(effect.persisted, effect.decision, limits, request.now);
      } else {
        var booking := effect.simulation.booking;
        SimulatedAbout(effect.persisted.account.cashUsd, request, effect.state.position, effect.decision);
        BookedTables(effect.persisted, request, effect.state, effect.simulation, limits);
        assert LastSaved(store.positions, booking.position) in Processed(rules, store, request).0.positions;
        FillMovesQuantity(effect.state.position, effect.simulation.fill, effect.persisted.account.cashUsd);
        OrderRowQuantity(store.positions, TermsOf(rolled.account, request, limits));
        forall assetId: string
          ensures QuantityIn(Processed(rules, store, request).0.positions, assetId)
                  == NetTraded(Processed(rules, store, request).0.trades, assetId)
        {
          SavedQuantity(store.positions, booking.position, assetId);
          TradedOnce(store.trades, booking.trade, assetId);
        }
      }
    }
  }

  lemma OrderRowQuantity(positions: seq<Position>, terms: Terms)
    requires Unique(positions)
    ensures OrderPosition(positions, terms).quantity == QuantityIn(positions, terms.assetId)
    ensures OrderPosition(positions, terms).assetId == terms.assetId
  {
    hide Unique;
    QuantityOfRow(positions, terms.assetId);
    OrderRowAsset(positions, terms);
  }

  lemma StepHeldAsTraded(rules: Rules, store: Store, step: Step)
    requires Unique(store.positions) && HeldAsTraded(store) && TokensWithin(Next(rules, store, step).positions)
    ensures HeldAsTraded(Next(rules, store, step))
  {
    hide Processed, Refuse, Requested, Unique, LossDay;
    match step
    case Control(_, _, _, _) =>
    case Verdict(decision, limits, at) =>
      RefuseTouchesControls(store.(account := RollLossDay(store.account, at)), decision, limits, at);
    case Order(request) => OrderHeldAsTraded(rules, store, request);
  }

  predicate TokensWithinRun(rules: Rules, store: Store, steps: seq<Step>) {
    TokensWithin(Run(rules, store, steps).positions) && (steps != [] ==> TokensWithinRun(rules, store, steps[..|steps| - 1]))
  }

  /** Over every run that never holds 10^10 tokens of one asset, each holding is what its trades bought less what they sold. */
  lemma {:induction false} RunHeldAsTraded(rules: Rules, store: Store, steps: seq<Step>)
    requires Unique(store.positions) && HeldAsTraded(store) && TokensWithinRun(rules, store, steps)
    ensures HeldAsTraded(Run(rules, store, steps))
  {
    hide Next, Unique, HeldAsTraded, TokensWithin;
    if steps != [] {
      RunHeldAsTraded(rules, store, steps[..|steps| - 1]);
      RunUnique(rules, store, steps[..|steps| - 1]);
      StepHeldAsTraded(rules, Run(rules, store, steps[..|steps| - 1]), steps[|steps| - 1]);
    }
  }

  /** From 10^10 tokens on it is false: a quantum more is paid for and traded, and the holding does not move. */
  lemma TokensLost(position: Position, fill: ExecutionResult, cash: int)
    requires ApplyFill(position, fill, cash).Success?
    requires fill.side == BUY && fill.quantity == 1 && position.quantity == EXACT28
    ensures var booking := ApplyFill(position, fill, cash).value;
            booking.trade.quantity == 1 && booking.position.quantity == position.quantity
  {
    hide Whole28, FillGross;
    OneBeyond();
  }

  // --------------------------------------------------------------------------------- approved sales

  lemma GrossGrowsWithPrice(quantity: nat, price: nat, price': nat)
    requires price <= price'
    ensures FillGross(quantity, price) <= FillGross(quantity, price')
  {
    hide Sig;
    assert quantity * price <= quantity * price' by { assert quantity * (price' - price) >= 0; }
    assert Product(quantity, price) <= Product(quantity, price') by {
      DividedInOrder((quantity * price) as real, (quantity * price') as real);
    }
    SigMonotone(LEAD28, Product(quantity, price), Product(quantity, price'));
    QuantizeMonotone(Sig(LEAD28, Product(quantity, price)), Sig(LEAD28, Product(quantity, price')));
  }

  lemma DividedInOrder(x: real, y: real)
    requires x <= y
    ensures x / UNIT as real <= y / UNIT as real
  {
  }

  /** A sale's price rounds to nothing exactly where the slippage takes all but half a quantum of it. */
  lemma SalePriceLost(price: Positive, slippage: nat)
    requires slippage < BPS && price <= EXACT28
    ensures FillPrice(SELL, price, slippage) <= 0 <==> 2 * (price * (BPS - slippage)) <= BPS
  {
    hide Sig, FillFactor, Times, Shifted;
    FillFactorExact(slippage);
    var n := price * (BPS - slippage);
    var x := Times(price as real, FillFactor(SELL, slippage));
    SlippedPrice(price, slippage);
    var half, more := (BPS / 2) as real / BPS as real, (BPS / 2 + 1) as real / BPS as real;
    ShareShifts(BPS / 2);
    ShareShifts(BPS / 2 + 1);
    assert half == 0.5 && more > 0.5;
    SigFraction(LEAD28, half, BPS / 2, 22);
    SigFraction(LEAD28, more, BPS / 2 + 1, 22);
    if 2 * n <= BPS {
      OverBps(n, BPS / 2);
      SigMonotone(LEAD28, x, half);
    } else {
      OverBps(BPS / 2 + 1, n);
      SigMonotone(LEAD28, more, x);
      QuantizeAboveHalf(Sig(LEAD28, x));
    }
  }

  lemma SlippedPrice(price: nat, slippage: nat)
    requires slippage < BPS
    ensures Times(price as real, 1.0 - slippage as real / BPS as real) == (price * (BPS - slippage)) as real / BPS as real
  {
    var kept := (BPS - slippage) as real;
    assert 1.0 - slippage as real / BPS as real == kept / BPS as real;
    assert (price * (BPS - slippage)) as real == price as real * kept;
  }

  lemma OverBps(n: int, m: int)
    requires n <= m
    ensures n as real / BPS as real <= m as real / BPS as real
  {
  }

  lemma QuantizeAboveHalf(x: real)
    requires x > 0.5
    ensures Quantize(x) >= 1
  {
    if x < 1.0 { assert x.Floor == 0; } else { QuantizeBound(x, 1); }
  }

  /** What an approval of a sale establishes about it. */
  lemma ApprovedSale(account: AccountRow, positions: seq<Position>, request: Request, limits: RiskLimits)
    requires request.intent.side == SELL && Assess(account, positions, request, limits).Success?
    requires Assess(account, positions, request, limits).value.1.outcome == APPROVE
    ensures var (state, decision) := Assess(account, positions, request, limits).value;
            var slippage, fee := request.market.liquidity.estimatedSlippageBps, request.market.feeBps;
            && state.position == OrderPosition(positions, TermsOf(account, request, limits))
            && decision.intent == request.intent && decision.market == request.market && decision.evaluatedAt == request.now
            && request.intent.mode == PAPER && request.intent.assetId == request.market.assetId
            && request.intent.quantity <= state.position.quantity
            && slippage.Some? && slippage.value <= decision.maxSlippageBps && slippage.value < BPS
            && fee.Some? && fee.value < BPS
  {
    hide Decide, SurveyOf, OrderPosition, UnsizedReasons, LedgerFigure, Gross, Underwater, Whole28;
    var checked := Checked(limits, account);
    var state := Valuation(TermsOf(account, request, limits), positions, request.marks);
    AssessedPosition(account, positions, request, limits);
    DecidedAbout(account, positions, request, limits);
    DecisionFigures(account, positions, request, limits);
    ApprovedExactly(request.intent, request.market, state.context, checked, request.now);
    CleanUnsized(request.intent, request.market, state.context, checked, request.now);
    assert state.context.positionQuantity == Some(state.position.quantity);
  }

  /**
   An approved sale of moderate size, placed while its approval stands, is filled and booked exactly when the
   slippage leaves its price more than half a quantum: nothing else in the executor or the accounting refuses it.
   */
  lemma ApprovedSaleIsFilled(account: AccountRow, positions: seq<Position>, request: Request, limits: RiskLimits, cash: Amount)
    requires request.intent.side == SELL && Assess(account, positions, request, limits).Success?
    requires var (state, decision) := Assess(account, positions, request, limits).value;
             && decision.outcome == APPROVE && ApprovalWindow(decision, request.requestedAt).None?
             && request.market.priceUsd <= EXACT28 && FillGross(request.intent.quantity, request.market.priceUsd) < EXACT28
             && state.position.costBasisUsd <= EXACT_BASIS && Within(state.position.realizedPnlUsd)
             && state.position.quantity <= LEDGER_BOUND / 10
    ensures var (state, decision) := Assess(account, positions, request, limits).value;
            var slippage := request.market.liquidity.estimatedSlippageBps;
            && slippage.Some?
            && (Simulate(cash, request, state.position, decision).Success?
                <==> 2 * (request.market.priceUsd * (BPS - slippage.value)) > BPS)
            && (Simulate(cash, request, state.position, decision).Success? ==>
                  var fill := Simulate(cash, request, state.position, decision).value.fill;
                  FillGross(fill.quantity, fill.executionPrice) <= FillGross(request.intent.quantity, request.market.priceUsd))
  {
    hide Assess, FillPrice, FillFees, FillGross, ApplyFill, OrderPosition, LpControlRefusal;
    ApprovedSale(account, positions, request, limits);
    var (state, decision) := Assess(account, positions, request, limits).value;
    var slippage, fee, quantity := request.market.liquidity.estimatedSlippageBps.value, request.market.feeBps.value, request.intent.quantity;
    var price := FillPrice(SELL, request.market.priceUsd, slippage);
    OrderRowAsset(positions, TermsOf(account, request, limits));
    FillPriceSide(SELL, request.market.priceUsd, slippage);
    SalePriceLost(request.market.priceUsd, slippage);
    FeesWithinGross(quantity, price, fee);
    GrossGrowsWithPrice(quantity, price, request.market.priceUsd);
    if price > 0 {
      var order := PlaceOrder(request, decision).value;
      SaleIsBooked(state.position, Execute(order, request.market).value, cash);
    }
  }

  // ------------------------------------------------------------------------ where the price is lost

  const WIDE_SLIPPAGE: RiskLimits := DEFAULT_LIMITS.(maxSlippageBps := BPS)

  const CHEAP_CONTEXT: RiskContext := RiskContext(Some(0), Some(0), Some(1), Some(0), PASS)

  /** The odd market at a price of one quantum, half of which an order gives up. */
  function CheapMarket(now: Instant): MarketSnapshot {
    OddMarket(now).(priceUsd := 1, liquidity := OddMarket(now).liquidity.(estimatedSlippageBps := Some(BPS / 2)))
  }

  function CheapSale(now: Instant): TradeIntent {
    OddIntent(1, now).(side := SELL, maxSlippageBps := BPS / 2)
  }

  lemma CheapSaleRepresentable(now: Instant)
    ensures Representable(CheapSale(now), CheapMarket(now), WIDE_SLIPPAGE)
  {
    hide Sig, WorstCost;
    assert Product(1, 1) < 0.5;
    SigWhole(LEAD28, 0);
    SigMonotone(LEAD28, 0.0, Product(1, 1));
    assert Shifted(0.25, 2) == 25.0;
    SigFraction(LEAD28, 0.25, 25, 2);
    SigMonotone(LEAD28, Product(1, 1), 0.25);
    QuantizeNearest(Sig(LEAD28, Product(1, 1)), 0);
    WorstCostNonNegative(0, BPS / 2, 100 * UNIT);
    WorstCostAtMost(0, BPS / 2, 100 * UNIT);
  }

  /** A sale of one quantum's price at half of it is approved, and executing it raises: its price rounds to nothing. */
  lemma ApprovedSaleRaises(now: Instant)
    ensures var decision := Decide(CheapSale(now), CheapMarket(now), CHEAP_CONTEXT, WIDE_SLIPPAGE, now);
            && decision.Success? && decision.value.outcome == APPROVE
            && Execute(OrderIntent(CheapSale(now), decision.value, now), CheapMarket(now)) == Failure(ValidationError)
  {
    hide UnsizedReasons, FillPrice, FillFees, Representable, Reasons, FdvRatio, OrderNotional, OrderCost;
    var sale, market := CheapSale(now), CheapMarket(now);
    CheapSaleRepresentable(now);
    CleanExactly(sale, market, CHEAP_CONTEXT, WIDE_SLIPPAGE, now);
    ApprovedExactly(sale, market, CHEAP_CONTEXT, WIDE_SLIPPAGE, now);
    SalePriceLost(1, BPS / 2);
  }
}
