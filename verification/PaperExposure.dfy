/**
 What every booked purchase leaves behind: the exact exposure and the exact value of the position stay at
 their limits, half a quantum and a few 28-digit roundings aside, and the cash it took stays near
 SENTINEL's worst case.
 */
module PaperExposure {
  import opened Numbers
  import opened Wrappers
  import opened Contracts
  import opened PaperAccounts
  import opened Portfolio
  import opened PortfolioValuation
  import opened RiskEngine
  import opened RiskAuthorization
  import opened PaperExecution
  import opened Accounting
  import opened PaperService
  import opened PaperRuns
  import opened PaperMoney

  // ----------------------------------------------------------------------- the cost covers the order

  lemma RaisedCovers(amount: nat, bps: nat)
    requires Whole28(amount) == amount
    ensures Raised28(amount, Factor28(bps)) >= amount
    ensures Whole28(Raised28(amount, Factor28(bps))) == Raised28(amount, Factor28(bps))
  {
    hide Sig, Factor28;
    FactorAtLeastOne(bps);
    var raised := Times(amount as real, Factor28(bps));
    GrowsTo(Factor28(bps), amount as real);
    SigMonotone(LEAD28, amount as real, raised);
    SigStaysWhole(LEAD28, amount);
    QuantizeBound(Sig(LEAD28, raised), amount);
    LedgerFigureKept(raised);
  }

  /** The worst case covers the exact value of the order, half a quantum and one rounding aside. */
  lemma CostCovers(quantity: nat, price: Positive, permitted: nat, fee: nat)
    ensures var cost := WorstCost(Notional(quantity, price), permitted, fee);
            0.0 <= Product(quantity, price) <= Up(cost as real + 0.5)
  {
    hide Sig, Raised28, Factor28, Whole28, Product;
    ProductOfTokens(quantity, price);
    SigWithin(Product(quantity, price));
    QuantizeError(Sig(LEAD28, Product(quantity, price)));
    LedgerFigureKept(Product(quantity, price));
    RaisedCovers(Notional(quantity, price), permitted);
    RaisedCovers(Raised28(Notional(quantity, price), Factor28(permitted)), fee);
  }

  // ---------------------------------------------------------------------------- the position alone

  /** The value of what is held at one price. */
  function Value(quantity: nat, price: real): real {
    Times(quantity as real / UNIT as real, price)
  }

  lemma ValuesAdd(a: nat, b: nat, price: real)
    ensures Value(a, price) + Value(b, price) == Times((a + b) as real / UNIT as real, price)
  {
    var x, y := a as real / UNIT as real, b as real / UNIT as real;
    assert (a + b) as real / UNIT as real == x + y;
    assert (x + y) * price == x * price + y * price;
  }

  /** Adding a quantity in the 28-digit context moves the value by less than one rounding. */
  lemma AddedQuantity(held: nat, bought: nat, price: real)
    requires price >= 0.0
    ensures Whole28(held + bought) >= 0
    ensures Value(Whole28(held + bought), price) <= Up(Value(held, price) + Value(bought, price))
  {
    hide Sig, Whole28;
    Whole28Sign(held + bought);
    WholeAtMost(held + bought);
    ValuesAdd(held, bought, price);
    QuantityScales(Whole28(held + bought) as real, (held + bought) as real, price);
  }

  lemma WholeAtMost(n: nat)
    ensures Whole28(n) as real <= Up(n as real)
    ensures n as real <= Up(Whole28(n) as real)
  {
    hide Sig;
    SigWithin(n as real);
    SigStaysWhole(LEAD28, n);
  }

  lemma QuantityScales(quantity: real, sum: real, price: real)
    requires price >= 0.0 && quantity <= Up(sum)
    ensures Times(quantity / UNIT as real, price) <= Up(Times(sum / UNIT as real, price))
  {
    var x, y := quantity / UNIT as real, sum / UNIT as real;
    assert x <= Up(y);
    TimesOrdersLeft(x, Up(y), price);
    UpOfTimes(y, price);
  }

  lemma UpOfTimes(y: real, price: real)
    ensures Times(Up(y), price) == Up(Times(y, price))
  {
  }

  // --------------------------------------------------------------------------- the limits afterwards

  lemma ExposureWithin(exposure: nat, cost: nat, limit: nat, before: real, bought: real, excess: real, after: real)
    requires Whole28(exposure + cost) <= limit && excess >= 0.0
    requires before <= exposure as real && 0.0 <= bought <= Up(cost as real + 0.5)
    requires after <= Up(before + bought + excess)
    ensures after <= Up(Up(Up(limit as real) + 0.5) + excess)
  {
    hide Whole28;
    WholeAtMost(exposure + cost);
    Whole28Sign(exposure + cost);
  }

  lemma PositionWithinLimit(held: nat, price: Positive, cost: nat, limit: nat, bought: real)
    requires PositionAfter(held, price, cost) <= limit as real
    requires 0.0 <= bought <= Up(cost as real + 0.5)
    ensures Product(held, price) + bought <= Up(Up(limit as real) + 0.5)
  {
    hide Sig, Product;
    ProductOfTokens(held, price);
    SigWithin(Product(held, price));
    var kept := Sig(LEAD28, Product(held, price));
    SigWithin(kept + cost as real);
  }

  // ------------------------------------------------------------------------- exposure, row by row

  function WorthOf(positions: seq<Position>, assetId: string, price: real): real {
    if positions == [] then 0.0
    else
      var last := positions[|positions| - 1];
      WorthOf(positions[..|positions| - 1], assetId, price) + if last.assetId == assetId then Worth(last, price) else 0.0
  }

  lemma {:induction false} OthersWorth(positions: seq<Position>, assetId: string, prices: map<string, MarketPrice>)
    ensures Gross(Others(positions, assetId), prices) + WorthOf(positions, assetId, PriceOr0(prices, assetId))
            == Gross(positions, prices)
  {
    hide Worth, PriceOr0;
    if positions != [] {
      var rest, last := positions[..|positions| - 1], positions[|positions| - 1];
      OthersWorth(rest, assetId, prices);
      if last.assetId != assetId {
        assert (Others(rest, assetId) + [last])[..|Others(rest, assetId)|] == Others(rest, assetId);
      } else {
        assert Others(positions, assetId) == Others(rest, assetId);
      }
    }
  }

  lemma {:induction false} WorthOfFirst(positions: seq<Position>, assetId: string, price: real)
    requires Unique(positions)
    ensures WorthOf(positions, assetId, price)
            == match FirstOf(positions, assetId) case None => 0.0 case Some(row) => Worth(row, price)
  {
    hide Worth;
    FirstOfNone(positions, assetId);
    if positions != [] {
      var rest, last := positions[..|positions| - 1], positions[|positions| - 1];
      assert positions == rest + [last];
      WorthOfFirst(rest, assetId, price);
      FirstOfNone(rest, assetId);
      if last.assetId == assetId {
        FirstOfUnique(positions, last);
      } else if FirstOf(rest, assetId).Some? {
        FirstOfUnique(positions, FirstOf(rest, assetId).value);
      }
    }
  }

  lemma WorthOfRow(positions: seq<Position>, terms: Terms, price: real)
    requires Unique(positions) && price >= 0.0
    ensures WorthOf(positions, terms.assetId, price) == Worth(OrderPosition(positions, terms), price)
    ensures Worth(OrderPosition(positions, terms), price) >= 0.0
  {
    WorthOfFirst(positions, terms.assetId, price);
    WorthNonNegative(OrderPosition(positions, terms), price);
    if FirstOf(positions, terms.assetId).None? {
      assert Worth(OrderPosition(positions, terms), price) == Times(0.0, price);
    }
  }

  lemma {:induction false} WorthOfAtMost(positions: seq<Position>, assetId: string, prices: map<string, MarketPrice>)
    ensures WorthOf(positions, assetId, PriceOr0(prices, assetId)) <= Gross(positions, prices)
  {
    OthersWorth(positions, assetId, prices);
    FiguresNonNegative(Others(positions, assetId), prices);
  }

  lemma SavedGross(positions: seq<Position>, updated: Position, prices: map<string, MarketPrice>)
    ensures Gross(Saved(positions, updated), prices)
            == Gross(positions, prices) - WorthOf(positions, updated.assetId, PriceOr0(prices, updated.assetId))
               + Worth(updated, PriceOr0(prices, updated.assetId))
  {
    hide Worth, PriceOr0;
    OthersWorth(positions, updated.assetId, prices);
    var others := Others(positions, updated.assetId);
    assert (others + [updated])[..|others|] == others;
  }

  /**
   A holding of the order's asset that recorded no market, while the order names one, is valued at its mark;
   such a mark is not above the order's own price.  It is so wherever every row names its market, or no order does.
   */
  predicate MarkNotAbove(positions: seq<Position>, terms: Terms, marks: map<string, PositionMark>) {
    forall h :: h in positions && h.assetId == terms.assetId && h.quantity != 0 && h.marketPairId.None?
                && terms.market.Some? && UsableMark(h, marks, terms) ==>
      marks[h.assetId].priceUsd <= terms.priceUsd as real
  }

  /** Without a conflict, only an unnamed holding of the order's asset is not valued at the order's price. */
  lemma OrderPriced(positions: seq<Position>, terms: Terms, marks: map<string, PositionMark>)
    requires Unique(positions) && EveryHoldingPriced(positions, terms, marks)
    requires forall h :: h in positions ==> Conflict(h, terms).None?
    ensures var price := PriceOr0(SurveyOf(positions, terms, marks).prices, terms.assetId);
            price > 0.0 && (MarkNotAbove(positions, terms, marks) ==> price <= terms.priceUsd as real)
  {
    hide SurveyOf, PriceOr0, CurrentAt;
    CollectedPrices(positions, terms, marks);
    if h :| h in positions && h.assetId == terms.assetId {
      assert !PricingOf(h, terms, marks).Unmarked?;
      assert Conflict(h, terms).None?;
    }
  }

  // ------------------------------------------------------------------------------- booked purchases

  lemma BoughtQuantity(position: Position, fill: ExecutionResult, cash: int)
    requires fill.side == BUY && ApplyFill(position, fill, cash).Success?
    ensures var updated := ApplyFill(position, fill, cash).value.position;
            updated.assetId == position.assetId && updated.quantity == Whole28(position.quantity + fill.quantity)
  {
    hide Whole28, FillGross;
  }

  /** What an approved purchase of a clean portfolio was measured against. */
  lemma ApprovedFigures(account: AccountRow, positions: seq<Position>, request: Request, limits: RiskLimits)
    requires Unique(positions) && request.intent.side == BUY
    requires Assess(account, positions, request, limits).Success?
    requires Assess(account, positions, request, limits).value.1.outcome == APPROVE
    ensures var terms := TermsOf(account, request, limits);
            var state := Assess(account, positions, request, limits).value.0;
            var cost := OrderCost(request.intent, request.market, limits);
            && state == Valuation(terms, positions, request.marks)
            && state.position == OrderPosition(positions, terms)
            && cost >= 0 && request.market.feeBps.Some?
            && state.context.exposureUsd.Some?
            && EveryHoldingPriced(positions, terms, request.marks)
            && (forall h :: h in positions ==> Conflict(h, terms).None?)
            && ExactExposure(positions, terms, request.marks) <= state.context.exposureUsd.value as real
            && Whole28(state.context.exposureUsd.value + cost) <= limits.maxExposureUsd
            && PositionAfter(state.position.quantity, request.market.priceUsd, cost) <= limits.maxPositionSizeUsd as real
  {
    hide Unique, SurveyOf, PricingOf, OrderPosition, Decide, UnsizedReasons, LedgerFigure, Gross, Underwater,
         WorstCost, OrderNotional, Whole28, PositionAfter, ExactExposure, ExactLoss, Conflict;
    var terms, checked := TermsOf(account, request, limits), Checked(limits, account);
    var state := Valuation(terms, positions, request.marks);
    ConflictExactly(positions, terms, request.marks);
    ApprovedExactly(request.intent, request.market, state.context, checked, request.now);
    CleanUnsized(request.intent, request.market, state.context, checked, request.now);
    ValuationExactly(positions, terms, request.marks);
    AssessedPosition(account, positions, request, limits);
    assert state.context.positionQuantity == Some(state.position.quantity);
    assert KnownFee(request.market) == request.market.feeBps.value;
    AffordableFigures(OrderCost(request.intent, request.market, checked), request.market.priceUsd, state.context, checked);
  }

  lemma AffordableFigures(cost: int, price: Positive, context: RiskContext, limits: RiskLimits)
    requires SizingReasons(cost, price, context, limits) == []
    ensures context.exposureUsd.Some? ==> Whole28(context.exposureUsd.value + cost) <= limits.maxExposureUsd
    ensures context.positionQuantity.Some? ==>
              PositionAfter(context.positionQuantity.value, price, cost) <= limits.maxPositionSizeUsd as real
  {
    hide Whole28, PositionAfter;
  }

  /** A run's purchase and everything it was judged on. */
  predicate PurchaseBooked(rules: Rules, store: Store, request: Request) {
    EffectOf(rules, store, request).Booked? && request.intent.side == BUY
  }

  /** What a price above the order's own adds to the value of what was bought. */
  function Excess(bought: nat, price: real, own: real): real {
    if price > own then Value(bought, price - own) else 0.0
  }

  /**
   Immediately after every booked purchase: the exposure has grown by exactly what the order's own position
   has, at the price used for it; it is within `maxExposureUsd` but for half a quantum, three 28-digit
   roundings and what that price exceeds the order's by; and the position's exact value at the market's
   price is within `maxPositionSizeUsd` but for half a quantum and three roundings.
   */
  lemma ExposureAfterPurchase(rules: Rules, store: Store, request: Request)
    requires Unique(store.positions) && PurchaseBooked(rules, store, request)
    ensures var effect, limits := EffectOf(rules, store, request), Governing(rules, request);
            var terms := TermsOf(RollLossDay(store.account, request.now), request, limits);
            var after, updated := Processed(rules, store, request).0, effect.simulation.booking.position;
            var price, own := PriceOr0(effect.state.prices, request.intent.assetId), request.market.priceUsd as real;
            && after.positions == Saved(store.positions, updated)
            && Gross(after.positions, effect.state.prices)
               == ExactExposure(store.positions, terms, request.marks) - Worth(effect.state.position, price) + Worth(updated, price)
            && Gross(after.positions, effect.state.prices)
               <= Up(Up(Up(limits.maxExposureUsd as real) + 0.5) + Excess(request.intent.quantity, price, own))
            && (MarkNotAbove(store.positions, terms, request.marks) ==> price <= own)
            && Worth(updated, own) <= Up(Up(Up(limits.maxPositionSizeUsd as real) + 0.5))
  {
    hide Assess, Simulate, Book, EffectOf, Processed, Governing, Persist, LossDay, Unique, EntryBar, SurveyOf, Gross, MarkNotAbove,
         OrderPosition, Saved, Whole28, PositionAfter, OrderCost, ExactExposure, Execute, ApplyFill, Up, WorthOf, Worth, Product,
         EveryHoldingPriced, Conflict, Excess, PriceOr0;
    var effect, limits := EffectOf(rules, store, request), Governing(rules, request);
    CommitsEffect(rules, store, request);
    EffectRests(rules, store, request);
    var rolled := store.(account := RollLossDay(store.account, request.now));
    var terms := TermsOf(rolled.account, request, limits);
    var updated, price := effect.simulation.booking.position, PriceOr0(effect.state.prices, request.intent.assetId);
    PersistedTables(rolled, request, effect.decision);
    BookedTables(effect.persisted, request, effect.state, effect.simulation, limits);
    SimulatedAbout(effect.persisted.account.cashUsd, request, effect.state.position, effect.decision);
    ApprovedFigures(rolled.account, store.positions, request, limits);
    BoughtQuantity(effect.state.position, effect.simulation.fill, effect.persisted.account.cashUsd);
    ValuedPrices(store.positions, terms, request.marks);
    OrderPriced(store.positions, terms, request.marks);
    OrderRowAsset(store.positions, terms);
    SurveyTotals(store.positions, terms, request.marks);
    SavedGross(store.positions, updated, effect.state.prices);
    WorthOfRow(store.positions, terms, price);
    WorthOfAtMost(store.positions, terms.assetId, effect.state.prices);
    PositionAddsUp(effect.state.position, request, limits, updated);
    ExposureAddsUp(effect.state.position, request, limits, updated, effect.state.context.exposureUsd.value, price,
                   ExactExposure(store.positions, terms, request.marks), Gross(Saved(store.positions, updated), effect.state.prices));
  }

  lemma ValuedPrices(positions: seq<Position>, terms: Terms, marks: map<string, PositionMark>)
    ensures Valuation(terms, positions, marks).prices == SurveyOf(positions, terms, marks).prices
  {
    hide SurveyOf, Gross, Underwater, LedgerFigure, OrderPosition, Whole28;
  }

  lemma OrderRowAsset(positions: seq<Position>, terms: Terms)
    ensures OrderPosition(positions, terms).assetId == terms.assetId
  {
    FirstOfNone(positions, terms.assetId);
  }

  lemma PositionAddsUp(position: Position, request: Request, limits: RiskLimits, updated: Position)
    requires var cost := OrderCost(request.intent, request.market, limits);
             cost >= 0 && PositionAfter(position.quantity, request.market.priceUsd, cost) <= limits.maxPositionSizeUsd as real
    requires request.market.feeBps.Some?
    requires updated.quantity == Whole28(position.quantity + request.intent.quantity)
    ensures Worth(updated, request.market.priceUsd as real) <= Up(Up(Up(limits.maxPositionSizeUsd as real) + 0.5))
  {
    hide Whole28, PositionAfter, WorstCost, Times, Product, Sig, Notional;
    var price, bought := request.market.priceUsd, request.intent.quantity;
    var cost := OrderCost(request.intent, request.market, limits);
    CostCovers(bought, price, PermittedSlippage(request.intent, limits), KnownFee(request.market));
    ProductOfTokens(bought, price);
    ProductOfTokens(position.quantity, price);
    AddedQuantity(position.quantity, bought, price as real);
    PositionWithinLimit(position.quantity, price, cost, limits.maxPositionSizeUsd, Product(bought, price));
  }

  lemma ExposureAddsUp(position: Position, request: Request, limits: RiskLimits, updated: Position, exposure: Amount,
                       price: real, before: real, after: real)
    requires var cost := OrderCost(request.intent, request.market, limits);
             cost >= 0 && before <= exposure as real && Whole28(exposure + cost) <= limits.maxExposureUsd
    requires request.market.feeBps.Some? && price > 0.0
    requires updated.quantity == Whole28(position.quantity + request.intent.quantity)
    requires Worth(position, price) <= before
    requires after == before - Worth(position, price) + Worth(updated, price)
    ensures after <= Up(Up(Up(limits.maxExposureUsd as real) + 0.5)
                        + Excess(request.intent.quantity, price, request.market.priceUsd as real))
  {
    hide Whole28, WorstCost, Times, Product, Sig, Notional, Value, Excess;
    var own, bought := request.market.priceUsd, request.intent.quantity;
    var cost := OrderCost(request.intent, request.market, limits);
    CostCovers(bought, own, PermittedSlippage(request.intent, limits), KnownFee(request.market));
    ProductOfTokens(bought, own);
    AddedQuantity(position.quantity, bought, price);
    WorthIsValue(position, price);
    WorthIsValue(updated, price);
    BoughtAtAnotherPrice(bought, price, own as real);
    ExposureWithin(exposure, cost, limits.maxExposureUsd, before, Product(bought, own), Excess(bought, price, own as real), after);
  }

  lemma WorthIsValue(holding: Position, price: real)
    ensures Worth(holding, price) == Value(holding.quantity, price)
  {
  }

  lemma BoughtAtAnotherPrice(bought: nat, price: real, own: real)
    ensures Value(bought, price) <= Times(bought as real / UNIT as real, own) + Excess(bought, price, own)
    ensures Excess(bought, price, own) >= 0.0
  {
    var tokens := bought as real / UNIT as real;
    PriceSplits(tokens, price, own);
  }

  lemma PriceSplits(tokens: real, price: real, own: real)
    requires tokens >= 0.0
    ensures Times(tokens, price) == Times(tokens, own) + Times(tokens, price - own)
    ensures price > own ==> Times(tokens, price - own) >= 0.0
    ensures price <= own ==> Times(tokens, price) <= Times(tokens, own)
  {
    if price <= own { TimesOrders(tokens, price, own); }
  }

  /**
   The exposure cap: wherever no unnamed holding of the order's asset is marked above the order's price, both
   limits hold after every booked purchase, but for half a quantum and three 28-digit roundings.
   */
  lemma LimitsHoldAfterPurchase(rules: Rules, store: Store, request: Request)
    requires Unique(store.positions) && PurchaseBooked(rules, store, request)
    requires MarkNotAbove(store.positions, TermsOf(RollLossDay(store.account, request.now), request, Governing(rules, request)),
                          request.marks)
    ensures var effect, limits := EffectOf(rules, store, request), Governing(rules, request);
            && Gross(Processed(rules, store, request).0.positions, effect.state.prices)
               <= Up(Up(Up(limits.maxExposureUsd as real) + 0.5))
            && Worth(effect.simulation.booking.position, request.market.priceUsd as real)
               <= Up(Up(Up(limits.maxPositionSizeUsd as real) + 0.5))
  {
    hide EffectOf, Processed, Governing, Gross, Worth, Up, MarkNotAbove, Unique, ExactExposure, PriceOr0, Saved;
    ExposureAfterPurchase(rules, store, request);
    PlusNothing(Up(Up(Governing(rules, request).maxExposureUsd as real) + 0.5));
  }

  lemma PlusNothing(x: real)
    ensures x + 0.0 == x
  {
  }

  /** 10^8 dollars. */
  const MODEST_LIMIT: int := 100_000_000_000_000_000_000_000_000

  /** Up to limits of 10^8 dollars that is less than one quantum in all. */
  lemma LimitsHoldWithinOneQuantum(rules: Rules, store: Store, request: Request)
    requires Unique(store.positions) && PurchaseBooked(rules, store, request)
    requires MarkNotAbove(store.positions, TermsOf(RollLossDay(store.account, request.now), request, Governing(rules, request)),
                          request.marks)
    requires Governing(rules, request).maxExposureUsd <= MODEST_LIMIT && Governing(rules, request).maxPositionSizeUsd <= MODEST_LIMIT
    ensures var effect, limits := EffectOf(rules, store, request), Governing(rules, request);
            && Gross(Processed(rules, store, request).0.positions, effect.state.prices) < limits.maxExposureUsd as real + 1.0
            && Worth(effect.simulation.booking.position, request.market.priceUsd as real) < limits.maxPositionSizeUsd as real + 1.0
  {
    hide EffectOf, Processed, Governing, Gross, Worth, Up, MarkNotAbove, Unique;
    LimitsHoldAfterPurchase(rules, store, request);
    ThreeUps(Governing(rules, request).maxExposureUsd);
    ThreeUps(Governing(rules, request).maxPositionSizeUsd);
  }

  lemma ThreeUps(limit: nat)
    requires limit <= MODEST_LIMIT
    ensures Up(Up(Up(limit as real) + 0.5)) < limit as real + 1.0
  {
  }

  /** A holding that recorded no market has no mark: what the valuation reader refuses to give it. */
  predicate NoUnnamedMark(positions: seq<Position>, marks: map<string, PositionMark>) {
    forall h :: h in positions && h.quantity != 0 && h.marketPairId.None? ==> h.assetId !in marks
  }

  lemma NoUnnamedMarkSuffices(positions: seq<Position>, terms: Terms, marks: map<string, PositionMark>)
    requires terms.market.Some? ==> NoUnnamedMark(positions, marks)
    ensures MarkNotAbove(positions, terms, marks)
  {
    hide CurrentAt;
  }

  /**
   The exposure cap over arbitrary runs, orders that name their market and orders that do not in any mixture:
   both limits hold after every purchase that is given no mark for a holding without a recorded market.
   */
  lemma LimitsHoldOverRuns(rules: Rules, store: Store, steps: seq<Step>, request: Request)
    requires Unique(store.positions) && PurchaseBooked(rules, Run(rules, store, steps), request)
    requires request.identity.Some? ==> NoUnnamedMark(Run(rules, store, steps).positions, request.marks)
    ensures var reached, limits := Run(rules, store, steps), Governing(rules, request);
            var effect, after := EffectOf(rules, reached, request), Run(rules, store, steps + [Order(request)]);
            && Gross(after.positions, effect.state.prices) <= Up(Up(Up(limits.maxExposureUsd as real) + 0.5))
            && Worth(effect.simulation.booking.position, request.market.priceUsd as real)
               <= Up(Up(Up(limits.maxPositionSizeUsd as real) + 0.5))
  {
    hide EffectOf, Processed, Governing, Gross, Worth, Up, MarkNotAbove, Unique, NoUnnamedMark;
    var reached := Run(rules, store, steps);
    RunUnique(rules, store, steps);
    NoUnnamedMarkSuffices(reached.positions, TermsOf(RollLossDay(reached.account, request.now), request, Governing(rules, request)),
                          request.marks);
    LimitsHoldAfterPurchase(rules, reached, request);
    assert (steps + [Order(request)])[..|steps|] == steps;
  }

  // ------------------------------------------------------------------------ what a purchase may take

  lemma DecisionFigures(account: AccountRow, positions: seq<Position>, request: Request, limits: RiskLimits)
    requires Assess(account, positions, request, limits).Success?
    ensures var decision := Assess(account, positions, request, limits).value.1;
            && decision.metrics.worstCaseNotionalUsd == OrderCost(request.intent, request.market, limits)
            && decision.maxSlippageBps == PermittedSlippage(request.intent, limits)
  {
    hide Valuation, Reasons, Capacity, OrderNotional, FdvRatio, OnlySizing, WorstCost;
  }

  lemma FillFigures(order: OrderIntent, market: MarketSnapshot)
    requires Execute(order, market).Success? && order.intent.side == BUY
    ensures market.liquidity.estimatedSlippageBps.Some? && market.feeBps.Some?
    ensures var fill, slippage, fee := Execute(order, market).value, market.liquidity.estimatedSlippageBps.value, market.feeBps.value;
            && slippage <= order.risk.maxSlippageBps && slippage < BPS && fee < BPS
            && fill.executionPrice == FillPrice(BUY, market.priceUsd, slippage)
            && fill.feesUsd == FillFees(order.intent.quantity, fill.executionPrice, fee)
            && fill.quantity == order.intent.quantity && fill.side == BUY && fill.gasUsd == 0
  {
    hide FillPrice, FillFees, LpControlRefusal;
  }

  lemma CashTaken(position: Position, fill: ExecutionResult, cash: Amount)
    requires fill.side == BUY && fill.gasUsd == 0 && Within(cash)
    requires ApplyFill(position, fill, cash).Success?
    ensures cash - ApplyFill(position, fill, cash).value.cash == FillGross(fill.quantity, fill.executionPrice) + fill.feesUsd
  {
    hide Whole28, FillGross;
    var gross := FillGross(fill.quantity, fill.executionPrice);
    GrossNonNegative(fill.quantity, fill.executionPrice);
    Whole28Sign(fill.feesUsd);
    Whole28Sign(gross + Whole28(fill.feesUsd));
    WithinExact(gross + Whole28(fill.feesUsd));
    WithinExact(fill.feesUsd);
    WithinExact(cash - (gross + fill.feesUsd));
  }

  /**
   The cash a booked purchase takes exceeds the worst case its decision recorded by fewer quanta than the
   tokens bought plus five, through the five independent roundings between the two.
   */
  lemma CashTakenNearWorstCase(rules: Rules, store: Store, request: Request)
    requires PurchaseBooked(rules, store, request) && Within(store.account.cashUsd)
    requires var worst := EffectOf(rules, store, request).decision.metrics.worstCaseNotionalUsd;
             worst as real + request.intent.quantity as real / UNIT as real <= 10_000_000_000_000_000_000_000_000.0
    ensures var worst := EffectOf(rules, store, request).decision.metrics.worstCaseNotionalUsd;
            var taken := store.account.cashUsd - Processed(rules, store, request).0.account.cashUsd;
            (taken - worst) as real < request.intent.quantity as real / UNIT as real + 5.0
  {
    hide Assess, Simulate, Book, EffectOf, Processed, Governing, Persist, LossDay, EntryBar, OrderPosition, Execute, ApplyFill,
         FillPrice, FillFees, FillGross, WorstCost, Notional;
    var effect, limits := EffectOf(rules, store, request), Governing(rules, request);
    CommitsEffect(rules, store, request);
    EffectRests(rules, store, request);
    var rolled := store.(account := RollLossDay(store.account, request.now));
    PersistedTables(rolled, request, effect.decision);
    DecidedAbout(rolled.account, store.positions, request, limits);
    DecisionFigures(rolled.account, store.positions, request, limits);
    SimulatedAbout(store.account.cashUsd, request, effect.state.position, effect.decision);
    FillFigures(effect.simulation.order, request.market);
    CashTaken(effect.state.position, effect.simulation.fill, store.account.cashUsd);
    BookedMoney(effect.persisted, request, effect.state, effect.simulation, limits);
    assert KnownFee(request.market) == request.market.feeBps.value;
    ApprovedFillWithinFive(request.intent.quantity, request.market.priceUsd, request.market.liquidity.estimatedSlippageBps.value,
                           PermittedSlippage(request.intent, limits), request.market.feeBps.value);
  }
}
