/** Coordinates of a market, independent of any one observation of it. */
module MarketIdentities {
  import opened Wrappers
  import opened Contracts

  datatype PoolLocator = PoolLocator(kind: PoolLocatorCode, value: string, venue: string)

  datatype MarketIdentity = MarketIdentity(
    provider: string,
    chain: string,
    network: string,
    pairId: string,
    baseAssetId: string,
    quoteAssetId: string,
    venue: string,
    poolLocator: Option<PoolLocator>,
    isFixture: bool
  )
}

/**
 The portfolio facts a risk evaluation reads.  A holding is worth what its own market or a current mark
 says; one without either makes the whole valuation unknown, never zero.
 */
module Portfolio {
  import opened Numbers
  import opened Wrappers
  import opened Contracts
  import opened MarketIdentities

  /** A market's own price in quanta per token, at whatever precision it was recorded. */
  type MarketPrice = x: real | x > 0.0 witness 1.0

  /** A recorded price attributed to one asset. */
  datatype PositionMark = PositionMark(
    assetId: string,
    pairId: string,
    provider: string,
    observationId: Id,
    priceUsd: MarketPrice,
    observedAt: Instant
  )

  predicate CurrentAt(mark: PositionMark, now: Instant, tolerance: nat) {
    0 <= now - mark.observedAt <= tolerance * SECOND
  }

  /** Everything a valuation is given besides the holdings and their marks. */
  datatype Terms = Terms(
    cashUsd: Amount,
    realizedLossTodayUsd: Amount,
    assetId: string,
    priceUsd: Positive,
    now: Instant,
    maxSnapshotAgeSeconds: nat,
    market: Option<MarketIdentity>,
    cycleId: Option<Id>
  )

  datatype AccountingIssue = EXPOSURE_OUTSIDE_ACCOUNTING_PRECISION | DAILY_LOSS_OUTSIDE_ACCOUNTING_PRECISION

  datatype PortfolioState = PortfolioState(
    terms: Terms,
    positions: seq<Position>,
    context: RiskContext,
    position: Position,
    prices: map<string, MarketPrice>,
    marksUsed: seq<PositionMark>,
    unmarkedAssets: seq<string>,
    conflictingMarket: Option<string>,
    accountingIssues: seq<AccountingIssue>
  )

  // ------------------------------------------------------------------------ where a price comes from

  /** Whether this holding was acquired in the market now being judged; an unnamed one never is. */
  predicate AcquiredHere(holding: Position, assetId: string, market: Option<MarketIdentity>) {
    && holding.assetId == assetId
    && match market
       case None => holding.marketPairId.None?
       case Some(named) =>
         && holding.marketPairId == Some(named.pairId)
         && holding.marketChain == Some(named.chain)
         && holding.marketNetwork == Some(named.network)
         && holding.marketProvider == Some(named.provider)
  }

  predicate UsableMark(holding: Position, marks: map<string, PositionMark>, terms: Terms) {
    && holding.assetId in marks
    && marks[holding.assetId].assetId == holding.assetId
    && CurrentAt(marks[holding.assetId], terms.now, terms.maxSnapshotAgeSeconds)
  }

  datatype Pricing = Empty | Own | Marked(mark: PositionMark) | Unmarked

  function PricingOf(holding: Position, terms: Terms, marks: map<string, PositionMark>): Pricing {
    if holding.quantity == 0 then Empty
    else if AcquiredHere(holding, terms.assetId, terms.market) then Own
    else if UsableMark(holding, marks, terms) then Marked(marks[holding.assetId])
    else Unmarked
  }

  /** The other market a holding of the order's asset was bought in. */
  function Conflict(holding: Position, terms: Terms): Option<string> {
    if && holding.quantity != 0
       && !AcquiredHere(holding, terms.assetId, terms.market)
       && holding.assetId == terms.assetId
    then holding.marketPairId else None
  }

  // --------------------------------------------------------------------- the loop over the holdings

  /** What the valuation loop has collected. */
  datatype Survey = Survey(
    prices: map<string, MarketPrice>,
    used: seq<PositionMark>,
    unmarked: seq<string>,
    conflicting: Option<string>
  )

  function SurveyStep(survey: Survey, holding: Position, terms: Terms, marks: map<string, PositionMark>): Survey {
    var conflicting := if Conflict(holding, terms).Some? then Conflict(holding, terms) else survey.conflicting;
    match PricingOf(holding, terms, marks)
    case Empty => survey
    case Own => survey.(prices := survey.prices[holding.assetId := terms.priceUsd as real])
    case Marked(mark) =>
      Survey(survey.prices[holding.assetId := mark.priceUsd], survey.used + [mark], survey.unmarked, conflicting)
    case Unmarked => Survey(survey.prices, survey.used, survey.unmarked + [holding.assetId], conflicting)
  }

  function SurveyOf(positions: seq<Position>, terms: Terms, marks: map<string, PositionMark>): Survey {
    if positions == [] then Survey(map[terms.assetId := terms.priceUsd as real], [], [], None)
    else
      SurveyStep(SurveyOf(positions[..|positions| - 1], terms, marks), positions[|positions| - 1], terms, marks)
  }

  function PriceOr0(prices: map<string, MarketPrice>, assetId: string): real {
    if assetId in prices then prices[assetId] else 0.0
  }

  function Worth(holding: Position, price: real): real {
    Times(holding.quantity as real / UNIT as real, price)
  }

  function Shortfall(holding: Position, price: real): real {
    var loss := holding.costBasisUsd as real - Worth(holding, price);
    if loss > 0.0 then loss else 0.0
  }

  /** Exact market value of the holdings at the collected prices. */
  function Gross(positions: seq<Position>, prices: map<string, MarketPrice>): real {
    if positions == [] then 0.0
    else
      var last := positions[|positions| - 1];
      Gross(positions[..|positions| - 1], prices) + Worth(last, PriceOr0(prices, last.assetId))
  }

  /** Exact unrealised loss of the holdings that are under water. */
  function Underwater(positions: seq<Position>, prices: map<string, MarketPrice>): real {
    if positions == [] then 0.0
    else
      var last := positions[|positions| - 1];
      Underwater(positions[..|positions| - 1], prices) + Shortfall(last, PriceOr0(prices, last.assetId))
  }

  /** A non-negative figure rounded up to the ledger, or nothing where the ledger cannot hold it. */
  function LedgerFigure(exact: real): (r: Option<Amount>)
    requires exact >= 0.0
  {
    if !FitsLedger(exact) then None
    else
      var rounded := QuantizeUp(exact);
      if FitsLedger(rounded as real) then Some(rounded) else None
  }

  // -------------------------------------------------------------------------------- the order's row

  function FirstOf(positions: seq<Position>, assetId: string): Option<Position> {
    if positions == [] then None
    else if positions[0].assetId == assetId then Some(positions[0])
    else FirstOf(positions[1..], assetId)
  }

  function Attributed(position: Position, terms: Terms): Position {
    match terms.market
    case None =>
      position.(cycleId := terms.cycleId, marketPairId := None, marketChain := None, marketNetwork := None,
                marketProvider := None)
    case Some(named) =>
      position.(cycleId := terms.cycleId, marketPairId := Some(named.pairId), marketChain := Some(named.chain),
                marketNetwork := Some(named.network), marketProvider := Some(named.provider))
  }

  /** The row this order continues, or the one it would open; a closed row takes this order's attribution. */
  function OrderPosition(positions: seq<Position>, terms: Terms): Position {
    match FirstOf(positions, terms.assetId)
    case None => Attributed(Position(terms.assetId, None, None, None, None, None, 0, 0, 0), terms)
    case Some(position) => if position.quantity == 0 then Attributed(position, terms) else position
  }

  lemma {:induction false} FiguresNonNegative(positions: seq<Position>, prices: map<string, MarketPrice>)
    ensures Gross(positions, prices) >= 0.0 && Underwater(positions, prices) >= 0.0
  {
    if positions != [] {
      var last := positions[|positions| - 1];
      FiguresNonNegative(positions[..|positions| - 1], prices);
      WorthNonNegative(last, PriceOr0(prices, last.assetId));
    }
  }

  lemma WorthNonNegative(holding: Position, price: real)
    requires price >= 0.0
    ensures Worth(holding, price) >= 0.0
  {
    var tokens := holding.quantity as real / UNIT as real;
    assert tokens * price >= 0.0;
  }

  function Conclude(terms: Terms, positions: seq<Position>, survey: Survey): PortfolioState
  {
    FiguresNonNegative(positions, survey.prices);
    var exposure := LedgerFigure(Gross(positions, survey.prices));
    var unrealized := LedgerFigure(Underwater(positions, survey.prices));
    var dailyLoss: Option<int> :=
      match unrealized
      case None => None
      case Some(loss) =>
        var daily := Whole28(terms.realizedLossTodayUsd + loss);
        if 0 <= daily < LEDGER_BOUND then Some(daily) else None;
    var issues :=
      (if exposure.None? then [EXPOSURE_OUTSIDE_ACCOUNTING_PRECISION] else [])
      + (if dailyLoss.None? then [DAILY_LOSS_OUTSIDE_ACCOUNTING_PRECISION] else []);
    var valid := survey.unmarked == [] && issues == [];
    var position := OrderPosition(positions, terms);
    PortfolioState(
      terms, positions,
      RiskContext(Some(terms.cashUsd), if valid then exposure else None, Some(position.quantity),
                  if valid then dailyLoss else None, if valid then PASS else UNKNOWN),
      position, survey.prices, survey.used, survey.unmarked, survey.conflicting, issues)
  }

  /** The valuation as a function of what it is given. */
  function Valuation(terms: Terms, positions: seq<Position>, marks: map<string, PositionMark>): PortfolioState
  {
    Conclude(terms, positions, SurveyOf(positions, terms, marks))
  }

  method ValuePortfolio(terms: Terms, positions: seq<Position>, marks: map<string, PositionMark>)
    returns (state: PortfolioState)
    ensures state == Valuation(terms, positions, marks)
  {
    var prices: map<string, MarketPrice> := map[terms.assetId := terms.priceUsd as real];
    var used, unmarked: seq<string>, conflicting: Option<string> := [], [], None;
    for i := 0 to |positions|
      invariant SurveyOf(positions[..i], terms, marks) == Survey(prices, used, unmarked, conflicting)
    {
      var holding := positions[i];
      assert positions[..i + 1][..i] == positions[..i];
      if holding.quantity == 0 { continue; }
      if AcquiredHere(holding, terms.assetId, terms.market) {
        prices := prices[holding.assetId := terms.priceUsd as real];
        continue;
      }
      if holding.assetId == terms.assetId && holding.marketPairId.Some? {
        conflicting := holding.marketPairId;
      }
      if !UsableMark(holding, marks, terms) {
        unmarked := unmarked + [holding.assetId];
        continue;
      }
      prices := prices[holding.assetId := marks[holding.assetId].priceUsd];
      used := used + [marks[holding.assetId]];
    }
    assert positions[..|positions|] == positions;
    state := Conclude(terms, positions, Survey(prices, used, unmarked, conflicting));
  }
}
