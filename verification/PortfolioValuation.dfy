/**
 What the valuation guarantees: it is known exactly when every holding is priced and the figures fit, it
 never understates exposure or loss, the order of the rows does not matter, and the audit record replays
 to the same verdict.
 */
module PortfolioValuation {
  import opened Numbers
  import opened Wrappers
  import opened Contracts
  import opened RiskEngine
  import opened RiskAuthorization
  import opened Portfolio

  /** One row per asset, as the position table's unique key keeps it. */
  predicate Unique(positions: seq<Position>) {
    forall i, j :: 0 <= i < j < |positions| ==> positions[i].assetId != positions[j].assetId
  }

  // ------------------------------------------------------------------ prices, one holding at a time

  /** What a holding is valued at on its own account, whatever else is held. */
  function PriceOfHolding(holding: Position, terms: Terms, marks: map<string, PositionMark>): real {
    match PricingOf(holding, terms, marks)
    case Own => terms.priceUsd as real
    case Marked(mark) => mark.priceUsd
    case Empty => Unpriced(holding.assetId, terms)
    case Unmarked => Unpriced(holding.assetId, terms)
  }

  /** An asset no holding prices: the order's own price for the order's asset, nothing otherwise. */
  function Unpriced(assetId: string, terms: Terms): real {
    if assetId == terms.assetId then terms.priceUsd as real else 0.0
  }

  function Worths(terms: Terms, marks: map<string, PositionMark>): Position -> real {
    (holding: Position) => Worth(holding, PriceOfHolding(holding, terms, marks))
  }

  function Shortfalls(terms: Terms, marks: map<string, PositionMark>): Position -> real {
    (holding: Position) => Shortfall(holding, PriceOfHolding(holding, terms, marks))
  }

  function Total(f: Position -> real, positions: seq<Position>): real {
    if positions == [] then 0.0
    else Total(f, positions[..|positions| - 1]) + f(positions[|positions| - 1])
  }

  /** One row of the loop sets the price of its own asset and of no other. */
  lemma StepPrices(survey: Survey, holding: Position, terms: Terms, marks: map<string, PositionMark>)
    requires PriceOr0(survey.prices, holding.assetId) == Unpriced(holding.assetId, terms)
    ensures var prices := SurveyStep(survey, holding, terms, marks).prices;
            && PriceOr0(prices, holding.assetId) == PriceOfHolding(holding, terms, marks)
            && (forall a :: a != holding.assetId ==> PriceOr0(prices, a) == PriceOr0(survey.prices, a))
  {
    hide AcquiredHere, CurrentAt, UsableMark;
  }

  lemma {:induction false} CollectedPrices(positions: seq<Position>, terms: Terms, marks: map<string, PositionMark>)
    requires Unique(positions)
    ensures var prices := SurveyOf(positions, terms, marks).prices;
            && (forall h :: h in positions ==> PriceOr0(prices, h.assetId) == PriceOfHolding(h, terms, marks))
            && (forall a :: (forall h :: h in positions ==> h.assetId != a) ==> PriceOr0(prices, a) == Unpriced(a, terms))
  {
    hide PriceOfHolding, SurveyStep, PriceOr0;
    if positions == [] {
      OrderPriceAlone(terms);
    } else {
      var rest, last := positions[..|positions| - 1], positions[|positions| - 1];
      CollectedPrices(rest, terms, marks);
      assert positions == rest + [last];
      StepPrices(SurveyOf(rest, terms, marks), last, terms, marks);
    }
  }

  lemma OrderPriceAlone(terms: Terms)
    ensures forall a :: PriceOr0(map[terms.assetId := terms.priceUsd as real], a) == Unpriced(a, terms)
  {
  }

  lemma {:induction false} FiguresAreTotals(positions: seq<Position>, prices: map<string, MarketPrice>, terms: Terms,
                                            marks: map<string, PositionMark>)
    requires forall h :: h in positions ==> PriceOr0(prices, h.assetId) == PriceOfHolding(h, terms, marks)
    ensures Gross(positions, prices) == Total(Worths(terms, marks), positions)
    ensures Underwater(positions, prices) == Total(Shortfalls(terms, marks), positions)
  {
    hide PriceOfHolding, PriceOr0, Shortfall, Worth;
    if positions != [] {
      FiguresAreTotals(positions[..|positions| - 1], prices, terms, marks);
    }
  }

  /** The exact exposure and unrealised loss of the holdings, each at its own price. */
  function ExactExposure(positions: seq<Position>, terms: Terms, marks: map<string, PositionMark>): real {
    Total(Worths(terms, marks), positions)
  }

  function ExactLoss(positions: seq<Position>, terms: Terms, marks: map<string, PositionMark>): real {
    Total(Shortfalls(terms, marks), positions)
  }

  lemma SurveyTotals(positions: seq<Position>, terms: Terms, marks: map<string, PositionMark>)
    requires Unique(positions)
    ensures var prices := SurveyOf(positions, terms, marks).prices;
            && Gross(positions, prices) == ExactExposure(positions, terms, marks) >= 0.0
            && Underwater(positions, prices) == ExactLoss(positions, terms, marks) >= 0.0
  {
    CollectedPrices(positions, terms, marks);
    FiguresAreTotals(positions, SurveyOf(positions, terms, marks).prices, terms, marks);
    FiguresNonNegative(positions, SurveyOf(positions, terms, marks).prices);
  }

  // --------------------------------------------------------------------------- what the loop records

  lemma {:induction false} UsedExactly(positions: seq<Position>, terms: Terms, marks: map<string, PositionMark>, mark: PositionMark)
    ensures mark in SurveyOf(positions, terms, marks).used
            <==> exists h :: h in positions && PricingOf(h, terms, marks) == Marked(mark)
  {
    hide PricingOf, Conflict;
    if positions != [] {
      var rest, last := positions[..|positions| - 1], positions[|positions| - 1];
      UsedExactly(rest, terms, marks, mark);
      assert positions == rest + [last];
      assert SurveyOf(positions, terms, marks) == SurveyStep(SurveyOf(rest, terms, marks), last, terms, marks);
    }
  }

  lemma {:induction false} UnmarkedExactly(positions: seq<Position>, terms: Terms, marks: map<string, PositionMark>, assetId: string)
    ensures assetId in SurveyOf(positions, terms, marks).unmarked
            <==> exists h :: h in positions && h.assetId == assetId && PricingOf(h, terms, marks) == Unmarked
  {
    hide PricingOf, Conflict;
    if positions != [] {
      var rest, last := positions[..|positions| - 1], positions[|positions| - 1];
      UnmarkedExactly(rest, terms, marks, assetId);
      assert positions == rest + [last];
      assert SurveyOf(positions, terms, marks) == SurveyStep(SurveyOf(rest, terms, marks), last, terms, marks);
    }
  }

  /** Marks and unmarked assets are exactly those of the holdings that rest on one or lack one. */
  lemma Recorded(positions: seq<Position>, terms: Terms, marks: map<string, PositionMark>)
    ensures var survey := SurveyOf(positions, terms, marks);
            && (forall m :: m in survey.used <==> exists h :: h in positions && PricingOf(h, terms, marks) == Marked(m))
            && (forall a :: a in survey.unmarked <==>
                  exists h :: h in positions && h.assetId == a && PricingOf(h, terms, marks) == Unmarked)
  {
    hide PricingOf, SurveyOf;
    forall m ensures m in SurveyOf(positions, terms, marks).used
                     <==> exists h :: h in positions && PricingOf(h, terms, marks) == Marked(m) {
      UsedExactly(positions, terms, marks, m);
    }
    forall a ensures a in SurveyOf(positions, terms, marks).unmarked
                     <==> exists h :: h in positions && h.assetId == a && PricingOf(h, terms, marks) == Unmarked {
      UnmarkedExactly(positions, terms, marks, a);
    }
  }

  lemma StepConflict(survey: Survey, holding: Position, terms: Terms, marks: map<string, PositionMark>)
    ensures SurveyStep(survey, holding, terms, marks).conflicting
            == if Conflict(holding, terms).Some? then Conflict(holding, terms) else survey.conflicting
  {
    hide AcquiredHere, UsableMark;
  }

  /** A conflict is reported exactly when some holding of the order's asset was bought elsewhere. */
  lemma {:induction false} ConflictExactly(positions: seq<Position>, terms: Terms, marks: map<string, PositionMark>)
    ensures var found := SurveyOf(positions, terms, marks).conflicting;
            && (found.None? ==> forall h :: h in positions ==> Conflict(h, terms).None?)
            && (found.Some? ==> exists h :: h in positions && Conflict(h, terms) == found)
  {
    hide Conflict, SurveyStep;
    if positions != [] {
      var rest, last := positions[..|positions| - 1], positions[|positions| - 1];
      ConflictExactly(rest, terms, marks);
      StepConflict(SurveyOf(rest, terms, marks), last, terms, marks);
      assert positions == rest + [last];
    }
  }

  lemma {:induction false} FirstOfUnique(positions: seq<Position>, holding: Position)
    requires Unique(positions) && holding in positions
    ensures FirstOf(positions, holding.assetId) == Some(holding)
  {
    if positions[0] != holding {
      FirstOfUnique(positions[1..], holding);
    }
  }

  lemma {:induction false} FirstOfNone(positions: seq<Position>, assetId: string)
    ensures FirstOf(positions, assetId).None? <==> forall h :: h in positions ==> h.assetId != assetId
    ensures FirstOf(positions, assetId).Some? ==>
              FirstOf(positions, assetId).value in positions && FirstOf(positions, assetId).value.assetId == assetId
  {
    if positions != [] {
      FirstOfNone(positions[1..], assetId);
      assert positions == [positions[0]] + positions[1..];
    }
  }

  // ----------------------------------------------------------------------- known exactly when it may be

  /** Every non-empty holding is priced by the market it was bought in or by a current mark. */
  predicate EveryHoldingPriced(positions: seq<Position>, terms: Terms, marks: map<string, PositionMark>) {
    forall h :: h in positions ==> !PricingOf(h, terms, marks).Unmarked?
  }

  function RoundedLoss(positions: seq<Position>, terms: Terms, marks: map<string, PositionMark>): int {
    Whole28(terms.realizedLossTodayUsd + QuantizeUp(ExactLoss(positions, terms, marks)))
  }

  /**
   The accounting is known exactly when every holding is priced and both figures fit the ledger, and then
   the reported exposure lies in [exact, exact + 1 quantum).
   */
  lemma ValuationExactly(positions: seq<Position>, terms: Terms, marks: map<string, PositionMark>)
    requires Unique(positions)
    ensures var context := Valuation(terms, positions, marks).context;
            var exposure, loss := ExactExposure(positions, terms, marks), ExactLoss(positions, terms, marks);
            && (context.accounting == PASS
                <==> && EveryHoldingPriced(positions, terms, marks)
                     && exposure <= (LEDGER_BOUND - 1) as real && loss <= (LEDGER_BOUND - 1) as real
                     && RoundedLoss(positions, terms, marks) < LEDGER_BOUND)
            && (context.accounting == PASS ==>
                  && context.exposureUsd.Some? && context.dailyLossUsd.Some?
                  && exposure <= context.exposureUsd.value as real < exposure + 1.0
                  && context.dailyLossUsd.value == RoundedLoss(positions, terms, marks))
            && (context.accounting != PASS ==> context.exposureUsd.None? && context.dailyLossUsd.None?)
  {
    hide Whole28, PricingOf, SurveyOf, ExactExposure, ExactLoss, Gross, Underwater, OrderPosition;
    SurveyTotals(positions, terms, marks);
    Recorded(positions, terms, marks);
    var survey := SurveyOf(positions, terms, marks);
    var exposure, loss := ExactExposure(positions, terms, marks), ExactLoss(positions, terms, marks);
    assert survey.unmarked == [] <==> EveryHoldingPriced(positions, terms, marks) by {
      if survey.unmarked != [] {
        assert survey.unmarked[0] in survey.unmarked;
      }
      forall h | h in positions && PricingOf(h, terms, marks) == Unmarked ensures h.assetId in survey.unmarked {
      }
    }
    QuantizeUpLeast(exposure, LEDGER_BOUND - 1);
    QuantizeUpLeast(loss, LEDGER_BOUND - 1);
    Whole28Sign(terms.realizedLossTodayUsd + QuantizeUp(loss));
    FigureExactly(exposure);
    FigureExactly(loss);
  }

  lemma FigureExactly(exact: real)
    requires exact >= 0.0
    ensures LedgerFigure(exact).Some? <==> exact <= (LEDGER_BOUND - 1) as real
    ensures LedgerFigure(exact).Some? ==> LedgerFigure(exact).value == QuantizeUp(exact)
  {
    QuantizeUpLeast(exact, LEDGER_BOUND - 1);
  }

  /**
   Rounding is on the safe side: a purchase that passes the exposure and daily-loss limits on the rounded
   figures passes them on the exact ones, for limits that 28 digits keep, as they do all below 10^10 dollars.
   */
  lemma LimitsHoldExactly(intent: TradeIntent, market: MarketSnapshot, limits: RiskLimits, positions: seq<Position>,
                          terms: Terms, marks: map<string, PositionMark>)
    requires Unique(positions) && intent.side == BUY
    requires Whole28(limits.maxExposureUsd + 1) > limits.maxExposureUsd && Whole28(limits.dailyLossLimitUsd) >= limits.dailyLossLimitUsd
    requires var decision := Decide(intent, market, Valuation(terms, positions, marks).context, limits, terms.now);
             decision.Success? && decision.value.outcome == APPROVE
    ensures ExactExposure(positions, terms, marks) + OrderCost(intent, market, limits) as real
            <= limits.maxExposureUsd as real
    ensures terms.realizedLossTodayUsd as real + ExactLoss(positions, terms, marks) < limits.dailyLossLimitUsd as real
  {
    hide Whole28, PositionAfter, WorstCost, OrderNotional, PermittedSlippage, KnownFee, GateReasons, FailedChecks,
         Checks, LpReasons, HolderReasons, LiquidityReasons, FdvReasons, CostReasons, Representable,
         ExactExposure, ExactLoss, Valuation;
    var context := Valuation(terms, positions, marks).context;
    ApprovedExactly(intent, market, context, limits, terms.now);
    CleanUnsized(intent, market, context, limits, terms.now);
    ValuationExactly(positions, terms, marks);
    assert PortfolioReasons(BUY, context, limits) == [];
    var cost := OrderCost(intent, market, limits);
    LimitKeptExactly(limits.maxExposureUsd);
    assert Whole28(context.exposureUsd.value + cost) <= limits.maxExposureUsd;
    var loss := QuantizeUp(ExactLoss(positions, terms, marks));
    QuantizeUpLeast(ExactLoss(positions, terms, marks), loss);
    BarKeptExactly(limits.dailyLossLimitUsd);
    assert Whole28(terms.realizedLossTodayUsd + loss) < limits.dailyLossLimitUsd;
  }

  // ------------------------------------------------------------------------------ order of the rows

  lemma {:induction false} TotalWithout(f: Position -> real, positions: seq<Position>, i: nat)
    requires i < |positions|
    ensures Total(f, positions) == Total(f, positions[..i] + positions[i + 1..]) + f(positions[i])
  {
    var last := |positions| - 1;
    if i < last {
      TotalWithout(f, positions[..last], i);
      var shorter := positions[..i] + positions[i + 1..];
      assert shorter[..|shorter| - 1] == positions[..last][..i] + positions[..last][i + 1..];
      assert shorter[|shorter| - 1] == positions[last];
    } else {
      assert positions[..i] + positions[i + 1..] == positions[..last];
    }
  }

  lemma WithoutOne(positions: seq<Position>, i: nat)
    requires i < |positions|
    ensures multiset(positions[..i] + positions[i + 1..]) == multiset(positions) - multiset{positions[i]}
  {
    assert positions == positions[..i] + [positions[i]] + positions[i + 1..];
  }

  lemma {:induction false} TotalPermutes(f: Position -> real, positions: seq<Position>, reordered: seq<Position>)
    requires multiset(positions) == multiset(reordered)
    ensures Total(f, positions) == Total(f, reordered)
    decreases |positions|
  {
    assert |positions| == |multiset(positions)| == |multiset(reordered)| == |reordered|;
    if positions != [] {
      var last := |positions| - 1;
      assert positions[last] in multiset(reordered);
      var i :| 0 <= i < |reordered| && reordered[i] == positions[last];
      WithoutOne(positions, last);
      WithoutOne(reordered, i);
      assert positions[..last] + positions[last + 1..] == positions[..last];
      TotalPermutes(f, positions[..last], reordered[..i] + reordered[i + 1..]);
      TotalWithout(f, reordered, i);
    }
  }

  lemma {:induction false} TotalAgrees(f: Position -> real, g: Position -> real, positions: seq<Position>)
    requires forall h :: h in positions ==> f(h) == g(h)
    ensures Total(f, positions) == Total(g, positions)
  {
    if positions != [] {
      TotalAgrees(f, g, positions[..|positions| - 1]);
    }
  }

  /** Two portfolios one valuation cannot tell apart. */
  ghost predicate SameVerdict(state: PortfolioState, other: PortfolioState) {
    && state.context == other.context
    && state.accountingIssues == other.accountingIssues
    && state.conflictingMarket == other.conflictingMarket
    && (forall m :: m in state.marksUsed <==> m in other.marksUsed)
    && (forall a :: a in state.unmarkedAssets <==> a in other.unmarkedAssets)
  }

  /** The verdict depends on the non-empty rows as a set, and on the two totals. */
  lemma SameRowsSameVerdict(positions: seq<Position>, others: seq<Position>, terms: Terms,
                            marks: map<string, PositionMark>, otherMarks: map<string, PositionMark>)
    requires Unique(positions) && Unique(others)
    requires forall h: Position :: h.quantity != 0 ==> (h in positions <==> h in others)
    requires forall h :: h in positions ==> PricingOf(h, terms, marks) == PricingOf(h, terms, otherMarks)
    requires ExactExposure(positions, terms, marks) == ExactExposure(others, terms, otherMarks)
    requires ExactLoss(positions, terms, marks) == ExactLoss(others, terms, otherMarks)
    ensures SameVerdict(Valuation(terms, positions, marks), Valuation(terms, others, otherMarks))
  {
    hide Whole28, SurveyOf, ExactExposure, ExactLoss, Gross, Underwater, LedgerFigure, UsableMark, AcquiredHere;
    SurveyTotals(positions, terms, marks);
    SurveyTotals(others, terms, otherMarks);
    SameRecords(positions, others, terms, marks, otherMarks);
    SameConflict(positions, others, terms, marks, otherMarks);
    SameOrderQuantity(positions, others, terms);
    var unmarked, unmarked' := SurveyOf(positions, terms, marks).unmarked, SurveyOf(others, terms, otherMarks).unmarked;
    assert unmarked == [] <==> unmarked' == [] by {
      if unmarked != [] { assert unmarked[0] in unmarked'; }
      if unmarked' != [] { assert unmarked'[0] in unmarked; }
    }
  }

  lemma SameRecords(positions: seq<Position>, others: seq<Position>, terms: Terms, marks: map<string, PositionMark>,
                    otherMarks: map<string, PositionMark>)
    requires forall h: Position :: h.quantity != 0 ==> (h in positions <==> h in others)
    requires forall h :: h in positions ==> PricingOf(h, terms, marks) == PricingOf(h, terms, otherMarks)
    ensures var survey, survey' := SurveyOf(positions, terms, marks), SurveyOf(others, terms, otherMarks);
            && (forall m :: m in survey.used <==> m in survey'.used)
            && (forall a :: a in survey.unmarked <==> a in survey'.unmarked)
  {
    hide UsableMark, AcquiredHere, SurveyOf;
    Recorded(positions, terms, marks);
    Recorded(others, terms, otherMarks);
    forall h | h in others && h.quantity != 0
      ensures h in positions && PricingOf(h, terms, marks) == PricingOf(h, terms, otherMarks)
    {
    }
  }

  lemma SameConflict(positions: seq<Position>, others: seq<Position>, terms: Terms, marks: map<string, PositionMark>,
                     otherMarks: map<string, PositionMark>)
    requires Unique(positions) && Unique(others)
    requires forall h: Position :: h.quantity != 0 ==> (h in positions <==> h in others)
    ensures SurveyOf(positions, terms, marks).conflicting == SurveyOf(others, terms, otherMarks).conflicting
  {
    hide AcquiredHere, SurveyOf;
    ConflictExactly(positions, terms, marks);
    ConflictExactly(others, terms, otherMarks);
  }

  lemma SameOrderQuantity(positions: seq<Position>, others: seq<Position>, terms: Terms)
    requires Unique(positions) && Unique(others)
    requires forall h: Position :: h.quantity != 0 ==> (h in positions <==> h in others)
    ensures OrderPosition(positions, terms).quantity == OrderPosition(others, terms).quantity
  {
    FirstOfNone(positions, terms.assetId);
    FirstOfNone(others, terms.assetId);
    var row, row' := FirstOf(positions, terms.assetId), FirstOf(others, terms.assetId);
    if row.Some? && row.value.quantity != 0 {
      FirstOfUnique(others, row.value);
    }
    if row'.Some? && row'.value.quantity != 0 {
      FirstOfUnique(positions, row'.value);
    }
  }

  /** The order in which the rows arrive changes nothing. */
  lemma OrderOfRowsIrrelevant(positions: seq<Position>, reordered: seq<Position>, terms: Terms,
                              marks: map<string, PositionMark>)
    requires multiset(positions) == multiset(reordered)
    requires Unique(positions)
    ensures SameVerdict(Valuation(terms, positions, marks), Valuation(terms, reordered, marks))
  {
    hide PricingOf, Valuation;
    UniquePermutes(positions, reordered);
    TotalPermutes(Worths(terms, marks), positions, reordered);
    TotalPermutes(Shortfalls(terms, marks), positions, reordered);
    forall h ensures h in positions <==> h in reordered {
      assert h in positions <==> h in multiset(positions);
      assert h in reordered <==> h in multiset(reordered);
    }
    SameRowsSameVerdict(positions, reordered, terms, marks, marks);
  }

  // -------------------------------------------------------------------------------- the audit record

  /** Lexicographic order of asset names. */
  predicate NameUpTo(a: string, b: string) {
    a == [] || (b != [] && (a[0] < b[0] || (a[0] == b[0] && NameUpTo(a[1..], b[1..]))))
  }

  lemma {:induction false} NameOrder(a: string, b: string, c: string)
    ensures NameUpTo(a, b) || NameUpTo(b, a)
    ensures NameUpTo(a, b) && NameUpTo(b, c) ==> NameUpTo(a, c)
    ensures NameUpTo(a, b) && NameUpTo(b, a) ==> a == b
  {
    if a != [] && b != [] {
      NameOrder(a[1..], b[1..], if c == [] then c else c[1..]);
      assert a == [a[0]] + a[1..] && b == [b[0]] + b[1..];
    }
  }

  predicate Sorted(positions: seq<Position>) {
    forall i, j :: 0 <= i < j < |positions| ==> NameUpTo(positions[i].assetId, positions[j].assetId)
  }

  function Inserted(positions: seq<Position>, holding: Position): seq<Position> {
    if positions == [] || NameUpTo(positions[|positions| - 1].assetId, holding.assetId) then positions + [holding]
    else Inserted(positions[..|positions| - 1], holding) + [positions[|positions| - 1]]
  }

  /** The non-empty rows in order of their asset. */
  function HeldInOrder(positions: seq<Position>): seq<Position> {
    if positions == [] then []
    else
      var rest, last := HeldInOrder(positions[..|positions| - 1]), positions[|positions| - 1];
      if last.quantity == 0 then rest else Inserted(rest, last)
  }

  lemma {:induction false} InsertedOrder(positions: seq<Position>, holding: Position)
    requires Sorted(positions)
    ensures Sorted(Inserted(positions, holding))
    ensures multiset(Inserted(positions, holding)) == multiset(positions) + multiset{holding}
  {
    if positions != [] {
      var rest, last := positions[..|positions| - 1], positions[|positions| - 1];
      assert positions == rest + [last];
      if NameUpTo(last.assetId, holding.assetId) {
        forall i | 0 <= i < |rest| ensures NameUpTo(positions[i].assetId, holding.assetId) {
          NameOrder(positions[i].assetId, last.assetId, holding.assetId);
        }
      } else {
        InsertedOrder(rest, holding);
        NameOrder(holding.assetId, last.assetId, last.assetId);
        var placed := Inserted(rest, holding);
        forall i | 0 <= i < |placed| ensures NameUpTo(placed[i].assetId, last.assetId) {
          assert placed[i] in multiset(placed);
          assert placed[i] == holding || placed[i] in rest;
        }
      }
    }
  }

  lemma NothingSorted()
    ensures Sorted([])
  {
  }

  lemma OneMoreRow(positions: seq<Position>, holding: Position)
    requires Sorted(positions) && Unique(positions) && forall h :: h in positions ==> h.assetId != holding.assetId
    ensures Sorted(Inserted(positions, holding)) && Unique(Inserted(positions, holding))
    ensures forall h :: h in Inserted(positions, holding) <==> h in positions || h == holding
  {
    hide Inserted, Sorted;
    InsertedOrder(positions, holding);
    assert multiset(Inserted(positions, holding)) == multiset(positions + [holding]);
    assert forall i :: 0 <= i < |positions| ==> positions[i] in positions;
    UniquePermutes(positions + [holding], Inserted(positions, holding));
    forall h ensures h in Inserted(positions, holding) <==> h in positions || h == holding {
      assert h in Inserted(positions, holding) <==> h in multiset(Inserted(positions, holding));
    }
  }

  /** The record lists every non-empty row once, in asset order. */
  lemma {:induction false} HeldRows(positions: seq<Position>)
    requires Unique(positions)
    ensures Sorted(HeldInOrder(positions)) && Unique(HeldInOrder(positions))
    ensures forall h :: h in HeldInOrder(positions) <==> h in positions && h.quantity != 0
  {
    hide Inserted, Sorted;
    assert Sorted([]) by { NothingSorted(); }
    if positions != [] {
      var rest, last := positions[..|positions| - 1], positions[|positions| - 1];
      HeldRows(rest);
      assert positions == rest + [last];
      if last.quantity != 0 {
        assert forall h :: h in rest ==> h.assetId != last.assetId;
        OneMoreRow(HeldInOrder(rest), last);
      }
    }
  }

  lemma UniquePermutes(positions: seq<Position>, reordered: seq<Position>)
    requires Unique(positions) && multiset(positions) == multiset(reordered)
    ensures Unique(reordered)
  {
    forall i, j | 0 <= i < j < |reordered| ensures reordered[i].assetId != reordered[j].assetId {
      var x, y := reordered[i], reordered[j];
      assert x in multiset(reordered) && y in multiset(reordered);
      if x == y {
        assert reordered == reordered[..i] + [x] + reordered[i + 1..j] + [y] + reordered[j + 1..];
        assert multiset(reordered)[x] >= 2;
        OnceOnly(positions, x);
      } else {
        assert x in positions && y in positions;
      }
    }
  }

  lemma {:induction false} OnceOnly(positions: seq<Position>, holding: Position)
    requires Unique(positions)
    ensures multiset(positions)[holding] <= 1
  {
    if positions != [] {
      var rest, last := positions[..|positions| - 1], positions[|positions| - 1];
      OnceOnly(rest, holding);
      assert positions == rest + [last];
    }
  }

  lemma {:induction false} TotalOfHeld(f: Position -> real, positions: seq<Position>)
    requires forall h :: h in positions && h.quantity == 0 ==> f(h) == 0.0
    ensures Total(f, HeldInOrder(positions)) == Total(f, positions)
  {
    hide Inserted;
    if positions != [] {
      var rest, last := positions[..|positions| - 1], positions[|positions| - 1];
      TotalOfHeld(f, rest);
      if last.quantity != 0 {
        InsertedIsPermutation(HeldInOrder(rest), last);
        var joined := HeldInOrder(rest) + [last];
        TotalPermutes(f, Inserted(HeldInOrder(rest), last), joined);
        assert joined[..|joined| - 1] == HeldInOrder(rest);
      }
    }
  }

  lemma {:induction false} InsertedIsPermutation(positions: seq<Position>, holding: Position)
    ensures multiset(Inserted(positions, holding)) == multiset(positions + [holding])
  {
    if positions != [] {
      InsertedIsPermutation(positions[..|positions| - 1], holding);
      assert positions == positions[..|positions| - 1] + [positions[|positions| - 1]];
    }
  }

  /** Everything a valuation rested on; the figures it reached are stored beside it. */
  datatype PortfolioBasis = PortfolioBasis(
    terms: Terms,
    holdings: seq<Position>,
    positionMarks: seq<PositionMark>,
    context: RiskContext,
    unmarkedAssets: seq<string>,
    accountingIssues: seq<AccountingIssue>,
    conflictingMarket: Option<string>
  )

  function BasisOf(state: PortfolioState): PortfolioBasis {
    PortfolioBasis(state.terms, HeldInOrder(state.positions), state.marksUsed, state.context, state.unmarkedAssets,
                   state.accountingIssues, state.conflictingMarket)
  }

  function MarksByAsset(used: seq<PositionMark>): map<string, PositionMark> {
    if used == [] then map[]
    else
      var last := used[|used| - 1];
      MarksByAsset(used[..|used| - 1])[last.assetId := last]
  }

  /** A stored valuation recomputed through the code that produced it. */
  function Replay(basis: PortfolioBasis): PortfolioState
  {
    Valuation(basis.terms, basis.holdings, MarksByAsset(basis.positionMarks))
  }

  predicate OneMarkPerAsset(used: seq<PositionMark>) {
    forall m, n :: m in used && n in used && m.assetId == n.assetId ==> m == n
  }

  lemma {:induction false} MarksByAssetExactly(used: seq<PositionMark>)
    requires OneMarkPerAsset(used)
    ensures forall m :: m in used ==> m.assetId in MarksByAsset(used) && MarksByAsset(used)[m.assetId] == m
    ensures forall a :: a in MarksByAsset(used) ==> MarksByAsset(used)[a] in used && MarksByAsset(used)[a].assetId == a
  {
    if used != [] {
      MarksByAssetExactly(used[..|used| - 1]);
      assert used == used[..|used| - 1] + [used[|used| - 1]];
    }
  }

  lemma RowOfAsset(positions: seq<Position>, h: Position, k: Position)
    requires Unique(positions) && h in positions && k in positions && h.assetId == k.assetId
    ensures h == k
  {
  }

  lemma MarkOfHolding(holding: Position, mark: PositionMark, terms: Terms, marks: map<string, PositionMark>)
    requires PricingOf(holding, terms, marks) == Marked(mark)
    ensures mark.assetId == holding.assetId
  {
  }

  lemma RecordedOncePerAsset(positions: seq<Position>, terms: Terms, marks: map<string, PositionMark>)
    requires Unique(positions)
    ensures OneMarkPerAsset(SurveyOf(positions, terms, marks).used)
  {
    hide PricingOf, SurveyOf;
    Recorded(positions, terms, marks);
    var used := SurveyOf(positions, terms, marks).used;
    forall m, n | m in used && n in used && m.assetId == n.assetId ensures m == n {
      assert exists h :: h in positions && PricingOf(h, terms, marks) == Marked(m);
      assert exists h :: h in positions && PricingOf(h, terms, marks) == Marked(n);
      var h :| h in positions && PricingOf(h, terms, marks) == Marked(m);
      var k :| k in positions && PricingOf(k, terms, marks) == Marked(n);
      MarkOfHolding(h, m, terms, marks);
      MarkOfHolding(k, n, terms, marks);
      RowOfAsset(positions, h, k);
    }
  }

  /** Pricing from the recorded marks alone is pricing from all the marks there were. */
  lemma ReplayedPricing(positions: seq<Position>, terms: Terms, marks: map<string, PositionMark>)
    requires Unique(positions)
    ensures var recorded := MarksByAsset(SurveyOf(positions, terms, marks).used);
            forall h :: h in positions ==> PricingOf(h, terms, recorded) == PricingOf(h, terms, marks)
  {
    hide AcquiredHere, CurrentAt, SurveyOf;
    Recorded(positions, terms, marks);
    var used := SurveyOf(positions, terms, marks).used;
    RecordedOncePerAsset(positions, terms, marks);
    MarksByAssetExactly(used);
    forall h | h in positions ensures PricingOf(h, terms, MarksByAsset(used)) == PricingOf(h, terms, marks) {
      if h.quantity != 0 && !AcquiredHere(h, terms.assetId, terms.market) {
        ReplayedMark(positions, h, terms, marks, used);
      }
    }
  }

  lemma ReplayedMark(positions: seq<Position>, h: Position, terms: Terms, marks: map<string, PositionMark>,
                     used: seq<PositionMark>)
    requires Unique(positions) && h in positions && h.quantity != 0 && !AcquiredHere(h, terms.assetId, terms.market)
    requires forall m :: m in used <==> exists k :: k in positions && PricingOf(k, terms, marks) == Marked(m)
    requires forall m :: m in used ==> m.assetId in MarksByAsset(used) && MarksByAsset(used)[m.assetId] == m
    requires forall a :: a in MarksByAsset(used) ==> MarksByAsset(used)[a] in used && MarksByAsset(used)[a].assetId == a
    ensures PricingOf(h, terms, MarksByAsset(used)) == PricingOf(h, terms, marks)
  {
    hide AcquiredHere, CurrentAt, MarksByAsset;
    if UsableMark(h, marks, terms) {
      assert PricingOf(h, terms, marks) == Marked(marks[h.assetId]);
      assert marks[h.assetId] in used;
    } else if h.assetId in MarksByAsset(used) {
      assert MarksByAsset(used)[h.assetId] in used;
    }
  }

  /** A row that holds nothing costs nothing: what the accounting leaves behind. */
  predicate NothingAtNoCost(positions: seq<Position>) {
    forall h :: h in positions && h.quantity == 0 ==> h.costBasisUsd == 0
  }

  lemma EmptyRowsCountNothing(positions: seq<Position>, terms: Terms, marks: map<string, PositionMark>)
    requires NothingAtNoCost(positions)
    ensures forall h :: h in positions && h.quantity == 0 ==>
              Worths(terms, marks)(h) == 0.0 && Shortfalls(terms, marks)(h) == 0.0
  {
    hide PriceOfHolding;
    forall h | h in positions && h.quantity == 0
      ensures Worths(terms, marks)(h) == 0.0 && Shortfalls(terms, marks)(h) == 0.0
    {
      assert Worth(h, PriceOfHolding(h, terms, marks)) == 0.0;
    }
  }

  /**
   The audit record replays: dropping the empty rows, sorting the rest and keeping only the marks relied on
   reproduces the verdict and every figure recorded beside them.
   */
  lemma ReplayReproduces(positions: seq<Position>, terms: Terms, marks: map<string, PositionMark>)
    requires Unique(positions) && NothingAtNoCost(positions)
    ensures var state := Valuation(terms, positions, marks);
            SameVerdict(state, Replay(BasisOf(state)))
  {
    hide PricingOf, SurveyOf, HeldInOrder, MarksByAsset, Gross, Underwater, LedgerFigure, Whole28;
    var recorded := MarksByAsset(SurveyOf(positions, terms, marks).used);
    var held := HeldInOrder(positions);
    HeldRows(positions);
    ReplayedPricing(positions, terms, marks);
    EmptyRowsCountNothing(positions, terms, marks);
    TotalOfHeld(Worths(terms, marks), positions);
    TotalOfHeld(Shortfalls(terms, marks), positions);
    TotalAgrees(Worths(terms, marks), Worths(terms, recorded), held);
    TotalAgrees(Shortfalls(terms, marks), Shortfalls(terms, recorded), held);
    SameRowsSameVerdict(positions, held, terms, marks, recorded);
  }
}
