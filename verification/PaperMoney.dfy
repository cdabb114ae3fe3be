/**
 Money over whole runs: what is spent, held and realised always adds up to the initial cash, no position
 goes negative or keeps a cost it does not have, and every snapshot balances.
 */
module PaperMoney {
  import opened Numbers
  import opened Wrappers
  import opened Contracts
  import opened PaperAccounts
  import opened Portfolio
  import opened PortfolioValuation
  import opened RiskEngine
  import opened RiskAuthorization
  import opened PaperExecution
  import opened Accounting
  import opened ProfitAndLoss
  import opened PaperService
  import opened EntryHalts
  import opened PaperRuns

  // ------------------------------------------------------------------------------- replacing one row

  function BasisIn(positions: seq<Position>, assetId: string): nat {
    if positions == [] then 0
    else
      var last := positions[|positions| - 1];
      BasisIn(positions[..|positions| - 1], assetId) + if last.assetId == assetId then last.costBasisUsd else 0
  }

  function RealizedIn(positions: seq<Position>, assetId: string): int {
    if positions == [] then 0
    else
      var last := positions[|positions| - 1];
      RealizedIn(positions[..|positions| - 1], assetId) + if last.assetId == assetId then last.realizedPnlUsd else 0
  }

  lemma {:induction false} OthersExactly(positions: seq<Position>, assetId: string)
    ensures forall h :: h in Others(positions, assetId) <==> h in positions && h.assetId != assetId
    ensures Unique(positions) ==> Unique(Others(positions, assetId))
  {
    if positions != [] {
      var rest, last := positions[..|positions| - 1], positions[|positions| - 1];
      OthersExactly(rest, assetId);
      assert positions == rest + [last];
      if last.assetId != assetId && Unique(positions) {
        var others := Others(rest, assetId);
        assert forall i :: 0 <= i < |others| ==> others[i] in others;
        assert forall h :: h in rest ==> h.assetId != last.assetId;
      }
    }
  }

  lemma {:induction false} OthersSums(positions: seq<Position>, assetId: string)
    ensures BasisHeld(Others(positions, assetId)) + BasisIn(positions, assetId) == BasisHeld(positions)
    ensures RealizedSum(Others(positions, assetId)) + RealizedIn(positions, assetId) == RealizedSum(positions)
  {
    if positions != [] {
      var rest, last := positions[..|positions| - 1], positions[|positions| - 1];
      OthersSums(rest, assetId);
      if last.assetId != assetId {
        assert (Others(rest, assetId) + [last])[..|Others(rest, assetId)|] == Others(rest, assetId);
      } else {
        assert Others(positions, assetId) == Others(rest, assetId);
      }
    }
  }

  lemma {:induction false} RowOf(positions: seq<Position>, assetId: string)
    requires Unique(positions)
    ensures var row := FirstOf(positions, assetId);
            && (row.None? ==> BasisIn(positions, assetId) == 0 == RealizedIn(positions, assetId))
            && (row.Some? ==> BasisIn(positions, assetId) == row.value.costBasisUsd
                              && RealizedIn(positions, assetId) == row.value.realizedPnlUsd)
  {
    FirstOfNone(positions, assetId);
    if positions != [] {
      var rest, last := positions[..|positions| - 1], positions[|positions| - 1];
      assert positions == rest + [last];
      RowOf(rest, assetId);
      FirstOfNone(rest, assetId);
      if last.assetId == assetId {
        FirstOfUnique(positions, last);
      } else if FirstOf(rest, assetId).Some? {
        FirstOfUnique(positions, FirstOf(rest, assetId).value);
      }
    }
  }

  /** The row an order continues carries the figures of the stored row, or none at all. */
  lemma OrderPositionFigures(positions: seq<Position>, terms: Terms)
    requires Unique(positions)
    ensures var position := OrderPosition(positions, terms);
            && position.assetId == terms.assetId
            && position.costBasisUsd == BasisIn(positions, terms.assetId)
            && position.realizedPnlUsd == RealizedIn(positions, terms.assetId)
            && (NothingAtNoCost(positions) ==> Sound(position))
  {
    RowOf(positions, terms.assetId);
    FirstOfNone(positions, terms.assetId);
  }

  lemma SavedRows(positions: seq<Position>, updated: Position)
    requires Unique(positions)
    ensures Unique(Saved(positions, updated))
    ensures NothingAtNoCost(positions) && Sound(updated) ==> NothingAtNoCost(Saved(positions, updated))
    ensures BasisHeld(Saved(positions, updated)) == BasisHeld(positions) - BasisIn(positions, updated.assetId) + updated.costBasisUsd
    ensures RealizedSum(Saved(positions, updated))
            == RealizedSum(positions) - RealizedIn(positions, updated.assetId) + updated.realizedPnlUsd
  {
    OthersExactly(positions, updated.assetId);
    OthersSums(positions, updated.assetId);
    var others := Others(positions, updated.assetId);
    assert (others + [updated])[..|others|] == others;
    assert forall i :: 0 <= i < |others| ==> others[i] in others;
  }

  lemma {:induction false} RowWithin(positions: seq<Position>, row: Position)
    requires row in positions
    ensures row.costBasisUsd <= BasisHeld(positions) && Magnitude(row.realizedPnlUsd) <= Turnover(positions)
  {
    if row != positions[|positions| - 1] {
      RowWithin(positions[..|positions| - 1], row);
    }
  }

  lemma {:induction false} OfAssetWithin(positions: seq<Position>, assetId: string)
    ensures BasisIn(positions, assetId) <= BasisHeld(positions)
    ensures Magnitude(RealizedIn(positions, assetId)) <= Turnover(positions)
  {
    if positions != [] {
      OfAssetWithin(positions[..|positions| - 1], assetId);
    }
  }

  // ------------------------------------------------------------------------------------ the invariant

  /** Figures 28 digits hold: less than 10^10 dollars of cash, of cost basis and of results. */
  predicate Bounded(store: Store) {
    Within(store.account.cashUsd) && Within(BasisHeld(store.positions)) && Within(Turnover(store.positions))
  }

  predicate Balanced(snapshots: seq<PnLSnapshot>, initial: int) {
    forall s :: s in snapshots && SnapshotWithin(s) ==> s.equityUsd == initial + s.totalPnlUsd
  }

  predicate Conserved(store: Store) {
    && Unique(store.positions)
    && AccountAtCost(store.positions, store.account.cashUsd) == store.account.initialCashUsd
    && Balanced(store.snapshots, store.account.initialCashUsd)
  }

  /** Cash, fees and the initial figure stay as they are. */
  predicate SameMoney(account: AccountRow, other: AccountRow) {
    && account.cashUsd == other.cashUsd && account.initialCashUsd == other.initialCashUsd
    && account.feesPaidUsd == other.feesPaidUsd
  }

  lemma ControlsKeepMoney(store: Store, decision: RiskDecision, request: Request, fill: ExecutionResult, limits: RiskLimits,
                          at: Instant)
    ensures SameMoney(store.account, RollLossDay(store.account, at))
    ensures SameMoney(store.account, HaltAfter(store, request, fill, limits).account)
  {
  }

  lemma RefusalKeepsMoney(store: Store, decision: RiskDecision, limits: RiskLimits, at: Instant)
    ensures SameMoney(store.account, Refuse(store, decision, limits, at).account)
  {
    hide Refuse;
    RefuseTouchesRow(store, decision, limits, at);
  }

  lemma RequestKeepsMoney(controls: Controls, request: ControlRequest, code: string, at: Instant, limits: RiskLimits,
                          killSwitch: bool)
    ensures SameMoney(controls.account, Requested(controls, request, code, at, limits, killSwitch).account)
  {
    hide RefusalOf, EventFor, LossDay;
  }

  lemma ExecutedHonestly(order: OrderIntent, market: MarketSnapshot)
    requires Execute(order, market).Success?
    ensures Honest(Execute(order, market).value)
  {
    hide FillPrice, FillFees, FillGross, LpControlRefusal;
    var fill := Execute(order, market).value;
    FeesWithinGross(fill.quantity, fill.executionPrice, market.feeBps.value);
  }

  /** What a booking did to the money. */
  lemma BookedMoney(store: Store, request: Request, state: PortfolioState, simulation: Simulation, limits: RiskLimits)
    requires Book(store, request, state, simulation, limits).Success?
    ensures var after := Book(store, request, state, simulation, limits).value;
            && IsAmount(simulation.booking.cash)
            && after.account.cashUsd == simulation.booking.cash
            && after.account.initialCashUsd == store.account.initialCashUsd
            && CalculatePnl(after.positions, state.prices, after.account.cashUsd, after.account.feesPaidUsd).Success?
            && after.snapshots == store.snapshots
               + [CalculatePnl(after.positions, state.prices, after.account.cashUsd, after.account.feesPaidUsd).value]
  {
    hide CalculatePnl, Saved, Whole28, LossDay, HaltAfter;
    var entered := Entered(store, request, simulation).value;
    HaltTouchesControls(entered, request, simulation.fill, limits);
    ControlsKeepMoney(entered, simulation.order.risk, request, simulation.fill, limits, 0);
  }

  lemma AssessedPosition(account: AccountRow, positions: seq<Position>, request: Request, limits: RiskLimits)
    requires Assess(account, positions, request, limits).Success?
    ensures var state := Assess(account, positions, request, limits).value.0;
            && state == Valuation(TermsOf(account, request, limits), positions, request.marks)
            && state.position == OrderPosition(positions, TermsOf(account, request, limits))
            && state.conflictingMarket.None?
  {
    hide Decide, OrderPosition, SurveyOf, Gross, Underwater, Whole28, LedgerFigure;
  }

  /** A booked order leaves the account balanced. */
  lemma BookingConserves(store: Store, request: Request, state: PortfolioState, simulation: Simulation, limits: RiskLimits,
                         terms: Terms, decision: RiskDecision)
    requires Conserved(store) && Bounded(store)
    requires state.position == OrderPosition(store.positions, terms) && terms.assetId == request.intent.assetId
    requires Simulate(store.account.cashUsd, request, state.position, decision) == Success(simulation)
    requires Book(store, request, state, simulation, limits).Success?
    requires Bounded(Book(store, request, state, simulation, limits).value)
    ensures Conserved(Book(store, request, state, simulation, limits).value)
  {
    hide Simulate, Book, Execute, ApplyFill, Saved, OrderPosition, Unique, NothingAtNoCost, CalculatePnl, SnapshotWithin, FillGross, Sound;
    var after := Book(store, request, state, simulation, limits).value;
    var updated := simulation.booking.position;
    SimulatedAbout(store.account.cashUsd, request, state.position, decision);
    ExecutedHonestly(simulation.order, request.market);
    BookedTables(store, request, state, simulation, limits);
    BookedMoney(store, request, state, simulation, limits);
    OrderPositionFigures(store.positions, terms);
    OfAssetWithin(store.positions, terms.assetId);
    UpdatedAsset(state.position, simulation.fill, store.account.cashUsd);
    RowWithin(after.positions, LastSaved(store.positions, updated));
    FillKeepsSound(state.position, simulation.fill, store.account.cashUsd);
    FillConserves(state.position, simulation.fill, store.account.cashUsd);
    SavedRows(store.positions, updated);
    var snapshot := CalculatePnl(after.positions, state.prices, after.account.cashUsd, after.account.feesPaidUsd).value;
    if SnapshotWithin(snapshot) {
      SnapshotBalances(after.positions, state.prices, after.account.cashUsd, after.account.feesPaidUsd);
    }
  }

  lemma UpdatedAsset(position: Position, fill: ExecutionResult, cash: int)
    requires ApplyFill(position, fill, cash).Success?
    ensures ApplyFill(position, fill, cash).value.position.assetId == position.assetId
  {
    hide Whole28, FillGross, RemovedBasis;
  }

  function LastSaved(positions: seq<Position>, updated: Position): (row: Position)
    ensures row in Saved(positions, updated) && row == updated
  {
    var saved := Saved(positions, updated);
    assert saved[|saved| - 1] == updated;
    updated
  }

  lemma OrderConserves(rules: Rules, store: Store, request: Request)
    requires Conserved(store) && Bounded(store) && Bounded(Processed(rules, store, request).0)
    ensures Conserved(Processed(rules, store, request).0)
    ensures Processed(rules, store, request).0.account.initialCashUsd == store.account.initialCashUsd
  {
    hide Assess, Refuse, Simulate, Book, EntryBar, EffectOf, Processed, Governing, Persist, LossDay, OrderPosition,
         Unique, NothingAtNoCost, Balanced;
    var effect, limits := EffectOf(rules, store, request), Governing(rules, request);
    CommitsEffect(rules, store, request);
    EffectRests(rules, store, request);
    if !effect.Nothing? {
      var rolled := store.(account := RollLossDay(store.account, request.now));
      PersistedTables(rolled, request, effect.decision);
      AssessedPosition(rolled.account, store.positions, request, limits);
      if effect.Refused? {
        RefuseTouchesControls(effect.persisted, effect.decision, limits, request.now);
        RefusalKeepsMoney(effect.persisted, effect.decision, limits, request.now);
      } else {
        BookedMoney(effect.persisted, request, effect.state, effect.simulation, limits);
        BookingConserves(effect.persisted, request, effect.state, effect.simulation, limits,
                         TermsOf(rolled.account, request, limits), effect.decision);
      }
    }
  }

  lemma StepConserves(rules: Rules, store: Store, step: Step)
    requires Conserved(store) && Bounded(store) && Bounded(Next(rules, store, step))
    ensures Conserved(Next(rules, store, step))
    ensures Next(rules, store, step).account.initialCashUsd == store.account.initialCashUsd
  {
    hide Processed, Refuse, Requested, Unique, NothingAtNoCost, Balanced, LossDay;
    match step
    case Control(request, code, at, killSwitch) =>
      RequestKeepsMoney(Controls(store.account, store.events), request, code, at, rules.limits, killSwitch);
    case Verdict(decision, limits, at) =>
      var rolled := store.(account := RollLossDay(store.account, at));
      RefuseTouchesControls(rolled, decision, limits, at);
      RefusalKeepsMoney(rolled, decision, limits, at);
    case Order(request) => OrderConserves(rules, store, request);
  }

  /** Every state a run goes through stays below those bounds. */
  predicate BoundedRun(rules: Rules, store: Store, steps: seq<Step>) {
    Bounded(Run(rules, store, steps)) && (steps != [] ==> BoundedRun(rules, store, steps[..|steps| - 1]))
  }

  /**
   Conservation over every run: cash plus the cost of what is held minus what was realised stays the initial
   cash, and every snapshot's equity is the initial cash plus its total result.
   */
  lemma {:induction false} RunConserves(rules: Rules, store: Store, steps: seq<Step>)
    requires Conserved(store) && BoundedRun(rules, store, steps)
    ensures var after := Run(rules, store, steps);
            && after.account.initialCashUsd == store.account.initialCashUsd
            && AccountAtCost(after.positions, after.account.cashUsd) == store.account.initialCashUsd
            && Balanced(after.snapshots, store.account.initialCashUsd)
            && Conserved(after)
  {
    hide Next, Bounded, Unique, Balanced, AccountAtCost;
    if steps != [] {
      RunConserves(rules, store, steps[..|steps| - 1]);
      StepConserves(rules, Run(rules, store, steps[..|steps| - 1]), steps[|steps| - 1]);
    }
  }

  // --------------------------------------------------------------------------- one row per asset

  lemma StepUnique(rules: Rules, store: Store, step: Step)
    requires Unique(store.positions)
    ensures Unique(Next(rules, store, step).positions)
  {
    hide Processed, Refuse, Book, Persist, EffectOf, Assess, Simulate, LossDay, EntryBar, Unique;
    match step
    case Control(_, _, _, _) =>
    case Verdict(decision, limits, at) =>
      RefuseTouchesControls(store.(account := RollLossDay(store.account, at)), decision, limits, at);
    case Order(request) =>
      var effect, limits := EffectOf(rules, store, request), Governing(rules, request);
      CommitsEffect(rules, store, request);
      EffectRests(rules, store, request);
      if !effect.Nothing? {
        PersistedTables(store.(account := RollLossDay(store.account, request.now)), request, effect.decision);
        if effect.Refused? {
          RefuseTouchesControls(effect.persisted, effect.decision, limits, request.now);
        } else {
          BookedTables(effect.persisted, request, effect.state, effect.simulation, limits);
          SavedUnique(store.positions, effect.simulation.booking.position);
        }
      }
  }

  lemma SavedUnique(positions: seq<Position>, updated: Position)
    requires Unique(positions)
    ensures Unique(Saved(positions, updated))
  {
    OthersExactly(positions, updated.assetId);
    var others := Others(positions, updated.assetId);
    assert forall i :: 0 <= i < |others| ==> others[i] in others;
  }

  lemma {:induction false} RunUnique(rules: Rules, store: Store, steps: seq<Step>)
    requires Unique(store.positions)
    ensures Unique(Run(rules, store, steps).positions)
  {
    hide Next, Unique;
    if steps != [] {
      RunUnique(rules, store, steps[..|steps| - 1]);
      StepUnique(rules, Run(rules, store, steps[..|steps| - 1]), steps[|steps| - 1]);
    }
  }

  // --------------------------------------------------------------------------- empty rows cost nothing

  /** Every row's basis is one that a close releases in full. */
  predicate Closable(positions: seq<Position>) {
    forall h :: h in positions ==> h.costBasisUsd <= EXACT_BASIS
  }

  lemma OrderLeavesNoCost(rules: Rules, store: Store, request: Request)
    requires Unique(store.positions) && NothingAtNoCost(store.positions) && Closable(store.positions)
    ensures NothingAtNoCost(Processed(rules, store, request).0.positions)
  {
    hide Assess, Refuse, Simulate, Book, EntryBar, EffectOf, Processed, Governing, Persist, LossDay, OrderPosition, Execute, ApplyFill,
         Unique, NothingAtNoCost, Saved, Sound;
    var effect, limits := EffectOf(rules, store, request), Governing(rules, request);
    CommitsEffect(rules, store, request);
    EffectRests(rules, store, request);
    if !effect.Nothing? {
      var rolled := store.(account := RollLossDay(store.account, request.now));
      PersistedTables(rolled, request, effect.decision);
      if effect.Refused? {
        RefuseTouchesControls(effect.persisted, effect.decision, limits, request.now);
      } else {
        var cash, position := effect.persisted.account.cashUsd, effect.state.position;
        AssessedPosition(rolled.account, store.positions, request, limits);
        SimulatedAbout(cash, request, position, effect.decision);
        ExecutedHonestly(effect.simulation.order, request.market);
        BookedTables(effect.persisted, request, effect.state, effect.simulation, limits);
        OrderRowClosable(store.positions, TermsOf(rolled.account, request, limits));
        FillKeepsSound(position, effect.simulation.fill, cash);
        SavedRows(store.positions, effect.simulation.booking.position);
      }
    }
  }

  lemma OrderRowClosable(positions: seq<Position>, terms: Terms)
    requires Closable(positions)
    ensures OrderPosition(positions, terms).costBasisUsd <= EXACT_BASIS
  {
    FirstOfNone(positions, terms.assetId);
  }

  lemma StepLeavesNoCost(rules: Rules, store: Store, step: Step)
    requires Unique(store.positions) && NothingAtNoCost(store.positions) && Closable(store.positions)
    ensures NothingAtNoCost(Next(rules, store, step).positions)
  {
    hide Processed, Refuse, Requested, Unique, NothingAtNoCost, LossDay;
    match step
    case Control(_, _, _, _) =>
    case Verdict(decision, limits, at) =>
      RefuseTouchesControls(store.(account := RollLossDay(store.account, at)), decision, limits, at);
    case Order(request) => OrderLeavesNoCost(rules, store, request);
  }

  predicate ClosableRun(rules: Rules, store: Store, steps: seq<Step>) {
    Closable(Run(rules, store, steps).positions) && (steps != [] ==> ClosableRun(rules, store, steps[..|steps| - 1]))
  }

  /** Over every run whose rows each hold less than nine hundred million dollars of basis, an empty row costs nothing. */
  lemma {:induction false} RunLeavesNoCost(rules: Rules, store: Store, steps: seq<Step>)
    requires Unique(store.positions) && NothingAtNoCost(store.positions) && ClosableRun(rules, store, steps)
    ensures NothingAtNoCost(Run(rules, store, steps).positions)
  {
    hide Next, Unique, NothingAtNoCost, Closable;
    if steps != [] {
      RunLeavesNoCost(rules, store, steps[..|steps| - 1]);
      RunUnique(rules, store, steps[..|steps| - 1]);
      StepLeavesNoCost(rules, Run(rules, store, steps[..|steps| - 1]), steps[|steps| - 1]);
    }
  }

  // --------------------------------------------------------------------------- every lookup is defined

  predicate Prices(survey: Survey, holding: Position, terms: Terms, marks: map<string, PositionMark>) {
    PricingOf(holding, terms, marks).Own? || PricingOf(holding, terms, marks).Marked? ==> holding.assetId in survey.prices
  }

  lemma StepPricesAsset(survey: Survey, holding: Position, terms: Terms, marks: map<string, PositionMark>)
    ensures Prices(SurveyStep(survey, holding, terms, marks), holding, terms, marks)
    ensures survey.prices.Keys <= SurveyStep(survey, holding, terms, marks).prices.Keys
  {
    hide AcquiredHere, UsableMark;
  }

  lemma {:induction false} PricedAssets(positions: seq<Position>, terms: Terms, marks: map<string, PositionMark>)
    ensures terms.assetId in SurveyOf(positions, terms, marks).prices
    ensures forall h :: h in positions ==> Prices(SurveyOf(positions, terms, marks), h, terms, marks)
  {
    hide PricingOf, SurveyStep;
    if positions != [] {
      var rest, last := positions[..|positions| - 1], positions[|positions| - 1];
      PricedAssets(rest, terms, marks);
      StepPricesAsset(SurveyOf(rest, terms, marks), last, terms, marks);
      assert positions == rest + [last];
      assert SurveyOf(positions, terms, marks) == SurveyStep(SurveyOf(rest, terms, marks), last, terms, marks);
    }
  }

  /** For an approved order no price is ever missing when its snapshot is taken. */
  lemma ApprovedIsPriced(account: AccountRow, positions: seq<Position>, request: Request, limits: RiskLimits, updated: Position)
    requires Unique(positions) && Assess(account, positions, request, limits).Success?
    requires Assess(account, positions, request, limits).value.1.outcome == APPROVE
    requires updated.assetId == request.intent.assetId
    ensures MarketValue(Saved(positions, updated), Assess(account, positions, request, limits).value.0.prices).Success?
  {
    hide Unique, SurveyOf, Saved, PricingOf, OrderPosition, Decide, UnsizedReasons, MarketValue, LedgerFigure, Gross, Underwater;
    var terms, checked := TermsOf(account, request, limits), Checked(limits, account);
    var state := Valuation(terms, positions, request.marks);
    ApprovedExactly(request.intent, request.market, state.context, checked, request.now);
    CleanUnsized(request.intent, request.market, state.context, checked, request.now);
    ValuationExactly(positions, terms, request.marks);
    PricedAssets(positions, terms, request.marks);
    OthersExactly(positions, updated.assetId);
    LookupsDefined(Saved(positions, updated), state.prices);
    forall h | h in Saved(positions, updated) && h.quantity != 0 ensures h.assetId in state.prices {
      SavedIs(positions, updated, h);
      if h in positions && h.quantity != 0 {
        NotUnmarked(h, terms, request.marks);
      }
    }
  }

  lemma NotUnmarked(h: Position, terms: Terms, marks: map<string, PositionMark>)
    requires h.quantity != 0 && !PricingOf(h, terms, marks).Unmarked?
    ensures PricingOf(h, terms, marks).Own? || PricingOf(h, terms, marks).Marked?
  {
  }

  lemma SavedIs(positions: seq<Position>, updated: Position, h: Position)
    requires h in Saved(positions, updated)
    ensures h == updated || h in positions
  {
    OthersExactly(positions, updated.assetId);
  }
}
