/**
 The narrow read that prices open positions before the account lock is taken: a mark from the market a holding
 was acquired in, or the reason there is none.
 */
module PositionMarks {
  import opened Wrappers
  import opened Contracts
  import opened MarketIdentities
  import opened MarketReadings
  import opened MarketScopes
  import opened MarketRecorders
  import opened MarketReaders
  import opened Portfolio
  import opened PortfolioValuation

  datatype ValuationRefusal =
    | POSITION_MARKET_UNKNOWN
    | MARKET_NOT_RECORDED
    | PRICE_UNAVAILABLE
    | PRICE_ASSET_MISMATCH
    | MARKET_IDENTITY_MISMATCH
    | PRICE_STALE
    | PRICE_NOT_YET_OBSERVED

  datatype UnvaluedPosition = UnvaluedPosition(assetId: string, reason: ValuationRefusal, pairId: Option<string>)

  datatype ReadValuation = ReadValuation(
    marks: seq<PositionMark>,
    unvalued: seq<UnvaluedPosition>,
    consideredAssets: seq<string>
  )

  /** The recorded market layer as a port: every answer is its own, and selecting by scope may not be offered. */
  datatype Markets = Markets(latest: string -> Option<Reading>, latestIn: Option<MarketScope -> Option<Reading>>)

  /** The reader, and the identities known of the holdings from the cases that bought them. */
  datatype PositionValuationReader = PositionValuationReader(
    markets: Markets,
    maxAgeSeconds: nat,
    identities: map<string, MarketIdentity>
  )

  /** The newest current reading of exactly this market, or none: an answer of another market is not taken. */
  function ReadIn(markets: Markets, scope: MarketScope): Option<Reading> {
    var found :=
      match markets.latestIn
      case Some(select) => select(scope)
      case None => markets.latest(scope.pairId);
    if found.Some? && Matches(scope, found.value) then found else None
  }

  /** Whether the recorded market is the one the position names. */
  predicate SameMarket(reading: Reading, holding: Position) {
    && Agrees(reading.seen.chain, holding.marketChain)
    && Agrees(reading.seen.network, holding.marketNetwork)
    && Agrees(reading.seen.provider, holding.marketProvider)
  }

  /** Why a holding's own scope has no reading: none at all, another asset of its market, or another market. */
  function Unread(markets: Markets, held: MarketScope): ValuationRefusal {
    match markets.latest(held.pairId)
    case None => MARKET_NOT_RECORDED
    case Some(other) =>
      if Matches(held.(baseAssetId := None), other) then PRICE_ASSET_MISMATCH else MARKET_IDENTITY_MISMATCH
  }

  function MarkFrom(reading: Reading, holding: Position, pairId: string, now: Instant, maxAgeSeconds: nat)
    : Result<PositionMark, ValuationRefusal>
  {
    var price := reading.price;
    if reading.pair.pairId != pairId || !SameMarket(reading, holding) then Failure(MARKET_IDENTITY_MISMATCH)
    else if price.status != AVAILABLE || price.valueUsd.None? then Failure(PRICE_UNAVAILABLE)
    else if price.valueUsd.value <= 0.0 then Failure(PRICE_UNAVAILABLE)
    else if price.seen.assetId != holding.assetId then Failure(PRICE_ASSET_MISMATCH)
    else if now - price.seen.observedAt < 0 then Failure(PRICE_NOT_YET_OBSERVED)
    else if now - price.seen.observedAt > maxAgeSeconds * SECOND then Failure(PRICE_STALE)
    else
      Success(PositionMark(holding.assetId, pairId, price.seen.provider, price.seen.id, price.valueUsd.value,
                           price.seen.observedAt))
  }

  /** The mark of one holding, or why there is none. */
  function MarkOf(reader: PositionValuationReader, holding: Position, now: Instant): Result<PositionMark, ValuationRefusal> {
    match HeldScope(holding)
    case None => Failure(POSITION_MARKET_UNKNOWN)
    case Some(held) =>
      if holding.assetId in reader.identities && !MatchesIdentity(held, reader.identities[holding.assetId])
      then Failure(MARKET_IDENTITY_MISMATCH)
      else
        var scope := if holding.assetId in reader.identities then ScopeOf(reader.identities[holding.assetId]) else held;
        match ReadIn(reader.markets, scope)
        case None => Failure(Unread(reader.markets, held))
        case Some(reading) => MarkFrom(reading, holding, held.pairId, now, reader.maxAgeSeconds)
  }

  /** What the reader makes of holdings in a given order. */
  function Valued(reader: PositionValuationReader, holdings: seq<Position>, now: Instant): ReadValuation {
    if holdings == [] then ReadValuation([], [], [])
    else
      var before, last := Valued(reader, holdings[..|holdings| - 1], now), holdings[|holdings| - 1];
      var considered := before.consideredAssets + [last.assetId];
      match MarkOf(reader, last, now)
      case Success(mark) => ReadValuation(before.marks + [mark], before.unvalued, considered)
      case Failure(reason) =>
        ReadValuation(before.marks, before.unvalued + [UnvaluedPosition(last.assetId, reason, last.marketPairId)], considered)
  }

  /** Marks every non-empty holding, in asset order, or names the ones that could not be. */
  method Value(reader: PositionValuationReader, positions: seq<Position>, now: Instant) returns (valuation: ReadValuation)
    ensures valuation == Valued(reader, HeldInOrder(positions), now)
  {
    var held := HeldInOrder(positions);
    var marks, unvalued, considered := [], [], [];
    for i := 0 to |held|
      invariant Valued(reader, held[..i], now) == ReadValuation(marks, unvalued, considered)
    {
      assert held[..i + 1][..i] == held[..i];
      considered := considered + [held[i].assetId];
      match MarkOf(reader, held[i], now) {
        case Success(mark) => marks := marks + [mark];
        case Failure(reason) => unvalued := unvalued + [UnvaluedPosition(held[i].assetId, reason, held[i].marketPairId)];
      }
    }
    assert held[..|held|] == held;
    valuation := ReadValuation(marks, unvalued, considered);
  }

  /** The marks handed to an order, by asset. */
  function MarksRead(reader: PositionValuationReader, positions: seq<Position>, now: Instant): map<string, PositionMark> {
    MarksByAsset(Valued(reader, HeldInOrder(positions), now).marks)
  }

  // ------------------------------------------------------------------------------ what a mark stands for

  /** A mark prices its holding by the market it names, currently and positively. */
  lemma MarkStandsFor(reader: PositionValuationReader, holding: Position, now: Instant)
    requires MarkOf(reader, holding, now).Success?
    ensures var mark := MarkOf(reader, holding, now).value;
            && mark.assetId == holding.assetId && holding.marketPairId == Some(mark.pairId)
            && CurrentAt(mark, now, reader.maxAgeSeconds)
  {
    hide Matches, MatchesIdentity, SameMarket;
  }

  /** Every mark is one holding's own, and every holding with one has it among the marks. */
  lemma {:induction false} MarksExactly(reader: PositionValuationReader, holdings: seq<Position>, now: Instant, mark: PositionMark)
    ensures mark in Valued(reader, holdings, now).marks
            <==> exists h :: h in holdings && MarkOf(reader, h, now) == Success(mark)
  {
    hide MarkOf;
    if holdings != [] {
      var rest, last := holdings[..|holdings| - 1], holdings[|holdings| - 1];
      MarksExactly(reader, rest, now, mark);
      assert holdings == rest + [last];
      assert Valued(reader, rest, now).marks <= Valued(reader, holdings, now).marks;
    }
  }

  /** Complete or named: a holding without a mark is listed with its reason, and nothing else is. */
  lemma {:induction false} UnvaluedExactly(reader: PositionValuationReader, holdings: seq<Position>, now: Instant)
    ensures Valued(reader, holdings, now).unvalued == [] <==> forall h :: h in holdings ==> MarkOf(reader, h, now).Success?
    ensures |Valued(reader, holdings, now).marks| + |Valued(reader, holdings, now).unvalued| == |holdings|
  {
    hide MarkOf;
    if holdings != [] {
      var rest, last := holdings[..|holdings| - 1], holdings[|holdings| - 1];
      UnvaluedExactly(reader, rest, now);
      assert holdings == rest + [last];
    }
  }

  lemma OneMarkEach(reader: PositionValuationReader, positions: seq<Position>, now: Instant)
    requires Unique(positions)
    ensures OneMarkPerAsset(Valued(reader, HeldInOrder(positions), now).marks)
  {
    hide MarkOf, Valued, HeldInOrder;
    HeldRows(positions);
    var marks := Valued(reader, HeldInOrder(positions), now).marks;
    forall m, n | m in marks && n in marks && m.assetId == n.assetId ensures m == n {
      MarksExactly(reader, HeldInOrder(positions), now, m);
      MarksExactly(reader, HeldInOrder(positions), now, n);
      var h :| h in HeldInOrder(positions) && MarkOf(reader, h, now) == Success(m);
      var k :| k in HeldInOrder(positions) && MarkOf(reader, k, now) == Success(n);
      MarkStandsFor(reader, h, now);
      MarkStandsFor(reader, k, now);
      RowOfAsset(HeldInOrder(positions), h, k);
    }
  }

  /** By asset: the mark of a non-empty holding is the one the reader gave it, and no other asset has one. */
  lemma MarksReadExactly(reader: PositionValuationReader, positions: seq<Position>, now: Instant, assetId: string, mark: PositionMark)
    requires Unique(positions)
    ensures assetId in MarksRead(reader, positions, now) && MarksRead(reader, positions, now)[assetId] == mark
            <==> exists h :: h in positions && h.quantity != 0 && h.assetId == assetId && MarkOf(reader, h, now) == Success(mark)
  {
    hide MarkOf, Valued, HeldInOrder, MarksByAsset;
    HeldRows(positions);
    OneMarkEach(reader, positions, now);
    var held := HeldInOrder(positions);
    MarksByAssetExactly(Valued(reader, held, now).marks);
    MarksExactly(reader, held, now, mark);
    forall h | h in held && MarkOf(reader, h, now) == Success(mark) ensures mark.assetId == h.assetId {
      MarkStandsFor(reader, h, now);
    }
    if assetId in MarksRead(reader, positions, now) && MarksRead(reader, positions, now)[assetId] == mark {
      var h :| h in held && MarkOf(reader, h, now) == Success(mark);
      assert h in positions && h.quantity != 0 && h.assetId == assetId;
    }
    if h :| h in positions && h.quantity != 0 && h.assetId == assetId && MarkOf(reader, h, now) == Success(mark) {
      assert h in held;
    }
  }

  /** No holding without a recorded market is ever given a mark. */
  lemma ReadsNoUnnamed(reader: PositionValuationReader, positions: seq<Position>, now: Instant, h: Position)
    requires Unique(positions) && h in positions && h.quantity != 0 && h.marketPairId.None?
    ensures h.assetId !in MarksRead(reader, positions, now)
  {
    hide MarksRead, MarkOf, MatchesIdentity;
    if h.assetId in MarksRead(reader, positions, now) {
      var mark := MarksRead(reader, positions, now)[h.assetId];
      MarksReadExactly(reader, positions, now, h.assetId, mark);
      var k :| k in positions && k.quantity != 0 && k.assetId == h.assetId && MarkOf(reader, k, now) == Success(mark);
      RowOfAsset(positions, h, k);
      MarkStandsFor(reader, k, now);
    }
  }

  /**
   A complete reading prices the portfolio: if nothing was left unvalued and the marks are still current, every
   holding that is there when the order is judged has a price.
   */
  lemma CompleteReadingPrices(reader: PositionValuationReader, positions: seq<Position>, now: Instant, terms: Terms)
    requires Unique(positions) && Valued(reader, HeldInOrder(positions), now).unvalued == []
    requires forall m :: m in Valued(reader, HeldInOrder(positions), now).marks ==>
               CurrentAt(m, terms.now, terms.maxSnapshotAgeSeconds)
    ensures EveryHoldingPriced(positions, terms, MarksRead(reader, positions, now))
  {
    hide MarkOf, Valued, HeldInOrder, MarksRead, AcquiredHere;
    HeldRows(positions);
    UnvaluedExactly(reader, HeldInOrder(positions), now);
    forall h | h in positions && h.quantity != 0 ensures UsableMark(h, MarksRead(reader, positions, now), terms) {
      var mark := MarkOf(reader, h, now).value;
      MarkStandsFor(reader, h, now);
      MarksReadExactly(reader, positions, now, h.assetId, mark);
      MarksExactly(reader, HeldInOrder(positions), now, mark);
    }
  }

  /**
   From the recorded table to the mark: with the identity of its market known, a holding is priced by that
   market's newest recorded event and nothing older, and only if that event is valid at both clock readings.
   */
  lemma MarkedByNewestEvent(rows: seq<Row>, reader: PositionValuationReader, holding: Position, now: Instant,
                            readAt: Instant, checkedAt: Instant, maxAge: nat, fixtures: bool)
    requires Faithful(rows) && holding.assetId in reader.identities
    requires reader.markets.latestIn == Some((scope: MarketScope) => LatestIn(rows, scope, readAt, checkedAt, maxAge, fixtures))
    requires MarkOf(reader, holding, now).Success?
    ensures var mark, scope := MarkOf(reader, holding, now).value, ScopeOf(reader.identities[holding.assetId]);
            exists row :: && NewestOf(rows, scope, row) && row.payload.price.valueUsd == Some(mark.priceUsd)
                          && row.payload.price.seen.id == mark.observationId
                          && IsValidAt(row.payload, readAt, maxAge) && IsValidAt(row.payload, checkedAt, maxAge)
  {
    hide Matches, MatchesIdentity, SameMarket, LatestIn, NewestOf, IsValidAt, Faithful;
    var identity := reader.identities[holding.assetId];
    var scope := ScopeOf(identity);
    var reading := ReadIn(reader.markets, scope).value;
    assert LatestIn(rows, scope, readAt, checkedAt, maxAge, fixtures) == Some(reading);
    ScopedReadExactly(rows, identity, readAt, checkedAt, maxAge, fixtures, reading);
  }
}

/** The exposure cap for orders priced by the valuation reader. */
module ReadExposure {
  import opened Numbers
  import opened Wrappers
  import opened Contracts
  import opened Portfolio
  import opened PortfolioValuation
  import opened PaperExecution
  import opened Accounting
  import opened PaperService
  import opened EntryHalts
  import opened PaperRuns
  import opened PaperMoney
  import opened PaperExposure
  import opened PositionMarks

  predicate Unnamed(positions: seq<Position>, assetId: string) {
    exists h :: h in positions && h.assetId == assetId && h.quantity != 0 && h.marketPairId.None?
  }

  /** Every order of the steps names its market, as the case-bound ones do. */
  ghost predicate OrdersNamed(steps: seq<Step>) {
    forall s :: s in steps && s.Order? ==> s.request.identity.Some?
  }

  lemma UpdatedMarket(position: Position, fill: ExecutionResult, cash: int)
    requires ApplyFill(position, fill, cash).Success?
    ensures ApplyFill(position, fill, cash).value.position.marketPairId == position.marketPairId
    ensures ApplyFill(position, fill, cash).value.position.assetId == position.assetId
  {
    hide Whole28, FillGross, RemovedBasis;
  }

  /** An order that names its market continues an unnamed row only where one was held before. */
  lemma OrderRowUnnamed(positions: seq<Position>, terms: Terms)
    requires terms.market.Some? && OrderPosition(positions, terms).marketPairId.None?
    ensures Unnamed(positions, terms.assetId)
  {
    FirstOfNone(positions, terms.assetId);
  }

  lemma StepUnnamed(rules: Rules, store: Store, step: Step, assetId: string)
    requires step.Order? ==> step.request.identity.Some?
    requires Unnamed(Next(rules, store, step).positions, assetId)
    ensures Unnamed(store.positions, assetId)
  {
    hide Processed, Refuse, Book, Persist, EffectOf, Assess, Simulate, LossDay, EntryBar, OrderPosition, Execute, ApplyFill, Saved;
    match step
    case Control(_, _, _, _) =>
    case Verdict(decision, limits, at) =>
      RefuseTouchesControls(store.(account := RollLossDay(store.account, at)), decision, limits, at);
    case Order(request) =>
      var effect, limits := EffectOf(rules, store, request), Governing(rules, request);
      CommitsEffect(rules, store, request);
      EffectRests(rules, store, request);
      if !effect.Nothing? {
        var rolled := store.(account := RollLossDay(store.account, request.now));
        PersistedTables(rolled, request, effect.decision);
        if effect.Refused? {
          RefuseTouchesControls(effect.persisted, effect.decision, limits, request.now);
        } else {
          var terms := TermsOf(rolled.account, request, limits);
          BookedTables(effect.persisted, request, effect.state, effect.simulation, limits);
          SimulatedAbout(effect.persisted.account.cashUsd, request, effect.state.position, effect.decision);
          AssessedPosition(rolled.account, store.positions, request, limits);
          UpdatedMarket(effect.state.position, effect.simulation.fill, effect.persisted.account.cashUsd);
          OrderRowAsset(store.positions, terms);
          var updated := effect.simulation.booking.position;
          var h :| h in Saved(store.positions, updated) && h.assetId == assetId && h.quantity != 0 && h.marketPairId.None?;
          SavedIs(store.positions, updated, h);
          if h == updated { OrderRowUnnamed(store.positions, terms); }
        }
      }
  }

  /** Where orders name their markets, a holding without one has been there, unnamed, all along. */
  lemma {:induction false} RunUnnamed(rules: Rules, store: Store, steps: seq<Step>, assetId: string)
    requires OrdersNamed(steps) && Unnamed(Run(rules, store, steps).positions, assetId)
    ensures Unnamed(store.positions, assetId)
  {
    hide Next, Unnamed;
    if steps != [] {
      var rest, last := steps[..|steps| - 1], steps[|steps| - 1];
      assert steps == rest + [last] && last in steps;
      StepUnnamed(rules, Run(rules, store, rest), last, assetId);
      RunUnnamed(rules, store, rest, assetId);
    }
  }

  lemma {:induction false} RunSplits(rules: Rules, store: Store, before: seq<Step>, between: seq<Step>)
    ensures Run(rules, store, before + between) == Run(rules, Run(rules, store, before), between)
  {
    hide Next;
    if between == [] {
      assert before + between == before;
    } else {
      RunSplits(rules, store, before, between[..|between| - 1]);
      assert (before + between)[..|before + between| - 1] == before + between[..|between| - 1];
    }
  }

  /**
   The exposure cap as the case-bound callers get it: an order whose marks the reader took at any earlier point
   of the run, with none but orders that name their market in between, keeps both limits.  What the store
   started with, and what else happened before the reading, does not matter.
   */
  lemma LimitsHoldWithReadMarks(rules: Rules, store: Store, before: seq<Step>, between: seq<Step>, request: Request,
                                reader: PositionValuationReader, readAt: Instant)
    requires Unique(store.positions) && OrdersNamed(between)
    requires request.marks == MarksRead(reader, Run(rules, store, before).positions, readAt)
    requires PurchaseBooked(rules, Run(rules, store, before + between), request)
    ensures var reached, limits := Run(rules, store, before + between), Governing(rules, request);
            var effect, after := EffectOf(rules, reached, request), Run(rules, store, before + between + [Order(request)]);
            && Gross(after.positions, effect.state.prices) <= Up(Up(Up(limits.maxExposureUsd as real) + 0.5))
            && Worth(effect.simulation.booking.position, request.market.priceUsd as real)
               <= Up(Up(Up(limits.maxPositionSizeUsd as real) + 0.5))
  {
    hide EffectOf, Processed, Governing, Gross, Worth, Up, Unique, Run, MarksRead;
    var read, reached := Run(rules, store, before), Run(rules, store, before + between);
    RunSplits(rules, store, before, between);
    RunUnique(rules, store, before);
    forall h | h in reached.positions && h.quantity != 0 && h.marketPairId.None? ensures h.assetId !in request.marks {
      RunUnnamed(rules, read, between, h.assetId);
      var k :| k in read.positions && k.assetId == h.assetId && k.quantity != 0 && k.marketPairId.None?;
      ReadsNoUnnamed(reader, read.positions, readAt, k);
    }
    LimitsHoldOverRuns(rules, store, before + between, request);
  }
}
