/**
 The trusted entry point: risk, fill and ledger of one order in one transaction under the account lock.

 `PaperTradingService` changes its tables step by step and restores them when an operation raises, as the
 session does; the functions before it say what one committed operation makes of the tables.
 */
module PaperService {
  import opened Numbers
  import opened Wrappers
  import opened Contracts
  import opened PaperAccounts
  import opened MarketIdentities
  import opened Portfolio
  import opened RiskEngine
  import opened PaperExecution
  import opened Accounting
  import opened ProfitAndLoss

  /** How the service was constructed. */
  datatype Rules = Rules(limits: RiskLimits, mode: TradingMode, earlyOnly: bool)

  /** The tables one transaction reads and writes; the account row is locked throughout. */
  datatype Store = Store(
    account: AccountRow,
    positions: seq<Position>,
    markets: map<Id, MarketSnapshot>,
    intents: map<Id, TradeIntent>,
    risks: map<Id, RiskDecision>,
    orders: map<Id, OrderIntent>,
    executions: map<Id, ExecutionResult>,
    trades: seq<Trade>,
    snapshots: seq<PnLSnapshot>,
    events: seq<ControlEvent>
  )

  /**
   One order with everything its transaction reads from outside: the two clock readings, the marks, and
   what a case-bound caller adds.  The standalone path names no market, no limits and no further checks.
   */
  datatype Request = Request(
    intent: TradeIntent,
    market: MarketSnapshot,
    marks: map<string, PositionMark>,
    now: Instant,
    requestedAt: Instant,
    identity: Option<MarketIdentity>,
    cycleId: Option<Id>,
    early: bool,
    limits: Option<RiskLimits>,
    authorize: Instant -> Option<string>,
    admit: (Position, Position) -> Option<string>
  )

  datatype PaperOutcome = PaperOutcome(
    decision: RiskDecision,
    state: PortfolioState,
    order: Option<OrderIntent>,
    fill: Option<ExecutionResult>,
    trade: Option<Trade>,
    position: Option<Position>,
    stopReason: Option<string>,
    fillRefusal: Option<string>
  )

  datatype Answer = Filled(fill: ExecutionResult) | Judged(decision: RiskDecision)

  const APPROVAL_EXPIRED: string := "APPROVAL_EXPIRED"

  // -------------------------------------------------------------------------------- the account row

  function RollLossDay(account: AccountRow, now: Instant): AccountRow {
    if account.lossDay != LossDay(now) then account.(lossDay := LossDay(now), realizedLossTodayUsd := 0) else account
  }

  /** The automatic halt for an instant's loss day; one already in force is left as it is. */
  function HaltAutomatically(store: Store, actor: ActorKind, limits: RiskLimits, at: Instant, decisionId: Id): Store {
    var account := store.account;
    if account.auto.halted then store
    else
      store.(
      account := account.(auto := AutoHalt(true, Some(DAILY_LOSS_LIMIT_CODE), Some(at), Some(LossDay(at)), Some(decisionId))),
      events := store.events + [ControlEvent(at, ENTRY_HALT_AUTO, SET, DAILY_LOSS_LIMIT_CODE, None, actor, false, true,
                                             account.lossDay, account.realizedLossTodayUsd, limits.dailyLossLimitUsd,
                                             Some(decisionId))])
  }

  function HaltOnDailyLoss(store: Store, decision: RiskDecision, limits: RiskLimits, at: Instant): Store {
    if DAILY_LOSS_LIMIT in decision.reasonCodes then HaltAutomatically(store, SENTINEL, limits, at, decision.intent.id)
    else store
  }

  function HaltOnRealizedLoss(store: Store, limits: RiskLimits, at: Instant, decisionId: Id): Store {
    if store.account.realizedLossTodayUsd < limits.dailyLossLimitUsd then store
    else HaltAutomatically(store, LEDGER, limits, at, decisionId)
  }

  /** What a refused order leaves on the account: the pause of a kill-switch verdict, and the automatic halt. */
  function Refuse(store: Store, decision: RiskDecision, limits: RiskLimits, at: Instant): Store {
    var paused := if decision.outcome == PAUSE_SYSTEM then store.(account := store.account.(paused := true)) else store;
    HaltOnDailyLoss(paused, decision, limits, at)
  }

  // -------------------------------------------------------------------------------- the evaluation

  function EntryBar(rules: Rules, account: AccountRow, request: Request): Option<Error> {
    if request.intent.side == SELL then None
    else if EntryHaltInForce(account) then Some(EntryHalted)
    else if rules.earlyOnly && !request.early then Some(NormalEntryDisabled)
    else None
  }

  function Governing(rules: Rules, request: Request): RiskLimits {
    match request.limits
    case Some(limits) => limits
    case None => rules.limits
  }

  function TermsOf(account: AccountRow, request: Request, limits: RiskLimits): Terms {
    Terms(account.cashUsd, account.realizedLossTodayUsd, request.intent.assetId, request.market.priceUsd, request.now,
          limits.maxSnapshotAgeSeconds, request.identity, request.cycleId)
  }

  function Checked(limits: RiskLimits, account: AccountRow): RiskLimits {
    limits.(killSwitch := limits.killSwitch || account.paused)
  }

  /** The valuation and the verdict an order is decided on, from a row already rolled to its day. */
  function Assess(account: AccountRow, positions: seq<Position>, request: Request, limits: RiskLimits)
    : Result<(PortfolioState, RiskDecision), Error>
  {
    var state := Valuation(TermsOf(account, request, limits), positions, request.marks);
    if state.conflictingMarket.Some? then Failure(HeldInAnotherMarket(state.conflictingMarket.value))
    else
      var decision :- Decide(request.intent, request.market, state.context, Checked(limits, account), request.now);
      Success((state, decision))
  }

  // ----------------------------------------------------------------------------------- the records

  /** An append-only table: a known identifier keeps its content or refuses. */
  function Kept<T(==)>(table: map<Id, T>, id: Id, record: T): Result<map<Id, T>, Error> {
    if id in table && table[id] != record then Failure(ImmutableRecordReused) else Success(table[id := record])
  }

  /** A record with a fresh identifier and a unique order identity. */
  function Added<T>(table: map<Id, T>, intentId: Id, record: T): Result<map<Id, T>, Error> {
    if intentId in table then Failure(DuplicateRecord) else Success(table[intentId := record])
  }

  function Persist(store: Store, request: Request, decision: RiskDecision): Result<Store, Error> {
    var markets :- Kept(store.markets, request.market.id, request.market);
    var intents :- Kept(store.intents, request.intent.id, request.intent);
    var risks :- Added(store.risks, request.intent.id, decision);
    Success(store.(markets := markets, intents := intents, risks := risks))
  }

  // -------------------------------------------------------------------------------------- the fill

  function ApprovalWindow(decision: RiskDecision, at: Instant): Option<string> {
    if decision.evaluatedAt <= at <= decision.expiresAt then None else Some(APPROVAL_EXPIRED)
  }

  function Stop(request: Request, decision: RiskDecision): Option<string> {
    var window := ApprovalWindow(decision, request.requestedAt);
    if window.Some? then window else request.authorize(request.requestedAt)
  }

  /** The order's own validation: an approved decision of this intent, inside its window. */
  function PlaceOrder(request: Request, decision: RiskDecision): Result<OrderIntent, Error> {
    if || decision.outcome != APPROVE || decision.intent != request.intent || request.intent.mode != PAPER
       || !(decision.evaluatedAt <= request.requestedAt <= decision.expiresAt)
    then Failure(ValidationError)
    else Success(OrderIntent(request.intent, decision, request.requestedAt))
  }

  datatype Simulation = Simulation(order: OrderIntent, fill: ExecutionResult, booking: Booking)

  function Simulate(cash: Amount, request: Request, position: Position, decision: RiskDecision): Result<Simulation, Error> {
    var order :- PlaceOrder(request, decision);
    var fill :- Execute(order, request.market);
    var booking :- ApplyFill(position, fill, cash);
    Success(Simulation(order, fill, booking))
  }

  function Others(positions: seq<Position>, assetId: string): seq<Position> {
    if positions == [] then []
    else
      var last := positions[|positions| - 1];
      Others(positions[..|positions| - 1], assetId) + if last.assetId != assetId then [last] else []
  }

  /** The position rows after one is saved: one row per asset, the saved one replaced. */
  function Saved(positions: seq<Position>, updated: Position): seq<Position> {
    Others(positions, updated.assetId) + [updated]
  }

  function Loss(trade: Trade): nat {
    if trade.realizedPnlUsd < 0 then -trade.realizedPnlUsd else 0
  }

  /** The row after the cash, the fees and the fill's own loss day are booked. */
  function Charged(account: AccountRow, fill: ExecutionResult, booking: Booking): Result<AccountRow, Error> {
    var fees := Whole28(account.feesPaidUsd + Whole28(fill.feesUsd + fill.gasUsd));
    if !IsAmount(booking.cash) || !IsAmount(fees) then Failure(ValidationError)
    else
      var rolled := RollLossDay(account.(cashUsd := booking.cash, feesPaidUsd := fees), fill.createdAt);
      var loss := Whole28(rolled.realizedLossTodayUsd + Loss(booking.trade));
      if !IsAmount(loss) then Failure(ValidationError) else Success(rolled.(realizedLossTodayUsd := loss))
  }

  /** The rows of one fill: order, execution, position, trade and the account they change. */
  function Entered(store: Store, request: Request, simulation: Simulation): Result<Store, Error> {
    var Simulation(order, fill, booking) := simulation;
    var orders :- Added(store.orders, request.intent.id, order);
    var executions :- Added(store.executions, request.intent.id, fill);
    var account :- Charged(store.account, fill, booking);
    Success(store.(account := account, positions := Saved(store.positions, booking.position), orders := orders,
                   executions := executions, trades := store.trades + [booking.trade]))
  }

  /** A sale that takes the day's realised loss to the limit halts entries. */
  function HaltAfter(store: Store, request: Request, fill: ExecutionResult, limits: RiskLimits): Store {
    if request.intent.side == SELL then HaltOnRealizedLoss(store, limits, fill.createdAt, request.intent.id) else store
  }

  function Book(store: Store, request: Request, state: PortfolioState, simulation: Simulation, limits: RiskLimits)
    : Result<Store, Error>
  {
    var entered :- Entered(store, request, simulation);
    var snapshot :- CalculatePnl(entered.positions, state.prices, simulation.booking.cash, entered.account.feesPaidUsd);
    var halted := HaltAfter(entered, request, simulation.fill, limits);
    Success(halted.(snapshots := halted.snapshots + [snapshot]))
  }

  // --------------------------------------------------------------------------- one order, one session

  function ExecuteInSession(rules: Rules, store: Store, request: Request): Result<(Store, PaperOutcome), Error> {
    if rules.mode != PAPER then Failure(PaperNotEnabled)
    else if EntryBar(rules, store.account, request).Some? then Failure(EntryBar(rules, store.account, request).value)
    else
      var limits := Governing(rules, request);
      var rolled := store.(account := RollLossDay(store.account, request.now));
      var assessed :- Assess(rolled.account, store.positions, request, limits);
      var (state, decision) := assessed;
      var persisted :- Persist(rolled, request, decision);
      var judged := PaperOutcome(decision, state, None, None, None, None, None, None);
      if decision.outcome != APPROVE then Success((Refuse(persisted, decision, limits, request.now), judged))
      else if Stop(request, decision).Some? then Success((persisted, judged.(stopReason := Stop(request, decision))))
      else
        var simulation :- Simulate(persisted.account.cashUsd, request, state.position, decision);
        var refusal := request.admit(state.position, simulation.booking.position);
        if refusal.Some? then Success((persisted, judged.(fillRefusal := refusal)))
        else
          var booked :- Book(persisted, request, state, simulation, limits);
          Success((booked, judged.(order := Some(simulation.order), fill := Some(simulation.fill),
                                   trade := Some(simulation.booking.trade), position := Some(simulation.booking.position))))
  }

  /** What this exact order already produced, or nothing if it is new. */
  function Replayed(store: Store, intent: TradeIntent): Result<Option<Answer>, Error> {
    if intent.id !in store.intents then Success(None)
    else if store.intents[intent.id] != intent then Failure(IdempotencyConflict)
    else if intent.id in store.executions then Success(Some(Filled(store.executions[intent.id])))
    else if intent.id in store.risks then Success(Some(Judged(store.risks[intent.id])))
    else Failure(IncompleteIntent)
  }

  function AnswerOf(outcome: PaperOutcome): Answer {
    if outcome.fill.Some? then Filled(outcome.fill.value) else Judged(outcome.decision)
  }

  /** One transaction: what it commits, and what its caller gets.  Anything raised commits nothing. */
  function Processed(rules: Rules, store: Store, request: Request): (Store, Result<Answer, Error>) {
    if rules.mode != PAPER then (store, Failure(PaperNotEnabled))
    else
      match Replayed(store, request.intent)
      case Failure(error) => (store, Failure(error))
      case Success(Some(answer)) => (store, Success(answer))
      case Success(None) =>
        match ExecuteInSession(rules, store, request)
        case Failure(error) => (store, Failure(error))
        case Success((reached, outcome)) =>
          if outcome.stopReason.Some? then (store, Failure(ApprovalExpired))
          else if outcome.fillRefusal.Some? then (store, Failure(FillRefused))
          else (reached, Success(AnswerOf(outcome)))
  }

  class PaperTradingService {
    const rules: Rules
    var account: AccountRow
    var positions: seq<Position>
    var markets: map<Id, MarketSnapshot>
    var intents: map<Id, TradeIntent>
    var risks: map<Id, RiskDecision>
    var orders: map<Id, OrderIntent>
    var executions: map<Id, ExecutionResult>
    var trades: seq<Trade>
    var snapshots: seq<PnLSnapshot>
    var events: seq<ControlEvent>

    function Tables(): Store
      reads this
    {
      Store(account, positions, markets, intents, risks, orders, executions, trades, snapshots, events)
    }

    constructor (rules: Rules, store: Store)
      ensures this.rules == rules && Tables() == store
    {
      this.rules := rules;
      account, positions, markets, intents := store.account, store.positions, store.markets, store.intents;
      risks, orders, executions := store.risks, store.orders, store.executions;
      trades, snapshots, events := store.trades, store.snapshots, store.events;
    }

    method Roll(now: Instant)
      modifies `account
      ensures account == RollLossDay(old(account), now)
    {
      var today := LossDay(now);
      if account.lossDay != today {
        account := account.(lossDay := today);
        account := account.(realizedLossTodayUsd := 0);
      }
    }

    method HaltEntriesAutomatically(actor: ActorKind, limits: RiskLimits, at: Instant, decisionId: Id) returns (now: bool)
      modifies `account, `events
      ensures Tables() == HaltAutomatically(old(Tables()), actor, limits, at, decisionId)
      ensures now == !old(account.auto.halted) && account.feesPaidUsd == old(account.feesPaidUsd)
    {
      if account.auto.halted { return false; }
      events := events + [ControlEvent(at, ENTRY_HALT_AUTO, SET, DAILY_LOSS_LIMIT_CODE, None, actor, false, true,
                                       account.lossDay, account.realizedLossTodayUsd, limits.dailyLossLimitUsd,
                                       Some(decisionId))];
      account := account.(auto := AutoHalt(true, Some(DAILY_LOSS_LIMIT_CODE), Some(at), Some(LossDay(at)), Some(decisionId)));
      now := true;
    }

    /** Cash, fees, and the loss of the day the fill itself fell on. */
    method Charge(fill: ExecutionResult, booking: Booking) returns (done: Result<(), Error>)
      modifies `account
      ensures done.Success? <==> Charged(old(account), fill, booking).Success?
      ensures done.Success? ==> account == Charged(old(account), fill, booking).value
      ensures done.Failure? ==> done.error == Charged(old(account), fill, booking).error
    {
      hide Whole28;
      var fees := Whole28(account.feesPaidUsd + Whole28(fill.feesUsd + fill.gasUsd));
      if !IsAmount(booking.cash) || !IsAmount(fees) { return Failure(ValidationError); }
      account := account.(cashUsd := booking.cash);
      account := account.(feesPaidUsd := fees);
      Roll(fill.createdAt);
      var loss := Whole28(account.realizedLossTodayUsd + Loss(booking.trade));
      if !IsAmount(loss) { return Failure(ValidationError); }
      account := account.(realizedLossTodayUsd := loss);
      done := Success(());
    }

    /** The book-keeping of one fill, in the order its rows are written. */
    method BookFill(request: Request, state: PortfolioState, simulation: Simulation, limits: RiskLimits)
      returns (done: Result<(), Error>)
      modifies this
      ensures done.Success? <==> Book(old(Tables()), request, state, simulation, limits).Success?
      ensures done.Success? ==> Tables() == Book(old(Tables()), request, state, simulation, limits).value
      ensures done.Failure? ==> done.error == Book(old(Tables()), request, state, simulation, limits).error
    {
      hide CalculatePnl, Saved, Charged, HaltAutomatically;
      var Simulation(order, fill, booking) := simulation;
      orders :- Added(orders, request.intent.id, order);
      executions :- Added(executions, request.intent.id, fill);
      positions := Saved(positions, booking.position);
      trades := trades + [booking.trade];
      var charged := Charge(fill, booking);
      if charged.Failure? { return charged; }
      if request.intent.side == SELL && account.realizedLossTodayUsd >= limits.dailyLossLimitUsd {
        var _ := HaltEntriesAutomatically(LEDGER, limits, fill.createdAt, request.intent.id);
      }
      var snapshot :- CalculatePnl(positions, state.prices, booking.cash, account.feesPaidUsd);
      snapshots := snapshots + [snapshot];
      done := Success(());
    }

    /** Risk-check, fill and book one order inside a transaction the caller owns. */
    method Execute(request: Request) returns (outcome: Result<PaperOutcome, Error>)
      modifies this
      ensures outcome.Success? <==> ExecuteInSession(rules, old(Tables()), request).Success?
      ensures outcome.Success? ==> ExecuteInSession(rules, old(Tables()), request).value == (Tables(), outcome.value)
      ensures outcome.Failure? ==> outcome.error == ExecuteInSession(rules, old(Tables()), request).error
    {
      hide Valuation, Decide, Simulate, Book;
      if rules.mode != PAPER { return Failure(PaperNotEnabled); }
      if request.intent.side == BUY {
        if EntryHaltInForce(account) { return Failure(EntryHalted); }
        if rules.earlyOnly && !request.early { return Failure(NormalEntryDisabled); }
      }
      var limits := Governing(rules, request);
      Roll(request.now);
      var state := ValuePortfolio(TermsOf(account, request, limits), positions, request.marks);
      if state.conflictingMarket.Some? { return Failure(HeldInAnotherMarket(state.conflictingMarket.value)); }
      var evaluated := Evaluate(request.intent, request.market, state.context, Checked(limits, account), request.now);
      var decision :- evaluated;
      markets :- Kept(markets, request.market.id, request.market);
      intents :- Kept(intents, request.intent.id, request.intent);
      risks :- Added(risks, request.intent.id, decision);
      ghost var persisted := Tables();
      assert Persist(old(Tables()).(account := RollLossDay(old(account), request.now)), request, decision) == Success(persisted);
      var judged := PaperOutcome(decision, state, None, None, None, None, None, None);
      if decision.outcome != APPROVE {
        if decision.outcome == PAUSE_SYSTEM { account := account.(paused := true); }
        if DAILY_LOSS_LIMIT in decision.reasonCodes {
          var _ := HaltEntriesAutomatically(SENTINEL, limits, request.now, decision.intent.id);
        }
        return Success(judged);
      }
      var stop := ApprovalWindow(decision, request.requestedAt);
      if stop.None? { stop := request.authorize(request.requestedAt); }
      if stop.Some? { return Success(judged.(stopReason := stop)); }
      var simulation :- Simulate(account.cashUsd, request, state.position, decision);
      var refusal := request.admit(state.position, simulation.booking.position);
      if refusal.Some? { return Success(judged.(fillRefusal := refusal)); }
      var done := BookFill(request, state, simulation, limits);
      if done.Failure? { return Failure(done.error); }
      outcome := Success(judged.(order := Some(simulation.order), fill := Some(simulation.fill),
                                 trade := Some(simulation.booking.trade), position := Some(simulation.booking.position)));
    }

    /** Puts back what the transaction found: the rollback of a session that raised. */
    method Rollback(store: Store)
      modifies this
      ensures Tables() == store
    {
      account, positions, markets, intents := store.account, store.positions, store.markets, store.intents;
      risks, orders, executions := store.risks, store.orders, store.executions;
      trades, snapshots, events := store.trades, store.snapshots, store.events;
    }

    method Process(request: Request) returns (answer: Result<Answer, Error>)
      modifies this
      ensures (Tables(), answer) == Processed(rules, old(Tables()), request)
    {
      hide ExecuteInSession;
      if rules.mode != PAPER { return Failure(PaperNotEnabled); }
      var found := Tables();
      var replayed :- Replayed(found, request.intent);
      if replayed.Some? { return Success(replayed.value); }
      var outcome := Execute(request);
      if outcome.Failure? {
        Rollback(found);
        return Failure(outcome.error);
      }
      if outcome.value.stopReason.Some? {
        Rollback(found);
        return Failure(ApprovalExpired);
      }
      if outcome.value.fillRefusal.Some? {
        Rollback(found);
        return Failure(FillRefused);
      }
      answer := Success(AnswerOf(outcome.value));
    }
  }
}
