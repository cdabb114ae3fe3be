/**
 Runs: any number of orders, operator requests and case verdicts, each one transaction, serialised by the
 account lock.  An order is decided at most once and never half recorded.
 */
module PaperRuns {
  import opened Numbers
  import opened Wrappers
  import opened Contracts
  import opened PaperAccounts
  import opened Portfolio
  import opened RiskEngine
  import opened PaperExecution
  import opened Accounting
  import opened ProfitAndLoss
  import opened PaperService
  import opened EntryHalts

  /** One transaction on the account: an order, an operator's request, or a verdict a case asked for. */
  datatype Step =
    | Order(request: Request)
    | Control(control: ControlRequest, code: string, at: Instant, killSwitch: bool)
    | Verdict(decision: RiskDecision, limits: RiskLimits, decidedAt: Instant)

  function Next(rules: Rules, store: Store, step: Step): Store {
    match step
    case Order(request) => Processed(rules, store, request).0
    case Control(request, code, at, killSwitch) =>
      var after := Requested(Controls(store.account, store.events), request, code, at, rules.limits, killSwitch);
      store.(account := after.account, events := after.events)
    case Verdict(decision, limits, at) =>
      Refuse(store.(account := RollLossDay(store.account, at)), decision, limits, at)
  }

  function Run(rules: Rules, store: Store, steps: seq<Step>): Store {
    if steps == [] then store
    else Next(rules, Run(rules, store, steps[..|steps| - 1]), steps[|steps| - 1])
  }

  // ------------------------------------------------------------------------ what one order comes to

  /** What an order's transaction commits, with the evaluation behind it. */
  datatype Effect =
    | Nothing
    | Refused(state: PortfolioState, decision: RiskDecision, persisted: Store)
    | Booked(state: PortfolioState, decision: RiskDecision, persisted: Store, simulation: Simulation)

  function EffectOf(rules: Rules, store: Store, request: Request): Effect {
    var limits := Governing(rules, request);
    var rolled := store.(account := RollLossDay(store.account, request.now));
    if rules.mode != PAPER || Replayed(store, request.intent) != Success(None) || EntryBar(rules, store.account, request).Some?
    then Nothing
    else
      match Assess(rolled.account, store.positions, request, limits)
      case Failure(_) => Nothing
      case Success((state, decision)) =>
        match Persist(rolled, request, decision)
        case Failure(_) => Nothing
        case Success(persisted) =>
          if decision.outcome != APPROVE then Refused(state, decision, persisted)
          else if Stop(request, decision).Some? then Nothing
          else
            match Simulate(persisted.account.cashUsd, request, state.position, decision)
            case Failure(_) => Nothing
            case Success(simulation) =>
              if request.admit(state.position, simulation.booking.position).Some? then Nothing
              else if Book(persisted, request, state, simulation, limits).Failure? then Nothing
              else Booked(state, decision, persisted, simulation)
  }

  /** The transaction commits exactly the effect, and answers with it. */
  lemma CommitsEffect(rules: Rules, store: Store, request: Request)
    ensures var effect, limits := EffectOf(rules, store, request), Governing(rules, request);
            && (effect.Nothing? ==> Processed(rules, store, request).0 == store)
            && (effect.Refused? ==>
                  Processed(rules, store, request)
                  == (Refuse(effect.persisted, effect.decision, limits, request.now), Success(Judged(effect.decision))))
            && (effect.Booked? ==>
                  && Book(effect.persisted, request, effect.state, effect.simulation, limits).Success?
                  && Processed(rules, store, request)
                     == (Book(effect.persisted, request, effect.state, effect.simulation, limits).value,
                         Success(Filled(effect.simulation.fill))))
    ensures EffectOf(rules, store, request).Nothing? && Replayed(store, request.intent) == Success(None) ==>
              Processed(rules, store, request).1.Failure?
  {
    hide Assess, Persist, Refuse, Simulate, Book, Stop, EntryBar;
  }

  /** What an effect rests on: the evaluation and the record of it. */
  lemma EffectRests(rules: Rules, store: Store, request: Request)
    ensures var effect, limits := EffectOf(rules, store, request), Governing(rules, request);
            var rolled := store.(account := RollLossDay(store.account, request.now));
            !effect.Nothing? ==>
              && rules.mode == PAPER && EntryBar(rules, store.account, request).None?
              && request.intent.id !in store.intents
              && Assess(rolled.account, store.positions, request, limits) == Success((effect.state, effect.decision))
              && Persist(rolled, request, effect.decision) == Success(effect.persisted)
              && (effect.Refused? <==> effect.decision.outcome != APPROVE)
              && (effect.Booked? ==>
                    Simulate(effect.persisted.account.cashUsd, request, effect.state.position, effect.decision)
                    == Success(effect.simulation))
  {
    hide Assess, Persist, Refuse, Simulate, Book, Stop, EntryBar;
  }

  // --------------------------------------------------------------------------- exactly-once orders

  function Identities(trades: seq<Trade>): set<Id> {
    set t <- trades :: t.intentId
  }

  predicate OneTradeEach(trades: seq<Trade>) {
    forall i, j :: 0 <= i < j < |trades| ==> trades[i].intentId != trades[j].intentId
  }

  /**
   Every recorded order has exactly one risk decision about itself and its recorded market, and an order
   row, an execution, a trade and a snapshot exactly when that decision is an approval.
   */
  predicate Recorded(store: Store) {
    && store.intents.Keys == store.risks.Keys
    && store.orders.Keys == store.executions.Keys == Identities(store.trades)
    && OneTradeEach(store.trades) && |store.snapshots| == |store.trades|
    && DecisionsFit(store.intents, store.risks, store.markets, store.orders.Keys)
    && OrdersFit(store.orders, store.executions, store.risks)
  }

  predicate DecisionsFit(intents: map<Id, TradeIntent>, risks: map<Id, RiskDecision>, markets: map<Id, MarketSnapshot>,
                         ordered: set<Id>)
    requires intents.Keys == risks.Keys
  {
    forall i :: i in risks ==>
      && intents[i].id == i && risks[i].intent == intents[i]
      && risks[i].market.id in markets && markets[risks[i].market.id] == risks[i].market
      && (risks[i].outcome == APPROVE <==> i in ordered)
  }

  predicate OrdersFit(orders: map<Id, OrderIntent>, executions: map<Id, ExecutionResult>, risks: map<Id, RiskDecision>)
    requires orders.Keys == executions.Keys
  {
    forall i :: i in orders ==> i in risks && orders[i].risk == risks[i] && executions[i].intentId == i
  }

  lemma DecidedAbout(account: AccountRow, positions: seq<Position>, request: Request, limits: RiskLimits)
    requires Assess(account, positions, request, limits).Success?
    ensures var decision := Assess(account, positions, request, limits).value.1;
            decision.intent == request.intent && decision.market == request.market
            && decision.evaluatedAt == request.now
  {
    hide Valuation, Reasons, Representable, Capacity, OrderNotional, OrderCost, FdvRatio, PermittedSlippage, OnlySizing;
  }

  /** Nothing but the account and the events differs. */
  predicate SameTables(store: Store, other: Store) {
    other == store.(account := other.account, events := other.events)
  }

  lemma RefuseTouchesControls(store: Store, decision: RiskDecision, limits: RiskLimits, at: Instant)
    ensures SameTables(store, Refuse(store, decision, limits, at))
  {
  }

  /** The automatic halt changes nothing of the row but itself, and never replaces one in force. */
  lemma HaltTouchesAuto(store: Store, actor: ActorKind, limits: RiskLimits, at: Instant, decisionId: Id)
    ensures var after := HaltAutomatically(store, actor, limits, at, decisionId).account;
            && after == store.account.(auto := after.auto) && after.auto.halted
            && (store.account.auto.halted ==> after == store.account)
  {
    hide LossDay;
  }

  /** A refusal changes nothing of the row but the pause and an automatic halt that is not yet in force. */
  lemma RefuseTouchesRow(store: Store, decision: RiskDecision, limits: RiskLimits, at: Instant)
    ensures var after := Refuse(store, decision, limits, at).account;
            && after == store.account.(auto := after.auto, paused := after.paused)
            && (store.account.auto.halted ==> after.auto == store.account.auto)
  {
    hide HaltAutomatically;
    HaltTouchesAuto(store, SENTINEL, limits, at, decision.intent.id);
    HaltTouchesAuto(store.(account := store.account.(paused := true)), SENTINEL, limits, at, decision.intent.id);
  }

  lemma HaltTouchesControls(store: Store, request: Request, fill: ExecutionResult, limits: RiskLimits)
    ensures SameTables(store, HaltAfter(store, request, fill, limits))
  {
  }

  lemma PersistedTables(store: Store, request: Request, decision: RiskDecision)
    requires Persist(store, request, decision).Success?
    ensures var after := Persist(store, request, decision).value;
            && request.intent.id !in store.risks
            && (request.market.id in store.markets ==> store.markets[request.market.id] == request.market)
            && after == store.(markets := store.markets[request.market.id := request.market],
                               intents := store.intents[request.intent.id := request.intent],
                               risks := store.risks[request.intent.id := decision])
  {
  }

  /** The tables a booking leaves behind, its account and events aside. */
  lemma BookedTables(store: Store, request: Request, state: PortfolioState, simulation: Simulation, limits: RiskLimits)
    requires Book(store, request, state, simulation, limits).Success?
    ensures var after := Book(store, request, state, simulation, limits).value;
            && request.intent.id !in store.orders && request.intent.id !in store.executions
            && after.orders == store.orders[request.intent.id := simulation.order]
            && after.executions == store.executions[request.intent.id := simulation.fill]
            && after.trades == store.trades + [simulation.booking.trade]
            && after.positions == Saved(store.positions, simulation.booking.position)
            && (exists snapshot :: after.snapshots == store.snapshots + [snapshot])
            && after.intents == store.intents && after.risks == store.risks && after.markets == store.markets
  {
    hide Charged, CalculatePnl, Saved, HaltAfter;
    var entered := Entered(store, request, simulation).value;
    HaltTouchesControls(entered, request, simulation.fill, limits);
  }

  lemma SimulatedAbout(cash: Amount, request: Request, position: Position, decision: RiskDecision)
    requires Simulate(cash, request, position, decision).Success?
    ensures var simulation := Simulate(cash, request, position, decision).value;
            && simulation.order == OrderIntent(request.intent, decision, request.requestedAt)
            && Execute(simulation.order, request.market) == Success(simulation.fill)
            && ApplyFill(position, simulation.fill, cash) == Success(simulation.booking)
            && simulation.fill.intentId == simulation.booking.trade.intentId == request.intent.id
            && simulation.fill.createdAt == simulation.booking.trade.createdAt == request.requestedAt
            && simulation.fill.side == request.intent.side
            && simulation.fill.quantity == request.intent.quantity
  {
    hide FillPrice, FillFees, Whole28, RemovedBasis, FillGross, LpControlRefusal;
  }

  lemma RefusedRecorded(store: Store, after: Store, request: Request, decision: RiskDecision)
    requires Recorded(store) && request.intent.id !in store.intents
    requires decision.intent == request.intent && decision.market == request.market && decision.outcome != APPROVE
    requires request.market.id in store.markets ==> store.markets[request.market.id] == request.market
    requires after.markets == store.markets[request.market.id := request.market]
    requires after.intents == store.intents[request.intent.id := request.intent]
    requires after.risks == store.risks[request.intent.id := decision]
    requires after.orders == store.orders && after.executions == store.executions
    requires after.trades == store.trades && after.snapshots == store.snapshots
    ensures Recorded(after)
  {
  }

  lemma BookedRecorded(store: Store, after: Store, request: Request, decision: RiskDecision, simulation: Simulation)
    requires Recorded(store) && request.intent.id !in store.intents
    requires decision.intent == request.intent && decision.market == request.market && decision.outcome == APPROVE
    requires request.market.id in store.markets ==> store.markets[request.market.id] == request.market
    requires after.markets == store.markets[request.market.id := request.market]
    requires after.intents == store.intents[request.intent.id := request.intent]
    requires after.risks == store.risks[request.intent.id := decision]
    requires after.orders == store.orders[request.intent.id := simulation.order] && simulation.order.risk == decision
    requires after.executions == store.executions[request.intent.id := simulation.fill]
    requires simulation.fill.intentId == simulation.booking.trade.intentId == request.intent.id
    requires after.trades == store.trades + [simulation.booking.trade]
    requires |after.snapshots| == |store.snapshots| + 1
    ensures Recorded(after)
  {
    hide DecisionsFit, OrdersFit, OneTradeEach;
    NotFilledYet(store, request.intent.id);
    assert request.intent.id !in store.executions.Keys;
    TradeAdded(store.trades, simulation.booking.trade);
    assert after.orders.Keys == store.orders.Keys + {request.intent.id};
    assert after.executions.Keys == store.executions.Keys + {request.intent.id};
    assert after.intents.Keys == store.intents.Keys + {request.intent.id};
    assert after.risks.Keys == store.risks.Keys + {request.intent.id};
    assert request.intent.id !in store.risks.Keys;
    DecisionAdded(store, request, decision);
    OrderAdded(store, request, decision, simulation);
  }

  lemma DecisionAdded(store: Store, request: Request, decision: RiskDecision)
    requires store.intents.Keys == store.risks.Keys && request.intent.id !in store.intents
    requires DecisionsFit(store.intents, store.risks, store.markets, store.orders.Keys)
    requires decision.intent == request.intent && decision.market == request.market && decision.outcome == APPROVE
    requires request.market.id in store.markets ==> store.markets[request.market.id] == request.market
    ensures DecisionsFit(store.intents[request.intent.id := request.intent], store.risks[request.intent.id := decision],
                         store.markets[request.market.id := request.market], store.orders.Keys + {request.intent.id})
  {
  }

  lemma OrderAdded(store: Store, request: Request, decision: RiskDecision, simulation: Simulation)
    requires store.orders.Keys == store.executions.Keys && request.intent.id !in store.risks
    requires OrdersFit(store.orders, store.executions, store.risks)
    requires simulation.order.risk == decision && simulation.fill.intentId == request.intent.id
    ensures OrdersFit(store.orders[request.intent.id := simulation.order], store.executions[request.intent.id := simulation.fill],
                      store.risks[request.intent.id := decision])
  {
  }

  lemma TradeAdded(trades: seq<Trade>, trade: Trade)
    requires OneTradeEach(trades) && trade.intentId !in Identities(trades)
    ensures Identities(trades + [trade]) == Identities(trades) + {trade.intentId}
    ensures OneTradeEach(trades + [trade])
  {
    forall i | 0 <= i < |trades| ensures trades[i].intentId in Identities(trades) {
      assert trades[i] in trades;
    }
    forall id ensures id in Identities(trades + [trade]) <==> id in Identities(trades) || id == trade.intentId {
      assert trade in trades + [trade];
      if id in Identities(trades) {
        var t :| t in trades && t.intentId == id;
        assert t in trades + [trade];
      }
    }
  }

  lemma OrderRecorded(rules: Rules, store: Store, request: Request)
    requires Recorded(store)
    ensures Recorded(Processed(rules, store, request).0)
  {
    hide Assess, Refuse, Simulate, Book, EntryBar, EffectOf, Processed, Governing, Recorded, Persist, LossDay;
    var effect, limits := EffectOf(rules, store, request), Governing(rules, request);
    CommitsEffect(rules, store, request);
    EffectRests(rules, store, request);
    if !effect.Nothing? {
      var rolled := store.(account := RollLossDay(store.account, request.now));
      DecidedAbout(rolled.account, store.positions, request, limits);
      PersistedTables(rolled, request, effect.decision);
      if effect.Refused? {
        RefuseTouchesControls(effect.persisted, effect.decision, limits, request.now);
        RefusedRecorded(store, Processed(rules, store, request).0, request, effect.decision);
      } else {
        BookedTables(effect.persisted, request, effect.state, effect.simulation, limits);
        SimulatedAbout(effect.persisted.account.cashUsd, request, effect.state.position, effect.decision);
        BookedRecorded(store, Processed(rules, store, request).0, request, effect.decision, effect.simulation);
      }
    }
  }

  /** No step ever leaves a partial record, and none but an order touches one. */
  lemma StepRecorded(rules: Rules, store: Store, step: Step)
    requires Recorded(store)
    ensures Recorded(Next(rules, store, step))
  {
    hide Processed, Refuse, Requested;
    match step
    case Control(_, _, _, _) =>
    case Verdict(decision, limits, at) =>
      RefuseTouchesControls(store.(account := RollLossDay(store.account, at)), decision, limits, at);
    case Order(request) => OrderRecorded(rules, store, request);
  }

  lemma {:induction false} RunRecorded(rules: Rules, store: Store, steps: seq<Step>)
    requires Recorded(store)
    ensures Recorded(Run(rules, store, steps))
  {
    hide Next;
    if steps != [] {
      RunRecorded(rules, store, steps[..|steps| - 1]);
      StepRecorded(rules, Run(rules, store, steps[..|steps| - 1]), steps[|steps| - 1]);
    }
  }

  /** The branch for an intent without a decision is never reached. */
  lemma NeverIncomplete(rules: Rules, store: Store, steps: seq<Step>, intent: TradeIntent)
    requires Recorded(store)
    ensures Replayed(Run(rules, store, steps), intent) != Failure(IncompleteIntent)
  {
    RunRecorded(rules, store, steps);
    var reached := Run(rules, store, steps);
    assert intent.id in reached.intents.Keys ==> intent.id in reached.risks.Keys;
  }

  // -------------------------------------------------------------------------------- what was answered

  /** Everything recorded stays: decided orders keep their outcome, and the logs only grow. */
  predicate Extends(store: Store, after: Store) {
    && OutcomesStay(store, after)
    && (forall m :: m in store.markets ==> m in after.markets && after.markets[m] == store.markets[m])
    && store.trades <= after.trades && store.snapshots <= after.snapshots && store.events <= after.events
  }

  predicate OutcomesStay(store: Store, after: Store) {
    forall i :: i in store.intents ==>
      && i in after.intents && after.intents[i] == store.intents[i]
      && (i in store.risks ==> i in after.risks && after.risks[i] == store.risks[i])
      && (i in store.executions <==> i in after.executions)
      && (i in store.executions ==> after.executions[i] == store.executions[i])
  }

  /** A new order's rows leave every older order's rows alone. */
  lemma NewRowsOnly(store: Store, after: Store, request: Request, decision: RiskDecision)
    requires request.intent.id !in store.intents
    requires after.intents == store.intents[request.intent.id := request.intent]
    requires after.risks == store.risks[request.intent.id := decision]
    requires after.executions - {request.intent.id} == store.executions - {request.intent.id}
    ensures OutcomesStay(store, after)
  {
    forall i | i in store.intents
      ensures i in store.executions <==> i in after.executions
      ensures i in store.executions ==> after.executions[i] == store.executions[i]
    {
      assert i in store.executions <==> i in store.executions - {request.intent.id};
      assert i in after.executions <==> i in after.executions - {request.intent.id};
    }
  }

  lemma HaltLogs(store: Store, actor: ActorKind, limits: RiskLimits, at: Instant, decisionId: Id)
    ensures store.events <= HaltAutomatically(store, actor, limits, at, decisionId).events
  {
    hide LossDay;
  }

  lemma RefusalLogs(store: Store, decision: RiskDecision, limits: RiskLimits, at: Instant)
    ensures store.events <= Refuse(store, decision, limits, at).events
  {
    hide HaltAutomatically;
    HaltLogs(store.(account := store.account.(paused := true)), SENTINEL, limits, at, decision.intent.id);
    HaltLogs(store, SENTINEL, limits, at, decision.intent.id);
  }

  lemma BookedLogs(store: Store, request: Request, state: PortfolioState, simulation: Simulation, limits: RiskLimits)
    requires Book(store, request, state, simulation, limits).Success?
    ensures store.events <= Book(store, request, state, simulation, limits).value.events
  {
    hide Charged, CalculatePnl, Saved, HaltAutomatically;
    var entered := Entered(store, request, simulation).value;
    HaltLogs(entered, LEDGER, limits, simulation.fill.createdAt, request.intent.id);
  }

  lemma OrderExtends(rules: Rules, store: Store, request: Request)
    ensures Extends(store, Processed(rules, store, request).0)
  {
    hide Assess, Refuse, Simulate, Book, EntryBar, EffectOf, Processed, Governing, Persist, LossDay, OutcomesStay;
    var effect, limits := EffectOf(rules, store, request), Governing(rules, request);
    CommitsEffect(rules, store, request);
    EffectRests(rules, store, request);
    if effect.Nothing? {
      ExtendsItself(store);
    } else {
      var rolled := store.(account := RollLossDay(store.account, request.now));
      PersistedTables(rolled, request, effect.decision);
      if effect.Refused? {
        RefuseTouchesControls(effect.persisted, effect.decision, limits, request.now);
        RefusalLogs(effect.persisted, effect.decision, limits, request.now);
      } else {
        BookedTables(effect.persisted, request, effect.state, effect.simulation, limits);
        BookedLogs(effect.persisted, request, effect.state, effect.simulation, limits);
      }
      NewRowsOnly(store, Processed(rules, store, request).0, request, effect.decision);
    }
  }

  lemma StepExtends(rules: Rules, store: Store, step: Step)
    ensures Extends(store, Next(rules, store, step))
  {
    hide Processed, Refuse, Recorded, RefusalOf, EventFor, Changed, LossDay;
    match step
    case Control(_, _, _, _) =>
    case Verdict(decision, limits, at) =>
      var rolled := store.(account := RollLossDay(store.account, at));
      RefuseTouchesControls(rolled, decision, limits, at);
      RefusalLogs(rolled, decision, limits, at);
    case Order(request) => OrderExtends(rules, store, request);
  }

  lemma ExtendsJoins(store: Store, middle: Store, after: Store)
    requires Extends(store, middle) && Extends(middle, after)
    ensures Extends(store, after)
  {
  }

  lemma {:induction false} RunExtends(rules: Rules, store: Store, steps: seq<Step>)
    ensures Extends(store, Run(rules, store, steps))
  {
    hide Next, Extends;
    if steps == [] {
      ExtendsItself(store);
    } else {
      var before := Run(rules, store, steps[..|steps| - 1]);
      RunExtends(rules, store, steps[..|steps| - 1]);
      StepExtends(rules, before, steps[|steps| - 1]);
      ExtendsJoins(store, before, Run(rules, store, steps));
    }
  }

  lemma ExtendsItself(store: Store)
    ensures Extends(store, store)
  {
  }

  predicate Answered(store: Store, intent: TradeIntent, answer: Answer) {
    Replayed(store, intent) == Success(Some(answer))
  }

  lemma AnswerIsRecorded(rules: Rules, store: Store, request: Request)
    requires Recorded(store) && Processed(rules, store, request).1.Success?
    ensures Answered(Processed(rules, store, request).0, request.intent, Processed(rules, store, request).1.value)
  {
    hide Assess, Refuse, Simulate, Book, EntryBar, EffectOf, Governing, Persist, LossDay, OneTradeEach,
         DecisionsFit, OrdersFit, ExecuteInSession;
    var effect, limits := EffectOf(rules, store, request), Governing(rules, request);
    CommitsEffect(rules, store, request);
    EffectRests(rules, store, request);
    if !effect.Nothing? {
      var rolled := store.(account := RollLossDay(store.account, request.now));
      PersistedTables(rolled, request, effect.decision);
      if effect.Refused? {
        RefuseTouchesControls(effect.persisted, effect.decision, limits, request.now);
        assert request.intent.id !in store.executions.Keys by { NotFilledYet(store, request.intent.id); }
      } else {
        BookedTables(effect.persisted, request, effect.state, effect.simulation, limits);
      }
    }
  }

  lemma NotFilledYet(store: Store, id: Id)
    requires Recorded(store) && id !in store.intents
    ensures id !in store.executions
  {
    assert id !in store.risks.Keys;
    assert id in store.orders ==> id in store.risks;
    assert id !in store.orders.Keys;
  }

  /**
   Resubmission changes nothing: once an order is answered, the same order submitted at any later point of
   any run, with whatever market, marks or clock, gets the same answer and leaves every table as it is.
   */
  lemma ResubmissionReturnsTheAnswer(rules: Rules, store: Store, request: Request, steps: seq<Step>, again: Request)
    requires Recorded(store) && Processed(rules, store, request).1.Success?
    requires again.intent == request.intent
    ensures var later := Run(rules, Processed(rules, store, request).0, steps);
            Processed(rules, later, again) == (later, Processed(rules, store, request).1)
  {
    hide ExecuteInSession, Run;
    var after := Processed(rules, store, request).0;
    AnswerIsRecorded(rules, store, request);
    OrderRecorded(rules, store, request);
    RunExtends(rules, after, steps);
  }
}
