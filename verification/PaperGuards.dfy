/**
 The day's loss and the entry halts over whole runs: the loss figure is the losses of the fills that fell on
 that day, and nothing is bought between a halt being set and its being lifted.
 */
module PaperGuards {
  import opened Numbers
  import opened Wrappers
  import opened Contracts
  import opened PaperAccounts
  import opened PaperExecution
  import opened Accounting
  import opened ProfitAndLoss
  import opened PaperService
  import opened EntryHalts
  import opened PaperRuns
  import opened PaperMoney

  // ------------------------------------------------------------------------------- the day's loss

  /** The losses of exactly the fills that fell on a day. */
  function LossOn(trades: seq<Trade>, day: int): nat {
    if trades == [] then 0
    else
      var last := trades[|trades| - 1];
      LossOn(trades[..|trades| - 1], day) + if LossDay(last.createdAt) == day then Loss(last) else 0
  }

  predicate NoneAfter(trades: seq<Trade>, day: int) {
    forall t :: t in trades ==> LossDay(t.createdAt) <= day
  }

  predicate LossKept(account: AccountRow, trades: seq<Trade>) {
    account.realizedLossTodayUsd == LossOn(trades, account.lossDay) && NoneAfter(trades, account.lossDay)
  }

  lemma {:induction false} NothingLostYet(trades: seq<Trade>, day: int, later: int)
    requires NoneAfter(trades, day) && day < later
    ensures LossOn(trades, later) == 0
  {
    hide LossDay;
    if trades != [] {
      assert trades[|trades| - 1] in trades;
      NothingLostYet(trades[..|trades| - 1], day, later);
    }
  }

  lemma RollKeepsLoss(account: AccountRow, trades: seq<Trade>, now: Instant)
    requires LossKept(account, trades) && account.lossDay <= LossDay(now)
    ensures LossKept(RollLossDay(account, now), trades) && RollLossDay(account, now).lossDay == LossDay(now)
  {
    if account.lossDay != LossDay(now) {
      NothingLostYet(trades, account.lossDay, LossDay(now));
    }
  }

  lemma LossDayMonotone(at: Instant, later: Instant)
    requires at <= later
    ensures LossDay(at) <= LossDay(later)
  {
  }

  /** A fill's loss lands on the day of the fill, also when the decision was taken on the day before. */
  lemma ChargeKeepsLoss(account: AccountRow, trades: seq<Trade>, fill: ExecutionResult, booking: Booking)
    requires LossKept(account, trades) && account.lossDay <= LossDay(fill.createdAt)
    requires booking.trade.createdAt == fill.createdAt
    requires Charged(account, fill, booking).Success? && Within(Charged(account, fill, booking).value.realizedLossTodayUsd)
    ensures LossKept(Charged(account, fill, booking).value, trades + [booking.trade])
    ensures Charged(account, fill, booking).value.lossDay == LossDay(fill.createdAt)
  {
    hide Whole28, LossDay;
    var fees := Whole28(account.feesPaidUsd + Whole28(fill.feesUsd + fill.gasUsd));
    var paid := account.(cashUsd := booking.cash, feesPaidUsd := fees);
    RollKeepsLoss(paid, trades, fill.createdAt);
    WithinExact(RollLossDay(paid, fill.createdAt).realizedLossTodayUsd + Loss(booking.trade));
    assert (trades + [booking.trade])[..|trades|] == trades;
  }

  lemma HaltsKeepDay(store: Store, request: Request, fill: ExecutionResult, limits: RiskLimits)
    ensures HaltAfter(store, request, fill, limits).account.lossDay == store.account.lossDay
    ensures HaltAfter(store, request, fill, limits).account.realizedLossTodayUsd == store.account.realizedLossTodayUsd
  {
    hide HaltAutomatically;
    HaltTouchesAuto(store, LEDGER, limits, fill.createdAt, request.intent.id);
  }

  lemma BookedLoss(store: Store, request: Request, state: Portfolio.PortfolioState, simulation: Simulation, limits: RiskLimits)
    requires Book(store, request, state, simulation, limits).Success?
    ensures Charged(store.account, simulation.fill, simulation.booking).Success?
    ensures var after, charged := Book(store, request, state, simulation, limits).value.account,
                                  Charged(store.account, simulation.fill, simulation.booking).value;
            after.lossDay == charged.lossDay && after.realizedLossTodayUsd == charged.realizedLossTodayUsd
  {
    hide Charged, CalculatePnl, Saved, HaltAfter, Refuse;
    var entered := Entered(store, request, simulation).value;
    HaltsKeepDay(entered, request, simulation.fill, limits);
  }

  function StartOf(step: Step): Instant {
    match step
    case Order(request) => request.now
    case Control(_, _, at, _) => at
    case Verdict(_, _, at) => at
  }

  function EndOf(step: Step): Instant {
    match step
    case Order(request) => request.requestedAt
    case Control(_, _, at, _) => at
    case Verdict(_, _, at) => at
  }

  function LastReading(start: Instant, steps: seq<Step>): Instant {
    if steps == [] then start else EndOf(steps[|steps| - 1])
  }

  /** Clock readings never go backwards, within a transaction or from one to the next. */
  predicate Timely(start: Instant, steps: seq<Step>) {
    steps == []
    || (Timely(start, steps[..|steps| - 1])
        && LastReading(start, steps[..|steps| - 1]) <= StartOf(steps[|steps| - 1]) <= EndOf(steps[|steps| - 1]))
  }

  lemma OrderLoss(rules: Rules, store: Store, request: Request)
    requires LossKept(store.account, store.trades)
    requires store.account.lossDay <= LossDay(request.now) && request.now <= request.requestedAt
    requires Within(Processed(rules, store, request).0.account.realizedLossTodayUsd)
    ensures var after := Processed(rules, store, request).0;
            LossKept(after.account, after.trades) && after.account.lossDay <= LossDay(request.requestedAt)
  {
    hide Assess, Refuse, Simulate, Book, EntryBar, EffectOf, Processed, Governing, Persist, LossDay, LossKept, Charged;
    LossDayMonotone(request.now, request.requestedAt);
    var effect, limits := EffectOf(rules, store, request), Governing(rules, request);
    CommitsEffect(rules, store, request);
    EffectRests(rules, store, request);
    if !effect.Nothing? {
      var rolled := store.(account := RollLossDay(store.account, request.now));
      RollKeepsLoss(store.account, store.trades, request.now);
      PersistedTables(rolled, request, effect.decision);
      if effect.Refused? {
        RefuseTouchesControls(effect.persisted, effect.decision, limits, request.now);
        RefusalKeepsDay(effect.persisted, effect.decision, limits, request.now);
        SameLoss(effect.persisted.account, Processed(rules, store, request).0.account, store.trades);
      } else {
        SimulatedAbout(effect.persisted.account.cashUsd, request, effect.state.position, effect.decision);
        BookedTables(effect.persisted, request, effect.state, effect.simulation, limits);
        BookedLoss(effect.persisted, request, effect.state, effect.simulation, limits);
        ChargeKeepsLoss(effect.persisted.account, store.trades, effect.simulation.fill, effect.simulation.booking);
        SameLoss(Charged(effect.persisted.account, effect.simulation.fill, effect.simulation.booking).value,
                 Processed(rules, store, request).0.account, store.trades + [effect.simulation.booking.trade]);
      }
    }
  }

  lemma SameLoss(account: AccountRow, other: AccountRow, trades: seq<Trade>)
    requires LossKept(account, trades)
    requires other.lossDay == account.lossDay && other.realizedLossTodayUsd == account.realizedLossTodayUsd
    ensures LossKept(other, trades)
  {
  }

  lemma RequestDay(controls: Controls, request: ControlRequest, code: string, at: Instant, limits: RiskLimits, killSwitch: bool)
    ensures var after := Requested(controls, request, code, at, limits, killSwitch).account;
            var rolled := RollLossDay(controls.account, at);
            || (after.lossDay == controls.account.lossDay && after.realizedLossTodayUsd == controls.account.realizedLossTodayUsd)
            || (after.lossDay == rolled.lossDay && after.realizedLossTodayUsd == rolled.realizedLossTodayUsd)
  {
    hide RefusalOf, EventFor, LossDay;
  }

  lemma StepLoss(rules: Rules, store: Store, step: Step)
    requires LossKept(store.account, store.trades)
    requires store.account.lossDay <= LossDay(StartOf(step)) && StartOf(step) <= EndOf(step)
    requires Within(Next(rules, store, step).account.realizedLossTodayUsd)
    ensures var after := Next(rules, store, step);
            LossKept(after.account, after.trades) && after.account.lossDay <= LossDay(EndOf(step))
  {
    hide Processed, Refuse, Requested, LossDay, LossKept;
    match step
    case Control(request, code, at, killSwitch) =>
      RollKeepsLoss(store.account, store.trades, at);
      RequestDay(Controls(store.account, store.events), request, code, at, rules.limits, killSwitch);
      var after := Requested(Controls(store.account, store.events), request, code, at, rules.limits, killSwitch).account;
      if after.lossDay == store.account.lossDay && after.realizedLossTodayUsd == store.account.realizedLossTodayUsd {
        SameLoss(store.account, after, store.trades);
      } else {
        SameLoss(RollLossDay(store.account, at), after, store.trades);
      }
    case Verdict(decision, limits, at) =>
      var rolled := store.(account := RollLossDay(store.account, at));
      RollKeepsLoss(store.account, store.trades, at);
      RefuseTouchesControls(rolled, decision, limits, at);
      RefusalKeepsDay(rolled, decision, limits, at);
      SameLoss(rolled.account, Refuse(rolled, decision, limits, at).account, store.trades);
    case Order(request) => OrderLoss(rules, store, request);
  }

  lemma RefusalKeepsDay(store: Store, decision: RiskDecision, limits: RiskLimits, at: Instant)
    ensures Refuse(store, decision, limits, at).account.lossDay == store.account.lossDay
    ensures Refuse(store, decision, limits, at).account.realizedLossTodayUsd == store.account.realizedLossTodayUsd
  {
    hide Refuse;
    RefuseTouchesRow(store, decision, limits, at);
  }

  /** The day's loss stays below 10^10 dollars. */
  predicate LossWithin(rules: Rules, store: Store, steps: seq<Step>) {
    && Within(Run(rules, store, steps).account.realizedLossTodayUsd)
    && (steps != [] ==> LossWithin(rules, store, steps[..|steps| - 1]))
  }

  /**
   After every step of a run whose clock never goes backwards, the day's realised loss is the sum of the
   losses of exactly the fills whose own instant falls on that UTC day.
   */
  lemma {:induction false} RunKeepsLoss(rules: Rules, store: Store, steps: seq<Step>, start: Instant)
    requires LossKept(store.account, store.trades) && store.account.lossDay <= LossDay(start)
    requires Timely(start, steps) && LossWithin(rules, store, steps)
    ensures var after := Run(rules, store, steps);
            && after.account.realizedLossTodayUsd == LossOn(after.trades, after.account.lossDay)
            && LossKept(after.account, after.trades) && after.account.lossDay <= LossDay(LastReading(start, steps))
  {
    hide Next, LossDay, LossOn, NoneAfter;
    if steps != [] {
      var rest, last := steps[..|steps| - 1], steps[|steps| - 1];
      RunKeepsLoss(rules, store, rest, start);
      LossDayMonotone(LastReading(start, rest), StartOf(last));
      StepLoss(rules, Run(rules, store, rest), last);
    }
  }

  // ------------------------------------------------------------------------------------ fees paid

  function FeesOf(trades: seq<Trade>): nat {
    if trades == [] then 0 else FeesOf(trades[..|trades| - 1]) + trades[|trades| - 1].feesUsd
  }

  lemma ChargedFees(account: AccountRow, fill: ExecutionResult, booking: Booking)
    requires Charged(account, fill, booking).Success? && Within(Charged(account, fill, booking).value.feesPaidUsd)
    requires booking.trade.feesUsd == Whole28(fill.feesUsd + fill.gasUsd)
    ensures Charged(account, fill, booking).value.feesPaidUsd == account.feesPaidUsd + booking.trade.feesUsd
  {
    hide Whole28, LossDay;
    WithinExact(account.feesPaidUsd + Whole28(fill.feesUsd + fill.gasUsd));
  }

  lemma BookedFees(position: Position, fill: ExecutionResult, cash: int)
    requires ApplyFill(position, fill, cash).Success?
    ensures ApplyFill(position, fill, cash).value.trade.feesUsd == Whole28(fill.feesUsd + fill.gasUsd)
  {
    hide Whole28, FillGross, RemovedBasis;
  }

  lemma HaltKeepsFees(store: Store, request: Request, fill: ExecutionResult, limits: RiskLimits)
    ensures HaltAfter(store, request, fill, limits).account.feesPaidUsd == store.account.feesPaidUsd
  {
    hide LossDay;
  }

  lemma BookingFees(store: Store, request: Request, state: Portfolio.PortfolioState, simulation: Simulation, limits: RiskLimits)
    requires Book(store, request, state, simulation, limits).Success?
    ensures Charged(store.account, simulation.fill, simulation.booking).Success?
    ensures Book(store, request, state, simulation, limits).value.account.feesPaidUsd
            == Charged(store.account, simulation.fill, simulation.booking).value.feesPaidUsd
  {
    hide Charged, CalculatePnl, Saved, HaltAfter;
    HaltKeepsFees(Entered(store, request, simulation).value, request, simulation.fill, limits);
  }

  lemma StepFees(rules: Rules, store: Store, step: Step)
    requires store.account.feesPaidUsd == FeesOf(store.trades)
    requires Within(Next(rules, store, step).account.feesPaidUsd)
    ensures Next(rules, store, step).account.feesPaidUsd == FeesOf(Next(rules, store, step).trades)
  {
    hide Processed, Refuse, Requested, Book, Persist, EffectOf, Assess, Simulate, LossDay, EntryBar, FeesOf, Execute, ApplyFill, Charged;
    match step
    case Control(request, code, at, killSwitch) =>
      RequestKeepsMoney(Controls(store.account, store.events), request, code, at, rules.limits, killSwitch);
    case Verdict(decision, limits, at) =>
      var rolled := store.(account := RollLossDay(store.account, at));
      RefuseTouchesControls(rolled, decision, limits, at);
      RefusalKeepsMoney(rolled, decision, limits, at);
    case Order(request) =>
      var effect, limits := EffectOf(rules, store, request), Governing(rules, request);
      CommitsEffect(rules, store, request);
      EffectRests(rules, store, request);
      if !effect.Nothing? {
        PersistedTables(store.(account := RollLossDay(store.account, request.now)), request, effect.decision);
        if effect.Refused? {
          RefuseTouchesControls(effect.persisted, effect.decision, limits, request.now);
          RefusalKeepsMoney(effect.persisted, effect.decision, limits, request.now);
        } else {
          SimulatedAbout(effect.persisted.account.cashUsd, request, effect.state.position, effect.decision);
          BookedTables(effect.persisted, request, effect.state, effect.simulation, limits);
          BookedFees(effect.state.position, effect.simulation.fill, effect.persisted.account.cashUsd);
          BookingFees(effect.persisted, request, effect.state, effect.simulation, limits);
          ChargedFees(effect.persisted.account, effect.simulation.fill, effect.simulation.booking);
          OneTradeMore(store.trades, effect.simulation.booking.trade);
        }
      }
  }

  lemma OneTradeMore(trades: seq<Trade>, trade: Trade)
    ensures FeesOf(trades + [trade]) == FeesOf(trades) + trade.feesUsd
  {
    assert (trades + [trade])[..|trades|] == trades;
  }

  predicate FeesWithin(rules: Rules, store: Store, steps: seq<Step>) {
    Within(Run(rules, store, steps).account.feesPaidUsd) && (steps != [] ==> FeesWithin(rules, store, steps[..|steps| - 1]))
  }

  /** The fees on the account are the fees of its trades, after every run that stays below 10^10 dollars of them. */
  lemma {:induction false} RunKeepsFees(rules: Rules, store: Store, steps: seq<Step>)
    requires store.account.feesPaidUsd == FeesOf(store.trades) && FeesWithin(rules, store, steps)
    ensures Run(rules, store, steps).account.feesPaidUsd == FeesOf(Run(rules, store, steps).trades)
  {
    hide Next, FeesOf;
    if steps != [] {
      RunKeepsFees(rules, store, steps[..|steps| - 1]);
      StepFees(rules, Run(rules, store, steps[..|steps| - 1]), steps[|steps| - 1]);
    }
  }

  // ------------------------------------------------------------------------------- halts and events

  /** What last happened to a control, refusals aside. */
  function LastChange(events: seq<ControlEvent>, control: HaltControl): Option<ControlAction> {
    if events == [] then None
    else
      var last := events[|events| - 1];
      if last.control == control && last.action != REFUSED then Some(last.action)
      else LastChange(events[..|events| - 1], control)
  }

  /** A halt is in force exactly when the record's last word on it is a SET. */
  predicate Follows(account: AccountRow, events: seq<ControlEvent>) {
    && (account.auto.halted <==> LastChange(events, ENTRY_HALT_AUTO) == Some(SET))
    && (account.manual.halted <==> LastChange(events, ENTRY_HALT_MANUAL) == Some(SET))
  }

  lemma LastOf(events: seq<ControlEvent>, event: ControlEvent, control: HaltControl)
    ensures LastChange(events + [event], control)
            == if event.control == control && event.action != REFUSED then Some(event.action) else LastChange(events, control)
  {
    assert (events + [event])[..|events|] == events;
  }

  lemma HaltFollows(store: Store, actor: ActorKind, limits: RiskLimits, at: Instant, decisionId: Id)
    requires Follows(store.account, store.events)
    ensures var after := HaltAutomatically(store, actor, limits, at, decisionId); Follows(after.account, after.events)
  {
    hide LossDay;
    if !store.account.auto.halted {
      var event := HaltAutomatically(store, actor, limits, at, decisionId).events[|store.events|];
      LastOf(store.events, event, ENTRY_HALT_AUTO);
      LastOf(store.events, event, ENTRY_HALT_MANUAL);
    }
  }

  lemma RefusalFollows(store: Store, decision: RiskDecision, limits: RiskLimits, at: Instant)
    requires Follows(store.account, store.events)
    ensures var after := Refuse(store, decision, limits, at); Follows(after.account, after.events)
  {
    hide HaltAutomatically, LastChange;
    HaltFollows(store, SENTINEL, limits, at, decision.intent.id);
    HaltFollows(store.(account := store.account.(paused := true)), SENTINEL, limits, at, decision.intent.id);
  }

  /** What a request appends, and what it does to the two halts. */
  lemma RequestAppends(controls: Controls, request: ControlRequest, code: string, at: Instant, limits: RiskLimits, killSwitch: bool)
    returns (event: ControlEvent)
    requires IsCode(code)
    ensures var after := Requested(controls, request, code, at, limits, killSwitch);
            && after.events == controls.events + [event]
            && (event.action == REFUSED ==>
                  after.account.auto == controls.account.auto && after.account.manual == controls.account.manual)
            && (event.action != REFUSED ==>
                  && event.control == ControlOf(request) && event.action == (if request.SetManual? then SET else CLEAR)
                  && (event.control != ENTRY_HALT_AUTO ==>
                        after.account.auto.halted == controls.account.auto.halted)
                  && (event.control == ENTRY_HALT_AUTO ==> !after.account.auto.halted)
                  && (event.control == ENTRY_HALT_MANUAL ==> after.account.manual.halted == request.SetManual?)
                  && (event.control == ENTRY_HALT_AUTO ==> after.account.manual.halted == controls.account.manual.halted)
                  && (event.control == SYSTEM_PAUSE ==> after.account.manual.halted == controls.account.manual.halted))
  {
    hide RefusalOf, LossDay, IsCode, InForce;
    event := Requested(controls, request, code, at, limits, killSwitch).events[|controls.events|];
  }

  lemma RequestFollows(controls: Controls, request: ControlRequest, code: string, at: Instant, limits: RiskLimits, killSwitch: bool)
    requires Follows(controls.account, controls.events)
    ensures var after := Requested(controls, request, code, at, limits, killSwitch); Follows(after.account, after.events)
  {
    hide LastChange, RefusalOf, LossDay, IsCode;
    if IsCode(code) {
      hide Requested;
      var event := RequestAppends(controls, request, code, at, limits, killSwitch);
      LastOf(controls.events, event, ENTRY_HALT_AUTO);
      LastOf(controls.events, event, ENTRY_HALT_MANUAL);
    }
  }

  lemma BookingFollows(store: Store, request: Request, state: Portfolio.PortfolioState, simulation: Simulation, limits: RiskLimits)
    requires Follows(store.account, store.events) && Book(store, request, state, simulation, limits).Success?
    ensures var after := Book(store, request, state, simulation, limits).value; Follows(after.account, after.events)
    ensures request.intent.side == BUY ==> Book(store, request, state, simulation, limits).value.events == store.events
  {
    hide CalculatePnl, Saved, LastChange, HaltAutomatically, Whole28, LossDay;
    var entered := Entered(store, request, simulation).value;
    assert entered.account.auto == store.account.auto && entered.account.manual == store.account.manual;
    HaltFollows(entered, LEDGER, limits, simulation.fill.createdAt, request.intent.id);
  }

  lemma StepFollows(rules: Rules, store: Store, step: Step)
    requires Follows(store.account, store.events)
    ensures var after := Next(rules, store, step); Follows(after.account, after.events)
  {
    hide Processed, Refuse, Requested, LastChange, Book, Persist, EffectOf, Assess, Simulate, LossDay, EntryBar;
    match step
    case Control(request, code, at, killSwitch) =>
      RequestFollows(Controls(store.account, store.events), request, code, at, rules.limits, killSwitch);
    case Verdict(decision, limits, at) =>
      RefusalFollows(store.(account := RollLossDay(store.account, at)), decision, limits, at);
    case Order(request) =>
      var effect, limits := EffectOf(rules, store, request), Governing(rules, request);
      CommitsEffect(rules, store, request);
      EffectRests(rules, store, request);
      if !effect.Nothing? {
        PersistedTables(store.(account := RollLossDay(store.account, request.now)), request, effect.decision);
        if effect.Refused? {
          RefusalFollows(effect.persisted, effect.decision, limits, request.now);
        } else {
          BookingFollows(effect.persisted, request, effect.state, effect.simulation, limits);
        }
      }
  }

  lemma {:induction false} RunFollows(rules: Rules, store: Store, steps: seq<Step>)
    requires Follows(store.account, store.events)
    ensures var after := Run(rules, store, steps); Follows(after.account, after.events)
  {
    hide Next, LastChange;
    if steps != [] {
      RunFollows(rules, store, steps[..|steps| - 1]);
      StepFollows(rules, Run(rules, store, steps[..|steps| - 1]), steps[|steps| - 1]);
    }
  }

  lemma {:induction false} LiftedSince(events: seq<ControlEvent>, control: HaltControl, i: nat)
    requires i < |events| && events[i].control == control && events[i].action == SET
    requires LastChange(events, control) != Some(SET)
    ensures exists j :: i < j < |events| && events[j].control == control && events[j].action == CLEAR
  {
    var last := events[|events| - 1];
    if last.control == control && last.action != REFUSED {
      assert last.action == CLEAR;
    } else {
      LiftedSince(events[..|events| - 1], control, i);
    }
  }

  /** The transaction books a purchase that was not on record before. */
  predicate BooksPurchase(rules: Rules, store: Store, request: Request) {
    && request.intent.side == BUY && request.intent.id !in store.intents
    && Processed(rules, store, request).1.Success? && Processed(rules, store, request).1.value.Filled?
  }

  /**
   Nothing is bought between a halt and its lifting: whenever a run books a purchase, every SET of either
   entry halt on record has a later CLEAR of the same halt.
   */
  lemma NoPurchaseWhileHalted(rules: Rules, store: Store, steps: seq<Step>, request: Request, control: HaltControl, i: nat)
    requires Follows(store.account, store.events)
    requires BooksPurchase(rules, Run(rules, store, steps), request)
    requires control != SYSTEM_PAUSE
    requires var events := Run(rules, store, steps).events;
             i < |events| && events[i].control == control && events[i].action == SET
    ensures var events := Run(rules, store, steps).events;
            exists j :: i < j < |events| && events[j].control == control && events[j].action == CLEAR
  {
    hide Run, Processed, LastChange, EffectOf, Book, Assess, Persist, Simulate, Refuse;
    var reached := Run(rules, store, steps);
    RunFollows(rules, store, steps);
    CommitsEffect(rules, reached, request);
    EffectRests(rules, reached, request);
    LiftedSince(reached.events, control, i);
  }

  // --------------------------------------------------------------------------- halted at the limit

  /** While the day's realised loss is at the limit, entries are halted automatically. */
  predicate HaltedAtLimit(account: AccountRow, limits: RiskLimits) {
    account.realizedLossTodayUsd >= limits.dailyLossLimitUsd ==> account.auto.halted
  }

  /** The step is judged against the service's own daily limit, as every step without limits of its own is. */
  predicate OwnDailyLimit(rules: Rules, step: Step) {
    match step
    case Order(request) => Governing(rules, request).dailyLossLimitUsd == rules.limits.dailyLossLimitUsd
    case Control(_, _, _, _) => true
    case Verdict(_, _, _) => true
  }

  /** The day's loss is a figure that 28 digits hold, as everything the account is ever charged is. */
  predicate Settled(account: AccountRow) {
    Whole28(account.realizedLossTodayUsd) == account.realizedLossTodayUsd
  }

  lemma RollSettled(account: AccountRow, now: Instant)
    requires Settled(account)
    ensures Settled(RollLossDay(account, now))
  {
    hide LossDay, Whole28;
    Whole28Exact(0);
  }

  lemma Whole28Twice(n: nat)
    ensures Whole28(Whole28(n)) == Whole28(n)
  {
    hide Sig;
    SigStaysWhole(LEAD28, n);
    SigTwice(n as real);
  }

  lemma StepSettled(rules: Rules, store: Store, step: Step)
    requires Settled(store.account)
    ensures Settled(Next(rules, store, step).account)
  {
    hide Processed, Refuse, Book, Persist, EffectOf, Assess, Simulate, LossDay, EntryBar, Execute, ApplyFill, Charged, Settled,
         RefusalOf, EventFor;
    match step
    case Control(request, code, at, killSwitch) =>
      RollSettled(store.account, at);
      SettledAlike(store.account, Next(rules, store, step).account, at);
    case Verdict(decision, limits, at) =>
      var rolled := store.(account := RollLossDay(store.account, at));
      RollSettled(store.account, at);
      RefusalKeepsDay(rolled, decision, limits, at);
      SameSettled(rolled.account, Next(rules, store, step).account);
    case Order(request) =>
      var effect, limits := EffectOf(rules, store, request), Governing(rules, request);
      CommitsEffect(rules, store, request);
      EffectRests(rules, store, request);
      if !effect.Nothing? {
        RollSettled(store.account, request.now);
        PersistedTables(store.(account := RollLossDay(store.account, request.now)), request, effect.decision);
        if effect.Refused? {
          RefusalKeepsDay(effect.persisted, effect.decision, limits, request.now);
          SameSettled(effect.persisted.account, Next(rules, store, step).account);
        } else {
          BookedLoss(effect.persisted, request, effect.state, effect.simulation, limits);
          ChargeSettles(effect.persisted.account, effect.simulation.fill, effect.simulation.booking);
          SameSettled(Charged(effect.persisted.account, effect.simulation.fill, effect.simulation.booking).value,
                      Next(rules, store, step).account);
        }
      }
  }

  lemma SameSettled(account: AccountRow, other: AccountRow)
    requires Settled(account) && other.realizedLossTodayUsd == account.realizedLossTodayUsd
    ensures Settled(other)
  {
    hide Whole28;
  }

  lemma SettledAlike(account: AccountRow, other: AccountRow, at: Instant)
    requires Settled(account)
    requires other.realizedLossTodayUsd == account.realizedLossTodayUsd
             || other.realizedLossTodayUsd == RollLossDay(account, at).realizedLossTodayUsd
    ensures Settled(other)
  {
    hide LossDay, Settled;
    RollSettled(account, at);
    if other.realizedLossTodayUsd == account.realizedLossTodayUsd {
      SameSettled(account, other);
    } else {
      SameSettled(RollLossDay(account, at), other);
    }
  }

  lemma ChargeSettles(account: AccountRow, fill: ExecutionResult, booking: Booking)
    requires Charged(account, fill, booking).Success?
    ensures Settled(Charged(account, fill, booking).value)
  {
    hide Whole28, LossDay;
    var paid := account.(cashUsd := booking.cash,
                         feesPaidUsd := Whole28(account.feesPaidUsd + Whole28(fill.feesUsd + fill.gasUsd)));
    Whole28Twice(RollLossDay(paid, fill.createdAt).realizedLossTodayUsd + Loss(booking.trade));
  }

  lemma RollHalted(account: AccountRow, limits: RiskLimits, now: Instant)
    requires HaltedAtLimit(account, limits)
    ensures HaltedAtLimit(RollLossDay(account, now), limits)
  {
    hide LossDay;
  }

  lemma RefusalHalted(store: Store, decision: RiskDecision, limits: RiskLimits, own: RiskLimits, at: Instant)
    requires HaltedAtLimit(store.account, own)
    ensures HaltedAtLimit(Refuse(store, decision, limits, at).account, own)
  {
    hide Refuse;
    RefuseTouchesRow(store, decision, limits, at);
  }

  lemma RequestHalted(controls: Controls, request: ControlRequest, code: string, at: Instant, limits: RiskLimits, killSwitch: bool)
    requires HaltedAtLimit(controls.account, limits)
    ensures HaltedAtLimit(Requested(controls, request, code, at, limits, killSwitch).account, limits)
  {
    hide EventFor, LossDay;
  }

  /** A purchase realises nothing: only a sale can move the day's loss. */
  lemma PurchaseRealizesNothing(position: Position, fill: ExecutionResult, cash: int)
    requires ApplyFill(position, fill, cash).Success? && fill.side == BUY
    ensures ApplyFill(position, fill, cash).value.trade.realizedPnlUsd == 0
  {
    hide Whole28, FillGross;
  }

  lemma ChargeWithoutLoss(account: AccountRow, fill: ExecutionResult, booking: Booking, limits: RiskLimits)
    requires HaltedAtLimit(account, limits) && Settled(account)
    requires Charged(account, fill, booking).Success? && Loss(booking.trade) == 0
    ensures HaltedAtLimit(Charged(account, fill, booking).value, limits)
  {
    hide Whole28, LossDay;
    var paid := account.(cashUsd := booking.cash,
                         feesPaidUsd := Whole28(account.feesPaidUsd + Whole28(fill.feesUsd + fill.gasUsd)));
    RollHalted(paid, limits, fill.createdAt);
    RollSettled(paid, fill.createdAt);
  }

  lemma SaleHalted(store: Store, request: Request, fill: ExecutionResult, limits: RiskLimits, own: RiskLimits)
    requires limits.dailyLossLimitUsd == own.dailyLossLimitUsd && request.intent.side == SELL
    ensures HaltedAtLimit(HaltAfter(store, request, fill, limits).account, own)
  {
    hide LossDay;
  }

  lemma BookingHalted(store: Store, request: Request, state: Portfolio.PortfolioState, simulation: Simulation, limits: RiskLimits,
                      own: RiskLimits)
    requires HaltedAtLimit(store.account, own) && Settled(store.account)
    requires limits.dailyLossLimitUsd == own.dailyLossLimitUsd
    requires request.intent.side == BUY ==> simulation.booking.trade.realizedPnlUsd == 0
    requires Book(store, request, state, simulation, limits).Success?
    ensures HaltedAtLimit(Book(store, request, state, simulation, limits).value.account, own)
  {
    hide Charged, CalculatePnl, Saved, HaltAutomatically;
    var entered := Entered(store, request, simulation).value;
    if request.intent.side == SELL {
      SaleHalted(entered, request, simulation.fill, limits, own);
    } else {
      ChargeWithoutLoss(store.account, simulation.fill, simulation.booking, own);
    }
  }

  lemma StepHalted(rules: Rules, store: Store, step: Step)
    requires HaltedAtLimit(store.account, rules.limits) && Settled(store.account)
    requires OwnDailyLimit(rules, step)
    ensures HaltedAtLimit(Next(rules, store, step).account, rules.limits)
  {
    hide Processed, Refuse, Requested, Book, Persist, EffectOf, Assess, Simulate, LossDay, EntryBar, HaltedAtLimit, Execute, ApplyFill,
         Settled;
    match step
    case Control(request, code, at, killSwitch) =>
      RequestHalted(Controls(store.account, store.events), request, code, at, rules.limits, killSwitch);
    case Verdict(decision, limits, at) =>
      RollHalted(store.account, rules.limits, at);
      RefusalHalted(store.(account := RollLossDay(store.account, at)), decision, limits, rules.limits, at);
    case Order(request) =>
      var effect, limits := EffectOf(rules, store, request), Governing(rules, request);
      CommitsEffect(rules, store, request);
      EffectRests(rules, store, request);
      if !effect.Nothing? {
        RollHalted(store.account, rules.limits, request.now);
        RollSettled(store.account, request.now);
        PersistedTables(store.(account := RollLossDay(store.account, request.now)), request, effect.decision);
        if effect.Refused? {
          RefusalHalted(effect.persisted, effect.decision, limits, rules.limits, request.now);
        } else {
          SimulatedAbout(effect.persisted.account.cashUsd, request, effect.state.position, effect.decision);
          if request.intent.side == BUY {
            PurchaseRealizesNothing(effect.state.position, effect.simulation.fill, effect.persisted.account.cashUsd);
          }
          BookingHalted(effect.persisted, request, effect.state, effect.simulation, limits, rules.limits);
        }
      }
  }

  /**
   Whatever happens in a run, operators included: as long as the day's realised loss stands at the service's
   daily limit, the automatic entry halt is in force.
   */
  lemma {:induction false} RunStaysHaltedAtLimit(rules: Rules, store: Store, steps: seq<Step>)
    requires HaltedAtLimit(store.account, rules.limits) && Settled(store.account)
    requires forall step :: step in steps ==> OwnDailyLimit(rules, step)
    ensures HaltedAtLimit(Run(rules, store, steps).account, rules.limits) && Settled(Run(rules, store, steps).account)
  {
    hide Next, OwnDailyLimit, HaltedAtLimit, Settled;
    if steps != [] {
      var rest, last := steps[..|steps| - 1], steps[|steps| - 1];
      assert steps == rest + [last];
      RunStaysHaltedAtLimit(rules, store, rest);
      assert last in steps;
      StepHalted(rules, Run(rules, store, rest), last);
      StepSettled(rules, Run(rules, store, rest), last);
    }
  }
}
