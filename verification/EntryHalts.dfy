/**
 The operator's side of the account's controls: setting and lifting the manual halt, lifting the automatic
 one after its loss day, and lifting the durable pause into a halt.  Every request is recorded, refused or not.
 */
module EntryHalts {
  import opened Wrappers
  import opened Contracts
  import opened PaperAccounts
  import opened PaperService

  /** The part of the store an operator request touches. */
  datatype Controls = Controls(account: AccountRow, events: seq<ControlEvent>)

  datatype PauseOriginKind = LEGACY_DAILY_LOSS_LIMIT | ORIGIN_KILL_SWITCH | ORIGIN_UNKNOWN | INCONSISTENT

  /** Where the current pause came from, as the verdicts on record explain it. */
  datatype PauseOrigin = PauseOrigin(kind: PauseOriginKind, decisionId: Option<Id>)

  datatype ControlRequest =
    | SetManual
    | ClearManual
    | ClearAuto(confirmLossDay: Option<int>)
    | ClearPause(origin: PauseOrigin, confirmOrigin: Id)

  function ControlOf(request: ControlRequest): HaltControl {
    match request
    case SetManual => ENTRY_HALT_MANUAL
    case ClearManual => ENTRY_HALT_MANUAL
    case ClearAuto(_) => ENTRY_HALT_AUTO
    case ClearPause(_, _) => SYSTEM_PAUSE
  }

  /** Why a request is refused, read from the row already rolled to its day where the request rolls it. */
  function RefusalOf(account: AccountRow, request: ControlRequest, now: Instant, limits: RiskLimits, killSwitch: bool)
    : Option<ControlRefusal>
  {
    match request
    case SetManual => if account.manual.halted then Some(ALREADY_HALTED) else None
    case ClearManual => if !account.manual.halted then Some(NOT_HALTED) else None
    case ClearAuto(confirm) =>
      if !account.auto.halted then Some(NOT_HALTED)
      else if confirm.Some? && confirm != account.auto.lossDay then Some(LOSS_DAY_NOT_CONFIRMED)
      else if account.auto.lossDay.None? || account.auto.lossDay.value >= LossDay(now) then Some(SAME_LOSS_DAY)
      else if account.realizedLossTodayUsd >= limits.dailyLossLimitUsd then Some(DAILY_LOSS_LIMIT_REACHED)
      else None
    case ClearPause(origin, confirm) =>
      if !account.paused then Some(NOT_PAUSED)
      else if killSwitch then Some(KILL_SWITCH_ENGAGED)
      else if origin.kind == INCONSISTENT then Some(PAUSE_HISTORY_INCONSISTENT)
      else if origin.kind == ORIGIN_KILL_SWITCH then Some(PAUSE_ORIGIN_KILL_SWITCH)
      else if origin.kind != LEGACY_DAILY_LOSS_LIMIT then Some(PAUSE_ORIGIN_UNKNOWN)
      else if Some(confirm) != origin.decisionId then Some(PAUSE_ORIGIN_NOT_CONFIRMED)
      else if !EntryHaltInForce(account) then Some(ENTRY_HALT_REQUIRED)
      else None
  }

  function EventFor(account: AccountRow, control: HaltControl, action: ControlAction, code: string, before: bool,
                    after: bool, now: Instant, limits: RiskLimits, refusal: Option<ControlRefusal>, decision: Option<Id>)
    : ControlEvent
  {
    ControlEvent(now, control, action, code, refusal, OPERATOR, before, after, account.lossDay,
                 account.realizedLossTodayUsd, limits.dailyLossLimitUsd, decision)
  }

  function Changed(account: AccountRow, request: ControlRequest, code: string, now: Instant): AccountRow {
    match request
    case SetManual => account.(manual := ManualHalt(true, Some(code), Some(now)))
    case ClearManual => account.(manual := NOT_MANUAL)
    case ClearAuto(_) => account.(auto := NOT_AUTO)
    case ClearPause(_, _) => account.(paused := false)
  }

  function DecisionBehind(account: AccountRow, request: ControlRequest): Option<Id> {
    match request
    case ClearAuto(_) => account.auto.decisionId
    case ClearPause(origin, _) => origin.decisionId
    case _ => None
  }

  /** One operator request as a transaction; a reason that is no code raises and commits nothing. */
  function Requested(controls: Controls, request: ControlRequest, code: string, now: Instant, limits: RiskLimits,
                     killSwitch: bool): Controls
  {
    if !IsCode(code) then controls
    else
      var account := if request.ClearAuto? then RollLossDay(controls.account, now) else controls.account;
      var control := ControlOf(request);
      var before := InForce(account, control);
      var refusal := RefusalOf(account, request, now, limits, killSwitch);
      if refusal.Some? then
        var decision := if request.ClearPause? then request.origin.decisionId else None;
        Controls(account, controls.events + [EventFor(account, control, REFUSED, code, before, before, now, limits, refusal, decision)])
      else
        var action := if request.SetManual? then SET else CLEAR;
        Controls(Changed(account, request, code, now),
                 controls.events + [EventFor(account, control, action, code, !request.SetManual?, request.SetManual?, now,
                                             limits, None, DecisionBehind(account, request))])
  }

  /** The service as an operator calls it: each request changes the row and the event table in place. */
  class EntryHaltService {
    const limits: RiskLimits
    const killSwitch: bool
    var account: AccountRow
    var events: seq<ControlEvent>

    function View(): Controls
      reads this
    {
      Controls(account, events)
    }

    constructor (limits: RiskLimits, killSwitch: bool, controls: Controls)
      ensures this.limits == limits && this.killSwitch == killSwitch && View() == controls
    {
      this.limits, this.killSwitch := limits, killSwitch;
      account, events := controls.account, controls.events;
    }

    method Record(control: HaltControl, action: ControlAction, code: string, before: bool, after: bool, now: Instant,
                  refusal: Option<ControlRefusal>, decision: Option<Id>)
      modifies `events
      ensures events == old(events) + [EventFor(account, control, action, code, before, after, now, limits, refusal, decision)]
    {
      events := events + [EventFor(account, control, action, code, before, after, now, limits, refusal, decision)];
    }

    method SetManualHalt(code: string, now: Instant) returns (changed: bool)
      modifies this
      ensures View() == Requested(old(View()), SetManual, code, now, limits, killSwitch)
    {
      if !IsCode(code) { return false; }
      if account.manual.halted {
        Record(ENTRY_HALT_MANUAL, REFUSED, code, true, true, now, Some(ALREADY_HALTED), None);
        return false;
      }
      Record(ENTRY_HALT_MANUAL, SET, code, false, true, now, None, None);
      account := account.(manual := ManualHalt(true, Some(code), Some(now)));
      changed := true;
    }

    method ClearManualHalt(code: string, now: Instant) returns (changed: bool)
      modifies this
      ensures View() == Requested(old(View()), ClearManual, code, now, limits, killSwitch)
    {
      if !IsCode(code) { return false; }
      if !account.manual.halted {
        Record(ENTRY_HALT_MANUAL, REFUSED, code, false, false, now, Some(NOT_HALTED), None);
        return false;
      }
      Record(ENTRY_HALT_MANUAL, CLEAR, code, true, false, now, None, None);
      account := account.(manual := NOT_MANUAL);
      changed := true;
    }

    method ClearAutoHalt(code: string, now: Instant, confirmLossDay: Option<int>) returns (changed: bool)
      modifies this
      ensures View() == Requested(old(View()), ClearAuto(confirmLossDay), code, now, limits, killSwitch)
    {
      if !IsCode(code) { return false; }
      account := RollLossDay(account, now);
      var refusal: Option<ControlRefusal> := None;
      var haltedOn := account.auto.lossDay;
      if !account.auto.halted {
        refusal := Some(NOT_HALTED);
      } else if confirmLossDay.Some? && confirmLossDay != haltedOn {
        refusal := Some(LOSS_DAY_NOT_CONFIRMED);
      } else if haltedOn.None? || haltedOn.value >= LossDay(now) {
        refusal := Some(SAME_LOSS_DAY);
      } else if account.realizedLossTodayUsd >= limits.dailyLossLimitUsd {
        refusal := Some(DAILY_LOSS_LIMIT_REACHED);
      }
      if refusal.Some? {
        Record(ENTRY_HALT_AUTO, REFUSED, code, account.auto.halted, account.auto.halted, now, refusal, None);
        return false;
      }
      Record(ENTRY_HALT_AUTO, CLEAR, code, true, false, now, None, account.auto.decisionId);
      account := account.(auto := NOT_AUTO);
      changed := true;
    }

    method LiftPause(code: string, now: Instant, origin: PauseOrigin, confirmOrigin: Id) returns (changed: bool)
      modifies this
      ensures View() == Requested(old(View()), ClearPause(origin, confirmOrigin), code, now, limits, killSwitch)
    {
      if !IsCode(code) { return false; }
      var refusal: Option<ControlRefusal> := None;
      if !account.paused {
        refusal := Some(NOT_PAUSED);
      } else if killSwitch {
        refusal := Some(KILL_SWITCH_ENGAGED);
      } else if origin.kind == INCONSISTENT {
        refusal := Some(PAUSE_HISTORY_INCONSISTENT);
      } else if origin.kind == ORIGIN_KILL_SWITCH {
        refusal := Some(PAUSE_ORIGIN_KILL_SWITCH);
      } else if origin.kind != LEGACY_DAILY_LOSS_LIMIT {
        refusal := Some(PAUSE_ORIGIN_UNKNOWN);
      } else if Some(confirmOrigin) != origin.decisionId {
        refusal := Some(PAUSE_ORIGIN_NOT_CONFIRMED);
      } else if !EntryHaltInForce(account) {
        refusal := Some(ENTRY_HALT_REQUIRED);
      }
      if refusal.Some? {
        Record(SYSTEM_PAUSE, REFUSED, code, account.paused, account.paused, now, refusal, origin.decisionId);
        return false;
      }
      Record(SYSTEM_PAUSE, CLEAR, code, true, false, now, None, origin.decisionId);
      account := account.(paused := false);
      changed := true;
    }
  }
}
