/** The one paper account row, its two entry halts and its durable pause, and the audit events beside it. */
module PaperAccounts {
  import opened Wrappers
  import opened Contracts

  datatype HaltControl = ENTRY_HALT_AUTO | ENTRY_HALT_MANUAL | SYSTEM_PAUSE
  datatype ControlAction = SET | CLEAR | REFUSED
  datatype ActorKind = OPERATOR | SENTINEL | LEDGER

  datatype ControlRefusal =
    | ALREADY_HALTED
    | NOT_HALTED
    | SAME_LOSS_DAY
    | DAILY_LOSS_LIMIT_REACHED
    | LOSS_DAY_NOT_CONFIRMED
    | NOT_PAUSED
    | KILL_SWITCH_ENGAGED
    | PAUSE_ORIGIN_UNKNOWN
    | PAUSE_ORIGIN_KILL_SWITCH
    | PAUSE_HISTORY_INCONSISTENT
    | PAUSE_ORIGIN_NOT_CONFIRMED
    | ENTRY_HALT_REQUIRED

  const DAILY_LOSS_LIMIT_CODE: string := "DAILY_LOSS_LIMIT"

  predicate CodeChar(c: char) {
    'A' <= c <= 'Z' || '0' <= c <= '9' || c == '_'
  }

  /** A reason is a code of 1 to 64 characters starting with a letter, never free text. */
  predicate IsCode(value: string) {
    && 1 <= |value| <= 64
    && 'A' <= value[0] <= 'Z'
    && forall c :: c in value ==> CodeChar(c)
  }

  datatype AutoHalt = AutoHalt(
    halted: bool,
    reason: Option<string>,
    at: Option<Instant>,
    lossDay: Option<int>,
    decisionId: Option<Id>
  )

  datatype ManualHalt = ManualHalt(halted: bool, reason: Option<string>, at: Option<Instant>)

  datatype AccountRow = AccountRow(
    cashUsd: Amount,
    initialCashUsd: Amount,
    feesPaidUsd: Amount,
    lossDay: int,
    realizedLossTodayUsd: Amount,
    paused: bool,
    auto: AutoHalt,
    manual: ManualHalt
  )

  const NOT_AUTO: AutoHalt := AutoHalt(false, None, None, None, None)
  const NOT_MANUAL: ManualHalt := ManualHalt(false, None, None)

  /** A halt in force names why, when and for which loss day; one not in force carries none of it. */
  predicate RowConsistent(row: AccountRow) {
    && (if row.auto.halted then row.auto.reason.Some? && row.auto.at.Some? && row.auto.lossDay.Some?
        else row.auto == NOT_AUTO)
    && (if row.manual.halted then row.manual.reason.Some? && row.manual.at.Some? else row.manual == NOT_MANUAL)
    && (row.auto.reason.Some? ==> IsCode(row.auto.reason.value))
    && (row.manual.reason.Some? ==> IsCode(row.manual.reason.value))
  }

  datatype ControlEvent = ControlEvent(
    occurredAt: Instant,
    control: HaltControl,
    action: ControlAction,
    reasonCode: string,
    refusalCode: Option<ControlRefusal>,
    actorKind: ActorKind,
    haltedBefore: bool,
    haltedAfter: bool,
    lossDay: int,
    realizedLossTodayUsd: Amount,
    dailyLossLimitUsd: Amount,
    decisionId: Option<Id>
  )

  /** The row checks on an event: a SET leaves the halt in force, a CLEAR lifts it, a refusal changes nothing. */
  predicate EventConsistent(event: ControlEvent) {
    && (event.action == REFUSED <==> event.refusalCode.Some?)
    && IsCode(event.reasonCode)
    && (match event.action
        case SET => event.haltedAfter
        case CLEAR => event.haltedBefore && !event.haltedAfter
        case REFUSED => event.haltedBefore == event.haltedAfter)
    && (event.control == SYSTEM_PAUSE ==> event.actorKind == OPERATOR && event.action != SET)
  }

  /** Either halt stops every new purchase and no sale. */
  predicate EntryHaltInForce(row: AccountRow) {
    row.manual.halted || row.auto.halted
  }

  predicate InForce(row: AccountRow, control: HaltControl) {
    match control
    case ENTRY_HALT_AUTO => row.auto.halted
    case ENTRY_HALT_MANUAL => row.manual.halted
    case SYSTEM_PAUSE => row.paused
  }
}
