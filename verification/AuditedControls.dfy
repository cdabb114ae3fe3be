/**
 The database's own guard on the paper account's controls: row checks on every statement, and two deferred
 triggers that look at every row change again when the transaction commits.
 */
module AuditedControls {
  import opened Wrappers
  import opened PaperAccounts

  /** An event as stored: beside it the transaction that wrote it, always the database's own number. */
  datatype StoredEvent = StoredEvent(txid: nat, event: ControlEvent)

  datatype Statement =
    | InsertAccount(row: AccountRow)
    | UpdateAccount(row: AccountRow)
    | DeleteAccount
    | InsertEvent(event: ControlEvent)
    | RewriteEvents

  /** One row change queued for the deferred triggers: no old row for an insert. */
  datatype RowChange = RowChange(old_: Option<AccountRow>, new_: AccountRow)

  datatype Database = Database(account: Option<AccountRow>, events: seq<StoredEvent>)

  datatype Session = Session(database: Database, queue: seq<RowChange>)

  // ----------------------------------------------------------------------------------- the triggers

  /** An event of this transaction that accounts for an entry-halt change. */
  predicate AccountsFor(stored: StoredEvent, txid: nat, control: HaltControl, before: bool, after: bool,
                        reason: Option<string>)
  {
    && stored.txid == txid
    && stored.event.control == control
    && stored.event.action != REFUSED
    && stored.event.haltedBefore == before
    && stored.event.haltedAfter == after
    && (after ==> reason == Some(stored.event.reasonCode))
  }

  predicate AutoAudited(change: RowChange, txid: nat, events: seq<StoredEvent>) {
    var before := change.old_.Some? && change.old_.value.auto.halted;
    var changed := if change.old_.Some? then change.old_.value.auto != change.new_.auto else change.new_.auto.halted;
    changed ==>
      exists e :: e in events && AccountsFor(e, txid, ENTRY_HALT_AUTO, before, change.new_.auto.halted, change.new_.auto.reason)
  }

  predicate ManualAudited(change: RowChange, txid: nat, events: seq<StoredEvent>) {
    var before := change.old_.Some? && change.old_.value.manual.halted;
    var changed := if change.old_.Some? then change.old_.value.manual != change.new_.manual else change.new_.manual.halted;
    changed ==>
      exists e :: e in events && AccountsFor(e, txid, ENTRY_HALT_MANUAL, before, change.new_.manual.halted, change.new_.manual.reason)
  }

  predicate PauseLift(stored: StoredEvent, txid: nat) {
    && stored.txid == txid && stored.event.control == SYSTEM_PAUSE && stored.event.action == CLEAR
    && stored.event.haltedBefore && !stored.event.haltedAfter
  }

  predicate PauseAudited(change: RowChange, txid: nat, events: seq<StoredEvent>) {
    change.old_.Some? && change.old_.value.paused && !change.new_.paused ==> exists e :: e in events && PauseLift(e, txid)
  }

  predicate Audited(change: RowChange, txid: nat, events: seq<StoredEvent>) {
    AutoAudited(change, txid, events) && ManualAudited(change, txid, events) && PauseAudited(change, txid, events)
  }

  /** `require_audited_entry_halt`, with its local flags. */
  method RequireAuditedEntryHalt(change: RowChange, txid: nat, events: seq<StoredEvent>) returns (ok: bool)
    ensures ok <==> AutoAudited(change, txid, events) && ManualAudited(change, txid, events)
  {
    var autoBefore, manualBefore := false, false;
    var autoChanged, manualChanged;
    if change.old_.Some? {
      autoBefore := change.old_.value.auto.halted;
      manualBefore := change.old_.value.manual.halted;
      autoChanged := change.old_.value.auto != change.new_.auto;
      manualChanged := change.old_.value.manual != change.new_.manual;
    } else {
      autoChanged := change.new_.auto.halted;
      manualChanged := change.new_.manual.halted;
    }
    if autoChanged {
      var found := Find(events, txid, ENTRY_HALT_AUTO, autoBefore, change.new_.auto.halted, change.new_.auto.reason);
      if !found { return false; }
    }
    if manualChanged {
      var found := Find(events, txid, ENTRY_HALT_MANUAL, manualBefore, change.new_.manual.halted, change.new_.manual.reason);
      if !found { return false; }
    }
    ok := true;
  }

  method Find(events: seq<StoredEvent>, txid: nat, control: HaltControl, before: bool, after: bool, reason: Option<string>)
    returns (found: bool)
    ensures found <==> exists e :: e in events && AccountsFor(e, txid, control, before, after, reason)
  {
    found := exists e :: e in events && AccountsFor(e, txid, control, before, after, reason);
  }

  /** `require_audited_pause_clear`: only a change from paused to not paused needs an event. */
  method RequireAuditedPauseClear(change: RowChange, txid: nat, events: seq<StoredEvent>) returns (ok: bool)
    ensures ok <==> PauseAudited(change, txid, events)
  {
    if change.old_.None? || !change.old_.value.paused || change.new_.paused {
      return true;
    }
    ok := exists e :: e in events && PauseLift(e, txid);
  }

  // ------------------------------------------------------------------------------- one transaction

  /** One statement, or nothing where the database refuses it at once. */
  function Execute(session: Session, txid: nat, statement: Statement): Option<Session> {
    var Database(account, events) := session.database;
    match statement
    case InsertAccount(row) =>
      if account.Some? || !RowConsistent(row) then None
      else Some(Session(Database(Some(row), events), session.queue + [RowChange(None, row)]))
    case UpdateAccount(row) =>
      if account.None? then Some(session)
      else if !RowConsistent(row) then None
      else Some(Session(Database(Some(row), events), session.queue + [RowChange(account, row)]))
    case DeleteAccount => Some(Session(Database(None, events), session.queue))
    case InsertEvent(event) =>
      if !EventConsistent(event) then None
      else Some(Session(Database(account, events + [StoredEvent(txid, event)]), session.queue))
    case RewriteEvents => None
  }

  function ExecuteAll(session: Session, txid: nat, statements: seq<Statement>): Option<Session> {
    if statements == [] then Some(session)
    else
      match ExecuteAll(session, txid, statements[..|statements| - 1])
      case None => None
      case Some(reached) => Execute(reached, txid, statements[|statements| - 1])
  }

  predicate AllAudited(queue: seq<RowChange>, txid: nat, events: seq<StoredEvent>) {
    forall i :: 0 <= i < |queue| ==> Audited(queue[i], txid, events)
  }

  /** The database a transaction leaves behind, or nothing where it is rolled back. */
  function Commit(database: Database, txid: nat, statements: seq<Statement>): Option<Database> {
    match ExecuteAll(Session(database, []), txid, statements)
    case None => None
    case Some(reached) =>
      if AllAudited(reached.queue, txid, reached.database.events) then Some(reached.database) else None
  }

  /** The running database: statements change it in place, and a refused commit restores it. */
  class ControlStore {
    var account: Option<AccountRow>
    var events: seq<StoredEvent>

    ghost function Contents(): Database
      reads this
    {
      Database(account, events)
    }

    constructor (database: Database)
      ensures Contents() == database
    {
      account, events := database.account, database.events;
    }

    method Transact(txid: nat, statements: seq<Statement>) returns (committed: bool)
      modifies this
      ensures committed <==> Commit(old(Contents()), txid, statements).Some?
      ensures Contents() == if committed then Commit(old(Contents()), txid, statements).value else old(Contents())
    {
      var accountBefore, eventsBefore := account, events;
      var queue: seq<RowChange> := [];
      ghost var begun := Session(old(Contents()), []);
      for i := 0 to |statements|
        invariant ExecuteAll(begun, txid, statements[..i]) == Some(Session(Contents(), queue))
      {
        assert statements[..i + 1][..i] == statements[..i];
        var refused := false;
        match statements[i] {
          case InsertAccount(row) =>
            refused := account.Some? || !RowConsistent(row);
            if !refused { account, queue := Some(row), queue + [RowChange(None, row)]; }
          case UpdateAccount(row) =>
            refused := account.Some? && !RowConsistent(row);
            if account.Some? && !refused { account, queue := Some(row), queue + [RowChange(account, row)]; }
          case DeleteAccount =>
            account := None;
          case InsertEvent(event) =>
            refused := !EventConsistent(event);
            if !refused { events := events + [StoredEvent(txid, event)]; }
          case RewriteEvents =>
            refused := true;
        }
        if refused {
          RefusedForGood(begun, txid, statements, i + 1);
          account, events := accountBefore, eventsBefore;
          return false;
        }
      }
      assert statements[..|statements|] == statements;
      ghost var reached := Contents();
      for i := 0 to |queue|
        invariant Contents() == reached
        invariant forall j :: 0 <= j < i ==> Audited(queue[j], txid, events)
      {
        var halts := RequireAuditedEntryHalt(queue[i], txid, events);
        var pause := RequireAuditedPauseClear(queue[i], txid, events);
        if !halts || !pause {
          assert !Audited(queue[i], txid, reached.events);
          account, events := accountBefore, eventsBefore;
          return false;
        }
      }
      committed := true;
    }
  }

  lemma {:induction false} RefusedForGood(session: Session, txid: nat, statements: seq<Statement>, i: nat)
    requires i <= |statements| && ExecuteAll(session, txid, statements[..i]).None?
    ensures ExecuteAll(session, txid, statements).None?
    decreases |statements| - i
  {
    if i < |statements| {
      assert statements[..i + 1][..i] == statements[..i];
      RefusedForGood(session, txid, statements, i + 1);
    } else {
      assert statements[..i] == statements;
    }
  }

  // --------------------------------------------------------------- what every committed run records

  /** Every account row the transaction inserts has the control in force. */
  predicate InsertsInForce(statements: seq<Statement>, control: HaltControl) {
    forall s :: s in statements && s.InsertAccount? ==> InForce(s.row, control)
  }

  /** The events a transaction wrote, in the order it wrote them. */
  function Written(statements: seq<Statement>): seq<ControlEvent> {
    if statements == [] then []
    else
      var last := statements[|statements| - 1];
      Written(statements[..|statements| - 1]) + if last.InsertEvent? then [last.event] else []
  }

  function Stamped(txid: nat, written: seq<ControlEvent>): seq<StoredEvent> {
    seq(|written|, i requires 0 <= i < |written| => StoredEvent(txid, written[i]))
  }

  predicate NewTransaction(database: Database, txid: nat) {
    forall e :: e in database.events ==> e.txid != txid
  }

  /** Stored events are consistent, and nothing a transaction does changes the ones before it. */
  lemma {:induction false} EventsOnlyGrow(database: Database, txid: nat, statements: seq<Statement>)
    requires ExecuteAll(Session(database, []), txid, statements).Some?
    ensures var reached := ExecuteAll(Session(database, []), txid, statements).value;
            && reached.database.events == database.events + Stamped(txid, Written(statements))
            && (forall e :: e in Written(statements) ==> EventConsistent(e))
  {
    if statements != [] {
      EventsOnlyGrow(database, txid, statements[..|statements| - 1]);
    }
  }

  predicate SameFields(row: AccountRow, other: AccountRow, control: HaltControl) {
    match control
    case ENTRY_HALT_AUTO => row.auto == other.auto
    case ENTRY_HALT_MANUAL => row.manual == other.manual
    case SYSTEM_PAUSE => row.paused == other.paused
  }

  predicate LiftedBy(change: RowChange, control: HaltControl) {
    change.old_.Some? && InForce(change.old_.value, control) && !InForce(change.new_, control)
  }

  predicate ImposedBy(change: RowChange, control: HaltControl) {
    InForce(change.new_, control) && (change.old_.None? || !SameFields(change.old_.value, change.new_, control))
  }

  /** A standing halt either stands with the fields the transaction found, or a queued change gave them to it. */
  lemma {:induction false} ImpositionsQueued(database: Database, txid: nat, statements: seq<Statement>, control: HaltControl)
    requires ExecuteAll(Session(database, []), txid, statements).Some?
    ensures var reached := ExecuteAll(Session(database, []), txid, statements).value;
            var after := reached.database.account;
            after.Some? && InForce(after.value, control)
            && (database.account.None? || !SameFields(database.account.value, after.value, control)) ==>
              exists c :: c in reached.queue && ImposedBy(c, control) && SameFields(c.new_, after.value, control)
  {
    hide RowConsistent, EventConsistent;
    if statements != [] {
      ImpositionsQueued(database, txid, statements[..|statements| - 1], control);
      var before := ExecuteAll(Session(database, []), txid, statements[..|statements| - 1]).value;
      var reached := ExecuteAll(Session(database, []), txid, statements).value;
      assert before.queue <= reached.queue;
      assert forall c :: c in before.queue ==> c in reached.queue;
      assert reached.queue != before.queue ==> reached.queue[|before.queue|] in reached.queue;
    }
  }

  /** A control not in force either was not when the transaction began, or a queued change lifted it. */
  lemma {:induction false} LiftsQueued(database: Database, txid: nat, statements: seq<Statement>, control: HaltControl)
    requires ExecuteAll(Session(database, []), txid, statements).Some? && InsertsInForce(statements, control)
    ensures var reached := ExecuteAll(Session(database, []), txid, statements).value;
            var after := reached.database.account;
            after.Some? && !InForce(after.value, control)
            && (database.account.Some? ==> InForce(database.account.value, control)) ==>
              exists c :: c in reached.queue && LiftedBy(c, control)
  {
    hide RowConsistent, EventConsistent;
    if statements != [] {
      var last := statements[|statements| - 1];
      LiftsQueued(database, txid, statements[..|statements| - 1], control);
      var before := ExecuteAll(Session(database, []), txid, statements[..|statements| - 1]).value;
      var reached := ExecuteAll(Session(database, []), txid, statements).value;
      assert last in statements;
      assert before.queue <= reached.queue;
      assert forall c :: c in before.queue ==> c in reached.queue;
      assert reached.queue != before.queue ==> reached.queue[|before.queue|] in reached.queue;
    }
  }

  function ReasonOf(row: AccountRow, control: HaltControl): Option<string> {
    match control
    case ENTRY_HALT_AUTO => row.auto.reason
    case ENTRY_HALT_MANUAL => row.manual.reason
    case SYSTEM_PAUSE => None
  }

  predicate IsClear(event: ControlEvent, control: HaltControl) {
    event.control == control && event.action == CLEAR
  }

  predicate IsSet(event: ControlEvent, control: HaltControl, reason: Option<string>) {
    event.control == control && event.action == SET && Some(event.reasonCode) == reason
  }

  lemma OwnEvent(database: Database, txid: nat, statements: seq<Statement>, stored: StoredEvent)
    requires NewTransaction(database, txid)
    requires ExecuteAll(Session(database, []), txid, statements).Some?
    requires stored in ExecuteAll(Session(database, []), txid, statements).value.database.events && stored.txid == txid
    ensures stored.event in Written(statements) && EventConsistent(stored.event)
  {
    EventsOnlyGrow(database, txid, statements);
    assert stored in Stamped(txid, Written(statements));
  }

  /**
   Every committed transaction that leaves a halt in force which it did not find so, with those very fields,
   wrote a SET event of its own with that reason, whatever it did to the row: updated, inserted or replaced it.
   */
  lemma ImpositionAudited(database: Database, txid: nat, statements: seq<Statement>, control: HaltControl)
    requires NewTransaction(database, txid) && control != SYSTEM_PAUSE && Commit(database, txid, statements).Some?
    ensures var after := Commit(database, txid, statements).value.account;
            after.Some? && InForce(after.value, control)
            && (database.account.None? || !SameFields(database.account.value, after.value, control)) ==>
              exists e :: e in Written(statements) && IsSet(e, control, ReasonOf(after.value, control))
  {
    hide ExecuteAll, Written, Audited, NewTransaction;
    var reached := ExecuteAll(Session(database, []), txid, statements).value;
    var after := reached.database.account;
    ImpositionsQueued(database, txid, statements, control);
    if after.Some? && InForce(after.value, control)
       && (database.account.None? || !SameFields(database.account.value, after.value, control))
    {
      var change :| change in reached.queue && ImposedBy(change, control) && SameFields(change.new_, after.value, control);
      ImposedByOwnEvent(database, txid, statements, control, change);
    }
  }

  /**
   Every committed transaction after which a control is no longer in force wrote a CLEAR event of its own, as
   long as each row it inserted itself had the control in force; `RemovalEscapes` is a transaction that did not.
   */
  lemma LiftAudited(database: Database, txid: nat, statements: seq<Statement>, control: HaltControl)
    requires NewTransaction(database, txid) && InsertsInForce(statements, control) && Commit(database, txid, statements).Some?
    requires database.account.Some? ==> InForce(database.account.value, control)
    ensures var after := Commit(database, txid, statements).value.account;
            after.Some? && !InForce(after.value, control) ==> exists e :: e in Written(statements) && IsClear(e, control)
  {
    hide ExecuteAll, Written, Audited, NewTransaction;
    var reached := ExecuteAll(Session(database, []), txid, statements).value;
    LiftsQueued(database, txid, statements, control);
    if reached.database.account.Some? && !InForce(reached.database.account.value, control) {
      var change :| change in reached.queue && LiftedBy(change, control);
      LiftedByOwnEvent(database, txid, statements, control, change);
    }
  }

  lemma LiftedByOwnEvent(database: Database, txid: nat, statements: seq<Statement>, control: HaltControl, change: RowChange)
    requires NewTransaction(database, txid)
    requires ExecuteAll(Session(database, []), txid, statements).Some?
    requires Audited(change, txid, ExecuteAll(Session(database, []), txid, statements).value.database.events)
    requires LiftedBy(change, control)
    ensures exists e :: e in Written(statements) && IsClear(e, control)
  {
    hide ExecuteAll, Written;
    var events := ExecuteAll(Session(database, []), txid, statements).value.database.events;
    var stored: StoredEvent;
    match control {
      case ENTRY_HALT_AUTO =>
        stored :| stored in events && AccountsFor(stored, txid, ENTRY_HALT_AUTO, true, false, change.new_.auto.reason);
      case ENTRY_HALT_MANUAL =>
        stored :| stored in events && AccountsFor(stored, txid, ENTRY_HALT_MANUAL, true, false, change.new_.manual.reason);
      case SYSTEM_PAUSE =>
        stored :| stored in events && PauseLift(stored, txid);
    }
    OwnEvent(database, txid, statements, stored);
    assert IsClear(stored.event, control);
  }

  lemma ImposedByOwnEvent(database: Database, txid: nat, statements: seq<Statement>, control: HaltControl, change: RowChange)
    requires NewTransaction(database, txid) && control != SYSTEM_PAUSE
    requires ExecuteAll(Session(database, []), txid, statements).Some?
    requires Audited(change, txid, ExecuteAll(Session(database, []), txid, statements).value.database.events)
    requires ImposedBy(change, control)
    ensures exists e :: e in Written(statements) && IsSet(e, control, ReasonOf(change.new_, control))
  {
    hide ExecuteAll, Written;
    var events := ExecuteAll(Session(database, []), txid, statements).value.database.events;
    var before := change.old_.Some? && InForce(change.old_.value, control);
    var stored :| stored in events && AccountsFor(stored, txid, control, before, true, ReasonOf(change.new_, control));
    assert AccountsFor(stored, txid, control, before, true, ReasonOf(change.new_, control));
    OwnEvent(database, txid, statements, stored);
    assert IsSet(stored.event, control, ReasonOf(change.new_, control));
  }

  // -------------------------------------------------------------------------------- whole histories

  datatype Transaction = Transaction(txid: nat, statements: seq<Statement>)

  function After(database: Database, transaction: Transaction): Database {
    match Commit(database, transaction.txid, transaction.statements)
    case Some(committed) => committed
    case None => database
  }

  function History(database: Database, run: seq<Transaction>): Database {
    if run == [] then database
    else After(History(database, run[..|run| - 1]), run[|run| - 1])
  }

  predicate DistinctTransactions(database: Database, run: seq<Transaction>) {
    && (forall t :: t in run ==> NewTransaction(database, t.txid))
    && (forall i, j :: 0 <= i < j < |run| ==> run[i].txid != run[j].txid)
  }

  /** The row as the history last had it: a deletion leaves nothing newer. */
  function LastRow(database: Database, run: seq<Transaction>): Option<AccountRow> {
    if History(database, run).account.Some? || run == [] then History(database, run).account
    else LastRow(database, run[..|run| - 1])
  }

  predicate WasInForce(row: Option<AccountRow>, control: HaltControl) {
    row.Some? && InForce(row.value, control)
  }

  /** The last transaction ends a control that was in force when there last was a row. */
  predicate Lifts(database: Database, run: seq<Transaction>, control: HaltControl)
    requires run != []
  {
    var after := History(database, run).account;
    WasInForce(LastRow(database, run[..|run| - 1]), control) && after.Some? && !InForce(after.value, control)
  }

  /** The last transaction leaves a halt in force that it did not find with these fields. */
  predicate Imposes(database: Database, run: seq<Transaction>, control: HaltControl)
    requires run != []
  {
    var before, after := History(database, run[..|run| - 1]).account, History(database, run).account;
    after.Some? && InForce(after.value, control) && (before.None? || !SameFields(before.value, after.value, control))
  }

  /** How many transactions of a run lift a control, and how many impose it. */
  function LiftCount(database: Database, run: seq<Transaction>, control: HaltControl): nat {
    if run == [] then 0
    else LiftCount(database, run[..|run| - 1], control) + if Lifts(database, run, control) then 1 else 0
  }

  function ImposeCount(database: Database, run: seq<Transaction>, control: HaltControl): nat {
    if run == [] then 0
    else ImposeCount(database, run[..|run| - 1], control) + if Imposes(database, run, control) then 1 else 0
  }

  /** While a control stands, or stood when there last was a row, no row is inserted without it. */
  predicate Reinstated(database: Database, run: seq<Transaction>, control: HaltControl) {
    run == []
    || (Reinstated(database, run[..|run| - 1], control)
        && (WasInForce(LastRow(database, run[..|run| - 1]), control) ==>
              InsertsInForce(run[|run| - 1].statements, control)))
  }

  function EventCount(events: seq<StoredEvent>, control: HaltControl, action: ControlAction): nat {
    if events == [] then 0
    else
      var last := events[|events| - 1].event;
      EventCount(events[..|events| - 1], control, action) + if last.control == control && last.action == action then 1 else 0
  }

  lemma {:induction false} CountJoins(events: seq<StoredEvent>, more: seq<StoredEvent>, control: HaltControl, action: ControlAction)
    ensures EventCount(events + more, control, action) == EventCount(events, control, action) + EventCount(more, control, action)
  {
    if more == [] {
      assert events + more == events;
    } else {
      CountJoins(events, more[..|more| - 1], control, action);
      assert (events + more)[..|events + more| - 1] == events + more[..|more| - 1];
    }
  }

  lemma {:induction false} CountOne(events: seq<StoredEvent>, stored: StoredEvent)
    requires stored in events
    ensures EventCount(events, stored.event.control, stored.event.action) >= 1
  {
    if stored != events[|events| - 1] {
      CountOne(events[..|events| - 1], stored);
    }
  }

  lemma OwnCounted(txid: nat, written: seq<ControlEvent>, event: ControlEvent)
    requires event in written
    ensures EventCount(Stamped(txid, written), event.control, event.action) >= 1
  {
    var i :| 0 <= i < |written| && written[i] == event;
    assert Stamped(txid, written)[i] == StoredEvent(txid, event);
    CountOne(Stamped(txid, written), StoredEvent(txid, event));
  }

  /** What a transaction adds to the stored events is its own. */
  lemma OwnEventsOnly(database: Database, transaction: Transaction, control: HaltControl, action: ControlAction)
    ensures forall e :: e in After(database, transaction).events && e !in database.events ==> e.txid == transaction.txid
    ensures EventCount(After(database, transaction).events, control, action)
            >= EventCount(database.events, control, action)
               + if Commit(database, transaction.txid, transaction.statements).Some?
                    && exists e :: e in Written(transaction.statements) && e.control == control && e.action == action
                 then 1 else 0
  {
    hide ExecuteAll, Written;
    var Transaction(txid, statements) := transaction;
    if Commit(database, txid, statements).Some? {
      EventsOnlyGrow(database, txid, statements);
      CountJoins(database.events, Stamped(txid, Written(statements)), control, action);
      if e :| e in Written(statements) && e.control == control && e.action == action {
        OwnCounted(txid, Written(statements), e);
      }
    }
  }

  /** Every event a history adds carries the number of one of its transactions. */
  lemma {:induction false} HistoryEvents(database: Database, run: seq<Transaction>)
    ensures forall e :: e in History(database, run).events && e !in database.events ==>
              exists t :: t in run && t.txid == e.txid
  {
    hide After;
    if run != [] {
      var rest, last := run[..|run| - 1], run[|run| - 1];
      assert run == rest + [last];
      HistoryEvents(database, rest);
      OwnEventsOnly(History(database, rest), last, SYSTEM_PAUSE, SET);
    }
  }

  /** No transaction of a history finds an event with its own number. */
  lemma LastIsNew(database: Database, run: seq<Transaction>)
    requires run != [] && DistinctTransactions(database, run)
    ensures DistinctTransactions(database, run[..|run| - 1])
    ensures NewTransaction(History(database, run[..|run| - 1]), run[|run| - 1].txid)
  {
    hide History;
    var rest, last := run[..|run| - 1], run[|run| - 1];
    assert run == rest + [last];
    HistoryEvents(database, rest);
    forall e | e in History(database, rest).events ensures e.txid != last.txid {
      if e !in database.events {
        var t :| t in rest && t.txid == e.txid;
        var i :| 0 <= i < |rest| && rest[i] == t;
        assert run[i] == t && run[|rest|] == last;
      }
    }
  }

  /**
   Over every history at all no SET event is shared: at least as many are new as transactions left a halt in
   force that they did not find so.  Rolled-back transactions count for nothing.
   */
  lemma {:induction false} ImpositionsAudited(database: Database, run: seq<Transaction>, control: HaltControl)
    requires DistinctTransactions(database, run) && control != SYSTEM_PAUSE
    ensures EventCount(database.events, control, SET) + ImposeCount(database, run, control)
            <= EventCount(History(database, run).events, control, SET)
  {
    hide ExecuteAll, Written, DistinctTransactions, Commit, NewTransaction;
    if run != [] {
      var rest, last := run[..|run| - 1], run[|run| - 1];
      LastIsNew(database, run);
      ImpositionsAudited(database, rest, control);
      var before := History(database, rest);
      OwnEventsOnly(before, last, control, SET);
      if Imposes(database, run, control) {
        assert Commit(before, last.txid, last.statements).Some?;
        ImpositionAudited(before, last.txid, last.statements, control);
      }
    }
  }

  /**
   Over every history in which no row is inserted without a control that stands, or stood when there last was
   a row, no CLEAR event is shared either: at least as many are new as transactions ended the control.
   */
  lemma {:induction false} LiftsAudited(database: Database, run: seq<Transaction>, control: HaltControl)
    requires DistinctTransactions(database, run) && Reinstated(database, run, control)
    ensures EventCount(database.events, control, CLEAR) + LiftCount(database, run, control)
            <= EventCount(History(database, run).events, control, CLEAR)
  {
    hide ExecuteAll, Written, DistinctTransactions, Commit, InsertsInForce, NewTransaction;
    if run != [] {
      var rest, last := run[..|run| - 1], run[|run| - 1];
      LastIsNew(database, run);
      LiftsAudited(database, rest, control);
      var before := History(database, rest);
      OwnEventsOnly(before, last, control, CLEAR);
      if Lifts(database, run, control) {
        assert before.account.Some? ==> LastRow(database, rest) == before.account;
        Untouched(database, run);
        LiftAudited(before, last.txid, last.statements, control);
      }
    }
  }

  /** A refused transaction leaves the row, or its absence, as the history last had it. */
  lemma Untouched(database: Database, run: seq<Transaction>)
    requires run != [] && History(database, run).account.Some?
    ensures var rest, last := run[..|run| - 1], run[|run| - 1];
            Commit(History(database, rest), last.txid, last.statements).None? ==>
              LastRow(database, rest) == History(database, run).account
  {
    hide Commit;
  }

  /** Removing the row and inserting it again unhalted commits without any event, whatever was in force. */
  lemma RemovalEscapes(database: Database, txid: nat, row: AccountRow)
    requires RowConsistent(row) && !EntryHaltInForce(row)
    ensures Commit(database, txid, [DeleteAccount, InsertAccount(row)]) == Some(Database(Some(row), database.events))
  {
    var removed := [DeleteAccount];
    assert [DeleteAccount, InsertAccount(row)][..1] == removed && removed[..0] == [];
    assert ExecuteAll(Session(database, []), txid, removed) == Some(Session(Database(None, database.events), []));
  }
}

/** The record of a scheduled run: its identity never changes, and once finished nothing about it does. */
module JobRuns {
  import opened Wrappers
  import opened Contracts

  datatype Job = PAPER_EXIT_JOB | PAPER_ENTRY_JOB
  datatype JobMode = FULL | EXITS_ONLY | ENTRIES_ONLY
  datatype JobOutcome = RUNNING | SUCCEEDED | JOB_REFUSED | TECHNICAL_FAILURE | TIMED_OUT | ALREADY_RUNNING | EXIT_COVERAGE_MISSING

  datatype JobRun = JobRun(
    runId: Id,
    job: Job,
    mode: JobMode,
    startedAt: Instant,
    finishedAt: Option<Instant>,
    outcome: JobOutcome,
    exitReady: bool,
    exitReadyReason: Option<string>
  )

  /** The row checks: running exactly while unfinished, and exit-ready only as a clean successful exit job. */
  predicate RunConsistent(run: JobRun) {
    && (run.outcome == RUNNING <==> run.finishedAt.None?)
    && (run.finishedAt.Some? ==> run.finishedAt.value >= run.startedAt)
    && (run.exitReady ==>
          run.job == PAPER_EXIT_JOB && run.mode == EXITS_ONLY && run.outcome == SUCCEEDED && run.exitReadyReason.None?)
  }

  predicate SameRun(run: JobRun, other: JobRun) {
    run.runId == other.runId && run.job == other.job && run.mode == other.mode && run.startedAt == other.startedAt
  }

  /** The trigger before an update: a finished run is final, and a run keeps its identity. */
  predicate ProtectFinishedRun(run: JobRun, changed: JobRun) {
    run.finishedAt.None? && SameRun(run, changed)
  }

  /** One update as the trigger and the row checks let it through; a refused one changes nothing. */
  function Updated(run: JobRun, changed: JobRun): JobRun {
    if ProtectFinishedRun(run, changed) && RunConsistent(changed) then changed else run
  }

  /** What a finished run records. */
  datatype JobRunFinish = JobRunFinish(outcome: JobOutcome, finishedAt: Instant, exitReady: bool, exitReadyReason: Option<string>)

  function Finished(run: JobRun, finish: JobRunFinish): JobRun {
    run.(outcome := finish.outcome, finishedAt := Some(finish.finishedAt), exitReady := finish.exitReady,
         exitReadyReason := finish.exitReadyReason)
  }

  class JobRunTable {
    var runs: map<Id, JobRun>

    ghost predicate Valid()
      reads this
    {
      forall id :: id in runs ==> runs[id].runId == id && RunConsistent(runs[id])
    }

    constructor ()
      ensures Valid() && runs == map[]
    {
      runs := map[];
    }

    /** `UPDATE` of one row by anyone: refused as a whole, or the row is the new one. */
    method Update(id: Id, changed: JobRun) returns (ok: bool)
      requires Valid() && id in runs
      modifies this
      ensures Valid() && id in runs && SameRun(old(runs[id]), runs[id])
      ensures old(runs[id]).finishedAt.Some? ==> !ok && runs == old(runs)
      ensures runs == old(runs)[id := Updated(old(runs[id]), changed)]
      ensures ok <==> ProtectFinishedRun(old(runs[id]), changed) && RunConsistent(changed)
    {
      var run := runs[id];
      if run.finishedAt.Some? { return false; }
      if (run.runId, run.job, run.mode, run.startedAt) != (changed.runId, changed.job, changed.mode, changed.startedAt) {
        return false;
      }
      if !RunConsistent(changed) { return false; }
      runs := runs[id := changed];
      ok := true;
    }

    /**
     Finishes a running row once.  The recorder asks whether the row is RUNNING and the trigger whether it is
     unfinished; on every stored row these are the same, so the trigger never refuses the recorder: it writes
     nothing where the run is unknown or finished, and otherwise only the row checks can stand against it.
     */
    method Finish(id: Id, finish: JobRunFinish) returns (recorded: Option<bool>)
      requires Valid()
      modifies this
      ensures Valid()
      ensures recorded == Some(false) <==> id !in old(runs) || old(runs)[id].finishedAt.Some?
      ensures recorded == None <==> id in old(runs) && old(runs)[id].finishedAt.None? && !RunConsistent(Finished(old(runs)[id], finish))
      ensures recorded == Some(true) ==> id in old(runs) && runs == old(runs)[id := Finished(old(runs)[id], finish)]
      ensures recorded != Some(true) ==> runs == old(runs)
    {
      if id !in runs || runs[id].outcome != RUNNING { return Some(false); }
      var ok := Update(id, Finished(runs[id], finish));
      recorded := if ok then Some(true) else None;
      assert !ok ==> runs == old(runs);
    }
  }

  function UpdatedBy(run: JobRun, changes: seq<JobRun>): JobRun {
    if changes == [] then run else Updated(UpdatedBy(run, changes[..|changes| - 1]), changes[|changes| - 1])
  }

  /** Whatever updates are attempted, in whatever order, the first finished state is the final one. */
  lemma {:induction false} FinishedIsFinal(run: JobRun, changes: seq<JobRun>, k: nat)
    requires RunConsistent(run) && k <= |changes|
    ensures RunConsistent(UpdatedBy(run, changes)) && SameRun(run, UpdatedBy(run, changes))
    ensures UpdatedBy(run, changes[..k]).finishedAt.Some? ==> UpdatedBy(run, changes) == UpdatedBy(run, changes[..k])
  {
    if k == |changes| {
      assert changes[..k] == changes;
    }
    if changes != [] {
      var rest := changes[..|changes| - 1];
      FinishedIsFinal(run, rest, if k <= |rest| then k else |rest|);
      if k <= |rest| {
        assert rest[..k] == changes[..k];
      }
    }
  }
}
