/**
 The services against the database's guard: every step they take, written down as its audit events followed
 by the new account row, is a transaction the deferred triggers accept.
 */
module AuditedService {
  import opened Wrappers
  import opened Contracts
  import opened PaperAccounts
  import opened AuditedControls
  import opened Numbers
  import opened ProfitAndLoss
  import opened Portfolio
  import opened PaperService
  import opened EntryHalts
  import opened PaperRuns

  /**
   One row change with at most one event of its own: what the triggers ask for, said directly.  A control
   differs only if the event is about it, spans its two values and gives the reason of a halt left in force.
   */
  predicate ExplainedBy(before: AccountRow, after: AccountRow, written: seq<ControlEvent>) {
    && RowConsistent(after)
    && (forall e :: e in written ==> EventConsistent(e))
    && (before.auto != after.auto ==>
          exists e :: e in written && Explains(e, ENTRY_HALT_AUTO, before.auto.halted, after.auto.halted, after.auto.reason))
    && (before.manual != after.manual ==>
          exists e :: e in written && Explains(e, ENTRY_HALT_MANUAL, before.manual.halted, after.manual.halted, after.manual.reason))
    && (before.paused && !after.paused ==>
          exists e :: e in written && Explains(e, SYSTEM_PAUSE, true, false, None))
  }

  predicate Explains(event: ControlEvent, control: HaltControl, before: bool, after: bool, reason: Option<string>) {
    && event.control == control && event.action != REFUSED
    && event.haltedBefore == before && event.haltedAfter == after
    && (after ==> reason == Some(event.reasonCode))
  }

  /** The statements of one step: its events, then the row. */
  function StatementsOf(written: seq<ControlEvent>, after: AccountRow): seq<Statement> {
    Inserts(written) + [UpdateAccount(after)]
  }

  function Inserts(written: seq<ControlEvent>): seq<Statement> {
    if written == [] then [] else Inserts(written[..|written| - 1]) + [InsertEvent(written[|written| - 1])]
  }

  lemma OneMore(session: Session, txid: nat, statements: seq<Statement>, last: Statement)
    requires ExecuteAll(session, txid, statements).Some?
    ensures ExecuteAll(session, txid, statements + [last]) == Execute(ExecuteAll(session, txid, statements).value, txid, last)
  {
    hide Execute;
    assert (statements + [last])[..|statements|] == statements;
  }

  lemma {:induction false} InsertsRun(database: Database, txid: nat, written: seq<ControlEvent>)
    requires forall e :: e in written ==> EventConsistent(e)
    ensures ExecuteAll(Session(database, []), txid, Inserts(written))
            == Some(Session(Database(database.account, database.events + Stamped(txid, written)), []))
  {
    hide EventConsistent, RowConsistent, ExecuteAll;
    if written == [] {
      assert database.events + Stamped(txid, written) == database.events;
      assert ExecuteAll(Session(database, []), txid, []) == Some(Session(database, [])) by { NoStatements(database, txid); }
    } else {
      var rest, last := written[..|written| - 1], written[|written| - 1];
      InsertsRun(database, txid, rest);
      OneMore(Session(database, []), txid, Inserts(rest), InsertEvent(last));
      assert database.events + Stamped(txid, written) == database.events + Stamped(txid, rest) + [StoredEvent(txid, last)];
    }
  }

  lemma NoStatements(database: Database, txid: nat)
    ensures ExecuteAll(Session(database, []), txid, []) == Some(Session(database, []))
  {
  }

  /** A change the events explain commits, and stores exactly the row and the events. */
  lemma ExplainedCommits(database: Database, txid: nat, written: seq<ControlEvent>, after: AccountRow)
    requires database.account.Some? && ExplainedBy(database.account.value, after, written)
    ensures Commit(database, txid, StatementsOf(written, after))
            == Some(Database(Some(after), database.events + Stamped(txid, written)))
  {
    hide RowConsistent, EventConsistent, ExecuteAll, Inserts;
    var before := database.account.value;
    var events := database.events + Stamped(txid, written);
    InsertsRun(database, txid, written);
    OneMore(Session(database, []), txid, Inserts(written), UpdateAccount(after));
    var change := RowChange(Some(before), after);
    forall e | e in written ensures StoredEvent(txid, e) in events {
      var i :| 0 <= i < |written| && written[i] == e;
      assert Stamped(txid, written)[i] == StoredEvent(txid, e);
    }
    if before.auto != after.auto {
      var e :| e in written && Explains(e, ENTRY_HALT_AUTO, before.auto.halted, after.auto.halted, after.auto.reason);
      assert AccountsFor(StoredEvent(txid, e), txid, ENTRY_HALT_AUTO, before.auto.halted, after.auto.halted, after.auto.reason);
    }
    if before.manual != after.manual {
      var e :| e in written && Explains(e, ENTRY_HALT_MANUAL, before.manual.halted, after.manual.halted, after.manual.reason);
      assert AccountsFor(StoredEvent(txid, e), txid, ENTRY_HALT_MANUAL, before.manual.halted, after.manual.halted, after.manual.reason);
    }
    if before.paused && !after.paused {
      var e :| e in written && Explains(e, SYSTEM_PAUSE, true, false, None);
      PauseExplained(e, txid);
      assert PauseLift(StoredEvent(txid, e), txid);
    }
    assert Audited(change, txid, events);
  }

  lemma PauseExplained(event: ControlEvent, txid: nat)
    requires Explains(event, SYSTEM_PAUSE, true, false, None) && EventConsistent(event)
    ensures PauseLift(StoredEvent(txid, event), txid)
  {
  }

  // ---------------------------------------------------------------------------- every step explained

  /** The events a step adds to the log. */
  function New(before: seq<ControlEvent>, after: seq<ControlEvent>): seq<ControlEvent>
    requires before <= after
  {
    after[|before|..]
  }

  predicate Explained(account: AccountRow, events: seq<ControlEvent>, after: AccountRow, log: seq<ControlEvent>) {
    events <= log && ExplainedBy(account, after, New(events, log))
  }

  lemma DailyLossIsCode()
    ensures IsCode(DAILY_LOSS_LIMIT_CODE)
  {
    var code := DAILY_LOSS_LIMIT_CODE;
    assert code[0] == 'D' && code[1] == 'A' && code[2] == 'I' && code[3] == 'L' && code[4] == 'Y' && code[5] == '_';
    assert code[6] == 'L' && code[7] == 'O' && code[8] == 'S' && code[9] == 'S' && code[10] == '_';
    assert code[11] == 'L' && code[12] == 'I' && code[13] == 'M' && code[14] == 'I' && code[15] == 'T';
  }

  lemma HaltExplained(account: AccountRow, store: Store, actor: ActorKind, limits: RiskLimits, at: Instant, decisionId: Id)
    requires RowConsistent(account) && RowConsistent(store.account)
    requires store.account.auto == account.auto && store.account.manual == account.manual
    requires account.paused ==> store.account.paused
    ensures var after := HaltAutomatically(store, actor, limits, at, decisionId);
            Explained(account, store.events, after.account, after.events)
  {
    hide LossDay, IsCode;
    DailyLossIsCode();
    var after := HaltAutomatically(store, actor, limits, at, decisionId);
    if !store.account.auto.halted {
      var event := after.events[|store.events|];
      assert New(store.events, after.events) == [event];
      assert Explains(event, ENTRY_HALT_AUTO, account.auto.halted, after.account.auto.halted, after.account.auto.reason);
    }
  }

  lemma UnchangedExplained(account: AccountRow, after: AccountRow, events: seq<ControlEvent>)
    requires RowConsistent(after)
    requires after.auto == account.auto && after.manual == account.manual && (account.paused ==> after.paused)
    ensures Explained(account, events, after, events)
  {
    hide IsCode;
    assert New(events, events) == [];
  }

  lemma RefusalExplained(account: AccountRow, store: Store, decision: RiskDecision, limits: RiskLimits, at: Instant)
    requires RowConsistent(account) && RowConsistent(store.account)
    requires store.account.auto == account.auto && store.account.manual == account.manual
    requires account.paused ==> store.account.paused
    ensures var after := Refuse(store, decision, limits, at); Explained(account, store.events, after.account, after.events)
  {
    hide HaltAutomatically, IsCode;
    var paused := store.(account := store.account.(paused := true));
    HaltExplained(account, store, SENTINEL, limits, at, decision.intent.id);
    HaltExplained(account, paused, SENTINEL, limits, at, decision.intent.id);
    UnchangedExplained(account, store.account, store.events);
    UnchangedExplained(account, paused.account, store.events);
  }

  lemma RequestExplained(controls: Controls, request: ControlRequest, code: string, at: Instant, limits: RiskLimits,
                         killSwitch: bool)
    requires RowConsistent(controls.account)
    ensures var after := Requested(controls, request, code, at, limits, killSwitch);
            Explained(controls.account, controls.events, after.account, after.events)
  {
    hide LossDay, IsCode;
    var after := Requested(controls, request, code, at, limits, killSwitch);
    if !IsCode(code) {
      UnchangedExplained(controls.account, controls.account, controls.events);
    } else {
      var event := after.events[|controls.events|];
      assert New(controls.events, after.events) == [event];
      assert event in [event];
    }
  }

  lemma BookingExplained(account: AccountRow, store: Store, request: Request, state: PortfolioState, simulation: Simulation,
                         limits: RiskLimits)
    requires RowConsistent(account) && RowConsistent(store.account)
    requires store.account.auto == account.auto && store.account.manual == account.manual && store.account.paused == account.paused
    requires Book(store, request, state, simulation, limits).Success?
    ensures var after := Book(store, request, state, simulation, limits).value;
            Explained(account, store.events, after.account, after.events)
  {
    hide CalculatePnl, Saved, HaltAutomatically, Whole28, LossDay, IsCode;
    var entered := Entered(store, request, simulation).value;
    HaltExplained(account, entered, LEDGER, limits, simulation.fill.createdAt, request.intent.id);
    UnchangedExplained(account, entered.account, store.events);
  }

  lemma StepExplained(rules: Rules, store: Store, step: Step)
    requires RowConsistent(store.account)
    ensures var after := Next(rules, store, step); Explained(store.account, store.events, after.account, after.events)
  {
    hide Processed, Refuse, Requested, Book, Persist, EffectOf, Assess, Simulate, LossDay, EntryBar, IsCode, Explained;
    match step
    case Control(request, code, at, killSwitch) =>
      RequestExplained(Controls(store.account, store.events), request, code, at, rules.limits, killSwitch);
    case Verdict(decision, limits, at) =>
      RefusalExplained(store.account, store.(account := RollLossDay(store.account, at)), decision, limits, at);
    case Order(request) =>
      var effect, limits := EffectOf(rules, store, request), Governing(rules, request);
      CommitsEffect(rules, store, request);
      EffectRests(rules, store, request);
      if effect.Nothing? {
        UnchangedExplained(store.account, store.account, store.events);
      } else {
        PersistedTables(store.(account := RollLossDay(store.account, request.now)), request, effect.decision);
        if effect.Refused? {
          RefusalExplained(store.account, effect.persisted, effect.decision, limits, request.now);
        } else {
          BookingExplained(store.account, effect.persisted, request, effect.state, effect.simulation, limits);
        }
      }
  }

  /**
   The triggers never stand in the way of the services: from a consistent row, every step of every run is a
   transaction the database commits, leaving exactly the step's row and its events.
   */
  lemma {:induction false} RunIsAccepted(rules: Rules, store: Store, steps: seq<Step>, step: Step, database: Database, txid: nat)
    requires RowConsistent(store.account)
    requires database.account == Some(Run(rules, store, steps).account)
    ensures RowConsistent(Run(rules, store, steps).account)
    ensures var before := Run(rules, store, steps);
            var after := Next(rules, before, step);
            && before.events <= after.events
            && var written := New(before.events, after.events);
            Commit(database, txid, StatementsOf(written, after.account))
            == Some(Database(Some(after.account), database.events + Stamped(txid, written)))
  {
    hide Next, Commit, RowConsistent;
    if steps != [] {
      var rest, last := steps[..|steps| - 1], steps[|steps| - 1];
      RunIsAccepted(rules, store, rest, last, database.(account := Some(Run(rules, store, rest).account)), txid);
      StepExplained(rules, Run(rules, store, rest), last);
    }
    var before := Run(rules, store, steps);
    StepExplained(rules, before, step);
    var after := Next(rules, before, step);
    ExplainedCommits(database, txid, New(before.events, after.events), after.account);
  }
}
