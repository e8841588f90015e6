/** The execution mode of an account over whole runs: what can change it, what the clean streak counts,
    and what normal mode says about the latest snapshot. */
module Modes {
  import opened Wrappers
  import opened Domain
  import opened Orders
  import opened Reconciliation
  import opened Database
  import opened StoreInvariant
  import opened Protocol
  import opened ProtocolInvariant
  import opened Reachable

  // ---------- What changes the row of an account ----------

  /** The worker outcomes that lock the account of the worker. */
  function LockReason(action: Action): Option<string> {
    match action
    case EntryReturns(_, Err(OutcomeUnknown(_))) => Some(ENTRY_UNKNOWN.reason)
    case ProtectionReturns(_, Err(_)) => Some(EMERGENCY_CLOSING.reason)
    case CloseReturns(_, Ok(_)) => Some(CLOSED.reason)
    case CloseReturns(_, Err(_)) => Some(RECONCILIATION_REQUIRED.reason)
    case _ => None
  }

  function ActingWorker(action: Action): WorkerId
    requires LockReason(action).Some?
  {
    action.worker
  }

  ghost predicate Locks(w: World, action: Action, account: Account) {
    && Enabled(w, action)
    && LockReason(action).Some?
    && ActingWorker(action) in w.workers
    && w.workers[ActingWorker(action)].account == account
  }

  ghost predicate Snapshots(w: World, action: Action, account: Account) {
    Enabled(w, action) && action.TakeSnapshot? && action.snapshot.account == account
  }

  /** A successful acknowledgement by the operator. */
  predicate Recovers(w: World, action: Action, account: Account) {
    && action.AcknowledgeRecovery?
    && action.account == account
    && Acknowledge(w.db, account, action.reason, action.operator).1.Ok?
  }

  ghost function RowAfter(w: World, action: Action, account: Account): Option<ReconciliationRow> {
    var before := Lookup(w.db.reconciliation, account);
    if Snapshots(w, action, account) then
      Some(NextRow(before, SnapshotDiff(w.db, action.snapshot), action.snapshot))
    else if Locks(w, action, account) then Some(ForcedRow(before, LockReason(action).value))
    else if Recovers(w, action, account) then
      Some(before.value.(mode := Normal, ready := true, reasonCode := None, cleanStreak := 0))
    else if action == Configure(account) && before.None? then
      Some(ReconciliationRow(HaltNewEntries, false, Some("startup_reconciliation_pending"), None, None, 0))
    else before
  }

  lemma SnapshotRow(db: Tables, s: AccountSnapshot, account: Account)
    ensures Lookup(RecordSnapshot(db, s).0.reconciliation, account)
            == if s.account == account then Some(NextRow(Lookup(db.reconciliation, account), SnapshotDiff(db, s), s))
               else Lookup(db.reconciliation, account)
  {
  }

  lemma AcknowledgeRow(db: Tables, action: Action, account: Account)
    requires action.AcknowledgeRecovery?
    ensures var (after, result) := Acknowledge(db, action.account, action.reason, action.operator);
            var before := Lookup(db.reconciliation, account);
            && (result.Ok? && action.account == account ==>
                  && before.Some? && before.value.mode.CloseOnly? && before.value.cleanStreak >= 3
                  && before.value.reasonCode == Some(action.reason)
                  && Lookup(after.reconciliation, account)
                     == Some(before.value.(mode := Normal, ready := true, reasonCode := None, cleanStreak := 0)))
            && (result.Err? || action.account != account ==> Lookup(after.reconciliation, account) == before)
  {
  }

  lemma FinishRow(db: Tables, id: IntentId, move: Move, account: Account)
    requires TablesOk(db) && Paired(move)
    requires id in db.executions && db.executions[id].status == move.fromLive
    ensures Lookup(FinishLiveTransition(db, id, move).0.reconciliation, account)
            == if move.forceCloseOnly && db.executions[id].account == account
               then Some(ForcedRow(Lookup(db.reconciliation, account), move.reason))
               else Lookup(db.reconciliation, account)
    ensures FinishLiveTransition(db, id, move).0.books == db.books
  {
    FinishKeepsTables(db, id, move);
    FinishChanges(db, id, move);
  }

  /** The row of an account after a worker of some account locked its own. */
  function LockedRow(w: World, k: WorkerId, reason: string, account: Account): Option<ReconciliationRow>
    requires k in w.workers
  {
    var before := Lookup(w.db.reconciliation, account);
    if w.workers[k].account == account then Some(ForcedRow(before, reason)) else before
  }

  lemma WorkerFinishRow(w: World, k: WorkerId, id: IntentId, move: Move, account: Account)
    requires WorldOk(w) && k in w.workers && Held(w.workers[k].pc) == Some(id) && Paired(move)
    requires id in w.db.executions && w.db.executions[id].status == move.fromLive
    ensures Lookup(FinishLiveTransition(w.db, id, move).0.reconciliation, account)
            == if move.forceCloseOnly then LockedRow(w, k, move.reason, account)
               else Lookup(w.db.reconciliation, account)
    ensures FinishLiveTransition(w.db, id, move).0.books == w.db.books
  {
    assert WorkerAt(w, k);
    FinishRow(w.db, id, move, account);
  }

  lemma EntryFailureRow(w: World, k: WorkerId, reply: Reply<ConfirmedFill>, account: Account)
    requires WorldOk(w) && k in w.workers && w.workers[k].pc.EntrySent? && reply.Err?
    ensures Lookup(DoEntryReturns(w, k, reply).db.reconciliation, account)
            == if reply.error.Definite? then Lookup(w.db.reconciliation, account)
               else LockedRow(w, k, ENTRY_UNKNOWN.reason, account)
    ensures DoEntryReturns(w, k, reply).db.books == w.db.books
  {
    var id := w.workers[k].pc.stored.intent.intentId;
    assert WorkerAt(w, k);
    OutcomesArePaired();
    WorkerFinishRow(w, k, id, if reply.error.Definite? then ENTRY_FAILED else ENTRY_UNKNOWN, account);
  }

  lemma FillRow(w: World, k: WorkerId, fill: ConfirmedFill)
    requires WorldOk(w) && k in w.workers && w.workers[k].pc.EntrySent?
    ensures DoEntryReturns(w, k, Ok(fill)).db.reconciliation == w.db.reconciliation
    ensures DoEntryReturns(w, k, Ok(fill)).db.books == w.db.books
  {
    var id := w.workers[k].pc.stored.intent.intentId;
    assert WorkerAt(w, k) && IdOk(w, id);
    FillKeepsTables(w.db, id, fill);
    FillChanges(w.db, id, fill);
  }

  lemma ProtectionRow(w: World, k: WorkerId, reply: ProtectionReply, account: Account)
    requires WorldOk(w) && k in w.workers && Enabled(w, ProtectionReturns(k, reply))
    ensures Lookup(DoProtectionReturns(w, k, reply).db.reconciliation, account)
            == if reply.Ok? then Lookup(w.db.reconciliation, account)
               else LockedRow(w, k, EMERGENCY_CLOSING.reason, account)
    ensures DoProtectionReturns(w, k, reply).db.books == w.db.books
  {
    var stored, fill := w.workers[k].pc.stored, w.workers[k].pc.fill;
    assert WorkerAt(w, k);
    if reply.Ok? {
      ProtectionKeepsTables(w.db, stored.intent, fill);
    } else {
      OutcomesArePaired();
      WorkerFinishRow(w, k, stored.intent.intentId, EMERGENCY_CLOSING, account);
    }
  }

  lemma FinishProtectedRow(w: World, k: WorkerId, account: Account)
    requires WorldOk(w) && k in w.workers && w.workers[k].pc.ProtectionRecorded?
    ensures Lookup(DoFinishProtected(w, k).db.reconciliation, account) == Lookup(w.db.reconciliation, account)
    ensures DoFinishProtected(w, k).db.books == w.db.books
  {
    assert WorkerAt(w, k);
    OutcomesArePaired();
    WorkerFinishRow(w, k, w.workers[k].pc.stored.intent.intentId, PROTECTED, account);
  }

  lemma CloseRow(w: World, k: WorkerId, reply: Reply<ConfirmedFill>, account: Account)
    requires WorldOk(w) && k in w.workers && (w.workers[k].pc.Closing? || w.workers[k].pc.CloseSent?)
    ensures Lookup(DoCloseReturns(w, k, reply).db.reconciliation, account)
            == LockedRow(w, k, if reply.Ok? then CLOSED.reason else RECONCILIATION_REQUIRED.reason, account)
    ensures DoCloseReturns(w, k, reply).db.books == w.db.books
  {
    assert WorkerAt(w, k);
    OutcomesArePaired();
    WorkerFinishRow(
      w, k, w.workers[k].pc.stored.intent.intentId, if reply.Ok? then CLOSED else RECONCILIATION_REQUIRED, account);
  }

  lemma SubmitRow(w: World, intent: TradeIntent, key: string, now: Time)
    requires Sizable(intent)
    ensures DoSubmit(w, intent, key, now).db.reconciliation == w.db.reconciliation
    ensures DoSubmit(w, intent, key, now).db.books == w.db.books
  {
  }

  /** A worker outcome. */
  predicate IsReturn(action: Action) {
    action.EntryReturns? || action.ProtectionReturns? || action.FinishProtected? || action.CloseReturns?
  }

  lemma EntryReturnRow(w: World, action: Action, account: Account)
    requires WorldOk(w) && Enabled(w, action) && action.EntryReturns?
    ensures Lookup(Effect(w, action).db.reconciliation, account)
            == if Locks(w, action, account)
               then Some(ForcedRow(Lookup(w.db.reconciliation, account), LockReason(action).value))
               else Lookup(w.db.reconciliation, account)
    ensures Effect(w, action).db.books == w.db.books
  {
    match action
    case EntryReturns(k, Ok(fill)) => FillRow(w, k, fill);
    case EntryReturns(k, Err(failure)) => EntryFailureRow(w, k, Err(failure), account);
  }

  lemma ReturnRow(w: World, action: Action, account: Account)
    requires WorldOk(w) && Enabled(w, action) && IsReturn(action)
    ensures Lookup(Effect(w, action).db.reconciliation, account)
            == if Locks(w, action, account)
               then Some(ForcedRow(Lookup(w.db.reconciliation, account), LockReason(action).value))
               else Lookup(w.db.reconciliation, account)
    ensures Effect(w, action).db.books == w.db.books
  {
    match action
    case EntryReturns(_, _) => EntryReturnRow(w, action, account);
    case ProtectionReturns(k, answer) => ProtectionRow(w, k, answer, account);
    case FinishProtected(k) => FinishProtectedRow(w, k, account);
    case CloseReturns(k, close) => CloseRow(w, k, close, account);
  }

  /** Actions of the API, of processes and of workers that have nothing to record. */
  predicate IsQuiet(action: Action) {
    && !IsReturn(action) && !action.TakeSnapshot? && !action.AcknowledgeRecovery? && !action.Configure?
    && !action.LearnHistory? && !action.LearnOrderUpdates?
  }

  predicate SameAccountData(db: Tables, after: Tables) {
    after.reconciliation == db.reconciliation && after.books == db.books
  }

  lemma RejectRows(db: Tables, id: IntentId, reason: string)
    ensures SameAccountData(db, TransitionIntent(db, id, RiskRejected, reason).0)
  {
  }

  lemma ConfirmShadowRows(db: Tables, id: IntentId, digest: Digest, operator: string, now: Time)
    ensures SameAccountData(db, ConfirmIntent(db, id, digest, operator, now).0)
  {
    if ConfirmationCheck(db, id, digest, ShadowAccepted).None? {
      var row := ConfirmIntent(db, id, digest, operator, now).0.intents[id];
      IntentRows(db, id, row, [IntentMoved(id, RiskRejected)]);
      IntentRows(db, id, row, [IntentManuallyConfirmed(id, digest, operator), IntentMoved(id, ShadowAccepted)]);
    }
  }

  lemma IntentRows(db: Tables, id: IntentId, row: StoredIntent, events: seq<Event>)
    ensures SameAccountData(db, Append(SetIntent(db, id, row), events))
  {
  }

  lemma ConfirmLiveRows(db: Tables, id: IntentId, digest: Digest, operator: string, account: Account, now: Time)
    ensures SameAccountData(db, ConfirmIntentForExecution(db, id, digest, operator, account, now).0)
  {
  }

  lemma ClaimRows(w: World, k: WorkerId, choice: Option<IntentId>)
    requires Enabled(w, ClaimNext(k, choice))
    ensures SameAccountData(w.db, DoClaim(w, k, choice).db)
  {
  }

  lemma QuietRow(w: World, action: Action)
    requires Enabled(w, action) && IsQuiet(action)
    ensures SameAccountData(w.db, Effect(w, action).db)
  {
    match action
    case Submit(intent, key, now) => SubmitRow(w, intent, key, now);
    case RejectAtConfirmation(id, _) => RejectRows(w.db, id, "confirmation_pre_trade_rejected");
    case ConfirmShadow(id, digest, operator, now) => ConfirmShadowRows(w.db, id, digest, operator, now);
    case ConfirmLive(id, digest, operator, account, now) => ConfirmLiveRows(w.db, id, digest, operator, account, now);
    case ClaimNext(k, choice) => ClaimRows(w, k, choice);
    case _ =>
  }

  lemma SnapshotActionRow(w: World, action: Action, account: Account)
    requires Enabled(w, action) && action.TakeSnapshot?
    ensures Lookup(Effect(w, action).db.reconciliation, account) == RowAfter(w, action, account)
  {
    SnapshotRow(w.db, action.snapshot, account);
  }

  lemma ConfigureActionRow(w: World, configured: Account, account: Account)
    ensures Lookup(Next(w, Configure(configured)).db.reconciliation, account)
            == RowAfter(w, Configure(configured), account)
  {
  }

  lemma OperatorRow(w: World, action: Action, account: Account)
    requires action.AcknowledgeRecovery? || action.Configure?
    ensures Lookup(Next(w, action).db.reconciliation, account) == RowAfter(w, action, account)
  {
    if action.AcknowledgeRecovery? {
      AcknowledgeRow(w.db, action, account);
    } else {
      ConfigureActionRow(w, action.account, account);
    }
  }

  lemma FactsKeepRows(w: World, action: Action)
    requires action.LearnHistory? || action.LearnOrderUpdates? || !Enabled(w, action)
    ensures Next(w, action).db.reconciliation == w.db.reconciliation
  {
  }

  lemma UnchangedRow(w: World, action: Action, account: Account)
    requires action != Configure(account) && !Snapshots(w, action, account)
    requires !Locks(w, action, account) && !Recovers(w, action, account)
    ensures RowAfter(w, action, account) == Lookup(w.db.reconciliation, account)
  {
  }

  lemma WorkerOrApiRow(w: World, action: Action, account: Account)
    requires WorldOk(w) && Enabled(w, action) && (IsReturn(action) || IsQuiet(action))
    ensures Lookup(Effect(w, action).db.reconciliation, account) == RowAfter(w, action, account)
  {
    if IsReturn(action) {
      ReturnRow(w, action, account);
    } else {
      QuietRow(w, action);
      UnchangedRow(w, action, account);
    }
  }

  /** Exactly snapshots of the account, outcomes of its workers that lock it, successful
      acknowledgements and its first configuration change its row. */
  lemma NextRowOf(w: World, action: Action, account: Account)
    requires WorldOk(w)
    ensures Lookup(Next(w, action).db.reconciliation, account) == RowAfter(w, action, account)
  {
    if action.AcknowledgeRecovery? || action.Configure? {
      OperatorRow(w, action, account);
    } else if !Enabled(w, action) || action.LearnHistory? || action.LearnOrderUpdates? {
      FactsKeepRows(w, action);
      UnchangedRow(w, action, account);
    } else if action.TakeSnapshot? {
      SnapshotActionRow(w, action, account);
    } else {
      WorkerOrApiRow(w, action, account);
    }
  }

  // ---------- The clean streak ----------

  /** Whether the snapshot that an action records shows a discrepancy or an unprotected position. */
  predicate Dirty(db: Tables, s: AccountSnapshot) {
    Discrepancy(SnapshotDiff(db, s), s)
  }

  /** The clean snapshots of the account since the last dirty one or the last lock. */
  ghost function CleanSince(w: World, run: seq<Action>, account: Account): nat {
    if run == [] then 0
    else
      var init, last := run[..|run| - 1], run[|run| - 1];
      var before := After(w, init);
      if Snapshots(before, last, account) then
        (if Dirty(before.db, last.snapshot) then 0 else CleanSince(w, init, account) + 1)
      else if Locks(before, last, account) then 0
      else CleanSince(w, init, account)
  }

  function Saturated(n: nat): U32 {
    if n < U32_MAX then n else U32_MAX
  }

  predicate StreakCounts(row: Option<ReconciliationRow>, clean: nat) {
    row.Some? ==> row.value.cleanStreak == if row.value.mode.CloseOnly? then Saturated(clean) else 0
  }

  lemma StreakStep(w: World, action: Action, account: Account, clean: nat)
    requires StreakCounts(Lookup(w.db.reconciliation, account), clean)
    ensures StreakCounts(RowAfter(w, action, account),
                         if Snapshots(w, action, account) then (if Dirty(w.db, action.snapshot) then 0 else clean + 1)
                         else if Locks(w, action, account) then 0
                         else clean)
  {
  }

  /** Over every run: in close-only the streak is the number of clean snapshots since the last dirty
      one or the last lock (until the counter saturates), and in the other modes it is zero. */
  lemma {:induction false} StreakCountsCleanSnapshots(w: World, run: seq<Action>, account: Account)
    requires WorldOk(w) && account !in w.db.reconciliation
    ensures StreakCounts(Lookup(After(w, run).db.reconciliation, account), CleanSince(w, run, account))
  {
    if run != [] {
      var init, last := run[..|run| - 1], run[|run| - 1];
      StreakCountsCleanSnapshots(w, init, account);
      EveryRunKeepsWorld(w, init);
      NextRowOf(After(w, init), last, account);
      StreakStep(After(w, init), last, account, CleanSince(w, init, account));
    }
  }

  lemma StayStep(w: World, action: Action, account: Account)
    requires IsCloseOnly(w.db, account) && !Recovers(w, action, account)
    ensures RowAfter(w, action, account).Some? && RowAfter(w, action, account).value.mode.CloseOnly?
  {
  }

  lemma ExitStep(w: World, action: Action, account: Account, clean: nat)
    requires IsCloseOnly(w.db, account) && StreakCounts(Lookup(w.db.reconciliation, account), clean)
    ensures var after := RowAfter(w, action, account);
            after.Some? && (!after.value.mode.CloseOnly? <==>
              && action.AcknowledgeRecovery? && action.account == account
              && clean >= 3
              && w.db.reconciliation[account].reasonCode == Some(action.reason))
  {
  }

  /** Close-only ends in one way: an acknowledgement that names the current reason after at least three
      clean snapshots since the last dirty one or the last lock. */
  lemma OnlyAcknowledgementEndsCloseOnly(w: World, run: seq<Action>, action: Action, account: Account)
    requires WorldOk(w) && account !in w.db.reconciliation
    requires IsCloseOnly(After(w, run).db, account)
    ensures !IsCloseOnly(Next(After(w, run), action).db, account) <==>
              && action.AcknowledgeRecovery? && action.account == account
              && CleanSince(w, run, account) >= 3
              && After(w, run).db.reconciliation[account].reasonCode == Some(action.reason)
  {
    EveryRunKeepsWorld(w, run);
    NextRowOf(After(w, run), action, account);
    StreakCountsCleanSnapshots(w, run, account);
    ExitStep(After(w, run), action, account, CleanSince(w, run, account));
  }
}
