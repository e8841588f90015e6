/** The tables of the execution database and what each transaction does to them (src/store.rs). A
    transaction that fails leaves the tables as they were. */
module Database {
  import opened Wrappers
  import opened Domain
  import opened Risk
  import opened Orders
  import opened Reconciliation

  /** A confirmation digest, represented by what is hashed into it. */
  datatype Digest = Digest(intent: TradeIntent, decision: RiskDecision, expiresAt: Time)

  datatype ManualConfirmation = ManualConfirmation(
    digest: Digest, expiresAt: Time, confirmedAt: Option<Time>, confirmedBy: Option<string>)

  datatype StoredIntent = StoredIntent(
    intent: TradeIntent,
    idempotencyKey: string,
    status: TradeIntentStatus,
    statusReason: string,
    riskDecision: Option<RiskDecision>,
    manualConfirmation: Option<ManualConfirmation>)

  datatype Event =
    | IntentReceived(id: IntentId)
    | IntentMoved(id: IntentId, status: TradeIntentStatus)
    | IntentManuallyConfirmed(id: IntentId, digest: Digest, confirmedBy: string)
    | ExecutionCreated(id: IntentId, account: Account, entryCloid: Cloid)
    | EntryClaimed(id: IntentId)
    | ExecutionMoved(id: IntentId, live: LiveStatus)
    | ProtectionOrdersVerified(id: IntentId, coveredSize: real)
    | KillSwitchSet(enabled: bool)
    | SnapshotRecorded(account: Account, observedAt: Time)
    | RecoveryAcknowledged(account: Account, previousReason: string, acknowledgedBy: string)
    | HistoryBackfilled(account: Account)
    | OrderUpdatesRecorded(account: Account)

  datatype StoreError =
    | DatabaseError
    | IllegalTransition(from: TradeIntentStatus, to: TradeIntentStatus)
    | IdempotencyConflict
    | IntentIdConflict
    | SignalReplay
    | ConcurrentTransition
    | ConfirmationMismatch
    | ConfirmationExpired
    | NotAwaitingConfirmation
    | ReconciliationNotCloseOnly
    | ReconciliationRecoveryNotEligible
    | ReconciliationReasonMismatch

  /** The journal is in cursor order: the event at index k has cursor k + 1. */
  datatype Tables = Tables(
    intents: map<IntentId, StoredIntent>,
    idempotency: map<(string, string), IntentId>,
    executions: map<IntentId, LiveExecution>,
    orders: map<IntentId, Ledger>,
    journal: seq<Event>,
    killSwitch: bool,
    reconciliation: map<Account, ReconciliationRow>,
    books: map<Account, Book>)

  const EMPTY := Tables(map[], map[], map[], map[], [], false, map[], map[])

  type StoreResult<T> = Result<T, StoreError>

  function Append(db: Tables, events: seq<Event>): Tables {
    db.(journal := db.journal + events)
  }

  function SetIntent(db: Tables, id: IntentId, row: StoredIntent): Tables {
    db.(intents := db.intents[id := row])
  }

  function LedgerOf(db: Tables, id: IntentId): Ledger {
    if id in db.orders then db.orders[id] else map[]
  }

  function BookOf(db: Tables, account: Account): Book {
    if account in db.books then db.books[account] else EMPTY_BOOK
  }

  // ---------- Admission and confirmation ----------

  predicate SameSignal(a: TradeIntent, b: TradeIntent) {
    a.accountId == b.accountId && a.strategyInstanceId == b.strategyInstanceId && a.signalId == b.signalId
  }

  predicate SignalSeen(db: Tables, intent: TradeIntent) {
    exists id | id in db.intents :: SameSignal(db.intents[id].intent, intent)
  }

  /** The row that admission stores. */
  function AdmittedRow(
    killSwitch: bool, intent: TradeIntent, key: string, decision: RiskDecision,
    confirmation: Option<ManualConfirmation>): StoredIntent
  {
    var (status, reason) :=
      if killSwitch then (RiskRejected, "kill_switch_enabled")
      else if !decision.status.Approved? then (RiskRejected, "risk_policy_rejected")
      else if confirmation.Some? then (AwaitingConfirmation, "awaiting_manual_confirmation")
      else (ShadowAccepted, "shadow_mode_no_order_submitted");
    StoredIntent(intent, key, status, reason, Some(decision), confirmation)
  }

  function SubmitShadowIntent(
    db: Tables, intent: TradeIntent, key: string, decision: RiskDecision,
    confirmation: Option<ManualConfirmation>): (Tables, StoreResult<(StoredIntent, bool)>)
  {
    var slot := (intent.strategyId, key);
    if slot in db.idempotency && db.idempotency[slot] in db.intents then
      var existing := db.intents[db.idempotency[slot]];
      if existing.intent == intent then (db, Ok((existing, false))) else (db, Err(IdempotencyConflict))
    else if intent.intentId in db.intents then (db, Err(IntentIdConflict))
    else if SignalSeen(db, intent) then (db, Err(SignalReplay))
    else
      var row := AdmittedRow(db.killSwitch, intent, key, decision, confirmation);
      var stored := SetIntent(db, intent.intentId, row).(idempotency := db.idempotency[slot := intent.intentId]);
      (Append(stored, [IntentReceived(intent.intentId), IntentMoved(intent.intentId, row.status)]), Ok((row, true)))
  }

  function TransitionIntent(
    db: Tables, id: IntentId, next: TradeIntentStatus, reason: string): (Tables, StoreResult<Option<StoredIntent>>)
  {
    if id !in db.intents then (db, Ok(None))
    else if !db.intents[id].status.CanTransitionTo(next) then
      (db, Err(IllegalTransition(db.intents[id].status, next)))
    else
      var row := db.intents[id].(status := next, statusReason := reason);
      (Append(SetIntent(db, id, row), [IntentMoved(id, next)]), Ok(Some(row)))
  }

  /** What both confirmations refuse before anything else, and the replay of a finished one. */
  function ConfirmationCheck(
    db: Tables, id: IntentId, digest: Digest, confirmed: TradeIntentStatus): Option<StoreResult<StoredIntent>>
  {
    if id !in db.intents || db.intents[id].manualConfirmation.None? then Some(Err(NotAwaitingConfirmation))
    else
      var current := db.intents[id];
      var confirmation := current.manualConfirmation.value;
      if confirmation.digest != digest then Some(Err(ConfirmationMismatch))
      else if current.status == confirmed && confirmation.confirmedAt.Some? then Some(Ok(current))
      else if current.status != AwaitingConfirmation then Some(Err(NotAwaitingConfirmation))
      else None
  }

  predicate ConfirmationOver(row: StoredIntent, now: Time)
    requires row.manualConfirmation.Some?
  {
    row.manualConfirmation.value.expiresAt <= now || row.intent.expiresAt <= now
  }

  function ConfirmedRow(
    row: StoredIntent, status: TradeIntentStatus, reason: string, operator: string, now: Time): StoredIntent
    requires row.manualConfirmation.Some?
  {
    row.(status := status, statusReason := reason,
         manualConfirmation := Some(
           row.manualConfirmation.value.(confirmedAt := Some(now), confirmedBy := Some(operator))))
  }

  /** The row that a shadow confirmation leaves. */
  function ShadowRow(row: StoredIntent, killSwitch: bool, operator: string, now: Time): StoredIntent
    requires row.manualConfirmation.Some?
  {
    if ConfirmationOver(row, now) then row.(status := RiskRejected, statusReason := "confirmation_expired")
    else if killSwitch then row.(status := RiskRejected, statusReason := "kill_switch_enabled")
    else ConfirmedRow(row, ShadowAccepted, "manually_confirmed_shadow_only", operator, now)
  }

  function ShadowEvents(id: IntentId, digest: Digest, operator: string, status: TradeIntentStatus): seq<Event> {
    if status.RiskRejected? then [IntentMoved(id, RiskRejected)]
    else [IntentManuallyConfirmed(id, digest, operator), IntentMoved(id, ShadowAccepted)]
  }

  /** Confirmation in shadow mode: an expired one and the kill switch reject the intent for good. */
  function ConfirmIntent(
    db: Tables, id: IntentId, digest: Digest, operator: string, now: Time): (Tables, StoreResult<StoredIntent>)
  {
    var check := ConfirmationCheck(db, id, digest, ShadowAccepted);
    if check.Some? then (db, check.value)
    else
      var row := ShadowRow(db.intents[id], db.killSwitch, operator, now);
      (Append(SetIntent(db, id, row), ShadowEvents(id, digest, operator, row.status)),
       if ConfirmationOver(db.intents[id], now) then Err(ConfirmationExpired) else Ok(row))
  }

  /** Confirmation in a live mode: it queues one execution, or fails without a trace. */
  function ConfirmIntentForExecution(
    db: Tables, id: IntentId, digest: Digest, operator: string, account: Account, now: Time):
    (Tables, StoreResult<StoredIntent>)
  {
    var check := ConfirmationCheck(db, id, digest, TradeIntentStatus.Approved);
    if check.Some? then (db, check.value)
    else
      var current := db.intents[id];
      if ConfirmationOver(current, now) then (db, Err(ConfirmationExpired))
      else if db.killSwitch then (db, Err(ConcurrentTransition))
      else if id in db.executions then (db, Err(DatabaseError))
      else
        var row := ConfirmedRow(current, TradeIntentStatus.Approved, "manually_confirmed_for_execution", operator, now);
        var cloid := DeterministicCloid(id, Entry);
        var execution := LiveExecution(account, cloid, Pending, 0, now);
        var stored := SetIntent(db, id, row).(executions := db.executions[id := execution]);
        (Append(stored, [IntentManuallyConfirmed(id, digest, operator), ExecutionCreated(id, account, cloid)]), Ok(row))
  }

  // ---------- Claiming ----------

  predicate Active(status: LiveStatus) {
    !status.Pending? && !status.Closed? && status != LiveStatus.Failed
  }

  /** The symbol of an execution with its intent row. */
  predicate SameMarket(db: Tables, a: IntentId, b: IntentId) {
    && a in db.executions && a in db.intents
    && b in db.executions && b in db.intents
    && db.executions[a].account == db.executions[b].account
    && db.intents[a].intent.symbol == db.intents[b].intent.symbol
  }

  predicate Blocked(db: Tables, id: IntentId) {
    exists other | other in db.executions ::
      other != id && SameMarket(db, other, id) && Active(db.executions[other].status)
  }

  predicate PendingFor(db: Tables, account: Account, id: IntentId) {
    && id in db.executions && id in db.intents
    && db.executions[id].account == account
    && db.executions[id].status.Pending?
  }

  predicate Claimable(db: Tables, account: Account, id: IntentId) {
    PendingFor(db, account, id) && !Blocked(db, id)
  }

  ghost predicate Oldest(db: Tables, account: Account, id: IntentId) {
    && Claimable(db, account, id)
    && forall other | Claimable(db, account, other) :: db.executions[id].createdAt <= db.executions[other].createdAt
  }

  /** Pending, of the account, and no other execution of that account and symbol is anything but pending,
      closed or failed. */
  ghost predicate Free(db: Tables, account: Account, id: IntentId) {
    && id in db.executions && id in db.intents
    && db.executions[id].account == account && db.executions[id].status == Pending
    && forall other | other in db.executions && other in db.intents && other != id ::
         var execution := db.executions[other];
         execution.account == account && db.intents[other].intent.symbol == db.intents[id].intent.symbol ==>
           execution.status in {Pending, Closed, LiveStatus.Failed}
  }

  lemma ClaimableExactly(db: Tables, account: Account, id: IntentId)
    ensures Claimable(db, account, id) <==> Free(db, account, id)
  {
  }

  /** No older execution of the account is free. */
  lemma OldestExactly(db: Tables, account: Account, id: IntentId)
    ensures Oldest(db, account, id) <==>
            && Free(db, account, id)
            && forall other | Free(db, account, other) :: db.executions[id].createdAt <= db.executions[other].createdAt
  {
    forall other ensures Claimable(db, account, other) <==> Free(db, account, other) {
      ClaimableExactly(db, account, other);
    }
  }

  lemma NothingFree(db: Tables, account: Account)
    ensures (forall id | PendingFor(db, account, id) :: Blocked(db, id)) <==> forall id :: !Free(db, account, id)
  {
    forall id ensures PendingFor(db, account, id) && !Blocked(db, id) <==> Free(db, account, id) {
      ClaimableExactly(db, account, id);
    }
  }

  /** What another execution does, or that it exists at all, never decides whether an execution can be
      claimed, unless the two share account and symbol. */
  lemma OtherMarketsNeverBlock(
    db: Tables, account: Account, id: IntentId, other: IntentId, change: Option<LiveExecution>)
    requires id in db.executions && id in db.intents && other in db.intents && other != id
    requires db.intents[other].intent.symbol != db.intents[id].intent.symbol
      || (&& (other in db.executions ==> db.executions[other].account != account)
          && (change.Some? ==> change.value.account != account))
    ensures var changed :=
              if change.Some? then db.executions[other := change.value] else db.executions - {other};
            Claimable(db.(executions := changed), account, id) <==> Claimable(db, account, id)
  {
    var changed := if change.Some? then db.executions[other := change.value] else db.executions - {other};
    var after := db.(executions := changed);
    ClaimableExactly(db, account, id);
    ClaimableExactly(after, account, id);
    assert forall k | k != other :: k in changed <==> k in db.executions;
  }

  function Claim(db: Tables, id: IntentId): (Tables, StoreResult<(LiveExecution, StoredIntent)>)
    requires id in db.executions && id in db.intents
  {
    if db.intents[id].status != TradeIntentStatus.Approved then (db, Err(ConcurrentTransition))
    else
      var execution := db.executions[id].(status := EntrySubmitting, attempt := db.executions[id].attempt + 1);
      var row := db.intents[id].(status := Submitting, statusReason := "entry_claimed");
      var stored := SetIntent(db, id, row).(executions := db.executions[id := execution]);
      (Append(stored, [EntryClaimed(id)]), Ok((execution, row)))
  }

  /** A claim succeeds exactly for an approved intent. It counts the attempt and moves both statuses of
      that one execution, and changes nothing else but the journal. */
  lemma ClaimExactly(db: Tables, id: IntentId)
    requires id in db.executions && id in db.intents
    ensures var (after, result) := Claim(db, id);
            && (result.Ok? <==> db.intents[id].status == TradeIntentStatus.Approved)
            && (result.Err? ==> after == db)
            && (result.Ok? ==>
                  && result.value == (after.executions[id], after.intents[id])
                  && after.executions[id].attempt == db.executions[id].attempt + 1
                  && after.executions[id].status == EntrySubmitting
                  && after.executions[id].(attempt := 0, status := Pending)
                     == db.executions[id].(attempt := 0, status := Pending)
                  && after.intents[id].status == Submitting
                  && after.intents[id].intent == db.intents[id].intent
                  && after.intents[id].riskDecision == db.intents[id].riskDecision
                  && after.executions - {id} == db.executions - {id} && after.intents - {id} == db.intents - {id}
                  && after.journal == db.journal + [EntryClaimed(id)]
                  && after.(executions := db.executions, intents := db.intents, journal := db.journal) == db)
  {
  }

  predicate Unresolved(status: LiveStatus) {
    status in {EntrySubmitting, EntryUnknown, EmergencyClosing, ReconciliationRequired}
  }

  function UnresolvedIds(db: Tables, account: Account): set<IntentId> {
    set id | id in db.executions && db.executions[id].account == account && Unresolved(db.executions[id].status)
  }

  // ---------- Outcomes of an execution ----------

  /** A compare-and-set on the execution and on its intent, and whether it locks the account. */
  datatype Move = Move(
    fromLive: LiveStatus,
    toLive: LiveStatus,
    fromIntent: TradeIntentStatus,
    toIntent: TradeIntentStatus,
    reason: string,
    forceCloseOnly: bool)

  const ENTRY_FAILED :=
    Move(EntrySubmitting, LiveStatus.Failed, Submitting, TradeIntentStatus.Failed, "entry_rejected", false)
  const ENTRY_UNKNOWN :=
    Move(EntrySubmitting, EntryUnknown, Submitting, TradeIntentStatus.Failed, "entry_outcome_unknown", true)
  const ENTRY_FILLED :=
    Move(EntrySubmitting, EntryFilled, Submitting, Executing, "entry_fill_confirmed", false)
  const PROTECTED :=
    Move(EntryFilled, Protected, Executing, Completed, "protection_verified", false)
  const EMERGENCY_CLOSING :=
    Move(EntryFilled, EmergencyClosing, Executing, Executing, "protection_failed", true)
  const CLOSED :=
    Move(EmergencyClosing, Closed, Executing, TradeIntentStatus.Failed, "unprotected_entry_emergency_closed", true)
  const RECONCILIATION_REQUIRED :=
    Move(EmergencyClosing, ReconciliationRequired, Executing, TradeIntentStatus.Failed,
         "emergency_close_outcome_unknown", true)

  function MoveLiveAndIntent(db: Tables, id: IntentId, move: Move): StoreResult<Tables> {
    if || id !in db.executions || db.executions[id].status != move.fromLive
       || id !in db.intents || db.intents[id].status != move.fromIntent
    then Err(ConcurrentTransition)
    else
      var execution := db.executions[id].(status := move.toLive);
      var row := db.intents[id].(status := move.toIntent, statusReason := move.reason);
      var stored := SetIntent(db, id, row).(executions := db.executions[id := execution]);
      Ok(Append(stored, [ExecutionMoved(id, move.toLive)]))
  }

  function ForcedRow(previous: Option<ReconciliationRow>, reason: string): ReconciliationRow {
    if previous.None? then ReconciliationRow(CloseOnly, false, Some(reason), None, None, 0)
    else previous.value.(mode := CloseOnly, ready := false, reasonCode := Some(reason), cleanStreak := 0)
  }

  function ForceCloseOnly(db: Tables, account: Account, reason: string): Tables {
    db.(reconciliation := db.reconciliation[account := ForcedRow(Lookup(db.reconciliation, account), reason)])
  }

  function FinishLiveTransition(db: Tables, id: IntentId, move: Move): (Tables, StoreResult<()>) {
    match MoveLiveAndIntent(db, id, move)
    case Err(error) => (db, Err(error))
    case Ok(moved) =>
      if move.forceCloseOnly then (ForceCloseOnly(moved, db.executions[id].account, move.reason), Ok(()))
      else (moved, Ok(()))
  }

  function EntryOrder(execution: LiveExecution, fill: ConfirmedFill): LiveOrder {
    LiveOrder(execution.entryCloid, Some(fill.exchangeOid), Filled, fill.size, fill.size, Some(fill.averagePrice))
  }

  function RecordEntryFill(db: Tables, id: IntentId, fill: ConfirmedFill): (Tables, StoreResult<()>) {
    if id !in db.executions || !db.executions[id].status.EntrySubmitting? then (db, Err(ConcurrentTransition))
    else if StableName(Entry) in LedgerOf(db, id) then (db, Err(DatabaseError))
    else
      var ledger := LedgerOf(db, id)[StableName(Entry) := EntryOrder(db.executions[id], fill)];
      match MoveLiveAndIntent(db.(orders := db.orders[id := ledger]), id, ENTRY_FILLED)
      case Err(error) => (db, Err(error))
      case Ok(moved) => (moved, Ok(()))
  }

  function ProtectionOrder(id: IntentId, role: OrderRole, size: real): LiveOrder {
    LiveOrder(DeterministicCloid(id, role), None, OpenVerified, size, 0.0, None)
  }

  /** Adds an order; a role can be taken only once. */
  function InsertOrder(ledger: Ledger, id: IntentId, role: OrderRole, size: real): Option<Ledger> {
    if StableName(role) in ledger then None
    else Some(ledger[StableName(role) := ProtectionOrder(id, role, size)])
  }

  /** Adds the orders of the first n targets, one by one. */
  function InsertTargets(ledger: Ledger, intent: TradeIntent, size: real, n: nat): Option<Ledger>
    requires n <= |intent.exit.takeProfit|
  {
    if n == 0 then Some(ledger)
    else
      match InsertTargets(ledger, intent, size, n - 1)
      case None => None
      case Some(before) =>
        InsertOrder(before, intent.intentId, TargetRole(n - 1),
                    TargetSize(size, intent.exit.takeProfit[n - 1].positionPct))
  }

  function InsertProtection(ledger: Ledger, intent: TradeIntent, size: real): Option<Ledger> {
    match InsertOrder(ledger, intent.intentId, StopLoss, size)
    case None => None
    case Some(withStop) => InsertTargets(withStop, intent, size, |intent.exit.takeProfit|)
  }

  function RecordProtectionOrders(db: Tables, intent: TradeIntent, fill: ConfirmedFill): (Tables, StoreResult<()>) {
    var id := intent.intentId;
    if id !in db.executions || !db.executions[id].status.EntryFilled? then (db, Err(ConcurrentTransition))
    else
      match InsertProtection(LedgerOf(db, id), intent, fill.size)
      case None => (db, Err(DatabaseError))
      case Some(ledger) =>
        (Append(db.(orders := db.orders[id := ledger]), [ProtectionOrdersVerified(id, fill.size)]), Ok(()))
  }

  // ---------- Control and reconciliation ----------

  function SetKillSwitch(db: Tables, enabled: bool): Tables {
    Append(db.(killSwitch := enabled), [KillSwitchSet(enabled)])
  }

  function SnapshotDiff(db: Tables, snapshot: AccountSnapshot): Diff {
    Compare(BookOf(db, snapshot.account), Lookup(db.reconciliation, snapshot.account), snapshot)
  }

  function RecordSnapshot(db: Tables, snapshot: AccountSnapshot): (Tables, ReconciliationRow) {
    var account := snapshot.account;
    var diff := SnapshotDiff(db, snapshot);
    var row := NextRow(Lookup(db.reconciliation, account), diff, snapshot);
    var stored := db.(reconciliation := db.reconciliation[account := row],
                      books := db.books[account := UpdatedBook(BookOf(db, account), diff, snapshot)]);
    (Append(stored, [SnapshotRecorded(account, snapshot.observedAt)]), row)
  }

  function ConfigureAccount(db: Tables, account: Account): Tables {
    if account in db.reconciliation then db
    else
      var row := ReconciliationRow(HaltNewEntries, false, Some("startup_reconciliation_pending"), None, None, 0);
      db.(reconciliation := db.reconciliation[account := row])
  }

  function Acknowledge(
    db: Tables, account: Account, expectedReason: string, operator: string): (Tables, StoreResult<ReconciliationRow>)
  {
    if account !in db.reconciliation || !db.reconciliation[account].mode.CloseOnly? then
      (db, Err(ReconciliationNotCloseOnly))
    else if db.reconciliation[account].reasonCode != Some(expectedReason) then
      (db, Err(ReconciliationReasonMismatch))
    else if !db.reconciliation[account].RecoveryEligible() then
      (db, Err(ReconciliationRecoveryNotEligible))
    else
      var row := db.reconciliation[account].(mode := Normal, ready := true, reasonCode := None, cleanStreak := 0);
      (Append(db.(reconciliation := db.reconciliation[account := row]),
              [RecoveryAcknowledged(account, expectedReason, operator)]),
       Ok(row))
  }

  /** Facts are only ever added; nothing is journalled when none of them is new. */
  function RecordHistory(db: Tables, account: Account, fills: set<FillFact>, funding: set<FundingFact>): Tables {
    var book := BookOf(db, account);
    if fills <= book.fills && funding <= book.funding then db
    else
      var grown := book.(fills := book.fills + fills, funding := book.funding + funding);
      Append(db.(books := db.books[account := grown]), [HistoryBackfilled(account)])
  }

  function RecordOrderUpdates(db: Tables, account: Account, updates: set<OrderUpdate>): Tables {
    var book := BookOf(db, account);
    if updates <= book.updates then db
    else
      Append(db.(books := db.books[account := book.(updates := book.updates + updates)]),
             [OrderUpdatesRecorded(account)])
  }

  /** New entries are refused unless the account is ready and in normal mode; an account without a
      row is not gated. */
  predicate EntriesBlocked(db: Tables, account: Account) {
    account in db.reconciliation
    && (!db.reconciliation[account].ready || !db.reconciliation[account].mode.Normal?)
  }

  predicate IsCloseOnly(db: Tables, account: Account) {
    account in db.reconciliation && db.reconciliation[account].mode.CloseOnly?
  }
}
