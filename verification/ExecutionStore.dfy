/** The execution store: one database behind one lock (src/store.rs). Every method is one transaction.
    It works on a copy of the tables and commits by assigning it back; returning early rolls back. */
module Store {
  import opened Wrappers
  import opened Domain
  import opened Risk
  import opened Orders
  import opened Coverage
  import opened Reconciliation
  import opened Database
  import opened Journal
  import opened ProtectionLedger
  import opened StoreInvariant

  class ExecutionStore {
    var db: Tables

    constructor ()
      ensures db == EMPTY
    {
      db := EMPTY;
    }

    method SubmitShadowIntent(
      intent: TradeIntent, key: string, decision: RiskDecision, confirmation: Option<ManualConfirmation>)
      returns (result: StoreResult<(StoredIntent, bool)>)
      modifies this
      ensures (db, result) == Database.SubmitShadowIntent(old(db), intent, key, decision, confirmation)
    {
      var tx := db;
      var slot := (intent.strategyId, key);
      if slot in tx.idempotency && tx.idempotency[slot] in tx.intents {
        var existing := tx.intents[tx.idempotency[slot]];
        if existing.intent == intent {
          return Ok((existing, false));
        }
        return Err(IdempotencyConflict);
      }
      if intent.intentId in tx.intents {
        return Err(IntentIdConflict);
      }
      if SignalSeen(tx, intent) {
        return Err(SignalReplay);
      }
      var status, reason := ShadowAccepted, "shadow_mode_no_order_submitted";
      if tx.killSwitch {
        status, reason := RiskRejected, "kill_switch_enabled";
      } else if !decision.status.Approved? {
        status, reason := RiskRejected, "risk_policy_rejected";
      } else if confirmation.Some? {
        status, reason := AwaitingConfirmation, "awaiting_manual_confirmation";
      }
      var row := StoredIntent(intent, key, status, reason, Some(decision), confirmation);
      tx := tx.(intents := tx.intents[intent.intentId := row],
                idempotency := tx.idempotency[slot := intent.intentId]);
      tx := tx.(journal := tx.journal + [IntentReceived(intent.intentId), IntentMoved(intent.intentId, status)]);
      db := tx;
      return Ok((row, true));
    }

    /** A legal move changes the status and reason of that one row and appends its event; anything else
        changes nothing. The journal still replays to the statuses. */
    method TransitionIntent(id: IntentId, next: TradeIntentStatus, reason: string)
      returns (result: StoreResult<Option<StoredIntent>>)
      modifies this
      ensures (db, result) == Database.TransitionIntent(old(db), id, next, reason)
      ensures var legal := id in old(db).intents && old(db).intents[id].status.CanTransitionTo(next);
              && (db != old(db) <==> legal)
              && (legal ==>
                    && id in db.intents && db.intents[id].status == next && db.intents[id].statusReason == reason
                    && SameContents(old(db).intents[id], db.intents[id])
                    && db.intents - {id} == old(db).intents - {id}
                    && db.journal == old(db).journal + [IntentMoved(id, next)]
                    && db.(intents := old(db).intents, journal := old(db).journal) == old(db))
              && (result.Err? <==> id in old(db).intents && !legal)
      ensures Replayable(old(db)) ==> Replayable(db)
    {
      if Replayable(db) {
        TransitionReplays(db, id, next, reason);
      }
      if id in db.intents && db.intents[id].status.CanTransitionTo(next) {
        TransitionChanges(db, id, next, reason);
      }
      var tx := db;
      if id !in tx.intents {
        return Ok(None);
      }
      var current := tx.intents[id];
      if !current.status.CanTransitionTo(next) {
        return Err(IllegalTransition(current.status, next));
      }
      tx := tx.(intents := tx.intents[id := current.(status := next, statusReason := reason)]);
      tx := tx.(journal := tx.journal + [IntentMoved(id, next)]);
      db := tx;
      return Ok(Some(tx.intents[id]));
    }

    method ConfirmIntent(id: IntentId, digest: Digest, operator: string, now: Time)
      returns (result: StoreResult<StoredIntent>)
      modifies this
      ensures (db, result) == Database.ConfirmIntent(old(db), id, digest, operator, now)
    {
      var tx := db;
      var check := ConfirmationCheck(tx, id, digest, ShadowAccepted);
      if check.Some? {
        return check.value;
      }
      var row := tx.intents[id];
      if ConfirmationOver(row, now) {
        row := row.(status := RiskRejected, statusReason := "confirmation_expired");
        tx := tx.(intents := tx.intents[id := row], journal := tx.journal + [IntentMoved(id, RiskRejected)]);
        db := tx;
        return Err(ConfirmationExpired);
      }
      if tx.killSwitch {
        row := row.(status := RiskRejected, statusReason := "kill_switch_enabled");
        tx := tx.(intents := tx.intents[id := row], journal := tx.journal + [IntentMoved(id, RiskRejected)]);
        db := tx;
        return Ok(row);
      }
      row := ConfirmedRow(row, ShadowAccepted, "manually_confirmed_shadow_only", operator, now);
      tx := tx.(intents := tx.intents[id := row]);
      tx := tx.(journal := tx.journal
        + [IntentManuallyConfirmed(id, digest, operator), IntentMoved(id, ShadowAccepted)]);
      db := tx;
      return Ok(row);
    }

    method ConfirmIntentForExecution(id: IntentId, digest: Digest, operator: string, account: Account, now: Time)
      returns (result: StoreResult<StoredIntent>)
      modifies this
      ensures (db, result) == Database.ConfirmIntentForExecution(old(db), id, digest, operator, account, now)
    {
      var tx := db;
      var check := ConfirmationCheck(tx, id, digest, TradeIntentStatus.Approved);
      if check.Some? {
        return check.value;
      }
      var row := tx.intents[id];
      if ConfirmationOver(row, now) {
        return Err(ConfirmationExpired);
      }
      if tx.killSwitch {
        return Err(ConcurrentTransition);
      }
      row := ConfirmedRow(row, TradeIntentStatus.Approved, "manually_confirmed_for_execution", operator, now);
      tx := tx.(intents := tx.intents[id := row]);
      if id in tx.executions {
        return Err(DatabaseError);
      }
      var cloid := DeterministicCloid(id, Entry);
      tx := tx.(executions := tx.executions[id := LiveExecution(account, cloid, Pending, 0, now)]);
      tx := tx.(journal := tx.journal
        + [IntentManuallyConfirmed(id, digest, operator), ExecutionCreated(id, account, cloid)]);
      db := tx;
      return Ok(row);
    }

    /** Claims the oldest of the pending executions of the account whose symbol is free, counting its
        attempt; ties are broken arbitrarily. Nothing is claimed exactly when every pending one shares its
        symbol with another execution of the account that is not pending, closed or failed. */
    method ClaimNextLiveExecution(account: Account)
      returns (result: StoreResult<Option<(IntentId, LiveExecution, StoredIntent)>>)
      modifies this
      ensures match result
              case Ok(None) => db == old(db) && forall id | PendingFor(db, account, id) :: Blocked(db, id)
              case Ok(Some((id, execution, row))) =>
                Oldest(old(db), account, id) && (db, Ok((execution, row))) == Claim(old(db), id)
              case Err(_) => db == old(db) && exists id :: Oldest(db, account, id) && Claim(db, id).1.Err?
      ensures result == Ok(None) <==> forall id :: !Free(old(db), account, id)
      ensures result.Ok? && result.value.Some? ==> Free(old(db), account, result.value.value.0)
    {
      var tx := db;
      var candidates := set id | id in tx.executions && Claimable(tx, account, id);
      if candidates == {} {
        NothingClaimable(tx, account, candidates);
        return Ok(None);
      }
      OldestExists(tx, account, candidates);
      var id :| id in candidates
        && forall other | other in candidates :: tx.executions[id].createdAt <= tx.executions[other].createdAt;
      ChosenIsOldest(tx, account, candidates, id);
      var execution := tx.executions[id];
      execution := execution.(status := EntrySubmitting, attempt := execution.attempt + 1);
      tx := tx.(executions := tx.executions[id := execution]);
      if tx.intents[id].status != TradeIntentStatus.Approved {
        return Err(ConcurrentTransition);
      }
      var row := tx.intents[id].(status := Submitting, statusReason := "entry_claimed");
      tx := tx.(intents := tx.intents[id := row], journal := tx.journal + [EntryClaimed(id)]);
      db := tx;
      return Ok(Some((id, execution, row)));
    }

    /** Counts the executions of the account whose outcome is open: an entry submitted or of unknown
        outcome, an emergency close, or one that needs reconciliation. */
    method UnresolvedLiveExecutionCount(account: Account) returns (count: nat)
      ensures count == |set id | id in db.executions && db.executions[id].account == account
                               && db.executions[id].status
                                  in {EntrySubmitting, EntryUnknown, EmergencyClosing, ReconciliationRequired}|
      ensures count == 0 <==>
              forall id | id in db.executions && db.executions[id].account == account ::
                db.executions[id].status !in {EntrySubmitting, EntryUnknown, EmergencyClosing, ReconciliationRequired}
    {
      count := |UnresolvedIds(db, account)|;
      assert UnresolvedIds(db, account)
             == set id | id in db.executions && db.executions[id].account == account
                         && db.executions[id].status
                            in {EntrySubmitting, EntryUnknown, EmergencyClosing, ReconciliationRequired};
      if count == 0 {
        forall id | id in db.executions && db.executions[id].account == account
          ensures !Unresolved(db.executions[id].status)
        {
          assert id !in UnresolvedIds(db, account);
        }
      }
    }

    method FinishLiveTransition(id: IntentId, move: Move) returns (result: StoreResult<()>)
      modifies this
      ensures (db, result) == Database.FinishLiveTransition(old(db), id, move)
    {
      var tx := db;
      var moved := MoveLiveAndIntent(tx, id, move);
      if moved.Err? {
        return Err(moved.error);
      }
      tx := moved.value;
      if move.forceCloseOnly {
        var account := tx.executions[id].account;
        var row := ReconciliationRow(CloseOnly, false, Some(move.reason), None, None, 0);
        if account in tx.reconciliation {
          var previous := tx.reconciliation[account];
          row := row.(baselineEstablishedAt := previous.baselineEstablishedAt,
                      lastReconciledAt := previous.lastReconciledAt);
        }
        tx := tx.(reconciliation := tx.reconciliation[account := row]);
      }
      db := tx;
      return Ok(());
    }

    method RecordLiveEntryFill(id: IntentId, fill: ConfirmedFill) returns (result: StoreResult<()>)
      modifies this
      ensures (db, result) == RecordEntryFill(old(db), id, fill)
    {
      var tx := db;
      if id !in tx.executions || tx.executions[id].status != EntrySubmitting {
        return Err(ConcurrentTransition);
      }
      var ledger := LedgerOf(tx, id);
      if StableName(Entry) in ledger {
        return Err(DatabaseError);
      }
      var order := LiveOrder(tx.executions[id].entryCloid, Some(fill.exchangeOid), Filled, fill.size, fill.size,
                             Some(fill.averagePrice));
      tx := tx.(orders := tx.orders[id := ledger[StableName(Entry) := order]]);
      var moved := MoveLiveAndIntent(tx, id, ENTRY_FILLED);
      if moved.Err? {
        return Err(moved.error);
      }
      db := moved.value;
      return Ok(());
    }

    method RecordLiveProtectionOrders(intent: TradeIntent, fill: ConfirmedFill) returns (result: StoreResult<()>)
      modifies this
      ensures (db, result) == RecordProtectionOrders(old(db), intent, fill)
    {
      var tx, id := db, intent.intentId;
      if id !in tx.executions || tx.executions[id].status != EntryFilled {
        return Err(ConcurrentTransition);
      }
      var ledger := LedgerOf(tx, id);
      if StableName(StopLoss) in ledger {
        return Err(DatabaseError);
      }
      ledger := ledger[StableName(StopLoss) := ProtectionOrder(id, StopLoss, fill.size)];
      ghost var withStop := ledger;
      var targets := intent.exit.takeProfit;
      for index := 0 to |targets|
        invariant InsertTargets(withStop, intent, fill.size, index) == Some(ledger)
      {
        var role := TargetRole(index);
        var size := TargetSize(fill.size, targets[index].positionPct);
        if StableName(role) in ledger {
          TargetsStayRefused(withStop, intent, fill.size, index + 1, |targets|);
          return Err(DatabaseError);
        }
        ledger := ledger[StableName(role) := ProtectionOrder(id, role, size)];
      }
      tx := tx.(orders := tx.orders[id := ledger]);
      tx := tx.(journal := tx.journal + [ProtectionOrdersVerified(id, fill.size)]);
      db := tx;
      return Ok(());
    }

    /** The switch has the last value set, which is what the journal replays to; nothing that is stored
        or queued changes. */
    method SetKillSwitch(enabled: bool)
      modifies this
      ensures db == Database.SetKillSwitch(old(db), enabled)
      ensures db.intents == old(db).intents && db.executions == old(db).executions
      ensures TablesOk(old(db)) ==> TablesOk(db) && Replay(db.journal).killSwitch == enabled
    {
      if TablesOk(db) {
        KillSwitchKeepsTables(db, enabled);
      }
      db := db.(killSwitch := enabled, journal := db.journal + [KillSwitchSet(enabled)]);
    }

    /** Compares a snapshot with the projections in three loops and moves the execution mode. The account
        is in normal mode afterwards, exactly if it was not in close-only, every position is covered and
        nothing shown is unexplained. */
    method RecordMainnetSnapshot(snapshot: AccountSnapshot) returns (row: ReconciliationRow)
      modifies this
      ensures (db, row) == RecordSnapshot(old(db), snapshot)
      ensures DistinctCoins(snapshot.positions) ==>
                var account := snapshot.account;
                var previous, book := Lookup(old(db).reconciliation, account), BookOf(old(db), account);
                var baseline, since := IsBaseline(previous), WindowStart(previous);
                row.mode.Normal? <==>
                && !(previous.Some? && previous.value.mode.CloseOnly?)
                && (forall row | row in snapshot.coverage :: row.covered)
                && (forall o | o in snapshot.openOrders ::
                      !OrderUnexplained(book.orders, book.updates, o.oid, baseline, since))
                && (forall c :: !PositionUnexplained(
                      book.positions, book.fills, snapshot.positions, baseline, since, c))
    {
      if DistinctCoins(snapshot.positions) {
        NormalAfterSnapshotExactly(
          BookOf(db, snapshot.account), Lookup(db.reconciliation, snapshot.account), snapshot);
      }
      var tx, account := db, snapshot.account;
      var previous, book := Lookup(tx.reconciliation, account), BookOf(tx, account);
      var baseline, since := IsBaseline(previous), WindowStart(previous);

      var o := ReconcileOrders(book, snapshot.openOrders, baseline, since);
      var listed := ReconcileListedPositions(book, snapshot.positions, baseline, since);
      var closed := ReconcileVanishedPositions(
        listed.rows, book.fills, CoinsOf(snapshot.positions), baseline, since);
      var diff := Diff(o.rows, closed.rows, o.unexplained, listed.unexplained + closed.unexplained);
      row := NextRow(previous, diff, snapshot);
      tx := tx.(reconciliation := tx.reconciliation[account := row]);
      tx := tx.(books := tx.books[account := UpdatedBook(book, diff, snapshot)]);
      tx := tx.(journal := tx.journal + [SnapshotRecorded(account, snapshot.observedAt)]);
      db := tx;
    }

    /** Adds the fills and the funding payments that are not known yet; it is journalled if there are
        any. */
    method RecordMainnetHistory(account: Account, fills: seq<FillFact>, funding: seq<FundingFact>)
      modifies this
      ensures db == RecordHistory(old(db), account, Elements(fills), Elements(funding))
      ensures var before, after := BookOf(old(db), account), BookOf(db, account);
              && after.fills == before.fills + Elements(fills) && after.funding == before.funding + Elements(funding)
              && after.(fills := before.fills, funding := before.funding) == before
              && (db.journal == old(db).journal <==>
                  Elements(fills) <= before.fills && Elements(funding) <= before.funding)
    {
      var tx, book := db, BookOf(db, account);
      var knownFills, insertedFills := InsertOrIgnore(book.fills, fills);
      var knownFunding, insertedFunding := InsertOrIgnore(book.funding, funding);
      if insertedFills > 0 || insertedFunding > 0 {
        tx := tx.(books := tx.books[account := book.(fills := knownFills, funding := knownFunding)]);
        tx := tx.(journal := tx.journal + [HistoryBackfilled(account)]);
      }
      db := tx;
    }

    method RecordMainnetOrderUpdates(account: Account, updates: seq<OrderUpdate>)
      modifies this
      ensures db == RecordOrderUpdates(old(db), account, Elements(updates))
      ensures var before, after := BookOf(old(db), account), BookOf(db, account);
              && after.updates == before.updates + Elements(updates) && after.(updates := before.updates) == before
              && (db.journal == old(db).journal <==> Elements(updates) <= before.updates)
    {
      var tx, book := db, BookOf(db, account);
      var known, inserted := InsertOrIgnore(book.updates, updates);
      if inserted > 0 {
        tx := tx.(books := tx.books[account := book.(updates := known)]);
        tx := tx.(journal := tx.journal + [OrderUpdatesRecorded(account)]);
      }
      db := tx;
    }

    /** A new account starts with entries blocked, and one that is known stays as it is: configuration
        never opens an account. */
    method ConfigureMainnetAccount(account: Account)
      modifies this
      ensures db == ConfigureAccount(old(db), account)
      ensures account in db.reconciliation
      ensures account !in old(db).reconciliation ==> EntriesBlocked(db, account) && !IsCloseOnly(db, account)
      ensures account in old(db).reconciliation ==> db == old(db)
      ensures forall other | other != account ::
                Lookup(db.reconciliation, other) == Lookup(old(db).reconciliation, other)
      ensures TablesOk(old(db)) ==> TablesOk(db)
    {
      if TablesOk(db) {
        ConfigureIsQuiet(db, account);
        ReconciliationKeepsTables(db, ConfigureAccount(db, account), HistoryBackfilled(account));
      }
      if account !in db.reconciliation {
        var row := ReconciliationRow(HaltNewEntries, false, Some("startup_reconciliation_pending"), None, None, 0);
        db := db.(reconciliation := db.reconciliation[account := row]);
      }
    }

    method AcknowledgeReconciliationRecovery(account: Account, expectedReason: string, operator: string)
      returns (result: StoreResult<ReconciliationRow>)
      modifies this
      ensures (db, result) == Acknowledge(old(db), account, expectedReason, operator)
    {
      var tx := db;
      if account !in tx.reconciliation {
        return Err(ReconciliationNotCloseOnly);
      }
      var state := tx.reconciliation[account];
      if state.mode != CloseOnly {
        return Err(ReconciliationNotCloseOnly);
      }
      if state.reasonCode != Some(expectedReason) {
        return Err(ReconciliationReasonMismatch);
      }
      if !state.RecoveryEligible() {
        return Err(ReconciliationRecoveryNotEligible);
      }
      state := state.(mode := Normal, ready := true, reasonCode := None, cleanStreak := 0);
      tx := tx.(reconciliation := tx.reconciliation[account := state]);
      tx := tx.(journal := tx.journal + [RecoveryAcknowledged(account, expectedReason, operator)]);
      db := tx;
      return Ok(state);
    }
  }

  lemma NothingClaimable(db: Tables, account: Account, candidates: set<IntentId>)
    requires candidates == (set id | id in db.executions && Claimable(db, account, id)) == {}
    ensures forall id | PendingFor(db, account, id) :: Blocked(db, id)
    ensures forall id :: !Free(db, account, id)
  {
    forall id | PendingFor(db, account, id) ensures Blocked(db, id) {
      assert id !in candidates;
    }
    NothingFree(db, account);
  }

  lemma ChosenIsOldest(db: Tables, account: Account, candidates: set<IntentId>, id: IntentId)
    requires candidates == set id | id in db.executions && Claimable(db, account, id)
    requires id in candidates
    requires forall other | other in candidates :: db.executions[id].createdAt <= db.executions[other].createdAt
    ensures Oldest(db, account, id) && Free(db, account, id)
  {
    forall other | Claimable(db, account, other)
      ensures db.executions[id].createdAt <= db.executions[other].createdAt
    {
      assert other in candidates;
    }
    ClaimableExactly(db, account, id);
  }

  lemma TransitionReplays(db: Tables, id: IntentId, next: TradeIntentStatus, reason: string)
    requires Replayable(db)
    ensures Replayable(Database.TransitionIntent(db, id, next, reason).0)
  {
    if id in db.intents && db.intents[id].status.CanTransitionTo(next) {
      var row := db.intents[id].(status := next, statusReason := reason);
      ReplayedIntent(db, Database.TransitionIntent(db, id, next, reason).0, id, row);
    }
  }

  lemma TransitionChanges(db: Tables, id: IntentId, next: TradeIntentStatus, reason: string)
    requires id in db.intents && db.intents[id].status.CanTransitionTo(next)
    ensures var after := Database.TransitionIntent(db, id, next, reason).0;
            && |after.journal| == |db.journal| + 1
            && after.intents - {id} == db.intents - {id}
  {
  }

  function Elements<T(==)>(items: seq<T>): set<T> {
    set x | x in items
  }

  /** Inserts rows one by one, and counts those that were not there. */
  method InsertOrIgnore<T(==)>(rows: set<T>, items: seq<T>) returns (known: set<T>, inserted: nat)
    ensures known == rows + Elements(items)
    ensures inserted == 0 <==> Elements(items) <= rows
    ensures |known| == |rows| + inserted
  {
    known, inserted := rows, 0;
    for i := 0 to |items|
      invariant known == rows + Elements(items[..i])
      invariant |known| == |rows| + inserted
    {
      OneMoreElement(items, i);
      if items[i] !in known {
        known := known + {items[i]};
        inserted := inserted + 1;
      }
    }
    assert items[..|items|] == items;
    if inserted == 0 {
      SameSizeMeansSame(rows, known);
    }
    assert Elements(items) <= rows ==> known == rows;
  }

  lemma OneMoreElement<T>(items: seq<T>, i: nat)
    requires i < |items|
    ensures Elements(items[..i + 1]) == Elements(items[..i]) + {items[i]}
  {
    assert items[..i + 1] == items[..i] + [items[i]];
  }

  lemma {:induction false} SameSizeMeansSame<T>(a: set<T>, b: set<T>)
    requires a <= b && |a| == |b|
    ensures a == b
  {
    assert |b - a| == |b| - |a|;
  }

  /** The loop over the open orders of a snapshot. */
  method ReconcileOrders(book: Book, orders: seq<OpenOrder>, baseline: bool, since: nat) returns (diff: OrderDiff)
    ensures diff == DiffOrders(book.orders, book.updates, orders, baseline, since)
  {
    var rows: map<Oid, OrderRow>, unexplained: seq<Oid> := book.orders, [];
    for i := 0 to |orders|
      invariant OrderDiff(rows, unexplained) == DiffOrders(book.orders, book.updates, orders[..i], baseline, since)
    {
      assert orders[..i + 1][..i] == orders[..i];
      var order := orders[i];
      if !baseline && order.oid !in rows && !HasUpdate(book.updates, order.oid, since) {
        unexplained := unexplained + [order.oid];
      } else {
        var source := if order.oid in rows then rows[order.oid].source else RowSource(baseline);
        rows := rows[order.oid := OrderRow(order.coin, source)];
      }
    }
    assert orders[..|orders|] == orders;
    diff := OrderDiff(rows, unexplained);
  }

  /** The loop over the positions of a snapshot. */
  method ReconcileListedPositions(book: Book, positions: seq<Position>, baseline: bool, since: nat)
    returns (diff: PositionDiff)
    ensures diff == DiffPositions(book.positions, book.fills, positions, baseline, since)
  {
    var rows, unexplained := book.positions, {};
    for i := 0 to |positions|
      invariant PositionDiff(rows, unexplained)
                == DiffPositions(book.positions, book.fills, positions[..i], baseline, since)
    {
      assert positions[..i + 1][..i] == positions[..i];
      var position := positions[i];
      var coin := position.coin;
      if !baseline && coin in rows && rows[coin].signedSize != position.signedSize
          && !HasFill(book.fills, coin, since) {
        unexplained := unexplained + {coin};
      } else {
        var source := if coin in rows then rows[coin].source else RowSource(baseline);
        rows := rows[coin := PositionRow(position.signedSize, source)];
      }
    }
    assert positions[..|positions|] == positions;
    diff := PositionDiff(rows, unexplained);
  }

  /** What the comparison of these coins, which are no longer listed, does to the projection. */
  function CloseSome(
    rows: map<Coin, PositionRow>, fills: set<FillFact>, coins: set<Coin>, baseline: bool, since: nat): PositionDiff
  {
    PositionDiff(
      map c | c in rows ::
        if c in coins && (baseline || HasFill(fills, c, since)) then rows[c].(signedSize := 0.0) else rows[c],
      set c | c in coins && !baseline && !HasFill(fills, c, since))
  }

  lemma CloseOneMore(
    rows: map<Coin, PositionRow>, fills: set<FillFact>, coins: set<Coin>, coin: Coin, baseline: bool, since: nat)
    requires coin in rows && coin !in coins
    ensures var before := CloseSome(rows, fills, coins, baseline, since);
            CloseSome(rows, fills, coins + {coin}, baseline, since)
            == if !baseline && !HasFill(fills, coin, since) then before.(unexplained := before.unexplained + {coin})
               else before.(rows := before.rows[coin := before.rows[coin].(signedSize := 0.0)])
  {
    var before := CloseSome(rows, fills, coins, baseline, since);
    var after := CloseSome(rows, fills, coins + {coin}, baseline, since);
    if !baseline && !HasFill(fills, coin, since) {
      assert after.rows == before.rows;
      assert after.unexplained == before.unexplained + {coin};
    } else {
      assert after.rows == before.rows[coin := before.rows[coin].(signedSize := 0.0)];
      assert after.unexplained == before.unexplained;
    }
  }

  lemma CloseAllVanished(
    rows: map<Coin, PositionRow>, fills: set<FillFact>, current: set<Coin>, coins: set<Coin>, baseline: bool,
    since: nat)
    requires coins == set c | c in rows && Vanished(rows, current, c)
    ensures CloseSome(rows, fills, coins, baseline, since) == CloseVanished(rows, fills, current, baseline, since)
  {
    var closed := CloseSome(rows, fills, coins, baseline, since);
    assert closed.rows == CloseVanished(rows, fills, current, baseline, since).rows;
    assert closed.unexplained == CloseVanished(rows, fills, current, baseline, since).unexplained;
  }

  /** The loop over the projected positions that the snapshot no longer lists, in any order. */
  method ReconcileVanishedPositions(
    projected: map<Coin, PositionRow>, fills: set<FillFact>, current: set<Coin>, baseline: bool, since: nat)
    returns (diff: PositionDiff)
    ensures diff == CloseVanished(projected, fills, current, baseline, since)
  {
    var rows, unexplained := projected, {};
    var remaining := set c | c in projected && Vanished(projected, current, c);
    ghost var vanished := remaining;
    CloseNone(projected, fills, vanished - remaining, baseline, since);
    while remaining != {}
      invariant remaining <= vanished
      invariant PositionDiff(rows, unexplained) == CloseSome(projected, fills, vanished - remaining, baseline, since)
      decreases |remaining|
    {
      var coin :| coin in remaining;
      CloseOneMore(projected, fills, vanished - remaining, coin, baseline, since);
      MoveOver(vanished, remaining, coin);
      if !baseline && !HasFill(fills, coin, since) {
        unexplained := unexplained + {coin};
      } else {
        rows := rows[coin := rows[coin].(signedSize := 0.0)];
      }
      remaining := remaining - {coin};
    }
    assert vanished - remaining == vanished;
    CloseAllVanished(projected, fills, current, vanished, baseline, since);
    diff := PositionDiff(rows, unexplained);
  }

  lemma CloseNone(rows: map<Coin, PositionRow>, fills: set<FillFact>, coins: set<Coin>, baseline: bool, since: nat)
    requires coins == {}
    ensures CloseSome(rows, fills, coins, baseline, since) == PositionDiff(rows, {})
  {
    assert CloseSome(rows, fills, coins, baseline, since).rows == rows;
  }

  lemma MoveOver(vanished: set<Coin>, remaining: set<Coin>, coin: Coin)
    requires remaining <= vanished && coin in remaining
    ensures vanished - (remaining - {coin}) == vanished - remaining + {coin}
    ensures |remaining - {coin}| < |remaining|
  {
  }

  /** A nonempty set of executions has an oldest one. */
  lemma {:induction false} OldestExists(db: Tables, account: Account, ids: set<IntentId>)
    requires ids != {} && forall id | id in ids :: id in db.executions
    ensures exists id :: id in ids && forall other | other in ids ::
              db.executions[id].createdAt <= db.executions[other].createdAt
  {
    var first :| first in ids;
    var rest := ids - {first};
    if rest == {} {
      assert ids == {first};
    } else {
      OldestExists(db, account, rest);
      var best :| best in rest && forall other | other in rest ::
        db.executions[best].createdAt <= db.executions[other].createdAt;
      var oldest := if db.executions[first].createdAt <= db.executions[best].createdAt then first else best;
      assert oldest in ids && forall other | other in ids ::
        db.executions[oldest].createdAt <= db.executions[other].createdAt;
    }
  }
}
