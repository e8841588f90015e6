/** What every transaction of the execution tables keeps: rows of intents and executions go together,
    one active execution per account and symbol, signals are admitted once, and the journal replays to
    the current state. */
module StoreInvariant {
  import opened Wrappers
  import opened Domain
  import opened Risk
  import opened Orders
  import opened Reconciliation
  import opened Database
  import opened Journal

  /** The rows of one id go together: the execution status fixes the intent status and the number of
      attempts. */
  predicate PairOk(id: IntentId, row: Option<StoredIntent>, execution: Option<LiveExecution>) {
    && (row.Some? ==> row.value.intent.intentId == id)
    && (execution.Some? ==>
          && row.Some?
          && row.value.status == IntentStatusOf(execution.value.status)
          && row.value.manualConfirmation.Some?
          && row.value.manualConfirmation.value.confirmedBy.Some?
          && !execution.value.status.Protecting?
          && execution.value.attempt == (if execution.value.status.Pending? then 0 else 1)
          && execution.value.entryCloid == DeterministicCloid(id, Entry))
    && (execution.None? && row.Some? ==> row.value.status in {AwaitingConfirmation, RiskRejected, ShadowAccepted})
  }

  ghost predicate RowOk(db: Tables, id: IntentId) {
    PairOk(id, Lookup(db.intents, id), Lookup(db.executions, id))
  }

  ghost predicate ActiveAt(db: Tables, id: IntentId) {
    id in db.executions && Active(db.executions[id].status)
  }

  /** At most one execution per account and symbol is active. */
  ghost predicate Exclusive(db: Tables) {
    forall a, b | a != b && ActiveAt(db, a) && ActiveAt(db, b) :: !SameMarket(db, a, b)
  }

  ghost predicate SignalsUnique(db: Tables) {
    forall a, b | a in db.intents && b in db.intents && a != b ::
      !SameSignal(db.intents[a].intent, db.intents[b].intent)
  }

  /** The index of idempotency keys points at the intents stored under them. */
  ghost predicate IndexOk(db: Tables) {
    forall slot | slot in db.idempotency ::
      && db.idempotency[slot] in db.intents
      && slot == (db.intents[db.idempotency[slot]].intent.strategyId, db.intents[db.idempotency[slot]].idempotencyKey)
  }

  ghost predicate TablesOk(db: Tables) {
    && (forall id :: RowOk(db, id))
    && Exclusive(db)
    && SignalsUnique(db)
    && IndexOk(db)
    && Replayable(db)
  }

  // ---------- Steps that change the rows of one id ----------

  ghost predicate SameRow(db: Tables, after: Tables, id: IntentId) {
    && Lookup(after.intents, id) == Lookup(db.intents, id)
    && Lookup(after.executions, id) == Lookup(db.executions, id)
    && LedgerOf(after, id) == LedgerOf(db, id)
  }

  ghost predicate OnlyRow(db: Tables, after: Tables, id: IntentId) {
    forall k :: k != id ==> SameRow(db, after, k)
  }

  /** A stored intent, its decision and the digest asked for never change, and no row disappears. */
  ghost predicate Remembers(db: Tables, after: Tables) {
    && (forall k | k in db.intents ::
          && k in after.intents
          && after.intents[k].intent == db.intents[k].intent
          && after.intents[k].idempotencyKey == db.intents[k].idempotencyKey
          && after.intents[k].riskDecision == db.intents[k].riskDecision
          && (db.intents[k].manualConfirmation.Some? <==> after.intents[k].manualConfirmation.Some?)
          && (db.intents[k].manualConfirmation.Some? ==>
                && after.intents[k].manualConfirmation.value.digest == db.intents[k].manualConfirmation.value.digest
                && after.intents[k].manualConfirmation.value.expiresAt
                    == db.intents[k].manualConfirmation.value.expiresAt))
    && (forall k | k in db.executions ::
          k in after.executions && after.executions[k].account == db.executions[k].account)
    && (forall slot | slot in db.idempotency ::
          slot in after.idempotency && after.idempotency[slot] == db.idempotency[slot])
    && db.journal <= after.journal
  }

  lemma RowsOkAfter(db: Tables, after: Tables, id: IntentId)
    requires forall k :: RowOk(db, k)
    requires OnlyRow(db, after, id) && RowOk(after, id)
    ensures forall k :: RowOk(after, k)
  {
    forall k ensures RowOk(after, k) {
      if k != id {
        assert RowOk(db, k) && SameRow(db, after, k);
      }
    }
  }

  /** Exclusivity survives when the changed execution was active already or is not blocked. */
  lemma ExclusiveAfter(db: Tables, after: Tables, id: IntentId)
    requires forall k :: RowOk(db, k)
    requires Exclusive(db) && OnlyRow(db, after, id) && Remembers(db, after)
    requires ActiveAt(after, id) ==> id in db.executions && id in db.intents && (ActiveAt(db, id) || !Blocked(db, id))
    ensures Exclusive(after)
  {
    forall a, b | a != b && ActiveAt(after, a) && ActiveAt(after, b) ensures !SameMarket(after, a, b) {
      assert a != id ==> SameRow(db, after, a);
      assert b != id ==> SameRow(db, after, b);
      assert RowOk(db, a) && RowOk(db, b);
      MarketKept(db, after, id, a, b);
      if ActiveAt(db, a) && ActiveAt(db, b) {
        assert !SameMarket(db, a, b);
      } else {
        var other := if a == id then b else a;
        assert !SameMarket(db, other, id);
      }
    }
  }

  lemma MarketKept(db: Tables, after: Tables, id: IntentId, a: IntentId, b: IntentId)
    requires OnlyRow(db, after, id) && Remembers(db, after)
    requires a in db.executions && a in db.intents && b in db.executions && b in db.intents
    ensures SameMarket(after, a, b) <==> SameMarket(db, a, b)
  {
  }

  /** A row update that keeps the remembered parts. */
  predicate SameContents(before: StoredIntent, row: StoredIntent) {
    && row.intent == before.intent
    && row.idempotencyKey == before.idempotencyKey
    && row.riskDecision == before.riskDecision
    && (before.manualConfirmation.Some? <==> row.manualConfirmation.Some?)
    && (before.manualConfirmation.Some? ==>
          && row.manualConfirmation.value.digest == before.manualConfirmation.value.digest
          && row.manualConfirmation.value.expiresAt == before.manualConfirmation.value.expiresAt)
  }

  /** The common shape of all steps on a stored intent: its row and possibly its execution and ledger
      are replaced, and events are appended. */
  ghost predicate Rewrites(db: Tables, after: Tables, id: IntentId, row: StoredIntent,
      execution: Option<LiveExecution>) {
    && id in db.intents
    && SameContents(db.intents[id], row)
    && after.intents == db.intents[id := row]
    && after.executions == (if execution.Some? then db.executions[id := execution.value] else db.executions)
    && (execution.Some? && id in db.executions ==> execution.value.account == db.executions[id].account)
    && after.idempotency == db.idempotency
    && after.killSwitch == db.killSwitch
    && (forall k :: k != id ==> LedgerOf(after, k) == LedgerOf(db, k))
    && db.journal <= after.journal
  }

  lemma RewriteKeepsTables(db: Tables, after: Tables, id: IntentId, row: StoredIntent, execution: Option<LiveExecution>)
    requires TablesOk(db) && Rewrites(db, after, id, row, execution)
    requires RowOk(after, id)
    requires ActiveAt(after, id) ==> id in db.executions && (ActiveAt(db, id) || !Blocked(db, id))
    requires Replayable(after)
    ensures TablesOk(after) && OnlyRow(db, after, id) && Remembers(db, after)
  {
    assert OnlyRow(db, after, id) && Remembers(db, after);
    RowsOkAfter(db, after, id);
    ExclusiveAfter(db, after, id);
    assert SignalsUnique(after) by {
      forall a, b | a in after.intents && b in after.intents && a != b
        ensures !SameSignal(after.intents[a].intent, after.intents[b].intent)
      {
        assert after.intents[a].intent == db.intents[a].intent;
        assert after.intents[b].intent == db.intents[b].intent;
      }
    }
    assert IndexOk(after);
  }

  lemma ProjectionMoved(db: Tables, after: Tables, id: IntentId, row: StoredIntent, execution: LiveExecution)
    requires after.intents == db.intents[id := row] && after.executions == db.executions[id := execution]
    requires after.killSwitch == db.killSwitch
    requires row.status == IntentStatusOf(execution.status)
    ensures ProjectionOf(after) == Moved(ProjectionOf(db), id, execution.status)
  {
    assert ProjectionOf(after).intents == ProjectionOf(db).intents[id := row.status];
    assert ProjectionOf(after).executions == ProjectionOf(db).executions[id := execution.status];
  }

  /** One appended event that moves an intent and its execution. */
  lemma ReplayedMove(db: Tables, after: Tables, id: IntentId, row: StoredIntent, execution: LiveExecution, event: Event)
    requires Replayable(db)
    requires after.intents == db.intents[id := row] && after.executions == db.executions[id := execution]
    requires after.killSwitch == db.killSwitch && after.journal == db.journal + [event]
    requires Apply(ProjectionOf(db), event) == Moved(ProjectionOf(db), id, execution.status)
    requires row.status == IntentStatusOf(execution.status)
    ensures Replayable(after)
  {
    ReplayOne(db.journal, event);
    ProjectionMoved(db, after, id, row, execution);
  }

  /** One appended event that moves an intent alone. */
  lemma ReplayedIntent(db: Tables, after: Tables, id: IntentId, row: StoredIntent)
    requires Replayable(db)
    requires after.intents == db.intents[id := row] && after.executions == db.executions
    requires after.killSwitch == db.killSwitch && after.journal == db.journal + [IntentMoved(id, row.status)]
    ensures Replayable(after)
  {
    ReplayOne(db.journal, IntentMoved(id, row.status));
    assert ProjectionOf(after).intents == ProjectionOf(db).intents[id := row.status];
  }

  /** A first event that at most touches the same intent, and then the move of the intent. */
  lemma ReplayedIntentAfter(db: Tables, after: Tables, id: IntentId, row: StoredIntent, first: Event)
    requires Replayable(db)
    requires first == IntentReceived(id) || first.IntentManuallyConfirmed?
    requires after.intents == db.intents[id := row] && after.executions == db.executions
    requires after.killSwitch == db.killSwitch
    requires after.journal == db.journal + [first, IntentMoved(id, row.status)]
    ensures Replayable(after)
  {
    ReplayTwo(db.journal, first, IntentMoved(id, row.status));
    assert ProjectionOf(after).intents == ProjectionOf(db).intents[id := row.status];
    assert ProjectionOf(db).intents[id := Received][id := row.status] == ProjectionOf(db).intents[id := row.status];
  }

  /** The confirmation is announced without a status, the creation approves. */
  lemma ReplayedCreation(
    db: Tables, after: Tables, id: IntentId, row: StoredIntent, execution: LiveExecution, first: Event, second: Event)
    requires Replayable(db)
    requires first.IntentManuallyConfirmed? && second == ExecutionCreated(id, execution.account, execution.entryCloid)
    requires after.intents == db.intents[id := row] && after.executions == db.executions[id := execution]
    requires row.status == TradeIntentStatus.Approved && execution.status == Pending
    requires after.killSwitch == db.killSwitch && after.journal == db.journal + [first, second]
    ensures Replayable(after)
  {
    ReplayTwo(db.journal, first, second);
    assert ProjectionOf(after).intents == ProjectionOf(db).intents[id := row.status];
    assert ProjectionOf(after).executions == ProjectionOf(db).executions[id := Pending];
  }

  // ---------- The transactions ----------

  ghost predicate Admitted(db: Tables, after: Tables, intent: TradeIntent, row: StoredIntent) {
    && intent.intentId !in db.intents
    && after.executions == db.executions
    && after.orders == db.orders
    && after.killSwitch == db.killSwitch
    && after.intents == db.intents[intent.intentId := row]
    && after.idempotency == db.idempotency[(intent.strategyId, row.idempotencyKey) := intent.intentId]
    && after.journal == db.journal + [IntentReceived(intent.intentId), IntentMoved(intent.intentId, row.status)]
    && row.intent == intent
    && row.status in {RiskRejected, AwaitingConfirmation, ShadowAccepted}
    && !SignalSeen(db, intent)
    && ((intent.strategyId, row.idempotencyKey) in db.idempotency ==>
          db.idempotency[(intent.strategyId, row.idempotencyKey)] !in db.intents)
  }

  lemma AdmittedRemembers(db: Tables, after: Tables, intent: TradeIntent, row: StoredIntent)
    requires IndexOk(db) && Admitted(db, after, intent, row)
    ensures OnlyRow(db, after, intent.intentId) && Remembers(db, after)
  {
  }

  lemma AdmittedKeepsRows(db: Tables, after: Tables, intent: TradeIntent, row: StoredIntent)
    requires forall id :: RowOk(db, id)
    requires IndexOk(db) && Admitted(db, after, intent, row)
    ensures OnlyRow(db, after, intent.intentId) && Remembers(db, after)
    ensures intent.intentId !in db.executions
    ensures forall id :: RowOk(after, id)
  {
    AdmittedRemembers(db, after, intent, row);
    assert RowOk(db, intent.intentId);
    assert RowOk(after, intent.intentId);
    RowsOkAfter(db, after, intent.intentId);
  }

  lemma AdmittedKeepsKeys(db: Tables, after: Tables, intent: TradeIntent, row: StoredIntent)
    requires SignalsUnique(db) && IndexOk(db) && Admitted(db, after, intent, row)
    ensures SignalsUnique(after) && IndexOk(after)
  {
  }

  lemma AdmittedKeepsTables(db: Tables, after: Tables, intent: TradeIntent, row: StoredIntent)
    requires TablesOk(db) && Admitted(db, after, intent, row)
    ensures TablesOk(after) && OnlyRow(db, after, intent.intentId) && Remembers(db, after)
    ensures intent.intentId !in db.executions
  {
    AdmittedKeepsRows(db, after, intent, row);
    AdmittedKeepsKeys(db, after, intent, row);
    ExclusiveAfter(db, after, intent.intentId);
    ReplayedIntentAfter(db, after, intent.intentId, row, IntentReceived(intent.intentId));
  }

  lemma SubmitShape(
    db: Tables, intent: TradeIntent, key: string, decision: RiskDecision, confirmation: Option<ManualConfirmation>)
    ensures var (after, result) := SubmitShadowIntent(db, intent, key, decision, confirmation);
            && (result.Ok? && result.value.1 ==>
                  Admitted(db, after, intent, AdmittedRow(db.killSwitch, intent, key, decision, confirmation)))
            && (!(result.Ok? && result.value.1) ==> after == db)
  {
  }

  lemma SubmitKeepsTables(
    db: Tables, intent: TradeIntent, key: string, decision: RiskDecision, confirmation: Option<ManualConfirmation>)
    requires TablesOk(db)
    ensures var after := SubmitShadowIntent(db, intent, key, decision, confirmation).0;
            TablesOk(after) && OnlyRow(db, after, intent.intentId) && Remembers(db, after)
  {
    SubmitShape(db, intent, key, decision, confirmation);
    var (after, result) := SubmitShadowIntent(db, intent, key, decision, confirmation);
    if result.Ok? && result.value.1 {
      AdmittedKeepsTables(db, after, intent, AdmittedRow(db.killSwitch, intent, key, decision, confirmation));
    }
  }

  /** A rewrite of an intent that has no execution. */
  ghost predicate RewritesIntent(db: Tables, after: Tables, id: IntentId) {
    && id in db.intents && id in after.intents && id !in db.executions
    && Rewrites(db, after, id, after.intents[id], None)
    && RowOk(after, id)
    && after.orders == db.orders
    && (Replayable(db) ==> Replayable(after))
  }

  lemma IntentRewriteKeepsTables(db: Tables, after: Tables, id: IntentId)
    requires TablesOk(db) && (after == db || RewritesIntent(db, after, id))
    ensures TablesOk(after) && OnlyRow(db, after, id) && Remembers(db, after)
  {
    if after != db {
      RewriteKeepsTables(db, after, id, after.intents[id], None);
    }
  }

  /** The new row of an intent without execution, announced by its move and possibly by the
      confirmation before it. */
  lemma IntentRewriteShape(db: Tables, after: Tables, id: IntentId, row: StoredIntent, before: seq<Event>)
    requires RowOk(db, id) && id in db.intents && id !in db.executions
    requires SameContents(db.intents[id], row) && row.status in {RiskRejected, ShadowAccepted}
    requires before == [] || (|before| == 1 && before[0].IntentManuallyConfirmed?)
    requires after == Append(SetIntent(db, id, row), before + [IntentMoved(id, row.status)])
    ensures RewritesIntent(db, after, id)
  {
    if Replayable(db) {
      if before == [] {
        assert after.journal == db.journal + [IntentMoved(id, row.status)];
        ReplayedIntent(db, after, id, row);
      } else {
        assert before == [before[0]];
        assert after.journal == db.journal + [before[0], IntentMoved(id, row.status)];
        ReplayedIntentAfter(db, after, id, row, before[0]);
      }
    }
  }

  lemma RejectShape(db: Tables, id: IntentId, reason: string)
    requires RowOk(db, id)
    ensures var after := TransitionIntent(db, id, RiskRejected, reason).0;
            after == db || RewritesIntent(db, after, id)
  {
    if id in db.intents && db.intents[id].status.CanTransitionTo(RiskRejected) {
      var after, row := TransitionIntent(db, id, RiskRejected, reason).0,
          db.intents[id].(status := RiskRejected, statusReason := reason);
      assert [] + [IntentMoved(id, RiskRejected)] == [IntentMoved(id, RiskRejected)];
      IntentRewriteShape(db, after, id, row, []);
    }
  }

  lemma ShadowRowKeepsContents(row: StoredIntent, killSwitch: bool, operator: string, now: Time)
    requires row.manualConfirmation.Some?
    ensures SameContents(row, ShadowRow(row, killSwitch, operator, now))
    ensures ShadowRow(row, killSwitch, operator, now).status in {RiskRejected, ShadowAccepted}
  {
  }

  lemma ShadowRewrite(
    db: Tables, after: Tables, id: IntentId, row: StoredIntent, digest: Digest, operator: string)
    requires RowOk(db, id) && id in db.intents && id !in db.executions
    requires SameContents(db.intents[id], row) && row.status in {RiskRejected, ShadowAccepted}
    requires after == Append(SetIntent(db, id, row), ShadowEvents(id, digest, operator, row.status))
    ensures RewritesIntent(db, after, id)
  {
    var confirmed := [IntentManuallyConfirmed(id, digest, operator)];
    if row.status.RiskRejected? {
      assert [] + [IntentMoved(id, RiskRejected)] == ShadowEvents(id, digest, operator, RiskRejected);
      IntentRewriteShape(db, after, id, row, []);
    } else {
      assert confirmed + [IntentMoved(id, ShadowAccepted)] == ShadowEvents(id, digest, operator, ShadowAccepted);
      IntentRewriteShape(db, after, id, row, confirmed);
    }
  }

  lemma ConfirmShadowShape(db: Tables, id: IntentId, digest: Digest, operator: string, now: Time)
    requires RowOk(db, id)
    ensures var after := ConfirmIntent(db, id, digest, operator, now).0;
            after == db || RewritesIntent(db, after, id)
  {
    if ConfirmationCheck(db, id, digest, ShadowAccepted).None? {
      var row := ShadowRow(db.intents[id], db.killSwitch, operator, now);
      ShadowRowKeepsContents(db.intents[id], db.killSwitch, operator, now);
      ShadowRewrite(db, ConfirmIntent(db, id, digest, operator, now).0, id, row, digest, operator);
    }
  }

  lemma RejectKeepsTables(db: Tables, id: IntentId, reason: string)
    requires TablesOk(db)
    ensures var after := TransitionIntent(db, id, RiskRejected, reason).0;
            && TablesOk(after) && OnlyRow(db, after, id) && Remembers(db, after)
            && (after == db || RewritesIntent(db, after, id))
  {
    assert RowOk(db, id);
    RejectShape(db, id, reason);
    IntentRewriteKeepsTables(db, TransitionIntent(db, id, RiskRejected, reason).0, id);
  }

  lemma ConfirmShadowKeepsTables(db: Tables, id: IntentId, digest: Digest, operator: string, now: Time)
    requires TablesOk(db)
    ensures var after := ConfirmIntent(db, id, digest, operator, now).0;
            && TablesOk(after) && OnlyRow(db, after, id) && Remembers(db, after)
            && (after == db || RewritesIntent(db, after, id))
  {
    assert RowOk(db, id);
    ConfirmShadowShape(db, id, digest, operator, now);
    IntentRewriteKeepsTables(db, ConfirmIntent(db, id, digest, operator, now).0, id);
  }

  /** A confirmation that queues an execution, bound to the digest presented. */
  ghost predicate Queued(db: Tables, after: Tables, id: IntentId, digest: Digest, operator: string, account: Account) {
    && id in db.intents && id in after.intents && id !in db.executions && id in after.executions
    && Rewrites(db, after, id, after.intents[id], Some(after.executions[id]))
    && RowOk(after, id)
    && after.orders == db.orders
    && after.executions[id].status.Pending?
    && after.executions[id].account == account
    && after.intents[id].manualConfirmation.Some?
    && after.intents[id].manualConfirmation.value.digest == digest
    && after.intents[id].manualConfirmation.value.confirmedBy == Some(operator)
    && IntentManuallyConfirmed(id, digest, operator) in after.journal
  }

  lemma QueueShape(
    db: Tables, after: Tables, id: IntentId, row: StoredIntent, execution: LiveExecution, digest: Digest,
    operator: string)
    requires RowOk(db, id) && id in db.intents && id !in db.executions
    requires SameContents(db.intents[id], row) && row.status == TradeIntentStatus.Approved
    requires row.manualConfirmation.Some?
    requires row.manualConfirmation.value.digest == digest
    requires row.manualConfirmation.value.confirmedBy == Some(operator)
    requires execution.status.Pending? && execution.attempt == 0
    requires execution.entryCloid == DeterministicCloid(id, Entry)
    requires after == Append(
      SetIntent(db, id, row).(executions := db.executions[id := execution]),
      [IntentManuallyConfirmed(id, digest, operator), ExecutionCreated(id, execution.account, execution.entryCloid)])
    ensures Queued(db, after, id, digest, operator, execution.account)
  {
    assert after.journal[|db.journal|] == IntentManuallyConfirmed(id, digest, operator);
  }

  lemma ConfirmLiveShape(db: Tables, id: IntentId, digest: Digest, operator: string, account: Account, now: Time)
    requires RowOk(db, id)
    ensures var after := ConfirmIntentForExecution(db, id, digest, operator, account, now).0;
            after == db || (Queued(db, after, id, digest, operator, account) && (Replayable(db) ==> Replayable(after)))
  {
    if && ConfirmationCheck(db, id, digest, TradeIntentStatus.Approved).None?
       && !ConfirmationOver(db.intents[id], now) && !db.killSwitch && id !in db.executions
    {
      var after := ConfirmIntentForExecution(db, id, digest, operator, account, now).0;
      var execution := after.executions[id];
      QueueShape(db, after, id, after.intents[id], execution, digest, operator);
      if Replayable(db) {
        ReplayedCreation(
          db, after, id, after.intents[id], execution, IntentManuallyConfirmed(id, digest, operator),
          ExecutionCreated(id, account, execution.entryCloid));
      }
    }
  }

  lemma ConfirmLiveKeepsTables(db: Tables, id: IntentId, digest: Digest, operator: string, account: Account, now: Time)
    requires TablesOk(db)
    ensures var after := ConfirmIntentForExecution(db, id, digest, operator, account, now).0;
            && TablesOk(after) && OnlyRow(db, after, id) && Remembers(db, after)
            && (after == db || Queued(db, after, id, digest, operator, account))
  {
    assert RowOk(db, id);
    ConfirmLiveShape(db, id, digest, operator, account, now);
    var after := ConfirmIntentForExecution(db, id, digest, operator, account, now).0;
    if after != db {
      RewriteKeepsTables(db, after, id, after.intents[id], Some(after.executions[id]));
    }
  }

  lemma ClaimKeepsTables(db: Tables, account: Account, id: IntentId)
    requires TablesOk(db) && Claimable(db, account, id)
    ensures var (after, result) := Claim(db, id);
            && TablesOk(after) && OnlyRow(db, after, id) && Remembers(db, after)
            && result.Ok?
            && id in after.executions && after.executions[id] == result.value.0
            && id in after.intents && after.intents[id] == result.value.1
            && result.value.0.status.EntrySubmitting?
            && after.orders == db.orders
  {
    assert RowOk(db, id);
    var (after, result) := Claim(db, id);
    ReplayedMove(db, after, id, after.intents[id], after.executions[id], EntryClaimed(id));
    RewriteKeepsTables(db, after, id, after.intents[id], Some(after.executions[id]));
  }

  /** A move of an active execution that keeps its status and that of its intent paired. */
  predicate Paired(move: Move) {
    && move.fromIntent == IntentStatusOf(move.fromLive)
    && move.toIntent == IntentStatusOf(move.toLive)
    && Active(move.fromLive)
    && !move.toLive.Pending?
    && !move.toLive.Protecting?
  }

  lemma OutcomesArePaired()
    ensures Paired(ENTRY_FAILED) && Paired(ENTRY_UNKNOWN) && Paired(ENTRY_FILLED) && Paired(PROTECTED)
    ensures Paired(EMERGENCY_CLOSING) && Paired(CLOSED) && Paired(RECONCILIATION_REQUIRED)
  {
  }

  ghost predicate MovedRow(db: Tables, after: Tables, id: IntentId, move: Move) {
    && id in db.executions && id in db.intents && id in after.intents
    && db.executions[id].status == move.fromLive
    && after.executions == db.executions[id := db.executions[id].(status := move.toLive)]
    && Rewrites(db, after, id, after.intents[id], Some(after.executions[id]))
    && RowOk(after, id)
    && after.orders == db.orders
    && after.reconciliation == db.reconciliation
    && after.books == db.books
    && (Replayable(db) ==> Replayable(after))
  }

  /** The rows after a move. */
  function MovedExecution(db: Tables, id: IntentId, move: Move): LiveExecution
    requires id in db.executions
  {
    db.executions[id].(status := move.toLive)
  }

  function MovedIntent(db: Tables, id: IntentId, move: Move): StoredIntent
    requires id in db.intents
  {
    db.intents[id].(status := move.toIntent, statusReason := move.reason)
  }

  /** Every outcome of an execution pairs its statuses, so its compare-and-set succeeds whenever the
      execution has the expected status. */
  lemma MoveSucceeds(db: Tables, id: IntentId, move: Move)
    requires RowOk(db, id) && Paired(move)
    requires id in db.executions && db.executions[id].status == move.fromLive
    ensures id in db.intents
    ensures MoveLiveAndIntent(db, id, move)
            == Ok(Append(SetIntent(db, id, MovedIntent(db, id, move)).(
                    executions := db.executions[id := MovedExecution(db, id, move)]),
                  [ExecutionMoved(id, move.toLive)]))
  {
  }

  lemma MovedPair(db: Tables, id: IntentId, move: Move)
    requires RowOk(db, id) && Paired(move)
    requires id in db.executions && id in db.intents && db.executions[id].status == move.fromLive
    ensures PairOk(id, Some(MovedIntent(db, id, move)), Some(MovedExecution(db, id, move)))
  {
  }

  lemma MoveReplays(db: Tables, after: Tables, id: IntentId, move: Move)
    requires Paired(move) && Replayable(db) && id in db.executions && id in db.intents
    requires after == Append(SetIntent(db, id, MovedIntent(db, id, move)).(
                        executions := db.executions[id := MovedExecution(db, id, move)]),
                      [ExecutionMoved(id, move.toLive)])
    ensures Replayable(after)
  {
    ReplayedMove(db, after, id, MovedIntent(db, id, move), MovedExecution(db, id, move),
        ExecutionMoved(id, move.toLive));
  }

  lemma MoveShape(db: Tables, id: IntentId, move: Move)
    requires RowOk(db, id) && Paired(move)
    requires id in db.executions && db.executions[id].status == move.fromLive
    ensures MoveLiveAndIntent(db, id, move).Ok? && MovedRow(db, MoveLiveAndIntent(db, id, move).value, id, move)
  {
    MoveSucceeds(db, id, move);
    MovedPair(db, id, move);
    if Replayable(db) {
      MoveReplays(db, MoveLiveAndIntent(db, id, move).value, id, move);
    }
  }

  lemma MoveKeepsTables(db: Tables, id: IntentId, move: Move)
    requires TablesOk(db) && Paired(move)
    requires id in db.executions && db.executions[id].status == move.fromLive
    ensures MoveLiveAndIntent(db, id, move).Ok?
    ensures var after := MoveLiveAndIntent(db, id, move).value;
            && MovedRow(db, after, id, move)
            && TablesOk(after) && OnlyRow(db, after, id) && Remembers(db, after)
  {
    assert RowOk(db, id);
    MoveShape(db, id, move);
    var after := MoveLiveAndIntent(db, id, move).value;
    assert ActiveAt(db, id);
    RewriteKeepsTables(db, after, id, after.intents[id], Some(after.executions[id]));
  }

  /** Tables that differ only in ledgers, reconciliation and books, and in events without a status. */
  ghost predicate SameStatuses(db: Tables, after: Tables) {
    && after.intents == db.intents
    && after.executions == db.executions
    && after.idempotency == db.idempotency
    && db.journal <= after.journal
  }

  ghost predicate Announces(db: Tables, after: Tables, event: Event) {
    && after.journal == db.journal + [event]
    && Apply(ProjectionOf(db), event) == ProjectionOf(db).(killSwitch := after.killSwitch)
  }

  lemma SameStatusesKeepTables(db: Tables, after: Tables)
    requires TablesOk(db) && SameStatuses(db, after)
    requires || (after.journal == db.journal && after.killSwitch == db.killSwitch)
             || exists event :: Announces(db, after, event)
    ensures TablesOk(after) && Remembers(db, after)
  {
    if after.journal != db.journal {
      var event :| Announces(db, after, event);
      ReplayOne(db.journal, event);
    }
    assert ProjectionOf(after).intents == ProjectionOf(db).intents;
    assert ProjectionOf(after).executions == ProjectionOf(db).executions;
    forall id ensures RowOk(after, id) {
      assert RowOk(db, id);
    }
    forall a, b | a != b && ActiveAt(after, a) && ActiveAt(after, b) ensures !SameMarket(after, a, b) {
      assert ActiveAt(db, a) && ActiveAt(db, b);
      assert !SameMarket(db, a, b);
    }
  }

  lemma ForceKeepsTables(db: Tables, account: Account, reason: string, id: IntentId)
    requires TablesOk(db)
    ensures var after := ForceCloseOnly(db, account, reason);
            TablesOk(after) && Remembers(db, after) && OnlyRow(db, after, id)
  {
    SameStatusesKeepTables(db, ForceCloseOnly(db, account, reason));
  }

  /** A finished outcome succeeds from the expected status and changes the rows of its id only. */
  lemma FinishKeepsTables(db: Tables, id: IntentId, move: Move)
    requires TablesOk(db) && Paired(move)
    requires id in db.executions && db.executions[id].status == move.fromLive
    ensures FinishLiveTransition(db, id, move).1.Ok?
    ensures var after := FinishLiveTransition(db, id, move).0;
            TablesOk(after) && OnlyRow(db, after, id) && Remembers(db, after)
  {
    MoveKeepsTables(db, id, move);
    if move.forceCloseOnly {
      var moved, account := MoveLiveAndIntent(db, id, move).value, db.executions[id].account;
      ForceKeepsTables(moved, account, move.reason, id);
      OnlyRowTwice(db, moved, ForceCloseOnly(moved, account, move.reason), id);
    }
  }

  lemma FinishChanges(db: Tables, id: IntentId, move: Move)
    requires FinishLiveTransition(db, id, move).1.Ok?
    ensures var after := FinishLiveTransition(db, id, move).0;
            && id in db.executions && db.executions[id].status == move.fromLive
            && after.executions == db.executions[id := db.executions[id].(status := move.toLive)]
            && after.orders == db.orders
            && after.books == db.books
            && after.reconciliation ==
                 if move.forceCloseOnly then ForceCloseOnly(db, db.executions[id].account, move.reason).reconciliation
                 else db.reconciliation
  {
  }

  lemma LedgerKeepsTables(db: Tables, id: IntentId, ledger: Ledger)
    requires TablesOk(db)
    ensures var after := db.(orders := db.orders[id := ledger]);
            TablesOk(after) && OnlyRow(db, after, id) && Remembers(db, after)
  {
    SameStatusesKeepTables(db, db.(orders := db.orders[id := ledger]));
  }

  /** A fill is written to the ledger, then both statuses move. */
  lemma FillIsMoveAfterWrite(db: Tables, id: IntentId, fill: ConfirmedFill, written: Tables)
    requires id in db.executions && db.executions[id].status.EntrySubmitting? && StableName(Entry) !in LedgerOf(db, id)
    requires written == db.(orders := db.orders[id :=
        LedgerOf(db, id)[StableName(Entry) := EntryOrder(db.executions[id], fill)]])
    requires MoveLiveAndIntent(written, id, ENTRY_FILLED).Ok?
    ensures RecordEntryFill(db, id, fill) == (MoveLiveAndIntent(written, id, ENTRY_FILLED).value, Ok(()))
  {
  }

  lemma FillChanges(db: Tables, id: IntentId, fill: ConfirmedFill)
    requires id in db.executions && RecordEntryFill(db, id, fill).1.Ok?
    ensures var after := RecordEntryFill(db, id, fill).0;
            && after.executions == db.executions[id := db.executions[id].(status := EntryFilled)]
            && LedgerOf(after, id) == LedgerOf(db, id)[StableName(Entry) := EntryOrder(db.executions[id], fill)]
            && after.reconciliation == db.reconciliation && after.books == db.books
  {
  }

  lemma FillKeepsTables(db: Tables, id: IntentId, fill: ConfirmedFill)
    requires TablesOk(db)
    requires id in db.executions && db.executions[id].status.EntrySubmitting?
    requires StableName(Entry) !in LedgerOf(db, id)
    ensures RecordEntryFill(db, id, fill).1.Ok?
    ensures var after := RecordEntryFill(db, id, fill).0;
            TablesOk(after) && OnlyRow(db, after, id) && Remembers(db, after)
  {
    var ledger := LedgerOf(db, id)[StableName(Entry) := EntryOrder(db.executions[id], fill)];
    LedgerKeepsTables(db, id, ledger);
    OutcomesArePaired();
    var written := db.(orders := db.orders[id := ledger]);
    MoveKeepsTables(written, id, ENTRY_FILLED);
    FillIsMoveAfterWrite(db, id, fill, written);
    OnlyRowTwice(db, written, MoveLiveAndIntent(written, id, ENTRY_FILLED).value, id);
  }

  lemma OnlyRowTwice(db: Tables, middle: Tables, after: Tables, id: IntentId)
    requires OnlyRow(db, middle, id) && OnlyRow(middle, after, id)
    requires Remembers(db, middle) && Remembers(middle, after)
    ensures OnlyRow(db, after, id) && Remembers(db, after)
  {
    forall k | k != id ensures SameRow(db, after, k) {
      assert SameRow(db, middle, k) && SameRow(middle, after, k);
    }
  }

  lemma ProtectionKeepsTables(db: Tables, intent: TradeIntent, fill: ConfirmedFill)
    requires TablesOk(db)
    ensures var (after, result) := RecordProtectionOrders(db, intent, fill);
            && TablesOk(after) && OnlyRow(db, after, intent.intentId) && Remembers(db, after)
            && after.executions == db.executions && after.intents == db.intents
            && after.reconciliation == db.reconciliation && after.books == db.books
            && (result.Err? ==> after == db)
            && (intent.intentId in db.executions && db.executions[intent.intentId].status.EntryFilled? ==>
                  && result.Ok? == InsertProtection(LedgerOf(db, intent.intentId), intent, fill.size).Some?
                  && (result.Ok? ==>
                        Some(LedgerOf(after, intent.intentId))
                            == InsertProtection(LedgerOf(db, intent.intentId), intent, fill.size)))
  {
    var (after, result) := RecordProtectionOrders(db, intent, fill);
    if result.Ok? {
      assert Announces(db, after, ProtectionOrdersVerified(intent.intentId, fill.size));
      SameStatusesKeepTables(db, after);
    }
  }

  // ---------- Control and reconciliation ----------

  lemma KillSwitchKeepsTables(db: Tables, enabled: bool)
    requires TablesOk(db)
    ensures TablesOk(SetKillSwitch(db, enabled)) && Remembers(db, SetKillSwitch(db, enabled))
  {
    assert Announces(db, SetKillSwitch(db, enabled), KillSwitchSet(enabled));
    SameStatusesKeepTables(db, SetKillSwitch(db, enabled));
  }

  predicate SaysNoStatus(event: Event) {
    event.SnapshotRecorded? || event.RecoveryAcknowledged? || event.HistoryBackfilled? || event.OrderUpdatesRecorded?
  }

  /** Tables that differ in reconciliation and books only, and at most by an event that says so. */
  ghost predicate OnlyReconciliation(db: Tables, after: Tables, event: Event) {
    && SaysNoStatus(event)
    && after.intents == db.intents
    && after.executions == db.executions
    && after.idempotency == db.idempotency
    && after.orders == db.orders
    && after.killSwitch == db.killSwitch
    && (after.journal == db.journal || after.journal == db.journal + [event])
  }

  lemma ReconciliationKeepsTables(db: Tables, after: Tables, event: Event)
    requires TablesOk(db) && OnlyReconciliation(db, after, event)
    ensures TablesOk(after) && Remembers(db, after)
  {
    if after.journal != db.journal {
      assert Announces(db, after, event);
    }
    SameStatusesKeepTables(db, after);
  }

  lemma SnapshotIsQuiet(db: Tables, snapshot: AccountSnapshot)
    ensures OnlyReconciliation(
      db, RecordSnapshot(db, snapshot).0, SnapshotRecorded(snapshot.account, snapshot.observedAt))
  {
  }

  lemma AcknowledgeIsQuiet(db: Tables, account: Account, reason: string, operator: string)
    ensures OnlyReconciliation(
      db, Acknowledge(db, account, reason, operator).0, RecoveryAcknowledged(account, reason, operator))
  {
  }

  lemma ConfigureIsQuiet(db: Tables, account: Account)
    ensures OnlyReconciliation(db, ConfigureAccount(db, account), HistoryBackfilled(account))
  {
  }

  lemma HistoryIsQuiet(db: Tables, account: Account, fills: set<FillFact>, funding: set<FundingFact>)
    ensures OnlyReconciliation(db, RecordHistory(db, account, fills, funding), HistoryBackfilled(account))
  {
  }

  lemma UpdatesAreQuiet(db: Tables, account: Account, updates: set<OrderUpdate>)
    ensures OnlyReconciliation(db, RecordOrderUpdates(db, account, updates), OrderUpdatesRecorded(account))
  {
  }
}
