/** The engine behind the API: which transactions a request can cause, and with which decision and
    digest (src/engine.rs). */
module Engine {
  import opened Wrappers
  import opened Domain
  import opened Risk
  import opened Database
  import opened Store

  const CONFIRMATION_TTL: Time := 120_000
  const STALE_AFTER: Time := 20_000

  datatype EngineError =
    | Validation(error: ValidationError)
    | StoreFailure(store: StoreError)
    | ReconciliationBlocked(reason: string)
    | PreTradeRejected(reason: string)

  function ExpiresAt(intent: TradeIntent, now: Time): Time {
    if intent.expiresAt <= now + CONFIRMATION_TTL then intent.expiresAt else now + CONFIRMATION_TTL
  }

  /** The confirmation asked for when admission approves: its digest binds the intent, the decision
      and the expiry. */
  function AdmissionConfirmation(intent: TradeIntent, decision: RiskDecision, now: Time): Option<ManualConfirmation> {
    if decision.status.Approved?
    then Some(ManualConfirmation(Digest(intent, decision, ExpiresAt(intent, now)), ExpiresAt(intent, now), None, None))
    else None
  }

  function Admit(policy: RiskPolicy, db: Tables, intent: TradeIntent, key: string, now: Time):
    (Tables, StoreResult<(StoredIntent, bool)>)
    requires Sizable(intent)
  {
    var decision := EvaluateAdmission(policy, intent);
    SubmitShadowIntent(db, intent, key, decision, AdmissionConfirmation(intent, decision, now))
  }

  /** Why the account is not ready for requests, if it is not. */
  function ReadinessError(db: Tables, account: Option<Account>, now: Time): Option<EngineError> {
    if account.None? then None
    else
      match Lookup(db.reconciliation, account.value)
      case None => Some(ReconciliationBlocked("startup_reconciliation_pending"))
      case Some(row) =>
        if !row.ready then
          Some(ReconciliationBlocked(if row.reasonCode.Some? then row.reasonCode.value else "reconciliation_not_ready"))
        else if row.lastReconciledAt.None? || now - row.lastReconciledAt.value > STALE_AFTER then
          Some(ReconciliationBlocked("authoritative_snapshot_stale"))
        else None
  }

  function ExistingPositionError(db: Tables, account: Option<Account>, symbol: string): Option<EngineError> {
    if account.None? then None
    else
      var snapshots := BookOf(db, account.value).snapshots;
      if snapshots == [] then Some(ReconciliationBlocked("authoritative_snapshot_missing"))
      else if exists p | p in snapshots[|snapshots| - 1].positions :: p.coin == symbol && p.signedSize != 0.0 then
        Some(PreTradeRejected("existing_symbol_position"))
      else None
  }

  /** Requests are let through exactly if the account is ready and its last snapshot is at most twenty
      seconds old, and confirmations if moreover the snapshot kept last shows no position in the symbol;
      without an account to reconcile they always are. A refusal names what is missing. */
  lemma ChecksExactly(db: Tables, account: Account, symbol: string, now: Time)
    ensures var row, snapshots := Lookup(db.reconciliation, account), BookOf(db, account).snapshots;
            var blocked := ReadinessError(db, Some(account), now);
            var occupied := ExistingPositionError(db, Some(account), symbol);
            && (blocked == None <==>
                && row.Some? && row.value.ready
                && row.value.lastReconciledAt.Some? && now <= row.value.lastReconciledAt.value + 20_000)
            && (row.None? ==> blocked == Some(ReconciliationBlocked("startup_reconciliation_pending")))
            && (row.Some? && !row.value.ready && row.value.reasonCode.Some? ==>
                  blocked == Some(ReconciliationBlocked(row.value.reasonCode.value)))
            && (row.Some? && !row.value.ready && row.value.reasonCode.None? ==>
                  blocked == Some(ReconciliationBlocked("reconciliation_not_ready")))
            && (row.Some? && row.value.ready && blocked.Some? ==>
                  blocked == Some(ReconciliationBlocked("authoritative_snapshot_stale")))
            && (occupied == None <==>
                && snapshots != []
                && forall p | p in snapshots[|snapshots| - 1].positions && p.coin == symbol :: p.signedSize == 0.0)
            && (occupied.Some? ==>
                  occupied.value == if snapshots == [] then ReconciliationBlocked("authoritative_snapshot_missing")
                                    else PreTradeRejected("existing_symbol_position"))
    ensures ReadinessError(db, None, now) == None && ExistingPositionError(db, None, symbol) == None
  {
  }

  function AsEngineResult<T>(result: StoreResult<T>): Result<T, EngineError> {
    match result
    case Ok(value) => Ok(value)
    case Err(error) => Err(StoreFailure(error))
  }

  class ShadowExecutionEngine {
    const store: ExecutionStore
    const policy: RiskPolicy
    const reconciliationAccount: Option<Account>
    const liveExecutionAccount: Option<Account>

    constructor (
      store: ExecutionStore, policy: RiskPolicy, reconciliationAccount: Option<Account>,
      liveExecutionAccount: Option<Account>)
      ensures this.store == store && this.policy == policy
      ensures this.reconciliationAccount == reconciliationAccount
      ensures this.liveExecutionAccount == liveExecutionAccount
    {
      this.store := store;
      this.policy := policy;
      this.reconciliationAccount := reconciliationAccount;
      this.liveExecutionAccount := liveExecutionAccount;
    }

    /** Nothing is stored unless the account is ready and the intent valid; then the stored decision is
        the one of the policy, and the confirmation binds it. */
    method Submit(intent: TradeIntent, key: string, now: Time)
      returns (result: Result<(StoredIntent, bool), EngineError>)
      modifies store
      ensures var blocked := ReadinessError(old(store.db), reconciliationAccount, now);
              if blocked.Some? then store.db == old(store.db) && result == Err(blocked.value)
              else if Validate(intent, now).Some? then
                store.db == old(store.db) && result == Err(Validation(Validate(intent, now).value))
              else
                && Sizable(intent)
                && store.db == Admit(policy, old(store.db), intent, key, now).0
                && result == AsEngineResult(Admit(policy, old(store.db), intent, key, now).1)
    {
      var blocked := ReadinessError(store.db, reconciliationAccount, now);
      if blocked.Some? {
        return Err(blocked.value);
      }
      var invalid := Validate(intent, now);
      if invalid.Some? {
        return Err(Validation(invalid.value));
      }
      ValidatedIsSizable(intent, now);
      var decision := EvaluateAdmission(policy, intent);
      var confirmation := None;
      if decision.status.Approved? {
        var expiresAt := intent.expiresAt;
        if now + CONFIRMATION_TTL < expiresAt {
          expiresAt := now + CONFIRMATION_TTL;
        }
        confirmation := Some(ManualConfirmation(Digest(intent, decision, expiresAt), expiresAt, None, None));
      }
      var stored := store.SubmitShadowIntent(intent, key, decision, confirmation);
      return AsEngineResult(stored);
    }

    /** Before any confirmation the account must be ready, the stored intent still valid, admission
        still approving and the symbol flat. An intent that admission no longer approves is rejected
        for good; what is confirmed keeps the decision stored with it. */
    method Confirm(id: IntentId, digest: Digest, operator: string, now: Time)
      returns (result: Result<StoredIntent, EngineError>)
      modifies store
      ensures var db := old(store.db);
              var blocked := ReadinessError(db, reconciliationAccount, now);
              if blocked.Some? then store.db == db && result == Err(blocked.value)
              else if id !in db.intents then store.db == db && result == Err(PreTradeRejected("intent_not_found"))
              else
                var intent := db.intents[id].intent;
                if Validate(intent, now).Some? then
                  store.db == db && result == Err(Validation(Validate(intent, now).value))
                else
                  && Sizable(intent)
                  && if !EvaluateAdmission(policy, intent).status.Approved? then
                       && store.db == TransitionIntent(db, id, RiskRejected, "confirmation_pre_trade_rejected").0
                       && result.Err?
                     else
                       var occupied := ExistingPositionError(db, reconciliationAccount, intent.symbol);
                       if occupied.Some? then store.db == db && result == Err(occupied.value)
                       else
                         var (next, answer) :=
                           if liveExecutionAccount.Some?
                           then ConfirmIntentForExecution(db, id, digest, operator, liveExecutionAccount.value, now)
                           else ConfirmIntent(db, id, digest, operator, now);
                         store.db == next && result == AsEngineResult(answer)
    {
      var blocked := ReadinessError(store.db, reconciliationAccount, now);
      if blocked.Some? {
        return Err(blocked.value);
      }
      if id !in store.db.intents {
        return Err(PreTradeRejected("intent_not_found"));
      }
      var intent := store.db.intents[id].intent;
      var invalid := Validate(intent, now);
      if invalid.Some? {
        return Err(Validation(invalid.value));
      }
      ValidatedIsSizable(intent, now);
      var decision := EvaluateAdmission(policy, intent);
      if !decision.status.Approved? {
        var moved := store.TransitionIntent(id, RiskRejected, "confirmation_pre_trade_rejected");
        if moved.Err? {
          return Err(StoreFailure(moved.error));
        }
        return Err(PreTradeRejected("admission"));
      }
      var occupied := ExistingPositionError(store.db, reconciliationAccount, intent.symbol);
      if occupied.Some? {
        return Err(occupied.value);
      }
      var confirmed: StoreResult<StoredIntent>;
      if liveExecutionAccount.Some? {
        confirmed := store.ConfirmIntentForExecution(id, digest, operator, liveExecutionAccount.value, now);
      } else {
        confirmed := store.ConfirmIntent(id, digest, operator, now);
      }
      return AsEngineResult(confirmed);
    }
  }
}
