/** How single executions evolve over runs: only the worker that claimed an execution ever moves it,
    always forward. */
module Evolution {
  import opened Wrappers
  import opened Domain
  import opened Risk
  import opened Orders
  import opened Gateway
  import opened Database
  import opened Engine
  import opened StoreInvariant
  import opened Protocol
  import opened ProtocolInvariant
  import opened ProtocolSteps
  import opened Reachable

  // ---------- One step ----------

  /** The moves of an execution; nothing leads back. */
  predicate LiveNext(from: LiveStatus, to: LiveStatus) {
    match from
    case Pending => to.EntrySubmitting?
    case EntrySubmitting => to == LiveStatus.Failed || to.EntryUnknown? || to.EntryFilled?
    case EntryFilled => to.Protected? || to.EmergencyClosing?
    case EmergencyClosing => to.Closed? || to.ReconciliationRequired?
    case _ => false
  }

  /** An execution is created pending; afterwards only its status and its count of attempts change,
      and the status only forward. */
  predicate ExecutionStep(before: Option<LiveExecution>, after: Option<LiveExecution>) {
    || before == after
    || (before.None? && after.Some? && after.value.status.Pending?)
    || (before.Some? && after.Some? && LiveNext(before.value.status, after.value.status))
  }

  /** An intent is stored in a status that follows reception; afterwards its status obeys its
      lifecycle. */
  predicate IntentStep(before: Option<StoredIntent>, after: Option<StoredIntent>) {
    || before == after
    || (before.None? && after.Some? && Received.CanTransitionTo(after.value.status))
    || (before.Some? && after.Some?
        && (before.value.status == after.value.status || before.value.status.CanTransitionTo(after.value.status)))
  }

  /** The row of an intent with an execution changes only together with it. */
  ghost predicate StatusStep(db: Tables, after: Tables, id: IntentId) {
    && ExecutionStep(Lookup(db.executions, id), Lookup(after.executions, id))
    && IntentStep(Lookup(db.intents, id), Lookup(after.intents, id))
    && (id in db.executions && Lookup(after.executions, id) == Lookup(db.executions, id) ==>
          Lookup(after.intents, id) == Lookup(db.intents, id))
  }

  /** Only one intent moves, and its statuses move forward. */
  ghost predicate Evolves(db: Tables, after: Tables, id: IntentId) {
    && StatusStep(db, after, id)
    && (forall k | k != id ::
          Lookup(after.executions, k) == Lookup(db.executions, k) && Lookup(after.intents, k) == Lookup(db.intents, k))
  }

  /** A live confirmation that may queue the intent: it awaits confirmation, the digest asked for is
      presented in time, the kill switch is off, and admission approves it under the policy in force. */
  ghost predicate Confirms(w: World, action: Action, id: IntentId) {
    && action.ConfirmLive? && action.id == id
    && ConfirmationChecked(w, id, action.now, true)
    && MayQueue(w.db, id, action.digest, action.now)
  }

  predicate MayQueue(db: Tables, id: IntentId, digest: Digest, now: Time) {
    && id in db.intents && id !in db.executions
    && db.intents[id].status.AwaitingConfirmation?
    && db.intents[id].manualConfirmation.Some?
    && db.intents[id].manualConfirmation.value.digest == digest
    && now < db.intents[id].manualConfirmation.value.expiresAt
    && now < db.intents[id].intent.expiresAt
    && !db.killSwitch
  }

  /** Who can be behind the move of an execution: the operator who confirms it, the worker that claims
      it, or the one that holds it. */
  ghost predicate MovedBy(w: World, action: Action, after: World, id: IntentId) {
    || Lookup(after.db.executions, id) == Lookup(w.db.executions, id)
    || Confirms(w, action, id)
    || (exists k :: action == ClaimNext(k, Some(id)) && k in w.workers && Oldest(w.db, w.workers[k].account, id))
    || (exists k :: k in w.workers && Held(w.workers[k].pc) == Some(id))
  }

  /** A worker comes to hold an execution only by claiming it. */
  ghost predicate HeldByClaim(w: World, action: Action, after: World, id: IntentId) {
    forall k | k in after.workers && Held(after.workers[k].pc) == Some(id) ::
      && k in w.workers
      && (Held(w.workers[k].pc) == Some(id)
          || (action == ClaimNext(k, Some(id)) && id in w.db.executions && w.db.executions[id].status.Pending?))
  }

  ghost predicate StepAt(w: World, action: Action, after: World, id: IntentId) {
    StatusStep(w.db, after.db, id) && MovedBy(w, action, after, id) && HeldByClaim(w, action, after, id)
  }

  /** The API moves intents without execution. */
  ghost predicate ApiMoves(db: Tables, after: Tables, id: IntentId) {
    StatusStep(db, after, id) && Lookup(after.executions, id) == Lookup(db.executions, id)
  }

  lemma SubmitMoves(w: World, intent: TradeIntent, key: string, now: Time, id: IntentId)
    requires Sizable(intent) && RowOk(w.db, intent.intentId)
    ensures ApiMoves(w.db, DoSubmit(w, intent, key, now).db, id)
    ensures DoSubmit(w, intent, key, now).workers == w.workers
  {
    var decision := EvaluateAdmission(w.policy, intent);
    SubmitShape(w.db, intent, key, decision, AdmissionConfirmation(intent, decision, now));
  }

  lemma RejectMoves(db: Tables, rejected: IntentId, reason: string, id: IntentId)
    requires RowOk(db, rejected)
    ensures ApiMoves(db, TransitionIntent(db, rejected, RiskRejected, reason).0, id)
  {
  }

  lemma AwaitedMoves(db: Tables, after: Tables, confirmed: IntentId, id: IntentId)
    requires after == db || (RewritesIntent(db, after, confirmed) && db.intents[confirmed].status.AwaitingConfirmation?)
    ensures ApiMoves(db, after, id)
  {
  }

  lemma ConfirmShadowMoves(db: Tables, confirmed: IntentId, digest: Digest, operator: string, now: Time, id: IntentId)
    requires RowOk(db, confirmed)
    ensures ApiMoves(db, ConfirmIntent(db, confirmed, digest, operator, now).0, id)
  {
    ConfirmShadowShape(db, confirmed, digest, operator, now);
    AwaitedMoves(db, ConfirmIntent(db, confirmed, digest, operator, now).0, confirmed, id);
  }

  /** A live confirmation queues the intent exactly when it may be queued; otherwise it changes
      nothing. */
  lemma ConfirmLiveQueuesExactly(
    db: Tables, confirmed: IntentId, digest: Digest, operator: string, account: Account, now: Time)
    ensures var (after, result) := ConfirmIntentForExecution(db, confirmed, digest, operator, account, now);
            if MayQueue(db, confirmed, digest, now)
            then
              && after.executions
                 == db.executions[confirmed :=
                      LiveExecution(account, DeterministicCloid(confirmed, Entry), Pending, 0, now)]
              && after.intents.Keys == db.intents.Keys
              && after.intents[confirmed].status == TradeIntentStatus.Approved
              && after.intents[confirmed].statusReason == "manually_confirmed_for_execution"
              && (forall k | k in db.intents && k != confirmed :: after.intents[k] == db.intents[k])
              && result == Ok(after.intents[confirmed])
            else after == db
  {
  }

  lemma ConfirmLiveMoves(
    db: Tables, confirmed: IntentId, digest: Digest, operator: string, account: Account, now: Time, id: IntentId)
    ensures var after := ConfirmIntentForExecution(db, confirmed, digest, operator, account, now).0;
            StatusStep(db, after, id)
            && (Lookup(after.executions, id) == Lookup(db.executions, id)
                || (id == confirmed && MayQueue(db, id, digest, now)))
  {
    ConfirmLiveQueuesExactly(db, confirmed, digest, operator, account, now);
  }

  lemma ApiEvolves(w: World, action: Action, after: World, id: IntentId)
    requires ApiMoves(w.db, after.db, id) || (StatusStep(w.db, after.db, id) && Confirms(w, action, id))
    requires after.workers == w.workers
    ensures StepAt(w, action, after, id)
  {
  }

  lemma ControlEvolves(w: World, action: Action, id: IntentId)
    requires Enabled(w, action)
    requires || action.SwitchKill? || action.Configure? || action.TakeSnapshot? || action.AcknowledgeRecovery?
             || action.LearnHistory? || action.LearnOrderUpdates?
    ensures StepAt(w, action, Effect(w, action), id)
  {
    ApiEvolves(w, action, Effect(w, action), id);
  }

  lemma ProcessEvolves(w: World, action: Action, id: IntentId)
    requires Enabled(w, action)
    requires action.LoadPolicy? || action.Start? || action.Crash? || action.PassGate?
    ensures StepAt(w, action, Effect(w, action), id)
  {
    assert Effect(w, action).db == w.db;
  }

  lemma SendEvolves(w: World, action: Action, id: IntentId)
    requires Enabled(w, action)
    requires action.SendEntry? || action.SendProtection? || action.SendClose?
    ensures StepAt(w, action, Effect(w, action), id)
  {
    assert Effect(w, action).db == w.db;
  }

  lemma MoveEvolves(db: Tables, moved: IntentId, move: Move)
    requires MoveLiveAndIntent(db, moved, move).Ok?
    requires LiveNext(move.fromLive, move.toLive)
    requires move.fromIntent == move.toIntent || move.fromIntent.CanTransitionTo(move.toIntent)
    ensures Evolves(db, MoveLiveAndIntent(db, moved, move).value, moved)
  {
  }

  lemma FinishEvolves(db: Tables, moved: IntentId, move: Move)
    requires LiveNext(move.fromLive, move.toLive)
    requires move.fromIntent == move.toIntent || move.fromIntent.CanTransitionTo(move.toIntent)
    ensures Evolves(db, FinishLiveTransition(db, moved, move).0, moved)
  {
    if MoveLiveAndIntent(db, moved, move).Ok? {
      MoveEvolves(db, moved, move);
    }
  }

  lemma FillEvolves(db: Tables, moved: IntentId, fill: ConfirmedFill)
    ensures Evolves(db, RecordEntryFill(db, moved, fill).0, moved)
  {
  }

  lemma OutcomesGoForward(move: Move)
    requires || move == ENTRY_FAILED || move == ENTRY_UNKNOWN || move == PROTECTED || move == EMERGENCY_CLOSING
             || move == CLOSED || move == RECONCILIATION_REQUIRED
    ensures LiveNext(move.fromLive, move.toLive)
    ensures move.fromIntent == move.toIntent || move.fromIntent.CanTransitionTo(move.toIntent)
  {
  }

  /** The worker that acts holds the execution it moves, and goes on holding that or none. */
  lemma HolderEvolves(w: World, action: Action, after: World, k: WorkerId, moved: IntentId, id: IntentId)
    requires k in w.workers && Held(w.workers[k].pc) == Some(moved)
    requires Evolves(w.db, after.db, moved) && moved in w.db.executions
    requires after.workers.Keys == w.workers.Keys
    requires forall j | j in w.workers && j != k :: after.workers[j] == w.workers[j]
    requires Held(after.workers[k].pc) in {None, Some(moved)}
    ensures StepAt(w, action, after, id)
  {
  }

  lemma ClaimStatusStep(db: Tables, claimed: IntentId, id: IntentId)
    requires claimed in db.executions && db.executions[claimed].status.Pending? && RowOk(db, claimed)
    ensures StatusStep(db, Claim(db, claimed).0, id)
    ensures id != claimed ==> Lookup(Claim(db, claimed).0.executions, id) == Lookup(db.executions, id)
    ensures id != claimed ==> Lookup(Claim(db, claimed).0.intents, id) == Lookup(db.intents, id)
  {
  }

  lemma ClaimOfEvolves(w: World, k: WorkerId, claimed: IntentId, id: IntentId)
    requires Enabled(w, ClaimNext(k, Some(claimed))) && RowOk(w.db, claimed)
    ensures StepAt(w, ClaimNext(k, Some(claimed)), DoClaim(w, k, Some(claimed)), id)
  {
    ClaimStatusStep(w.db, claimed, id);
  }

  lemma ClaimEvolves(w: World, k: WorkerId, choice: Option<IntentId>, id: IntentId)
    requires Enabled(w, ClaimNext(k, choice))
    requires choice.Some? ==> RowOk(w.db, choice.value)
    ensures StepAt(w, ClaimNext(k, choice), DoClaim(w, k, choice), id)
  {
    if choice.Some? {
      ClaimOfEvolves(w, k, choice.value, id);
    }
  }

  lemma EntryFillEvolves(w: World, k: WorkerId, fill: ConfirmedFill, id: IntentId)
    requires k in w.workers && w.workers[k].pc.EntrySent?
    requires w.workers[k].pc.stored.intent.intentId in w.db.executions
    ensures StepAt(w, EntryReturns(k, Ok(fill)), DoEntryReturns(w, k, Ok(fill)), id)
  {
    var moved := w.workers[k].pc.stored.intent.intentId;
    FillEvolves(w.db, moved, fill);
    HolderEvolves(w, EntryReturns(k, Ok(fill)), DoEntryReturns(w, k, Ok(fill)), k, moved, id);
  }

  lemma EntryFailEvolves(w: World, k: WorkerId, failure: GatewayFailure, id: IntentId)
    requires k in w.workers && w.workers[k].pc.EntrySent?
    requires w.workers[k].pc.stored.intent.intentId in w.db.executions
    ensures StepAt(w, EntryReturns(k, Err(failure)), DoEntryReturns(w, k, Err(failure)), id)
  {
    var moved := w.workers[k].pc.stored.intent.intentId;
    var move := if failure.Definite? then ENTRY_FAILED else ENTRY_UNKNOWN;
    OutcomesGoForward(move);
    FinishEvolves(w.db, moved, move);
    HolderEvolves(w, EntryReturns(k, Err(failure)), DoEntryReturns(w, k, Err(failure)), k, moved, id);
  }

  lemma ProtectionHoldEvolves(w: World, k: WorkerId, statuses: seq<OrderResponse>, id: IntentId)
    requires k in w.workers && w.workers[k].pc.ProtectionSent?
    requires w.workers[k].pc.stored.intent.intentId in w.db.executions
    ensures StepAt(w, ProtectionReturns(k, Ok(statuses)), DoProtectionReturns(w, k, Ok(statuses)), id)
  {
    var stored, fill := w.workers[k].pc.stored, w.workers[k].pc.fill;
    ProtectionKeepsStatuses(w.db, stored.intent, fill);
    HolderEvolves(
      w, ProtectionReturns(k, Ok(statuses)), DoProtectionReturns(w, k, Ok(statuses)), k, stored.intent.intentId, id);
  }

  lemma ProtectionFailEvolves(w: World, k: WorkerId, failure: GatewayFailure, id: IntentId)
    requires k in w.workers && (w.workers[k].pc.FillRecorded? || w.workers[k].pc.ProtectionSent?)
    requires w.workers[k].pc.stored.intent.intentId in w.db.executions
    ensures StepAt(w, ProtectionReturns(k, Err(failure)), DoProtectionReturns(w, k, Err(failure)), id)
  {
    var moved := w.workers[k].pc.stored.intent.intentId;
    OutcomesGoForward(EMERGENCY_CLOSING);
    FinishEvolves(w.db, moved, EMERGENCY_CLOSING);
    HolderEvolves(w, ProtectionReturns(k, Err(failure)), DoProtectionReturns(w, k, Err(failure)), k, moved, id);
  }

  lemma FinishProtectedEvolves(w: World, k: WorkerId, id: IntentId)
    requires k in w.workers && w.workers[k].pc.ProtectionRecorded?
    requires w.workers[k].pc.stored.intent.intentId in w.db.executions
    ensures StepAt(w, FinishProtected(k), DoFinishProtected(w, k), id)
  {
    var moved := w.workers[k].pc.stored.intent.intentId;
    OutcomesGoForward(PROTECTED);
    FinishEvolves(w.db, moved, PROTECTED);
    HolderEvolves(w, FinishProtected(k), DoFinishProtected(w, k), k, moved, id);
  }

  lemma CloseReturnEvolves(w: World, k: WorkerId, reply: Reply<ConfirmedFill>, id: IntentId)
    requires k in w.workers && (w.workers[k].pc.Closing? || w.workers[k].pc.CloseSent?)
    requires w.workers[k].pc.stored.intent.intentId in w.db.executions
    ensures StepAt(w, CloseReturns(k, reply), DoCloseReturns(w, k, reply), id)
  {
    var moved := w.workers[k].pc.stored.intent.intentId;
    var move := if reply.Ok? then CLOSED else RECONCILIATION_REQUIRED;
    OutcomesGoForward(move);
    FinishEvolves(w.db, moved, move);
    HolderEvolves(w, CloseReturns(k, reply), DoCloseReturns(w, k, reply), k, moved, id);
  }

  lemma AnswerEvolves(w: World, action: Action, id: IntentId)
    requires Enabled(w, action) && (action.EntryReturns? || action.ProtectionReturns?)
    requires w.workers[action.worker].pc.stored.intent.intentId in w.db.executions
    ensures StepAt(w, action, Effect(w, action), id)
  {
    match action
    case EntryReturns(k, Ok(fill)) => EntryFillEvolves(w, k, fill, id);
    case EntryReturns(k, Err(failure)) => EntryFailEvolves(w, k, failure, id);
    case ProtectionReturns(k, Ok(statuses)) => ProtectionHoldEvolves(w, k, statuses, id);
    case ProtectionReturns(k, Err(failure)) => ProtectionFailEvolves(w, k, failure, id);
  }

  lemma HolderHasExecution(w: World, k: WorkerId, id: IntentId)
    requires WorldOk(w) && k in w.workers && Held(w.workers[k].pc) == Some(id)
    ensures id in w.db.executions && id in w.db.intents && !w.db.executions[id].status.Pending?
  {
    assert WorkerAt(w, k);
  }

  lemma ReturnEvolves(w: World, action: Action, id: IntentId)
    requires Enabled(w, action) && WorldOk(w)
    requires action.EntryReturns? || action.ProtectionReturns? || action.FinishProtected? || action.CloseReturns?
    ensures StepAt(w, action, Effect(w, action), id)
  {
    HolderHasExecution(w, action.worker, w.workers[action.worker].pc.stored.intent.intentId);
    if action.EntryReturns? || action.ProtectionReturns? {
      AnswerEvolves(w, action, id);
    } else if action.FinishProtected? {
      FinishProtectedEvolves(w, action.worker, id);
    } else {
      CloseReturnEvolves(w, action.worker, action.close, id);
    }
  }

  lemma RequestEvolves(w: World, action: Action, id: IntentId)
    requires Enabled(w, action) && WorldOk(w)
    requires action.Submit? || action.RejectAtConfirmation? || action.ConfirmShadow? || action.ConfirmLive?
    ensures StepAt(w, action, Next(w, action), id)
  {
    match action
    case Submit(intent, key, now) =>
      assert RowOk(w.db, intent.intentId);
      SubmitMoves(w, intent, key, now, id);
      ApiEvolves(w, action, DoSubmit(w, intent, key, now), id);
    case RejectAtConfirmation(rejected, _) =>
      assert RowOk(w.db, rejected);
      RejectMoves(w.db, rejected, "confirmation_pre_trade_rejected", id);
      ApiEvolves(w, action, Next(w, action), id);
    case ConfirmShadow(confirmed, digest, operator, now) =>
      assert RowOk(w.db, confirmed);
      ConfirmShadowMoves(w.db, confirmed, digest, operator, now, id);
      ApiEvolves(w, action, Next(w, action), id);
    case ConfirmLive(confirmed, digest, operator, account, now) =>
      ConfirmLiveMoves(w.db, confirmed, digest, operator, account, now, id);
      ApiEvolves(w, action, Next(w, action), id);
  }

  lemma SilentEvolves(w: World, action: Action, id: IntentId)
    requires Enabled(w, action)
    requires !action.Submit? && !action.RejectAtConfirmation? && !action.ConfirmShadow? && !action.ConfirmLive?
    requires !action.EntryReturns? && !action.ProtectionReturns? && !action.FinishProtected? && !action.CloseReturns?
    requires !action.ClaimNext?
    ensures StepAt(w, action, Effect(w, action), id)
  {
    if action.LoadPolicy? || action.Start? || action.Crash? || action.PassGate? {
      ProcessEvolves(w, action, id);
    } else if action.SendEntry? || action.SendProtection? || action.SendClose? {
      SendEvolves(w, action, id);
    } else {
      ControlEvolves(w, action, id);
    }
  }

  /** In every reachable world and for every action: statuses move forward only, an execution is queued
      only by a timely confirmation and moved only by the worker that holds or claims it, and it comes
      to be held only by being claimed while pending. */
  lemma NextEvolves(w: World, action: Action, id: IntentId)
    requires WorldOk(w)
    ensures StepAt(w, action, Next(w, action), id)
  {
    if Enabled(w, action) {
      if action.Submit? || action.RejectAtConfirmation? || action.ConfirmShadow? || action.ConfirmLive? {
        RequestEvolves(w, action, id);
      } else if action.EntryReturns? || action.ProtectionReturns? || action.FinishProtected? || action.CloseReturns? {
        ReturnEvolves(w, action, id);
      } else if action.ClaimNext? {
        assert action.choice.Some? ==> RowOk(w.db, action.choice.value);
        ClaimEvolves(w, action.worker, action.choice, id);
      } else {
        SilentEvolves(w, action, id);
      }
    }
  }

  // ---------- Who acts ----------

  /** The worker whose program an action advances. */
  function ActorOf(action: Action): Option<WorkerId> {
    match action
    case Start(k) => Some(k)
    case Crash(k) => Some(k)
    case PassGate(k) => Some(k)
    case ClaimNext(k, _) => Some(k)
    case SendEntry(k) => Some(k)
    case SendProtection(k, _, _) => Some(k)
    case EntryReturns(k, _) => Some(k)
    case ProtectionReturns(k, _) => Some(k)
    case FinishProtected(k) => Some(k)
    case SendClose(k, _) => Some(k)
    case CloseReturns(k, _) => Some(k)
    case _ => None
  }

  /** At most this worker has moved, and only in its program. */
  ghost predicate OnlyWorker(w: World, after: World, k: WorkerId) {
    || after.workers == w.workers
    || (k in w.workers && after.workers == w.workers[k := w.workers[k].(pc := PcOf(after, k))])
  }

  lemma EntryReturnsMoves(w: World, k: WorkerId, reply: Reply<ConfirmedFill>)
    requires k in w.workers && w.workers[k].pc.EntrySent?
    ensures OnlyWorker(w, DoEntryReturns(w, k, reply), k)
  {
  }

  lemma ProtectionReturnsMoves(w: World, k: WorkerId, reply: ProtectionReply)
    requires k in w.workers && (w.workers[k].pc.FillRecorded? || w.workers[k].pc.ProtectionSent?)
    ensures OnlyWorker(w, DoProtectionReturns(w, k, reply), k)
  {
  }

  lemma CloseReturnsMoves(w: World, k: WorkerId, reply: Reply<ConfirmedFill>)
    requires k in w.workers && (w.workers[k].pc.Closing? || w.workers[k].pc.CloseSent?)
    ensures OnlyWorker(w, DoCloseReturns(w, k, reply), k)
  {
  }

  lemma FinishProtectedMoves(w: World, k: WorkerId)
    requires k in w.workers && w.workers[k].pc.ProtectionRecorded?
    ensures OnlyWorker(w, DoFinishProtected(w, k), k)
  {
  }

  lemma ClaimMoves(w: World, k: WorkerId, choice: Option<IntentId>)
    requires Enabled(w, ClaimNext(k, choice))
    ensures OnlyWorker(w, DoClaim(w, k, choice), k)
  {
  }

  lemma SendMoves(w: World, action: Action)
    requires Enabled(w, action)
    requires || action.SendEntry? || action.SendProtection? || action.SendClose?
             || action.Start? || action.Crash? || action.PassGate?
    ensures OnlyWorker(w, Effect(w, action), ActorOf(action).value)
  {
  }

  lemma RecordMoves(w: World, action: Action)
    requires Enabled(w, action)
    requires || action.ClaimNext? || action.EntryReturns? || action.ProtectionReturns? || action.FinishProtected?
             || action.CloseReturns?
    ensures OnlyWorker(w, Effect(w, action), ActorOf(action).value)
  {
    match action
    case ClaimNext(k, choice) => ClaimMoves(w, k, choice);
    case EntryReturns(k, reply) => EntryReturnsMoves(w, k, reply);
    case ProtectionReturns(k, reply) => ProtectionReturnsMoves(w, k, reply);
    case FinishProtected(k) => FinishProtectedMoves(w, k);
    case CloseReturns(k, reply) => CloseReturnsMoves(w, k, reply);
  }

  /** No action moves any worker but its actor. */
  lemma OnlyActorMoves(w: World, action: Action)
    ensures ActorOf(action).None? ==> Next(w, action).workers == w.workers
    ensures ActorOf(action).Some? ==> OnlyWorker(w, Next(w, action), ActorOf(action).value)
  {
    if Enabled(w, action) && ActorOf(action).Some? {
      if || action.ClaimNext? || action.EntryReturns? || action.ProtectionReturns? || action.FinishProtected?
         || action.CloseReturns? {
        RecordMoves(w, action);
      } else {
        SendMoves(w, action);
      }
    }
  }

  // ---------- What is stored is never lost ----------

  lemma FinishRemembers(db: Tables, id: IntentId, move: Move)
    ensures Remembers(db, FinishLiveTransition(db, id, move).0)
  {
  }

  lemma FillRemembers(db: Tables, id: IntentId, fill: ConfirmedFill)
    ensures Remembers(db, RecordEntryFill(db, id, fill).0)
  {
  }

  lemma ProtectionRemembers(db: Tables, intent: TradeIntent, fill: ConfirmedFill)
    ensures Remembers(db, RecordProtectionOrders(db, intent, fill).0)
  {
    ProtectionKeepsStatuses(db, intent, fill);
    StatusesRemember(db, RecordProtectionOrders(db, intent, fill).0);
  }

  lemma ProtectionKeepsStatuses(db: Tables, intent: TradeIntent, fill: ConfirmedFill)
    ensures SameStatuses(db, RecordProtectionOrders(db, intent, fill).0)
  {
  }

  lemma StatusesRemember(db: Tables, after: Tables)
    requires SameStatuses(db, after)
    ensures Remembers(db, after)
  {
  }

  lemma ReplyRemembers(w: World, action: Action)
    requires Enabled(w, action)
    requires action.EntryReturns? || action.ProtectionReturns? || action.FinishProtected? || action.CloseReturns?
    ensures Remembers(w.db, Effect(w, action).db)
  {
    match action
    case EntryReturns(k, reply) =>
      var id := w.workers[k].pc.stored.intent.intentId;
      match reply {
        case Ok(fill) => FillRemembers(w.db, id, fill);
        case Err(failure) => FinishRemembers(w.db, id, if failure.Definite? then ENTRY_FAILED else ENTRY_UNKNOWN);
      }
    case ProtectionReturns(k, answer) =>
      var stored, fill := w.workers[k].pc.stored, w.workers[k].pc.fill;
      ProtectionRemembers(w.db, stored.intent, fill);
      FinishRemembers(w.db, stored.intent.intentId, EMERGENCY_CLOSING);
    case FinishProtected(k) => FinishRemembers(w.db, w.workers[k].pc.stored.intent.intentId, PROTECTED);
    case CloseReturns(k, close) =>
      FinishRemembers(
        w.db, w.workers[k].pc.stored.intent.intentId, if close.Ok? then CLOSED else RECONCILIATION_REQUIRED);
  }

  lemma ApiRemembers(w: World, action: Action)
    requires TablesOk(w.db) && Enabled(w, action)
    requires action.Submit? || action.RejectAtConfirmation? || action.ConfirmShadow? || action.ConfirmLive?
    ensures Remembers(w.db, Effect(w, action).db)
  {
    match action
    case Submit(intent, key, now) =>
      var decision := EvaluateAdmission(w.policy, intent);
      SubmitKeepsTables(w.db, intent, key, decision, AdmissionConfirmation(intent, decision, now));
    case RejectAtConfirmation(id, _) => RejectKeepsTables(w.db, id, "confirmation_pre_trade_rejected");
    case ConfirmShadow(id, digest, operator, now) => ConfirmShadowKeepsTables(w.db, id, digest, operator, now);
    case ConfirmLive(id, digest, operator, account, now) =>
      ConfirmLiveKeepsTables(w.db, id, digest, operator, account, now);
  }

  lemma QuietRemembers(db: Tables, after: Tables, event: Event)
    requires OnlyReconciliation(db, after, event)
    ensures Remembers(db, after)
  {
  }

  lemma FactsRemember(w: World, action: Action)
    requires action.Configure? || action.LearnHistory? || action.LearnOrderUpdates?
    ensures Remembers(w.db, Effect(w, action).db)
  {
    match action
    case Configure(account) =>
      ConfigureIsQuiet(w.db, account);
      QuietRemembers(w.db, Effect(w, action).db, HistoryBackfilled(account));
    case LearnHistory(account, fills, funding) =>
      HistoryIsQuiet(w.db, account, fills, funding);
      QuietRemembers(w.db, Effect(w, action).db, HistoryBackfilled(account));
    case LearnOrderUpdates(account, updates) =>
      UpdatesAreQuiet(w.db, account, updates);
      QuietRemembers(w.db, Effect(w, action).db, OrderUpdatesRecorded(account));
  }

  lemma ControlRemembers(w: World, action: Action)
    requires Enabled(w, action)
    requires || action.SwitchKill? || action.Configure? || action.TakeSnapshot? || action.AcknowledgeRecovery?
             || action.LearnHistory? || action.LearnOrderUpdates?
    ensures Remembers(w.db, Effect(w, action).db)
  {
    match action
    case SwitchKill(_) =>
    case TakeSnapshot(s) =>
      SnapshotIsQuiet(w.db, s);
      QuietRemembers(w.db, Effect(w, action).db, SnapshotRecorded(s.account, s.observedAt));
    case AcknowledgeRecovery(account, reason, operator) =>
      AcknowledgeIsQuiet(w.db, account, reason, operator);
      QuietRemembers(w.db, Effect(w, action).db, RecoveryAcknowledged(account, reason, operator));
    case _ => FactsRemember(w, action);
  }

  lemma SilentRemembers(w: World, action: Action)
    requires Enabled(w, action)
    requires || action.LoadPolicy? || action.Start? || action.Crash? || action.PassGate? || action.SendEntry?
             || action.SendProtection? || action.SendClose? || (action.ClaimNext? && action.choice.None?)
    ensures Remembers(w.db, Effect(w, action).db)
  {
    assert Effect(w, action).db == w.db;
  }

  lemma RequestOrReplyRemembers(w: World, action: Action)
    requires TablesOk(w.db) && Enabled(w, action)
    requires || action.Submit? || action.RejectAtConfirmation? || action.ConfirmShadow? || action.ConfirmLive?
             || action.EntryReturns? || action.ProtectionReturns? || action.FinishProtected? || action.CloseReturns?
    ensures Remembers(w.db, Effect(w, action).db)
  {
    if action.Submit? || action.RejectAtConfirmation? || action.ConfirmShadow? || action.ConfirmLive? {
      ApiRemembers(w, action);
    } else {
      ReplyRemembers(w, action);
    }
  }

  lemma NextRemembers(w: World, action: Action)
    requires TablesOk(w.db)
    ensures Remembers(w.db, Next(w, action).db)
  {
    if !Enabled(w, action) {
      assert Next(w, action) == w;
    } else if || action.SwitchKill? || action.Configure? || action.TakeSnapshot? || action.AcknowledgeRecovery?
              || action.LearnHistory? || action.LearnOrderUpdates? {
      ControlRemembers(w, action);
    } else if action.ClaimNext? && action.choice.Some? {
      ClaimKeepsTables(w.db, w.workers[action.worker].account, action.choice.value);
    } else if || action.LoadPolicy? || action.Start? || action.Crash? || action.PassGate? || action.SendEntry?
              || action.SendProtection? || action.SendClose? || action.ClaimNext? {
      SilentRemembers(w, action);
    } else {
      RequestOrReplyRemembers(w, action);
    }
  }

  lemma RemembersTransitively(a: Tables, b: Tables, c: Tables)
    requires Remembers(a, b) && Remembers(b, c)
    ensures Remembers(a, c)
  {
  }

  /** Over any run intents, decisions, digests asked for, idempotency keys, accounts and the journal are
      kept. */
  lemma {:induction false} RunRemembers(w: World, run: seq<Action>)
    requires WorldOk(w)
    ensures Remembers(w.db, After(w, run).db)
  {
    if run != [] {
      var init := run[..|run| - 1];
      RunRemembers(w, init);
      EveryRunKeepsWorld(w, init);
      NextRemembers(After(w, init), run[|run| - 1]);
      RemembersTransitively(w.db, After(w, init).db, After(w, run).db);
    }
  }

  // ---------- Statuses only move forward ----------

  function Progress(status: LiveStatus): nat {
    match status
    case Pending => 0
    case EntrySubmitting => 1
    case EntryFilled => 2
    case Protecting => 2
    case EmergencyClosing => 3
    case _ => 4
  }

  /** The second status is the first one or a later one. */
  predicate Reaches(from: LiveStatus, to: LiveStatus) {
    from == to || Progress(from) < Progress(to)
  }

  lemma StepProgresses(from: LiveStatus, before: LiveExecution, after: Option<LiveExecution>)
    requires Reaches(from, before.status) && ExecutionStep(Some(before), after)
    ensures after.Some? && Reaches(from, after.value.status)
  {
  }

  lemma NextProgresses(w: World, action: Action, id: IntentId, from: LiveStatus)
    requires WorldOk(w) && id in w.db.executions && Reaches(from, w.db.executions[id].status)
    ensures id in Next(w, action).db.executions && Reaches(from, Next(w, action).db.executions[id].status)
  {
    NextEvolves(w, action, id);
    StepProgresses(from, w.db.executions[id], Lookup(Next(w, action).db.executions, id));
  }

  /** Along every run an execution never disappears, never returns to an earlier status, and never
      leaves a final one. */
  lemma {:induction false} NothingGoesBack(w: World, run: seq<Action>, id: IntentId)
    requires WorldOk(w) && id in w.db.executions
    ensures id in After(w, run).db.executions
    ensures Reaches(w.db.executions[id].status, After(w, run).db.executions[id].status)
  {
    if run != [] {
      var init := run[..|run| - 1];
      NothingGoesBack(w, init, id);
      EveryRunKeepsWorld(w, init);
      NextProgresses(After(w, init), run[|run| - 1], id, w.db.executions[id].status);
    }
  }

  // ---------- Executions that nobody holds ----------

  ghost predicate HeldBySome(w: World, id: IntentId) {
    exists k :: k in w.workers && Held(w.workers[k].pc) == Some(id)
  }

  /** An execution past its claim that no worker is responsible for. */
  ghost predicate Abandoned(w: World, id: IntentId) {
    id in w.db.executions && !w.db.executions[id].status.Pending? && !HeldBySome(w, id)
  }

  lemma NextKeepsAbandoned(w: World, action: Action, id: IntentId)
    requires WorldOk(w) && Abandoned(w, id)
    ensures Abandoned(Next(w, action), id)
    ensures Next(w, action).db.executions[id] == w.db.executions[id]
  {
    NextEvolves(w, action, id);
    var after := Next(w, action);
    assert StepAt(w, action, after, id);
    forall k | k in after.workers ensures Held(after.workers[k].pc) != Some(id) {
      assert k in w.workers ==> Held(w.workers[k].pc) != Some(id);
    }
  }

  /** Nothing ever moves an execution again once it is past its claim and no worker holds it: neither
      an execution that reached its end nor one whose worker crashed. */
  lemma {:induction false} AbandonedForever(w: World, run: seq<Action>, id: IntentId)
    requires WorldOk(w) && Abandoned(w, id)
    ensures Abandoned(After(w, run), id)
    ensures After(w, run).db.executions[id] == w.db.executions[id]
  {
    if run != [] {
      var init := run[..|run| - 1];
      AbandonedForever(w, init, id);
      EveryRunKeepsWorld(w, init);
      NextKeepsAbandoned(After(w, init), run[|run| - 1], id);
    }
  }

  /** Executions in a final status are held by nobody. */
  lemma FinalIsAbandoned(w: World, id: IntentId)
    requires WorldOk(w) && id in w.db.executions
    requires !w.db.executions[id].status.Pending?
    requires w.db.executions[id].status !in {EntrySubmitting, EntryFilled, EmergencyClosing}
    ensures Abandoned(w, id)
  {
    forall k | k in w.workers ensures Held(w.workers[k].pc) != Some(id) {
      assert WorkerAt(w, k);
    }
  }

  /** A crash abandons the execution that the worker held. */
  lemma CrashAbandons(w: World, k: WorkerId, id: IntentId)
    requires WorldOk(w) && k in w.workers && Held(w.workers[k].pc) == Some(id)
    ensures Abandoned(Next(w, Crash(k)), id)
  {
    var after := Next(w, Crash(k));
    assert Enabled(w, Crash(k)) && after == SetPc(w, k, Down);
    assert WorkerAt(w, k);
    forall j | j in after.workers ensures Held(after.workers[j].pc) != Some(id) {
      assert j != k ==> Held(w.workers[j].pc) != Held(w.workers[k].pc);
    }
  }

  lemma BlockedIsNotClaimed(w: World, action: Action, after: World, active: IntentId, waiting: IntentId)
    requires WorldOk(w) && StepAt(w, action, after, waiting)
    requires active in w.db.executions && Active(w.db.executions[active].status)
    requires SameMarket(w.db, active, waiting) && w.db.executions[waiting].status.Pending?
    ensures waiting in after.db.executions && after.db.executions[waiting].status.Pending?
  {
    NoHolder(w, waiting);
    assert Blocked(w.db, waiting);
  }

  lemma NextKeepsBlocked(w: World, action: Action, active: IntentId, waiting: IntentId)
    requires WorldOk(w) && active in w.db.executions && Active(w.db.executions[active].status)
    requires SameMarket(w.db, active, waiting) && w.db.executions[waiting].status.Pending?
    ensures waiting in Next(w, action).db.executions && Next(w, action).db.executions[waiting].status.Pending?
  {
    NextEvolves(w, action, waiting);
    BlockedIsNotClaimed(w, action, Next(w, action), active, waiting);
  }

  /** An abandoned execution that is active blocks its account and symbol for good: whatever is pending
      for them stays pending. */
  lemma {:induction false} BlockedForever(w: World, run: seq<Action>, active: IntentId, waiting: IntentId)
    requires WorldOk(w) && Abandoned(w, active) && Active(w.db.executions[active].status)
    requires SameMarket(w.db, active, waiting) && w.db.executions[waiting].status.Pending?
    ensures waiting in After(w, run).db.executions && After(w, run).db.executions[waiting].status.Pending?
  {
    if run != [] {
      var init, last := run[..|run| - 1], run[|run| - 1];
      BlockedForever(w, init, active, waiting);
      AbandonedForever(w, init, active);
      EveryRunKeepsWorld(w, init);
      RunRemembers(w, init);
      NextKeepsBlocked(After(w, init), last, active, waiting);
    }
  }

  /** An abandoned execution without a definite outcome keeps every worker of its account from
      starting. */
  lemma LockedForever(w: World, run: seq<Action>, id: IntentId, k: WorkerId)
    requires WorldOk(w) && Abandoned(w, id) && Unresolved(w.db.executions[id].status)
    requires k in w.workers && w.workers[k].account == w.db.executions[id].account
    ensures !Enabled(After(w, run), Start(k))
  {
    AbandonedForever(w, run, id);
    AccountsAreFixed(w, run);
    assert id in UnresolvedIds(After(w, run).db, w.workers[k].account);
  }

  ghost predicate SameAccounts(w: World, after: World) {
    && after.workers.Keys == w.workers.Keys
    && forall k | k in w.workers :: after.workers[k].account == w.workers[k].account
  }

  lemma NextKeepsAccounts(w: World, action: Action)
    ensures SameAccounts(w, Next(w, action))
  {
    OnlyActorMoves(w, action);
  }

  lemma {:induction false} AccountsAreFixed(w: World, run: seq<Action>)
    ensures After(w, run).workers.Keys == w.workers.Keys
    ensures forall k | k in w.workers :: After(w, run).workers[k].account == w.workers[k].account
  {
    if run != [] {
      AccountsAreFixed(w, run[..|run| - 1]);
      NextKeepsAccounts(After(w, run[..|run| - 1]), run[|run| - 1]);
    }
  }
}
