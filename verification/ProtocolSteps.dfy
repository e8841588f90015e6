/** Every action of the protocol keeps the invariant. */
module ProtocolSteps {
  import opened Wrappers
  import opened Domain
  import opened Risk
  import opened Orders
  import opened Gateway
  import opened Database
  import opened Engine
  import opened StoreInvariant
  import opened Protocol
  import opened ProtocolInvariant
  import opened ProtectionLedger

  // ---------- API ----------

  lemma SubmittedId(w: World, after: World, intent: TradeIntent, key: string, now: Time)
    requires IdOk(w, intent.intentId) && Validated(intent)
    requires var decision := EvaluateAdmission(w.policy, intent);
             var row := AdmittedRow(w.db.killSwitch, intent, key, decision,
                 AdmissionConfirmation(intent, decision, now));
             Admitted(w.db, after.db, intent, row)
    requires intent.intentId !in w.db.executions
    requires after.replies == w.replies && after.calls == w.calls
    requires after.admittedUnder == w.admittedUnder[intent.intentId := w.policy]
    ensures IdOk(after, intent.intentId)
  {
  }

  lemma AdmittedStep(w: World, after: World, intent: TradeIntent, key: string, now: Time)
    requires WorldOk(w) && Validated(intent)
    requires var decision := EvaluateAdmission(w.policy, intent);
             var row := AdmittedRow(w.db.killSwitch, intent, key, decision,
                 AdmissionConfirmation(intent, decision, now));
             Admitted(w.db, after.db, intent, row)
    requires after == w.(db := after.db, admittedUnder := w.admittedUnder[intent.intentId := w.policy])
    ensures WorldOk(after)
  {
    var id, decision := intent.intentId, EvaluateAdmission(w.policy, intent);
    AdmittedKeepsTables(
      w.db, after.db, intent,
      AdmittedRow(w.db.killSwitch, intent, key, decision, AdmissionConfirmation(intent, decision, now)));
    assert IdOk(w, id);
    SubmittedId(w, after, intent, key, now);
    TouchesIsStep(w, after, id, None);
    ApiStep(w, after, id);
  }

  lemma SubmitStep(w: World, intent: TradeIntent, key: string, now: Time)
    requires WorldOk(w) && Validated(intent)
    ensures WorldOk(DoSubmit(w, intent, key, now))
  {
    var decision := EvaluateAdmission(w.policy, intent);
    var confirmation := AdmissionConfirmation(intent, decision, now);
    var result := SubmitShadowIntent(w.db, intent, key, decision, confirmation).1;
    var after := DoSubmit(w, intent, key, now);
    SubmitShape(w.db, intent, key, decision, confirmation);
    if result.Ok? && result.value.1 {
      AdmittedStep(w, after, intent, key, now);
    } else {
      QuietStep(w, after);
    }
  }

  lemma RewrittenId(w: World, after: World, id: IntentId)
    requires IdOk(w, id) && RewritesIntent(w.db, after.db, id)
    requires after == w.(db := after.db)
    ensures IdOk(after, id)
  {
  }

  /** An intent without execution is rejected or confirmed in shadow mode. */
  lemma IntentRewriteStep(w: World, db: Tables, id: IntentId)
    requires WorldOk(w) && RewritesIntent(w.db, db, id)
    requires TablesOk(db) && OnlyRow(w.db, db, id) && Remembers(w.db, db)
    ensures WorldOk(w.(db := db))
  {
    var after := w.(db := db);
    assert IdOk(w, id);
    RewrittenId(w, after, id);
    TouchesIsStep(w, after, id, None);
    ApiStep(w, after, id);
  }

  lemma RejectStep(w: World, id: IntentId, reason: string)
    requires WorldOk(w)
    ensures WorldOk(w.(db := TransitionIntent(w.db, id, RiskRejected, reason).0))
  {
    var db := TransitionIntent(w.db, id, RiskRejected, reason).0;
    RejectKeepsTables(w.db, id, reason);
    if db == w.db {
      QuietStep(w, w.(db := db));
    } else {
      IntentRewriteStep(w, db, id);
    }
  }

  lemma ConfirmShadowStep(w: World, id: IntentId, digest: Digest, operator: string, now: Time)
    requires WorldOk(w)
    ensures WorldOk(w.(db := ConfirmIntent(w.db, id, digest, operator, now).0))
  {
    var db := ConfirmIntent(w.db, id, digest, operator, now).0;
    ConfirmShadowKeepsTables(w.db, id, digest, operator, now);
    if db == w.db {
      QuietStep(w, w.(db := db));
    } else {
      IntentRewriteStep(w, db, id);
    }
  }

  lemma QueuedId(w: World, after: World, id: IntentId, digest: Digest, operator: string, account: Account)
    requires IdOk(w, id) && Queued(w.db, after.db, id, digest, operator, account)
    requires after == w.(db := after.db)
    ensures IdOk(after, id)
  {
  }

  lemma QueuedStep(w: World, db: Tables, id: IntentId, digest: Digest, operator: string, account: Account)
    requires WorldOk(w) && Queued(w.db, db, id, digest, operator, account)
    requires TablesOk(db) && OnlyRow(w.db, db, id) && Remembers(w.db, db)
    ensures WorldOk(w.(db := db))
  {
    var after := w.(db := db);
    assert IdOk(w, id);
    QueuedId(w, after, id, digest, operator, account);
    TouchesIsStep(w, after, id, None);
    ApiStep(w, after, id);
  }

  lemma ConfirmLiveStep(w: World, id: IntentId, digest: Digest, operator: string, account: Account, now: Time)
    requires WorldOk(w)
    ensures WorldOk(w.(db := ConfirmIntentForExecution(w.db, id, digest, operator, account, now).0))
  {
    var db := ConfirmIntentForExecution(w.db, id, digest, operator, account, now).0;
    ConfirmLiveKeepsTables(w.db, id, digest, operator, account, now);
    if db == w.db {
      QuietStep(w, w.(db := db));
    } else {
      QueuedStep(w, db, id, digest, operator, account);
    }
  }

  // ---------- Control, snapshots and processes ----------

  lemma KillStep(w: World, enabled: bool)
    requires WorldOk(w)
    ensures WorldOk(w.(db := SetKillSwitch(w.db, enabled)))
  {
    KillSwitchKeepsTables(w.db, enabled);
    QuietStep(w, w.(db := SetKillSwitch(w.db, enabled)));
  }

  lemma ReconciliationStep(w: World, db: Tables, event: Event)
    requires WorldOk(w) && OnlyReconciliation(w.db, db, event)
    ensures WorldOk(w.(db := db))
  {
    ReconciliationKeepsTables(w.db, db, event);
    QuietStep(w, w.(db := db));
  }

  lemma ProcessStep(w: World, after: World)
    requires WorldOk(w)
    requires after == w.(workers := after.workers, policy := after.policy)
    requires after.workers.Keys == w.workers.Keys
    requires forall k | k in w.workers ::
               after.workers[k] == w.workers[k] || after.workers[k].pc in {Down, Idle, GatePassed}
    ensures WorldOk(after)
  {
    QuietStep(w, after);
  }

  // ---------- Worker ----------

  lemma DecisionIsApproved(w: World, id: IntentId)
    requires WorldOk(w) && id in w.db.executions && id in w.db.intents
    ensures var decision := w.db.intents[id].riskDecision;
            decision.Some? && decision.value.status.Approved? && decision.value.approvedNotionalUsd.Some?
  {
    assert IdOk(w, id);
    AdmissionIsOptimal(w.admittedUnder[id], w.db.intents[id].intent);
  }

  lemma ClaimTouches(w: World, after: World, k: WorkerId, id: IntentId)
    requires k in w.workers && id in w.db.executions && id in w.db.intents
    requires w.db.intents[id].intent.intentId == id
    requires Claim(w.db, id).1.Ok?
    requires w.db.intents[id].riskDecision.Some? && w.db.intents[id].riskDecision.value.approvedNotionalUsd.Some?
    requires after == DoClaim(w, k, Some(id))
    ensures after.db == Claim(w.db, id).0 && k in after.workers
    ensures after.workers[k].account == w.workers[k].account
    ensures after.workers[k].pc == Claimed(Claim(w.db, id).1.value.1, Claim(w.db, id).1.value.0)
    ensures Held(after.workers[k].pc) == Some(id)
    ensures after.calls == w.calls && after.replies == w.replies && Touches(w, after, id, Some(k))
  {
  }

  lemma ClaimedId(w: World, after: World, k: WorkerId, id: IntentId)
    requires k in w.workers && id in w.db.executions && id in w.db.intents
    requires IdOk(w, id) && w.db.executions[id].status.Pending? && w.db.executions[id].account == w.workers[k].account
    requires RowOk(w.db, id)
    requires Claim(w.db, id).1.Ok?
    requires w.db.intents[id].riskDecision.Some? && w.db.intents[id].riskDecision.value.approvedNotionalUsd.Some?
    requires after == w.(db := Claim(w.db, id).0, workers := after.workers) && k in after.workers
    requires after.workers[k] == Worker(w.workers[k].account,
        Claimed(Claim(w.db, id).1.value.1, Claim(w.db, id).1.value.0))
    ensures IdOk(after, id) && WorkerAt(after, k)
  {
    var event := IntentManuallyConfirmed(
      id, w.db.intents[id].manualConfirmation.value.digest,
          w.db.intents[id].manualConfirmation.value.confirmedBy.value);
    assert event in w.db.journal;
  }

  /** What remains to be shown of a claim. */
  lemma ClaimedWorld(w: World, after: World, k: WorkerId, id: IntentId)
    requires WorldOk(w) && id in w.db.executions && w.db.executions[id].status.Pending?
    requires TablesOk(after.db) && Remembers(w.db, after.db) && Touches(w, after, id, Some(k))
    requires after.calls == w.calls && after.replies == w.replies
    requires IdOk(after, id) && WorkerAt(after, k) && k in after.workers && Held(after.workers[k].pc) == Some(id)
    ensures WorldOk(after)
  {
    TouchesIsStep(w, after, id, Some(k));
    NoHolder(w, id);
    CallsKept(w, after);
    StepKeepsWorld(w, after, id, Some(k));
  }

  lemma ClaimStep(w: World, k: WorkerId, id: IntentId)
    requires WorldOk(w) && k in w.workers && w.workers[k].pc.GatePassed?
    requires Oldest(w.db, w.workers[k].account, id)
    ensures var after := DoClaim(w, k, Some(id));
            WorldOk(after) && after.workers[k].pc.Claimed? && Held(after.workers[k].pc) == Some(id)
  {
    var after := DoClaim(w, k, Some(id));
    assert RowOk(w.db, id) && IdOk(w, id);
    ClaimKeepsTables(w.db, w.workers[k].account, id);
    DecisionIsApproved(w, id);
    ClaimTouches(w, after, k, id);
    ClaimedId(w, after, k, id);
    ClaimedWorld(w, after, k, id);
  }

  lemma NoHolder(w: World, id: IntentId)
    requires WorldOk(w)
    requires id in w.db.executions ==> w.db.executions[id].status.Pending?
    ensures forall j | j in w.workers :: Held(w.workers[j].pc) != Some(id)
  {
    forall j | j in w.workers ensures Held(w.workers[j].pc) != Some(id) {
      assert WorkerAt(w, j);
    }
  }

  lemma SentEntry(w: World, after: World, k: WorkerId, id: IntentId)
    requires k in w.workers && w.workers[k].pc.Claimed? && w.workers[k].pc.stored.intent.intentId == id
    requires IdOk(w, id) && WorkerAt(w, k)
    requires after == DoSendEntry(w, k)
    ensures IdOk(after, id) && WorkerAt(after, k)
    ensures after.db == w.db && after.replies == w.replies
    ensures |after.calls| == |w.calls| + 1 && after.calls == w.calls + [after.calls[|w.calls|]]
    ensures CallOk(after, after.calls[|w.calls|]) && after.calls[|w.calls|].EntryCall?
    ensures after.calls[|w.calls|].account == w.workers[k].account
    ensures Touches(w, after, id, Some(k))
    ensures k in after.workers && after.workers[k].pc.EntrySent? && Held(after.workers[k].pc) == Some(id)
  {
    CallAdded(w.calls, after.calls[|w.calls|]);
  }

  lemma OneMoreCall(w: World, after: World)
    requires CallsOk(w) && Remembers(w.db, after.db) && KeepsFills(w, after)
    requires |after.calls| == |w.calls| + 1 && after.calls == w.calls + [after.calls[|w.calls|]]
    requires CallOk(after, after.calls[|w.calls|])
    ensures CallsOk(after)
  {
    forall n | 0 <= n < |after.calls| ensures CallOk(after, after.calls[n]) {
      if n < |w.calls| {
        CallFrame(w, after, w.calls[n]);
      }
    }
  }

  lemma SendingIsStep(w: World, after: World, k: WorkerId, id: IntentId)
    requires TablesOk(w.db) && CallsOk(w)
    requires after.db == w.db && after.replies == w.replies
    requires |after.calls| == |w.calls| + 1 && after.calls == w.calls + [after.calls[|w.calls|]]
    requires CallOk(after, after.calls[|w.calls|]) && Touches(w, after, id, Some(k))
    ensures CallsOk(after) && StepOn(w, after, id, Some(k))
  {
    OneMoreCall(w, after);
    TouchesIsStep(w, after, id, Some(k));
  }

  /** What remains to be shown of a worker that sends. */
  lemma SendingStep(w: World, after: World, k: WorkerId, id: IntentId)
    requires WorldOk(w) && k in w.workers && Held(w.workers[k].pc) == Some(id)
    requires after.db == w.db && after.replies == w.replies
    requires |after.calls| == |w.calls| + 1 && after.calls == w.calls + [after.calls[|w.calls|]]
    requires IdOk(after, id) && WorkerAt(after, k) && CallOk(after, after.calls[|w.calls|])
    requires Touches(w, after, id, Some(k)) && k in after.workers && Held(after.workers[k].pc) == Some(id)
    ensures WorldOk(after)
  {
    SendingIsStep(w, after, k, id);
    WorkerStep(w, after, k, id);
  }

  lemma SendEntryStep(w: World, k: WorkerId)
    requires WorldOk(w) && k in w.workers && w.workers[k].pc.Claimed?
    ensures WorldOk(DoSendEntry(w, k))
  {
    var after, id := DoSendEntry(w, k), w.workers[k].pc.stored.intent.intentId;
    assert IdOk(w, id) && WorkerAt(w, k);
    SentEntry(w, after, k, id);
    SendingStep(w, after, k, id);
  }

  lemma SentProtection(
    w: World, after: World, k: WorkerId, id: IntentId, decimals: Option<nat>, orders: seq<TriggerOrder>)
    requires k in w.workers && w.workers[k].pc.FillRecorded? && w.workers[k].pc.stored.intent.intentId == id
    requires IsProtection(w.workers[k].pc.stored.intent, w.workers[k].pc.fill, decimals, orders)
    requires IdOk(w, id) && WorkerAt(w, k)
    requires after == DoSendProtection(w, k, decimals, orders)
    ensures IdOk(after, id) && WorkerAt(after, k)
    ensures after.db == w.db && after.replies == w.replies
    ensures |after.calls| == |w.calls| + 1 && after.calls == w.calls + [after.calls[|w.calls|]]
    ensures CallOk(after, after.calls[|w.calls|])
    ensures Touches(w, after, id, Some(k))
    ensures k in after.workers && Held(after.workers[k].pc) == Some(id)
  {
    ProtectionHasPositiveLegs(w.workers[k].pc.stored.intent, w.workers[k].pc.fill, decimals, orders);
    CallAdded(w.calls, after.calls[|w.calls|]);
  }

  lemma SendProtectionStep(w: World, k: WorkerId, decimals: Option<nat>, orders: seq<TriggerOrder>)
    requires WorldOk(w) && k in w.workers && w.workers[k].pc.FillRecorded?
    requires IsProtection(w.workers[k].pc.stored.intent, w.workers[k].pc.fill, decimals, orders)
    ensures WorldOk(DoSendProtection(w, k, decimals, orders))
  {
    var after, id := DoSendProtection(w, k, decimals, orders), w.workers[k].pc.stored.intent.intentId;
    assert IdOk(w, id) && WorkerAt(w, k);
    SentProtection(w, after, k, id, decimals, orders);
    SendingStep(w, after, k, id);
  }

  lemma SentClose(w: World, after: World, k: WorkerId, id: IntentId, decimals: Option<nat>)
    requires k in w.workers && w.workers[k].pc.Closing? && w.workers[k].pc.stored.intent.intentId == id
    requires RoundSize(decimals, w.workers[k].pc.fill.size).Ok?
    requires IdOk(w, id) && WorkerAt(w, k)
    requires after == DoSendClose(w, k, decimals)
    ensures IdOk(after, id) && WorkerAt(after, k)
    ensures after.db == w.db && after.replies == w.replies
    ensures |after.calls| == |w.calls| + 1 && after.calls == w.calls + [after.calls[|w.calls|]]
    ensures CallOk(after, after.calls[|w.calls|])
    ensures Touches(w, after, id, Some(k))
    ensures k in after.workers && Held(after.workers[k].pc) == Some(id)
  {
    CallAdded(w.calls, after.calls[|w.calls|]);
  }

  lemma SendCloseStep(w: World, k: WorkerId, decimals: Option<nat>)
    requires WorldOk(w) && k in w.workers && w.workers[k].pc.Closing?
    requires RoundSize(decimals, w.workers[k].pc.fill.size).Ok?
    ensures WorldOk(DoSendClose(w, k, decimals))
  {
    var after, id := DoSendClose(w, k, decimals), w.workers[k].pc.stored.intent.intentId;
    assert IdOk(w, id) && WorkerAt(w, k);
    SentClose(w, after, k, id, decimals);
    SendingStep(w, after, k, id);
  }

  /** The world after a worker recorded what it was told and went on. */
  function Recorded(w: World, k: WorkerId, id: IntentId, db: Tables, replies: Replies, pc: Pc): World {
    SetPc(w.(db := db, replies := w.replies[id := replies]), k, pc)
  }

  /** The execution has a new status; the contents of its intent are as before. */
  ghost predicate MovedTo(before: Tables, db: Tables, id: IntentId, status: LiveStatus) {
    && id in before.executions && id in before.intents && id in db.executions && id in db.intents
    && db.executions[id] == before.executions[id].(status := status)
    && db.intents[id].intent == before.intents[id].intent
    && db.intents[id].riskDecision == before.intents[id].riskDecision
    && db.intents[id].manualConfirmation == before.intents[id].manualConfirmation
    && before.journal <= db.journal
  }

  lemma RecordedId(w: World, k: WorkerId, id: IntentId, db: Tables, status: LiveStatus, replies: Replies, pc: Pc)
    requires IdOk(w, id) && MovedTo(w.db, db, id, status)
    requires AnswersOk(status, replies)
    requires Agreed(replies.protection) ==>
               EachWaits(replies.protection.value.value) && ProtectionsFor(w.calls, id) == 1
    requires CallCountsOk(status, CountsOf(w.calls, id))
    requires LedgerOk(LedgerOf(db, id), db.intents[id].intent, db.executions[id], replies)
    ensures IdOk(Recorded(w, k, id, db, replies, pc), id)
  {
    var after := Recorded(w, k, id, db, replies, pc);
    var event := IntentManuallyConfirmed(
      id, w.db.intents[id].manualConfirmation.value.digest,
          w.db.intents[id].manualConfirmation.value.confirmedBy.value);
    assert event in w.db.journal;
    assert ConfirmationAt(after, id);
  }

  lemma RecordedTouches(w: World, k: WorkerId, id: IntentId, db: Tables, replies: Replies, pc: Pc)
    requires OnlyRow(w.db, db, id) && k in w.workers
    ensures Touches(w, Recorded(w, k, id, db, replies, pc), id, Some(k))
  {
  }

  /** What remains to be shown of a recording worker: the history of its id and its own state. */
  lemma RecordedStep(w: World, k: WorkerId, id: IntentId, db: Tables, replies: Replies, pc: Pc)
    requires WorldOk(w) && k in w.workers && Held(w.workers[k].pc) == Some(id)
    requires TablesOk(db) && OnlyRow(w.db, db, id) && Remembers(w.db, db)
    requires IdOk(Recorded(w, k, id, db, replies, pc), id)
    requires WorkerAt(Recorded(w, k, id, db, replies, pc), k)
    requires Agreed(RepliesOf(w, id).entry) ==> replies.entry == RepliesOf(w, id).entry
    requires Held(pc) in {None, Some(id)}
    ensures WorldOk(Recorded(w, k, id, db, replies, pc))
  {
    var after := Recorded(w, k, id, db, replies, pc);
    RecordedTouches(w, k, id, db, replies, pc);
    TouchesIsStep(w, after, id, Some(k));
    CallsKept(w, after);
    WorkerStep(w, after, k, id);
  }

  lemma FinishMoves(db: Tables, id: IntentId, move: Move)
    requires FinishLiveTransition(db, id, move).1.Ok?
    ensures MovedTo(db, FinishLiveTransition(db, id, move).0, id, move.toLive)
    ensures FinishLiveTransition(db, id, move).0.orders == db.orders
  {
  }

  /** A worker records an outcome that moves its execution. */
  lemma FinishStep(w: World, k: WorkerId, id: IntentId, move: Move, replies: Replies, pc: Pc)
    requires WorldOk(w) && k in w.workers && Held(w.workers[k].pc) == Some(id)
    requires id in w.db.executions && id in w.db.intents && w.db.executions[id].status == move.fromLive && Paired(move)
    requires AnswersOk(move.toLive, replies)
    requires Agreed(replies.protection) ==>
               EachWaits(replies.protection.value.value) && ProtectionsFor(w.calls, id) == 1
    requires CallCountsOk(move.toLive, CountsOf(w.calls, id))
    requires LedgerOk(LedgerOf(w.db, id), w.db.intents[id].intent, w.db.executions[id].(status := move.toLive), replies)
    requires var db := FinishLiveTransition(w.db, id, move).0;
             MovedTo(w.db, db, id, move.toLive) && db.orders == w.db.orders ==>
                 WorkerAt(Recorded(w, k, id, db, replies, pc), k)
    requires Agreed(RepliesOf(w, id).entry) ==> replies.entry == RepliesOf(w, id).entry
    requires Held(pc) in {None, Some(id)}
    ensures FinishLiveTransition(w.db, id, move).1.Ok?
    ensures WorldOk(Recorded(w, k, id, FinishLiveTransition(w.db, id, move).0, replies, pc))
  {
    var db := FinishLiveTransition(w.db, id, move).0;
    FinishKeepsTables(w.db, id, move);
    FinishMoves(w.db, id, move);
    assert IdOk(w, id);
    RecordedId(w, k, id, db, move.toLive, replies, pc);
    RecordedStep(w, k, id, db, replies, pc);
  }

  lemma EntryFailsStep(w: World, k: WorkerId, reply: Reply<ConfirmedFill>)
    requires WorldOk(w) && k in w.workers && w.workers[k].pc.EntrySent? && reply.Err?
    ensures WorldOk(DoEntryReturns(w, k, reply)) && DoEntryReturns(w, k, reply).workers[k].pc.Idle?
  {
    var id := w.workers[k].pc.stored.intent.intentId;
    assert IdOk(w, id) && WorkerAt(w, k);
    OutcomesArePaired();
    var move := if reply.error.Definite? then ENTRY_FAILED else ENTRY_UNKNOWN;
    FinishStep(w, k, id, move, RepliesOf(w, id).(entry := Some(reply)), Idle);
  }

  lemma FillRecordedStep(w: World, k: WorkerId, fill: ConfirmedFill)
    requires WorldOk(w) && k in w.workers && w.workers[k].pc.EntrySent?
    ensures WorldOk(DoEntryReturns(w, k, Ok(fill))) && DoEntryReturns(w, k, Ok(fill)).workers[k].pc.FillRecorded?
  {
    var stored := w.workers[k].pc.stored;
    var id := stored.intent.intentId;
    assert IdOk(w, id) && WorkerAt(w, k);
    FillKeepsTables(w.db, id, fill);
    FillChanges(w.db, id, fill);
    FillMoves(w.db, id, fill);
    var db, replies := RecordEntryFill(w.db, id, fill).0, RepliesOf(w, id).(entry := Some(Ok(fill)));
    RecordedId(w, k, id, db, EntryFilled, replies, FillRecorded(stored, fill));
    RecordedStep(w, k, id, db, replies, FillRecorded(stored, fill));
  }

  lemma FillMoves(db: Tables, id: IntentId, fill: ConfirmedFill)
    requires RecordEntryFill(db, id, fill).1.Ok?
    ensures MovedTo(db, RecordEntryFill(db, id, fill).0, id, EntryFilled)
  {
  }

  lemma RefusedProtection(w: World, id: IntentId, fill: ConfirmedFill, reply: ProtectionReply)
    requires IdOk(w, id) && id in w.db.executions && id in w.db.intents
    requires w.db.executions[id].status.EntryFilled? && RepliesOf(w, id) == Replies(Some(Ok(fill)), None, None)
    requires reply.Err?
    ensures var replies := RepliesOf(w, id).(protection := Some(reply));
            && AnswersOk(EmergencyClosing, replies)
            && CallCountsOk(EmergencyClosing, CountsOf(w.calls, id))
            && LedgerOk(LedgerOf(w.db, id), w.db.intents[id].intent,
                w.db.executions[id].(status := EmergencyClosing), replies)
            && ClosesFor(w.calls, id) == 0
  {
  }

  lemma ClosingHolder(
    w: World, k: WorkerId, stored: StoredIntent, fill: ConfirmedFill, db: Tables, replies: Replies)
    requires k in w.workers && replies.entry == Some(Ok(fill))
    requires Holds(w.db, w.workers[k].account, stored, EntryFilled)
    requires MovedTo(w.db, db, stored.intent.intentId, EmergencyClosing)
    requires ClosesFor(w.calls, stored.intent.intentId) == 0
    ensures WorkerAt(Recorded(w, k, stored.intent.intentId, db, replies, Closing(stored, fill)), k)
  {
  }

  lemma ProtectionFailsStep(w: World, k: WorkerId, reply: ProtectionReply)
    requires WorldOk(w) && k in w.workers && reply.Err?
    requires w.workers[k].pc.FillRecorded? || w.workers[k].pc.ProtectionSent?
    ensures WorldOk(DoProtectionReturns(w, k, reply)) && DoProtectionReturns(w, k, reply).workers[k].pc.Closing?
  {
    var stored, fill := w.workers[k].pc.stored, w.workers[k].pc.fill;
    var id := stored.intent.intentId;
    assert IdOk(w, id) && WorkerAt(w, k);
    OutcomesArePaired();
    RefusedProtection(w, id, fill, reply);
    var db, replies := FinishLiveTransition(w.db, id, EMERGENCY_CLOSING).0,
        RepliesOf(w, id).(protection := Some(reply));
    if MovedTo(w.db, db, id, EmergencyClosing) {
      ClosingHolder(w, k, stored, fill, db, replies);
    }
    FinishStep(w, k, id, EMERGENCY_CLOSING, replies, Closing(stored, fill));
  }

  /** A validated intent of more than 256 targets with positive percentages wraps the sum. */
  lemma ManyPositiveTargetsWrap(w: World, id: IntentId)
    requires AdmissionAt(w, id) && id in w.db.intents && LegsPositive(w.db.intents[id].intent)
    requires RolesRunOut(w.db.intents[id].intent)
    ensures TotalWraps(w.db.intents[id].intent)
  {
    var intent := w.db.intents[id].intent;
    var now :| Validate(intent, now).None?;
    PositiveTotal(intent.exit.takeProfit);
    ValidatedPercentTotal(intent, now);
  }

  lemma LedgerBeforeProtection(w: World, id: IntentId, fill: ConfirmedFill)
    requires IdOk(w, id) && id in w.db.executions && id in w.db.intents
    requires w.db.executions[id].status.EntryFilled?
    requires RepliesOf(w, id) == Replies(Some(Ok(fill)), None, None)
    ensures LedgerOf(w.db, id) == EntryLedger(w.db.executions[id], fill)
  {
  }

  /** The result of recording the verified protection of a held fill. */
  lemma RecordingProtection(w: World, id: IntentId, intent: TradeIntent, fill: ConfirmedFill)
    requires IdOk(w, id) && TablesOk(w.db) && intent.intentId == id
    requires id in w.db.executions && id in w.db.intents && w.db.intents[id].intent == intent
    requires w.db.executions[id].status.EntryFilled?
    requires RepliesOf(w, id) == Replies(Some(Ok(fill)), None, None)
    ensures var (db, result) := RecordProtectionOrders(w.db, intent, fill);
            && (result.Ok? <==> !RolesRunOut(intent))
            && MovedTo(w.db, db, id, EntryFilled)
            && db.executions == w.db.executions && db.intents == w.db.intents
            && (result.Ok? ==> FullLedger(LedgerOf(db, id), intent, w.db.executions[id], fill))
            && (result.Err? ==> db == w.db)
  {
    LedgerBeforeProtection(w, id, fill);
    ProtectionKeepsTables(w.db, intent, fill);
    InsertProtectionExact(LedgerOf(w.db, id), intent, EntryOrder(w.db.executions[id], fill), fill.size);
  }

  lemma ProtectionHoldsId(w: World, k: WorkerId, id: IntentId, fill: ConfirmedFill, db: Tables, reply: ProtectionReply,
      pc: Pc)
    requires IdOk(w, id) && MovedTo(w.db, db, id, EntryFilled) && reply.Ok? && EachWaits(reply.value)
    requires w.db.executions[id].status.EntryFilled?
    requires RepliesOf(w, id) == Replies(Some(Ok(fill)), None, None) && ProtectionsFor(w.calls, id) == 1
    requires db.executions == w.db.executions && db.intents == w.db.intents
    requires if RolesRunOut(w.db.intents[id].intent) then db == w.db
             else FullLedger(LedgerOf(db, id), w.db.intents[id].intent, w.db.executions[id], fill)
    ensures IdOk(Recorded(w, k, id, db, RepliesOf(w, id).(protection := Some(reply)), pc), id)
  {
    RecordedId(w, k, id, db, EntryFilled, RepliesOf(w, id).(protection := Some(reply)), pc);
  }

  lemma ProtectionHoldsStep(w: World, k: WorkerId, reply: ProtectionReply)
    requires WorldOk(w) && k in w.workers && w.workers[k].pc.ProtectionSent? && reply.Ok? && EachWaits(reply.value)
    ensures WorldOk(DoProtectionReturns(w, k, reply))
    ensures var pc := DoProtectionReturns(w, k, reply).workers[k].pc;
            if RolesRunOut(w.workers[k].pc.stored.intent) then pc.Stopped? else pc.ProtectionRecorded?
  {
    var stored, fill := w.workers[k].pc.stored, w.workers[k].pc.fill;
    var id := stored.intent.intentId;
    assert IdOk(w, id) && WorkerAt(w, k);
    var (db, result) := RecordProtectionOrders(w.db, stored.intent, fill);
    var pc := Continue(result, stored, ProtectionRecorded(stored, fill));
    ProtectionKeepsTables(w.db, stored.intent, fill);
    RecordingProtection(w, id, stored.intent, fill);
    if RolesRunOut(stored.intent) {
      ManyPositiveTargetsWrap(w, id);
    }
    ProtectionHoldsId(w, k, id, fill, db, reply, pc);
    RecordedStep(w, k, id, db, RepliesOf(w, id).(protection := Some(reply)), pc);
  }

  /** More than 256 targets can be sent only with a total that wrapped in validation, and a total that
      wrapped takes more than 256. */
  lemma SentTargetsWrapExactly(w: World, k: WorkerId)
    requires WorldOk(w) && k in w.workers && w.workers[k].pc.ProtectionSent?
    ensures var targets := w.workers[k].pc.stored.intent.exit.takeProfit;
            |targets| > 256 <==> PercentTotal(targets) >= 0x1_0000
  {
    var stored := w.workers[k].pc.stored;
    assert WorkerAt(w, k) && IdOk(w, stored.intent.intentId);
    PercentTotalBound(stored.intent.exit.takeProfit);
    if RolesRunOut(stored.intent) {
      ManyPositiveTargetsWrap(w, stored.intent.intentId);
    }
  }

  lemma FinishProtectedStep(w: World, k: WorkerId)
    requires WorldOk(w) && k in w.workers && w.workers[k].pc.ProtectionRecorded?
    ensures WorldOk(DoFinishProtected(w, k)) && DoFinishProtected(w, k).workers[k].pc.Idle?
  {
    var stored := w.workers[k].pc.stored;
    var id := stored.intent.intentId;
    assert IdOk(w, id) && WorkerAt(w, k);
    OutcomesArePaired();
    FinishStep(w, k, id, PROTECTED, RepliesOf(w, id), Idle);
    SameReplies(w, k, id, FinishLiveTransition(w.db, id, PROTECTED).0);
  }

  /** Nothing new was answered: the worlds differ at most in how an absent answer is stored. */
  lemma SameReplies(w: World, k: WorkerId, id: IntentId, db: Tables)
    requires k in w.workers && WorldOk(Recorded(w, k, id, db, RepliesOf(w, id), Idle))
    ensures WorldOk(SetPc(w.(db := db), k, Idle))
  {
    var from, to := Recorded(w, k, id, db, RepliesOf(w, id), Idle), SetPc(w.(db := db), k, Idle);
    QuietStep(from, to);
  }

  lemma ClosedReplies(w: World, id: IntentId, status: LiveStatus, reply: Reply<ConfirmedFill>, move: Move)
    requires IdOk(w, id) && id in w.db.executions && id in w.db.intents
    requires w.db.executions[id].status.EmergencyClosing? && (reply.Ok? ==> ClosesFor(w.calls, id) == 1)
    requires move == if reply.Ok? then CLOSED else RECONCILIATION_REQUIRED
    requires status == move.toLive
    ensures var replies := RepliesOf(w, id).(close := Some(reply));
            && AnswersOk(status, replies)
            && CallCountsOk(status, CountsOf(w.calls, id))
            && LedgerOk(LedgerOf(w.db, id), w.db.intents[id].intent, w.db.executions[id].(status := status), replies)
  {
  }

  lemma CloseReturnsStep(w: World, k: WorkerId, reply: Reply<ConfirmedFill>)
    requires WorldOk(w) && k in w.workers
    requires w.workers[k].pc.CloseSent? || (w.workers[k].pc.Closing? && reply.Err?)
    ensures WorldOk(DoCloseReturns(w, k, reply)) && DoCloseReturns(w, k, reply).workers[k].pc.Idle?
  {
    var id := w.workers[k].pc.stored.intent.intentId;
    assert IdOk(w, id) && WorkerAt(w, k);
    OutcomesArePaired();
    var move := if reply.Ok? then CLOSED else RECONCILIATION_REQUIRED;
    ClosedReplies(w, id, move.toLive, reply, move);
    FinishStep(w, k, id, move, RepliesOf(w, id).(close := Some(reply)), Idle);
  }
}
