/** What requests can cause over whole runs: each takes effect at most once, and is answered from the
    store when it is repeated. */
module Requests {
  import opened Wrappers
  import opened Domain
  import opened Risk
  import opened Database
  import opened Engine
  import opened StoreInvariant
  import opened Protocol
  import opened ProtocolInvariant
  import opened Reachable
  import opened Evolution

  // ---------- Replayed requests ----------

  /** The index leads from the key to the stored intent. */
  ghost predicate Indexed(db: Tables, id: IntentId, intent: TradeIntent, key: string) {
    && id in db.intents && db.intents[id].intent == intent
    && (intent.strategyId, key) in db.idempotency && db.idempotency[(intent.strategyId, key)] == id
  }

  lemma AdmissionIndexes(w: World, intent: TradeIntent, key: string, now: Time)
    requires WorldOk(w) && Sizable(intent) && Admit(w.policy, w.db, intent, key, now).1.Ok?
    ensures Indexed(DoSubmit(w, intent, key, now).db, intent.intentId, intent, key)
  {
    var decision := EvaluateAdmission(w.policy, intent);
    SubmitShape(w.db, intent, key, decision, AdmissionConfirmation(intent, decision, now));
    var slot := (intent.strategyId, key);
    if slot in w.db.idempotency {
      assert RowOk(w.db, w.db.idempotency[slot]);
    }
  }

  lemma IndexedForever(w: World, run: seq<Action>, id: IntentId, intent: TradeIntent, key: string)
    requires WorldOk(w) && Indexed(w.db, id, intent, key)
    ensures Indexed(After(w, run).db, id, intent, key)
  {
    RunRemembers(w, run);
  }

  /** The same signal of the same strategy instance on the same account. */
  ghost predicate SharesSignal(a: TradeIntent, b: TradeIntent) {
    (a.accountId, a.strategyInstanceId, a.signalId) == (b.accountId, b.strategyInstanceId, b.signalId)
  }

  /** A request that was admitted is answered from the store whenever it is repeated, at any later time
      and under any policy, and changes nothing. Its key refuses every other intent, and its signal
      admits nothing else. */
  lemma RepeatedSubmission(
    w: World, intent: TradeIntent, key: string, now: Time, run: seq<Action>,
    other: TradeIntent, otherKey: string, later: Time)
    requires WorldOk(w) && Enabled(w, Submit(intent, key, now)) && Admit(w.policy, w.db, intent, key, now).1.Ok?
    requires Sizable(other)
    ensures var v := After(Next(w, Submit(intent, key, now)), run);
            var (after, result) := Admit(v.policy, v.db, other, otherKey, later);
            var sameKey := other.strategyId == intent.strategyId && otherKey == key;
            && (sameKey && other == intent ==>
                  && after == v.db && intent.intentId in v.db.intents
                  && result == Ok((v.db.intents[intent.intentId], false)))
            && (sameKey && other != intent ==> after == v.db && result == Err(IdempotencyConflict))
            && (SharesSignal(other, intent) ==> after == v.db)
  {
    var admitted := Next(w, Submit(intent, key, now));
    AdmissionIndexes(w, intent, key, now);
    NextKeepsWorld(w, Submit(intent, key, now));
    IndexedForever(admitted, run, intent.intentId, intent, key);
    var v := After(admitted, run);
    AnsweredFromIndex(v.db, v.policy, intent, key, other, otherKey, later);
  }

  lemma AnsweredFromIndex(
    db: Tables, policy: RiskPolicy, intent: TradeIntent, key: string, other: TradeIntent, otherKey: string, later: Time)
    requires Indexed(db, intent.intentId, intent, key) && Sizable(other)
    ensures var (after, result) := Admit(policy, db, other, otherKey, later);
            var sameKey := other.strategyId == intent.strategyId && otherKey == key;
            && (sameKey && other == intent ==> after == db && result == Ok((db.intents[intent.intentId], false)))
            && (sameKey && other != intent ==> after == db && result == Err(IdempotencyConflict))
            && (SharesSignal(other, intent) ==> after == db)
  {
  }

  /** Each request is answered in one of five ways: a known key replays its intent or conflicts with
      another one, a known id and a known signal are refused, and everything else is admitted. Only
      admission changes anything. */
  lemma RequestIsAnswered(db: Tables, policy: RiskPolicy, intent: TradeIntent, key: string, now: Time)
    requires TablesOk(db) && Sizable(intent)
    ensures var (after, result) := Admit(policy, db, intent, key, now);
            var slot := (intent.strategyId, key);
            var known := intent.intentId in db.intents;
            var seen := exists id | id in db.intents :: SharesSignal(db.intents[id].intent, intent);
            && (slot in db.idempotency ==>
                  && db.idempotency[slot] in db.intents
                  && var row := db.intents[db.idempotency[slot]];
                     result == if row.intent == intent then Ok((row, false)) else Err(IdempotencyConflict))
            && (result == Err(IntentIdConflict) <==> slot !in db.idempotency && known)
            && (result == Err(SignalReplay) <==> slot !in db.idempotency && !known && seen)
            && (result.Ok? && result.value.1 <==> slot !in db.idempotency && !known && !seen)
            && (after != db ==> result.Ok? && result.value.1)
  {
    var slot := (intent.strategyId, key);
    assert slot in db.idempotency ==> db.idempotency[slot] in db.intents;
    assert SignalSeen(db, intent) <==> exists id | id in db.intents :: SharesSignal(db.intents[id].intent, intent);
  }

  /** Admission decides at once: the kill switch or the policy reject for good, and everything else
      awaits a confirmation that binds intent and decision and lapses with the intent, or after two
      minutes if that is earlier. Nothing is queued or accepted without one. */
  lemma AdmissionOutcome(db: Tables, policy: RiskPolicy, intent: TradeIntent, key: string, now: Time)
    requires Sizable(intent)
    requires Admit(policy, db, intent, key, now).1.Ok? && Admit(policy, db, intent, key, now).1.value.1
    ensures var (after, result) := Admit(policy, db, intent, key, now);
            var decision, row := EvaluateAdmission(policy, intent), result.value.0;
            && after.intents == db.intents[intent.intentId := row]
            && after.idempotency == db.idempotency[(intent.strategyId, key) := intent.intentId]
            && after.executions == db.executions && after.orders == db.orders
            && row.intent == intent && row.idempotencyKey == key && row.riskDecision == Some(decision)
            && (row.status.RiskRejected? <==> db.killSwitch || decision.status.Rejected?)
            && (row.status.AwaitingConfirmation? <==> !db.killSwitch && decision.status.Approved?)
            && (row.statusReason == "kill_switch_enabled" <==> db.killSwitch)
            && (row.statusReason == "risk_policy_rejected" <==> !db.killSwitch && decision.status.Rejected?)
            && (row.statusReason == "awaiting_manual_confirmation" <==> row.status.AwaitingConfirmation?)
            && (row.manualConfirmation.Some? <==> decision.status.Approved?)
            && (row.manualConfirmation.Some? ==>
                  var confirmation := row.manualConfirmation.value;
                  && confirmation.expiresAt <= intent.expiresAt && confirmation.expiresAt <= now + 120_000
                  && confirmation.expiresAt in {intent.expiresAt, now + 120_000}
                  && confirmation.digest == Digest(intent, decision, confirmation.expiresAt)
                  && confirmation.confirmedAt.None? && confirmation.confirmedBy.None?)
  {
    assert |"kill_switch_enabled"| == 19 && |"risk_policy_rejected"| == 20;
    assert |"awaiting_manual_confirmation"| == 28;
  }

  predicate Awaits(db: Tables, id: IntentId, digest: Digest) {
    && id in db.intents && db.intents[id].manualConfirmation.Some? && db.intents[id].status.AwaitingConfirmation?
    && db.intents[id].manualConfirmation.value.digest == digest
  }

  lemma ShadowConfirmationMoves(db: Tables, id: IntentId, digest: Digest, operator: string, now: Time)
    ensures var (after, result) := ConfirmIntent(db, id, digest, operator, now);
            if Awaits(db, id, digest)
            then
              var row := ShadowRow(db.intents[id], db.killSwitch, operator, now);
              && |after.journal| > |db.journal|
              && after.executions == db.executions
              && Lookup(after.intents, id) == Some(row)
              && (row.status.ShadowAccepted? ==> result == Ok(row))
            else after == db
  {
  }

  lemma ShadowOutcome(row: StoredIntent, killSwitch: bool, operator: string, now: Time)
    requires row.manualConfirmation.Some?
    ensures var settled := ShadowRow(row, killSwitch, operator, now);
            && (settled.status.ShadowAccepted? <==> !ConfirmationOver(row, now) && !killSwitch)
            && (settled.status.RiskRejected? <==> ConfirmationOver(row, now) || killSwitch)
            && settled.manualConfirmation.Some?
            && settled.manualConfirmation.value.digest == row.manualConfirmation.value.digest
            && (settled.status.ShadowAccepted? ==> settled.manualConfirmation.value.confirmedAt == Some(now))
  {
  }

  /** A shadow confirmation settles an intent that awaits it, exactly once: accepted in time and with
      the kill switch off, naming the operator, and rejected for good otherwise; only when it is late does
      it also fail. */
  lemma ShadowConfirmationSettles(db: Tables, id: IntentId, digest: Digest, operator: string, now: Time)
    ensures var (after, result) := ConfirmIntent(db, id, digest, operator, now);
            && (after != db <==> Awaits(db, id, digest))
            && (Awaits(db, id, digest) ==>
                  && id in after.intents && after.executions == db.executions
                  && var row, settled := db.intents[id], after.intents[id];
                     var inTime := now < row.manualConfirmation.value.expiresAt && now < row.intent.expiresAt;
                     && after.intents == db.intents[id := settled] && SameContents(row, settled)
                     && (settled.status.ShadowAccepted? <==> inTime && !db.killSwitch)
                     && (settled.status.RiskRejected? <==> !inTime || db.killSwitch)
                     && (settled.status.ShadowAccepted? ==>
                           && settled.manualConfirmation.Some?
                           && settled.manualConfirmation.value
                              == row.manualConfirmation.value.(confirmedAt := Some(now), confirmedBy := Some(operator)))
                     && (settled.status.RiskRejected? ==> settled.manualConfirmation == row.manualConfirmation)
                     && settled.statusReason == (if !inTime then "confirmation_expired"
                                                 else if db.killSwitch then "kill_switch_enabled"
                                                 else "manually_confirmed_shadow_only")
                     && (if inTime then result == Ok(settled) else result == Err(ConfirmationExpired)))
  {
    ShadowConfirmationMoves(db, id, digest, operator, now);
    if Awaits(db, id, digest) {
      ShadowOutcome(db.intents[id], db.killSwitch, operator, now);
    }
  }

  /** What a confirmation is told that settles or queues nothing. An unknown intent, and one that never
      asked for confirmation, await none; then the digest has to match; an intent that was confirmed in
      the same mode is answered again; and everything else awaits none any more. A live confirmation is
      also refused when it is late, or under the kill switch. */
  lemma RefusalsExactly(
    db: Tables, id: IntentId, digest: Digest, operator: string, account: Account, now: Time)
    requires RowOk(db, id)
    ensures var shadow := ConfirmIntent(db, id, digest, operator, now).1;
            var live := ConfirmIntentForExecution(db, id, digest, operator, account, now).1;
            if id !in db.intents || db.intents[id].manualConfirmation.None? then
              shadow == Err(NotAwaitingConfirmation) && live == Err(NotAwaitingConfirmation)
            else
              var row := db.intents[id];
              var confirmation := row.manualConfirmation.value;
              var confirmed := confirmation.confirmedAt.Some?;
              if confirmation.digest != digest then
                shadow == Err(ConfirmationMismatch) && live == Err(ConfirmationMismatch)
              else if row.status.AwaitingConfirmation? then
                && (now >= confirmation.expiresAt || now >= row.intent.expiresAt ==> live == Err(ConfirmationExpired))
                && (now < confirmation.expiresAt && now < row.intent.expiresAt && db.killSwitch ==>
                      live == Err(ConcurrentTransition))
              else
                && shadow == (if row.status.ShadowAccepted? && confirmed then Ok(row) else Err(NotAwaitingConfirmation))
                && live == (if row.status.Approved? && confirmed then Ok(row) else Err(NotAwaitingConfirmation))
  {
  }

  lemma SettledAnswer(db: Tables, id: IntentId, digest: Digest, operator: string, now: Time)
    requires id in db.intents && !db.intents[id].status.AwaitingConfirmation?
    requires db.intents[id].manualConfirmation.Some? && db.intents[id].manualConfirmation.value.digest == digest
    ensures var (after, result) := ConfirmIntent(db, id, digest, operator, now);
            && after == db
            && (db.intents[id].status.ShadowAccepted? && db.intents[id].manualConfirmation.value.confirmedAt.Some? ==>
                  result == Ok(db.intents[id]))
  {
  }

  /** Confirming a settled intent again changes nothing, and an accepted one is answered the same. */
  lemma ShadowConfirmationRepeats(
    db: Tables, id: IntentId, digest: Digest, operator: string, now: Time, again: string, later: Time)
    requires Awaits(db, id, digest)
    ensures var (after, result) := ConfirmIntent(db, id, digest, operator, now);
            && ConfirmIntent(after, id, digest, again, later).0 == after
            && (id in after.intents && after.intents[id].status.ShadowAccepted? ==>
                  ConfirmIntent(after, id, digest, again, later).1 == result)
  {
    ShadowConfirmationMoves(db, id, digest, operator, now);
    ShadowOutcome(db.intents[id], db.killSwitch, operator, now);
    SettledAnswer(ConfirmIntent(db, id, digest, operator, now).0, id, digest, again, later);
  }

  /** The execution is still there, and while it is pending both rows are as before. */
  ghost predicate KeptWhilePending(db: Tables, after: Tables, id: IntentId) {
    && id in db.executions && id in after.executions
    && (after.executions[id].status.Pending? ==>
          && after.executions[id] == db.executions[id]
          && Lookup(after.intents, id) == Lookup(db.intents, id))
  }

  lemma KeptOneStep(db: Tables, middle: Tables, after: Tables, id: IntentId)
    requires KeptWhilePending(db, middle, id) && StatusStep(middle, after, id)
    ensures KeptWhilePending(db, after, id)
  {
  }

  lemma {:induction false} PendingRowsAreKept(w: World, run: seq<Action>, id: IntentId)
    requires WorldOk(w) && id in w.db.executions
    ensures KeptWhilePending(w.db, After(w, run).db, id)
  {
    if run != [] {
      var init, last := run[..|run| - 1], run[|run| - 1];
      PendingRowsAreKept(w, init, id);
      EveryRunKeepsWorld(w, init);
      NextEvolves(After(w, init), last, id);
      KeptOneStep(w.db, After(w, init).db, After(w, run).db, id);
    }
  }

  /** What a repeated live confirmation is told: the confirmed row while it is approved, and afterwards
      that nothing awaits confirmation. */
  lemma RepeatedAnswer(
    db: Tables, id: IntentId, digest: Digest, operator: string, account: Account, now: Time)
    requires RowOk(db, id) && id in db.executions && id in db.intents
    requires db.intents[id].manualConfirmation.Some? && db.intents[id].manualConfirmation.value.digest == digest
    ensures var (after, result) := ConfirmIntentForExecution(db, id, digest, operator, account, now);
            && after == db
            && (!db.executions[id].status.Pending? ==> result == Err(NotAwaitingConfirmation))
            && (db.executions[id].status.Pending? && db.intents[id].manualConfirmation.value.confirmedAt.Some? ==>
                  result == Ok(db.intents[id]))
  {
  }

  lemma ConfirmedRowIsStored(
    db: Tables, id: IntentId, digest: Digest, operator: string, account: Account, now: Time)
    requires MayQueue(db, id, digest, now)
    ensures var (after, result) := ConfirmIntentForExecution(db, id, digest, operator, account, now);
            && id in after.executions && id in after.intents && after.executions[id].status.Pending?
            && result == Ok(after.intents[id])
            && after.intents[id].manualConfirmation.Some?
            && after.intents[id].manualConfirmation.value.digest == digest
            && after.intents[id].manualConfirmation.value.confirmedBy == Some(operator)
            && after.intents[id].manualConfirmation.value.confirmedAt == Some(now)
  {
  }

  /** A live confirmation that queued an intent is answered the same whenever it is repeated, by
      whomever, exactly while the execution is pending; afterwards nothing awaits confirmation. It never
      changes anything again. */
  lemma LiveConfirmationRepeats(
    w: World, id: IntentId, digest: Digest, operator: string, account: Account, now: Time, run: seq<Action>,
    again: string, other: Account, later: Time)
    requires WorldOk(w) && Enabled(w, ConfirmLive(id, digest, operator, account, now))
        && MayQueue(w.db, id, digest, now)
    ensures var first := ConfirmIntentForExecution(w.db, id, digest, operator, account, now).1;
            var v := After(Next(w, ConfirmLive(id, digest, operator, account, now)), run);
            && first.Ok? && id in v.db.executions
            && ConfirmIntentForExecution(v.db, id, digest, again, other, later)
               == (v.db, if v.db.executions[id].status.Pending? then first else Err(NotAwaitingConfirmation))
  {
    var confirm := ConfirmLive(id, digest, operator, account, now);
    var queued := Next(w, confirm);
    ConfirmedRowIsStored(w.db, id, digest, operator, account, now);
    NextKeepsWorld(w, confirm);
    PendingRowsAreKept(queued, run, id);
    RunRemembers(queued, run);
    EveryRunKeepsWorld(queued, run);
    assert RowOk(After(queued, run).db, id);
    RepeatedAnswer(After(queued, run).db, id, digest, again, other, later);
  }

  /** Once an intent is queued, no further confirmation changes anything, whatever it presents and
      whenever it comes. */
  lemma ConfirmedOnce(
    w: World, run: seq<Action>, id: IntentId, digest: Digest, operator: string, account: Account, now: Time)
    requires WorldOk(w) && id in w.db.executions
    ensures ConfirmIntentForExecution(After(w, run).db, id, digest, operator, account, now).0 == After(w, run).db
  {
    RunRemembers(w, run);
    ConfirmLiveQueuesExactly(After(w, run).db, id, digest, operator, account, now);
  }

  // ---------- What the API lets through ----------

  /** Valid requests are submitted; an intent that is still valid can be confirmed while the policy in
      force approves it, and is rejected when it is confirmed while the policy does not. */
  lemma ApiChecksExactly(
    w: World, intent: TradeIntent, key: string, id: IntentId, digest: Digest, operator: string, account: Account,
    now: Time)
    ensures Enabled(w, Submit(intent, key, now)) <==> Validate(intent, now).None?
    ensures var valid := id in w.db.intents && Validate(w.db.intents[id].intent, now).None?;
            && (valid ==>
                  && Sizable(w.db.intents[id].intent)
                  && var decision := EvaluateAdmission(w.policy, w.db.intents[id].intent);
                     && (Enabled(w, RejectAtConfirmation(id, now)) <==> decision.status.Rejected?)
                     && (Enabled(w, ConfirmShadow(id, digest, operator, now)) <==> decision.status.Approved?)
                     && (Enabled(w, ConfirmLive(id, digest, operator, account, now)) <==> decision.status.Approved?))
            && (!valid ==>
                  && !Enabled(w, RejectAtConfirmation(id, now))
                  && !Enabled(w, ConfirmShadow(id, digest, operator, now))
                  && !Enabled(w, ConfirmLive(id, digest, operator, account, now)))
  {
    if Validate(intent, now).None? {
      ValidatedIsSizable(intent, now);
    }
    if id in w.db.intents && Validate(w.db.intents[id].intent, now).None? {
      ValidatedIsSizable(w.db.intents[id].intent, now);
    }
  }

  lemma NewlyQueuedIsConfirmed(w: World, action: Action, id: IntentId)
    requires WorldOk(w) && id !in w.db.executions && id in Next(w, action).db.executions
    ensures Confirms(w, action, id)
  {
    NextEvolves(w, action, id);
    forall k | k in w.workers ensures Held(w.workers[k].pc) != Some(id) {
      if Held(w.workers[k].pc) == Some(id) {
        HolderHasExecution(w, k, id);
      }
    }
  }

  lemma ConfirmedIsQueued(w: World, action: Action, id: IntentId)
    requires Confirms(w, action, id)
    ensures id in Next(w, action).db.executions
  {
    ConfirmLiveQueuesExactly(w.db, id, action.digest, action.operator, action.account, action.now);
    assert Next(w, action).db
           == ConfirmIntentForExecution(w.db, id, action.digest, action.operator, action.account, action.now).0;
  }

  /** An execution comes into being exactly by a live confirmation of an intent that is still valid, that
      the policy in force approves, and that awaits confirmation with the digest presented, in time and
      with the kill switch off. */
  lemma QueuedExactly(w: World, action: Action, id: IntentId)
    requires WorldOk(w) && id !in w.db.executions
    ensures id in Next(w, action).db.executions <==>
            && action.ConfirmLive? && action.id == id && id in w.db.intents
            && var row := w.db.intents[id];
               && Validate(row.intent, action.now).None? && Sizable(row.intent)
               && EvaluateAdmission(w.policy, row.intent).status.Approved?
               && row.status.AwaitingConfirmation? && row.manualConfirmation.Some?
               && row.manualConfirmation.value.digest == action.digest
               && action.now < row.manualConfirmation.value.expiresAt && action.now < row.intent.expiresAt
               && !w.db.killSwitch
  {
    if id in Next(w, action).db.executions {
      NewlyQueuedIsConfirmed(w, action, id);
    }
    if Confirms(w, action, id) {
      ConfirmedIsQueued(w, action, id);
    }
  }

  // ---------- Reloaded policies ----------

  /** A policy loaded between admission and confirmation decides whether the intent may be confirmed,
      not with how much: the entry is sent with the notional of the admission, and respects the new
      policy exactly when the new policy would approve at least that much. */
  lemma NotionalOutlivesPolicy(w: World, id: IntentId, k: WorkerId, policy: RiskPolicy)
    requires WorldOk(w) && k in w.workers && w.workers[k].pc.Claimed? && w.workers[k].pc.stored.intent.intentId == id
    requires id in w.db.intents && Sizable(w.db.intents[id].intent)
    requires EvaluateAdmission(policy, w.db.intents[id].intent).status.Approved?
    ensures var intent := w.db.intents[id].intent;
            var call := DoSendEntry(w, k).calls[|w.calls|];
            && call.EntryCall? && id in w.admittedUnder
            && EvaluateAdmission(w.admittedUnder[id], intent).approvedNotionalUsd == Some(call.notional)
            && (Feasible(LimitsInForce(policy, intent), intent, call.notional) <==>
                call.notional <= EvaluateAdmission(policy, intent).approvedNotionalUsd.value)
  {
    assert WorkerAt(w, k) && IdOk(w, id);
    var intent := w.db.intents[id].intent;
    AdmissionIsOptimal(policy, intent);
    FeasibleUpTo(LimitsInForce(policy, intent), intent, DoSendEntry(w, k).calls[|w.calls|].notional);
  }
}
