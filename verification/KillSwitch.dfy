/** What the kill switch stops and what it does not: it keeps intents from being queued, and lets queued
    executions go on. */
module KillSwitch {
  import opened Wrappers
  import opened Domain
  import opened Risk
  import opened Orders
  import opened Database
  import opened Engine
  import opened StoreInvariant
  import opened Protocol
  import opened ProtocolInvariant
  import opened Reachable
  import opened Evolution
  import opened Modes
  import opened Gate
  import opened Safety
  import opened LiveWorker

  // ---------- Nothing is queued ----------

  lemma SubmitKeepsSwitch(w: World, intent: TradeIntent, key: string, now: Time)
    requires Sizable(intent)
    ensures DoSubmit(w, intent, key, now).db.killSwitch == w.db.killSwitch
  {
    var decision := EvaluateAdmission(w.policy, intent);
    SubmitShape(w.db, intent, key, decision, AdmissionConfirmation(intent, decision, now));
  }

  lemma RejectKeepsSwitch(db: Tables, id: IntentId, reason: string)
    ensures TransitionIntent(db, id, RiskRejected, reason).0.killSwitch == db.killSwitch
  {
  }

  lemma RequestKeepsSwitch(w: World, action: Action)
    requires WorldOk(w) && Enabled(w, action)
    requires action.Submit? || action.RejectAtConfirmation? || action.ConfirmShadow?
    ensures Effect(w, action).db.killSwitch == w.db.killSwitch
  {
    match action
    case Submit(intent, key, now) => SubmitKeepsSwitch(w, intent, key, now);
    case RejectAtConfirmation(id, _) => RejectKeepsSwitch(w.db, id, "confirmation_pre_trade_rejected");
    case ConfirmShadow(id, digest, operator, now) =>
      assert RowOk(w.db, id);
      ConfirmShadowShape(w.db, id, digest, operator, now);
  }

  lemma FinishKeepsSwitch(db: Tables, id: IntentId, move: Move)
    ensures FinishLiveTransition(db, id, move).0.killSwitch == db.killSwitch
  {
  }

  lemma FillKeepsSwitch(db: Tables, intent: TradeIntent, fill: ConfirmedFill)
    ensures RecordEntryFill(db, intent.intentId, fill).0.killSwitch == db.killSwitch
    ensures RecordProtectionOrders(db, intent, fill).0.killSwitch == db.killSwitch
  {
  }

  lemma ReturnKeepsSwitch(w: World, action: Action)
    requires Enabled(w, action) && IsReturn(action)
    ensures Effect(w, action).db.killSwitch == w.db.killSwitch
  {
    match action
    case EntryReturns(k, Ok(fill)) => FillKeepsSwitch(w.db, w.workers[k].pc.stored.intent, fill);
    case EntryReturns(k, Err(failure)) =>
      FinishKeepsSwitch(
        w.db, w.workers[k].pc.stored.intent.intentId, if failure.Definite? then ENTRY_FAILED else ENTRY_UNKNOWN);
    case ProtectionReturns(k, _) =>
      FillKeepsSwitch(w.db, w.workers[k].pc.stored.intent, w.workers[k].pc.fill);
      FinishKeepsSwitch(w.db, w.workers[k].pc.stored.intent.intentId, EMERGENCY_CLOSING);
    case FinishProtected(k) => FinishKeepsSwitch(w.db, w.workers[k].pc.stored.intent.intentId, PROTECTED);
    case CloseReturns(k, close) =>
      FinishKeepsSwitch(
        w.db, w.workers[k].pc.stored.intent.intentId, if close.Ok? then CLOSED else RECONCILIATION_REQUIRED);
  }

  lemma ControlKeepsSwitch(w: World, action: Action)
    requires Enabled(w, action) && !IsReturn(action) && action != SwitchKill(false)
    requires !action.Submit? && !action.RejectAtConfirmation? && !action.ConfirmShadow?
    ensures w.db.killSwitch ==> Effect(w, action).db.killSwitch
  {
    match action
    case ConfirmLive(id, digest, operator, account, now) =>
      ConfirmLiveQueuesExactly(w.db, id, digest, operator, account, now);
    case ClaimNext(k, Some(id)) => assert Claim(w.db, id).0.killSwitch == w.db.killSwitch;
    case TakeSnapshot(s) => SnapshotIsQuiet(w.db, s);
    case AcknowledgeRecovery(account, reason, operator) => AcknowledgeIsQuiet(w.db, account, reason, operator);
    case _ =>
  }

  lemma NextKeepsSwitch(w: World, action: Action)
    requires WorldOk(w) && w.db.killSwitch && action != SwitchKill(false)
    ensures Next(w, action).db.killSwitch
  {
    if Enabled(w, action) {
      if IsReturn(action) {
        ReturnKeepsSwitch(w, action);
      } else if action.Submit? || action.RejectAtConfirmation? || action.ConfirmShadow? {
        RequestKeepsSwitch(w, action);
      } else {
        ControlKeepsSwitch(w, action);
      }
    }
  }

  lemma MovedHasExecution(w: World, action: Action, after: World, id: IntentId)
    requires WorldOk(w) && w.db.killSwitch && StepAt(w, action, after, id)
    ensures id in after.db.executions <==> id in w.db.executions
  {
    if k :| k in w.workers && Held(w.workers[k].pc) == Some(id) {
      assert WorkerAt(w, k);
    }
  }

  lemma NextQueuesNothing(w: World, action: Action)
    requires WorldOk(w) && w.db.killSwitch
    ensures Next(w, action).db.executions.Keys == w.db.executions.Keys
  {
    forall id ensures id in Next(w, action).db.executions <==> id in w.db.executions {
      NextEvolves(w, action, id);
      MovedHasExecution(w, action, Next(w, action), id);
    }
  }

  lemma {:induction false} KillSwitchQueuesNothing(w: World, run: seq<Action>)
    requires WorldOk(w) && w.db.killSwitch && SwitchKill(false) !in run
    ensures After(w, run).db.killSwitch && After(w, run).db.executions.Keys == w.db.executions.Keys
  {
    if run != [] {
      var init, last := run[..|run| - 1], run[|run| - 1];
      assert forall action | action in init :: action in run;
      KillSwitchQueuesNothing(w, init);
      EveryRunKeepsWorld(w, init);
      NextKeepsSwitch(After(w, init), last);
      NextQueuesNothing(After(w, init), last);
    }
  }

  // ---------- What can still be sent ----------

  ghost predicate ClaimedBySome(w: World, id: IntentId) {
    exists k :: k in w.workers && w.workers[k].pc.Claimed? && Held(w.workers[k].pc) == Some(id)
  }

  /** The execution is pending, or a worker has claimed it and not sent its entry yet. */
  ghost predicate Sendable(w: World, id: IntentId) {
    id in w.db.executions && (w.db.executions[id].status.Pending? || ClaimedBySome(w, id))
  }

  /** Exactly a worker that has claimed an intent sends its entry. */
  lemma NextEntry(w: World, action: Action, id: IntentId)
    ensures EntriesFor(Next(w, action).calls, id) == EntriesFor(w.calls, id)
            + if action.SendEntry? && Enabled(w, action) && Held(w.workers[action.worker].pc) == Some(id) then 1 else 0
  {
    if Enabled(w, action) {
      if action.SendEntry? {
        CallAdded(w.calls, DoSendEntry(w, action.worker).calls[|w.calls|]);
      } else if action.SendProtection? {
        CallAdded(w.calls, DoSendProtection(w, action.worker, action.decimals, action.orders).calls[|w.calls|]);
      } else if action.SendClose? {
        CallAdded(w.calls, DoSendClose(w, action.worker, action.decimals).calls[|w.calls|]);
      } else {
        QuietCalls(w, action);
      }
    }
  }

  lemma StaysUnclaimed(w: World, action: Action, id: IntentId)
    requires WorldOk(w) && id in w.db.executions && !Sendable(w, id)
    ensures !ClaimedBySome(Next(w, action), id)
  {
    var after := Next(w, action);
    NextEvolves(w, action, id);
    forall k | k in after.workers && after.workers[k].pc.Claimed? ensures Held(after.workers[k].pc) != Some(id) {
      OnlyGateLeadsPastGate(w, action, k);
      assert HeldByClaim(w, action, after, id);
    }
  }

  lemma NextKeepsUnsendable(w: World, action: Action, id: IntentId)
    requires WorldOk(w) && id in w.db.executions && !Sendable(w, id)
    ensures id in Next(w, action).db.executions && !Sendable(Next(w, action), id)
    ensures EntriesFor(Next(w, action).calls, id) == EntriesFor(w.calls, id)
  {
    StaysUnclaimed(w, action, id);
    NextProgresses(w, action, id, w.db.executions[id].status);
    NextEntry(w, action, id);
  }

  /** What is neither pending nor claimed by a worker is never sent again, switch or not. */
  lemma {:induction false} UnsendableForever(w: World, run: seq<Action>, id: IntentId)
    requires WorldOk(w) && id in w.db.executions && !Sendable(w, id)
    ensures id in After(w, run).db.executions && !Sendable(After(w, run), id)
    ensures EntriesFor(After(w, run).calls, id) == EntriesFor(w.calls, id)
  {
    if run != [] {
      var init, last := run[..|run| - 1], run[|run| - 1];
      UnsendableForever(w, init, id);
      EveryRunKeepsWorld(w, init);
      NextKeepsUnsendable(After(w, init), last, id);
    }
  }

  lemma {:induction false} CallsOnlyGrow(w: World, run: seq<Action>)
    ensures w.calls <= After(w, run).calls
  {
    if run != [] {
      var init, last := run[..|run| - 1], run[|run| - 1];
      CallsOnlyGrow(w, init);
      if Enabled(After(w, init), last) && !last.SendEntry? && !last.SendProtection? && !last.SendClose? {
        QuietCalls(After(w, init), last);
      }
    }
  }

  lemma {:induction false} FindEntry(calls: seq<Call>, id: IntentId) returns (n: nat)
    requires EntriesFor(calls, id) > 0
    ensures n < |calls| && calls[n].EntryCall? && calls[n].id == id
  {
    var last := |calls| - 1;
    if calls[last].EntryCall? && calls[last].id == id {
      n := last;
    } else {
      n := FindEntry(calls[..last], id);
    }
  }

  /** While the kill switch stays on, an entry is sent only for an execution that was pending before, or
      claimed by a worker that had not sent it. */
  lemma KillSwitchBoundsEntries(w: World, run: seq<Action>, n: nat)
    requires WorldOk(w) && w.db.killSwitch && SwitchKill(false) !in run
    requires |w.calls| <= n < |After(w, run).calls| && After(w, run).calls[n].EntryCall?
    ensures var id := After(w, run).calls[n].id;
            Sendable(w, id) && EntriesFor(w.calls, id) == 0
  {
    var after := After(w, run);
    var id := after.calls[n].id;
    EveryRunKeepsWorld(w, run);
    KillSwitchQueuesNothing(w, run);
    CallsOnlyGrow(w, run);
    assert CallOk(after, after.calls[n]);
    CountedOnce(after.calls, n);
    if EntriesFor(w.calls, id) > 0 {
      var m := FindEntry(w.calls, id);
      assert after.calls[m] == w.calls[m];
      EachIsSentOnce(after, m, n);
    }
    if !Sendable(w, id) {
      UnsendableForever(w, run, id);
    }
  }

  // ---------- What is still sent ----------

  /** A worker that has claimed an execution sends it with the switch on. */
  lemma ClaimedIsSentAnyway(w: World, k: WorkerId, id: IntentId)
    requires WorldOk(w) && w.db.killSwitch
    requires k in w.workers && w.workers[k].pc.Claimed? && Held(w.workers[k].pc) == Some(id)
    ensures var after := Next(w, SendEntry(k));
            after.db.killSwitch && EntriesFor(w.calls, id) == 0 && EntriesFor(after.calls, id) == 1
  {
    ClaimedIsUnsent(w, k, id);
    NextEntry(w, SendEntry(k), id);
    SendingKeepsTables(w, k);
  }

  lemma SendingKeepsTables(w: World, k: WorkerId)
    requires k in w.workers && w.workers[k].pc.Claimed?
    ensures Enabled(w, SendEntry(k)) && Next(w, SendEntry(k)).db == w.db
  {
  }

  lemma ClaimedIsUnsent(w: World, k: WorkerId, id: IntentId)
    requires WorldOk(w) && k in w.workers && w.workers[k].pc.Claimed? && Held(w.workers[k].pc) == Some(id)
    ensures EntriesFor(w.calls, id) == 0
  {
    assert WorkerAt(w, k);
  }

  lemma ClaimKeepsSwitch(db: Tables, id: IntentId)
    requires id in db.executions && id in db.intents
    ensures Claim(db, id).0.killSwitch == db.killSwitch
  {
  }

  /** What a worker does to send an execution. */
  function SendRun(k: WorkerId, id: IntentId): seq<Action> {
    [PassGate(k)] + [ClaimNext(k, Some(id))] + [SendEntry(k)]
  }

  lemma SendRunHasNoSwitch(k: WorkerId, id: IntentId)
    ensures SwitchKill(false) !in SendRun(k, id)
  {
  }

  /** And a worker in front of an open gate passes it, claims the oldest pending execution whose symbol is
      free, and sends it, all with the switch on. */
  lemma OldestIsSentAnyway(w: World, k: WorkerId, account: Account, id: IntentId)
    requires WorldOk(w) && w.db.killSwitch && IsAt(w, k, account, Idle)
    requires !EntriesBlocked(w.db, account) && Oldest(w.db, account, id)
    ensures SwitchKill(false) !in SendRun(k, id)
    ensures After(w, SendRun(k, id)).db.killSwitch
    ensures EntriesFor(w.calls, id) == 0 && EntriesFor(After(w, SendRun(k, id)).calls, id) == 1
  {
    var passed := Next(w, PassGate(k));
    var middle := Next(passed, ClaimNext(k, Some(id)));
    var first := [PassGate(k)] + [ClaimNext(k, Some(id))];
    SendRunHasNoSwitch(k, id);
    GateAndClaimRun(w, k, account, id, passed, middle);
    ClaimKeepsSwitch(w.db, id);
    SentAfter(w, first, middle, k, id);
    NothingSentBefore(w, id);
  }

  lemma SentAfter(w: World, run: seq<Action>, middle: World, k: WorkerId, id: IntentId)
    requires After(w, run) == middle && WorldOk(middle) && middle.db.killSwitch
    requires k in middle.workers && middle.workers[k].pc.Claimed? && Held(middle.workers[k].pc) == Some(id)
    ensures After(w, run + [SendEntry(k)]).db.killSwitch
    ensures EntriesFor(After(w, run + [SendEntry(k)]).calls, id) == 1
  {
    ClaimedIsSentAnyway(middle, k, id);
    AfterOneMore(w, run, SendEntry(k));
  }

  lemma NothingSentBefore(w: World, id: IntentId)
    requires WorldOk(w) && id in w.db.executions && id in w.db.intents && w.db.executions[id].status.Pending?
    ensures EntriesFor(w.calls, id) == 0
  {
    assert IdOk(w, id);
  }
}
