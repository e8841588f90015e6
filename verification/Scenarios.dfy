/** Runs that reach what the other modules speak about: every approved intent can be executed, and each
    limit of the protocol is met by some run from the empty store. */
module Scenarios {
  import opened Wrappers
  import opened Domain
  import opened Risk
  import opened Orders
  import opened Gateway
  import opened Database
  import opened Engine
  import opened StoreInvariant
  import opened Protocol
  import opened ProtocolInvariant
  import opened Evolution
  import opened Modes
  import opened Gate
  import opened Safety
  import opened Restart
  import opened LiveWorker
  import opened KillSwitch
  import opened SendingRuns

  const ACCOUNT: Account := "main"

  lemma InitialIsReachable(accounts: map<WorkerId, Account>, policy: RiskPolicy)
    requires ValidPolicy(policy)
    ensures IsReachable(Initial(accounts, policy))
  {
    assert After(Initial(accounts, policy), []) == Initial(accounts, policy);
  }

  lemma NextIsReachable(w: World, action: Action)
    requires IsReachable(w)
    ensures IsReachable(Next(w, action))
  {
    var accounts, policy, run :| ValidPolicy(policy) && w == After(Initial(accounts, policy), run);
    AfterOneMore(Initial(accounts, policy), run, action);
  }

  /** The intent can be admitted under one policy and confirmed under another. */
  ghost predicate Approved(intent: TradeIntent, admission: RiskPolicy, confirmation: RiskPolicy) {
    && Validate(intent, 0).None? && Sizable(intent)
    && ValidPolicy(admission) && ValidPolicy(confirmation)
    && EvaluateAdmission(admission, intent).status.Approved?
    && EvaluateAdmission(confirmation, intent).status.Approved?
  }

  // ---------- Admission and confirmation ----------

  /** The row of the only intent in the store. */
  function FirstRow(intent: TradeIntent, admission: RiskPolicy): StoredIntent
    requires Sizable(intent)
  {
    var decision := EvaluateAdmission(admission, intent);
    AdmittedRow(false, intent, "key", decision, AdmissionConfirmation(intent, decision, 0))
  }

  lemma Submitted(w: World, intent: TradeIntent)
    requires w.db == EMPTY && Validate(intent, 0).None? && Sizable(intent)
    ensures var after := Next(w, Submit(intent, "key", 0));
            && after.workers == w.workers && after.policy == w.policy && after.calls == w.calls
            && after.db.intents == map[intent.intentId := FirstRow(intent, w.policy)]
            && after.db.executions == map[] && !after.db.killSwitch && after.db.reconciliation == map[]
            && after.admittedUnder == w.admittedUnder[intent.intentId := w.policy]
  {
    var after := DoSubmit(w, intent, "key", 0);
    assert Next(w, Submit(intent, "key", 0)) == after;
  }

  lemma FirstRowAwaits(intent: TradeIntent, admission: RiskPolicy)
    requires Validate(intent, 0).None? && Sizable(intent) && EvaluateAdmission(admission, intent).status.Approved?
    ensures var row := FirstRow(intent, admission);
            && row.status.AwaitingConfirmation? && row.intent == intent
            && row.riskDecision == Some(EvaluateAdmission(admission, intent))
            && row.manualConfirmation.Some? && row.manualConfirmation.value.expiresAt > 0 && intent.expiresAt > 0
  {
  }

  /** An intent was admitted under one policy, the process restarted with another. */
  lemma AdmittedWorld(intent: TradeIntent, admission: RiskPolicy, confirmation: RiskPolicy) returns (w: World)
    requires Approved(intent, admission, confirmation)
    ensures IsReachable(w) && w.policy == confirmation && w.calls == []
    ensures w.workers == map[0 := Worker(ACCOUNT, Down)]
    ensures w.db.intents == map[intent.intentId := FirstRow(intent, admission)] && w.db.executions == map[]
    ensures !w.db.killSwitch && w.db.reconciliation == map[]
    ensures intent.intentId in w.admittedUnder && w.admittedUnder[intent.intentId] == admission
  {
    var start := StartWorld(admission);
    var submitted := Next(start, Submit(intent, "key", 0));
    NextIsReachable(start, Submit(intent, "key", 0));
    Submitted(start, intent);
    NextIsReachable(submitted, LoadPolicy(confirmation));
    Reloaded(submitted, confirmation);
    w := Next(submitted, LoadPolicy(confirmation));
  }

  lemma StartWorld(policy: RiskPolicy) returns (w: World)
    requires ValidPolicy(policy)
    ensures IsReachable(w) && w == Initial(map[0 := ACCOUNT], policy)
    ensures w.workers == map[0 := Worker(ACCOUNT, Down)]
  {
    w := Initial(map[0 := ACCOUNT], policy);
    InitialIsReachable(map[0 := ACCOUNT], policy);
  }

  lemma Reloaded(w: World, policy: RiskPolicy)
    requires ValidPolicy(policy) && w.workers == map[0 := Worker(ACCOUNT, Down)]
    ensures Next(w, LoadPolicy(policy)) == w.(policy := policy)
  {
  }

  lemma Confirmed(w: World, intent: TradeIntent, admission: RiskPolicy, confirm: Action)
    requires Approved(intent, admission, w.policy)
    requires w.db.intents == map[intent.intentId := FirstRow(intent, admission)] && w.db.executions == map[]
    requires !w.db.killSwitch && w.db.reconciliation == map[]
    requires FirstRow(intent, admission).manualConfirmation.Some?
    requires confirm == ConfirmLive(
      intent.intentId, FirstRow(intent, admission).manualConfirmation.value.digest, "operator", ACCOUNT, 0)
    ensures var after := Next(w, confirm);
            && after == w.(db := after.db)
            && intent.intentId in after.db.intents && after.db.intents[intent.intentId].intent == intent
            && after.db.executions
               == map[intent.intentId := LiveExecution(
                        ACCOUNT, DeterministicCloid(intent.intentId, Entry), Pending, 0, 0)]
            && !after.db.killSwitch && after.db.reconciliation == map[]
  {
    FirstRowAwaits(intent, admission);
    assert MayQueue(w.db, intent.intentId, confirm.digest, 0);
    assert Next(w, confirm) == w.(db := ConfirmIntentForExecution(
      w.db, intent.intentId, confirm.digest, "operator", ACCOUNT, 0).0);
    ConfirmLiveRows(w.db, intent.intentId, confirm.digest, "operator", ACCOUNT, 0);
  }

  /** The world in which the intent is queued and the worker of the account has not started yet. */
  lemma QueuedWorld(intent: TradeIntent, admission: RiskPolicy, confirmation: RiskPolicy) returns (w: World)
    requires Approved(intent, admission, confirmation)
    ensures IsReachable(w) && w.policy == confirmation && w.calls == []
    ensures w.workers == map[0 := Worker(ACCOUNT, Down)]
    ensures intent.intentId in w.db.intents && w.db.intents[intent.intentId].intent == intent
    ensures w.db.executions
            == map[intent.intentId := LiveExecution(ACCOUNT, DeterministicCloid(intent.intentId, Entry), Pending, 0, 0)]
    ensures !w.db.killSwitch && w.db.reconciliation == map[]
    ensures intent.intentId in w.admittedUnder && w.admittedUnder[intent.intentId] == admission
  {
    var admitted := AdmittedWorld(intent, admission, confirmation);
    FirstRowAwaits(intent, admission);
    var confirm := ConfirmLive(
      intent.intentId, FirstRow(intent, admission).manualConfirmation.value.digest, "operator", ACCOUNT, 0);
    Confirmed(admitted, intent, admission, confirm);
    NextIsReachable(admitted, confirm);
    w := Next(admitted, confirm);
  }

  lemma OnlyOneIsOldest(db: Tables, id: IntentId, execution: LiveExecution)
    requires db.executions == map[id := execution] && id in db.intents
    requires execution.account == ACCOUNT && execution.status.Pending?
    ensures Oldest(db, ACCOUNT, id) && UnresolvedIds(db, ACCOUNT) == {}
  {
    assert !Blocked(db, id);
  }

  lemma Started(w: World)
    requires w.workers == map[0 := Worker(ACCOUNT, Down)] && UnresolvedIds(w.db, ACCOUNT) == {}
    ensures Next(w, Start(0)) == w.(workers := map[0 := Worker(ACCOUNT, Idle)])
  {
    assert Enabled(w, Start(0));
    assert w.workers[0 := Worker(ACCOUNT, Idle)] == map[0 := Worker(ACCOUNT, Idle)];
  }

  /** Every intent that is admitted and confirmed comes up for execution: the worker is idle, the gate is
      open, and the execution is the next to be claimed. */
  lemma ReadyWorld(intent: TradeIntent, admission: RiskPolicy, confirmation: RiskPolicy) returns (w: World)
    requires Approved(intent, admission, confirmation)
    ensures IsReachable(w) && w.policy == confirmation && w.calls == []
    ensures w.workers == map[0 := Worker(ACCOUNT, Idle)]
    ensures Oldest(w.db, ACCOUNT, intent.intentId) && w.db.intents[intent.intentId].intent == intent
    ensures UnresolvedIds(w.db, ACCOUNT) == {} && w.db.executions.Keys == {intent.intentId}
    ensures !w.db.killSwitch && w.db.reconciliation == map[]
    ensures intent.intentId in w.admittedUnder && w.admittedUnder[intent.intentId] == admission
  {
    var queued := QueuedWorld(intent, admission, confirmation);
    OnlyOneIsOldest(queued.db, intent.intentId, queued.db.executions[intent.intentId]);
    Started(queued);
    NextIsReachable(queued, Start(0));
    w := Next(queued, Start(0));
  }

  // ---------- Execution ----------

  lemma ClaimedRows(db: Tables, id: IntentId)
    requires id in db.executions && id in db.intents && Claim(db, id).1.Ok?
    ensures Claim(db, id).1.value.1.intent == db.intents[id].intent
    ensures Claim(db, id).0.executions.Keys == db.executions.Keys
    ensures Claim(db, id).0.intents[id].intent == db.intents[id].intent
    ensures Claim(db, id).0.reconciliation == db.reconciliation
  {
  }

  /** The worker has claimed the intent. */
  lemma ClaimedWorld(intent: TradeIntent, admission: RiskPolicy, confirmation: RiskPolicy)
    returns (w: World, stored: StoredIntent, execution: LiveExecution)
    requires Approved(intent, admission, confirmation)
    ensures IsReachable(w) && w.policy == confirmation && w.calls == []
    ensures IsAt(w, 0, ACCOUNT, Claimed(stored, execution)) && stored.intent == intent
    ensures stored.riskDecision.Some? && stored.riskDecision.value.approvedNotionalUsd.Some?
    ensures w.db.executions.Keys == {intent.intentId} && w.db.reconciliation == map[]
    ensures intent.intentId in w.db.intents && w.db.intents[intent.intentId].intent == intent
    ensures intent.intentId in w.admittedUnder && w.admittedUnder[intent.intentId] == admission
  {
    var id := intent.intentId;
    var ready := ReadyWorld(intent, admission, confirmation);
    ReachableOk(ready);
    var passed := Next(ready, PassGate(0));
    w := Next(passed, ClaimNext(0, Some(id)));
    NextIsReachable(ready, PassGate(0));
    NextIsReachable(passed, ClaimNext(0, Some(id)));
    OthersKeepPolicies(ready, PassGate(0));
    OthersKeepPolicies(passed, ClaimNext(0, Some(id)));
    GateAndClaimRun(ready, 0, ACCOUNT, id, passed, w);
    ClaimedRows(ready.db, id);
    execution, stored := Claim(ready.db, id).1.value.0, Claim(ready.db, id).1.value.1;
  }

  /** Every approved intent can be sent, with the notional of its admission. */
  lemma SentWorld(intent: TradeIntent, admission: RiskPolicy, confirmation: RiskPolicy)
    returns (w: World, stored: StoredIntent)
    requires Approved(intent, admission, confirmation)
    ensures IsReachable(w) && w.policy == confirmation
    ensures IsAt(w, 0, ACCOUNT, EntrySent(stored)) && stored.intent == intent
    ensures |w.calls| == 1 && w.calls[0].EntryCall? && w.calls[0].id == intent.intentId
    ensures EvaluateAdmission(admission, intent).approvedNotionalUsd == Some(w.calls[0].notional)
    ensures w.db.executions.Keys == {intent.intentId}
  {
    var claimed, row, execution := ClaimedWorld(intent, admission, confirmation);
    stored := row;
    ReachableOk(claimed);
    SendingMirrors(claimed, 0, ACCOUNT, stored, execution, stored.riskDecision.value.approvedNotionalUsd.value);
    NextIsReachable(claimed, SendEntry(0));
    OthersKeepPolicies(claimed, SendEntry(0));
    w := Next(claimed, SendEntry(0));
    EntriesCarryTheApprovedNotional(w, 0);
  }

  lemma FillKeepsKeys(db: Tables, id: IntentId, fill: ConfirmedFill)
    requires RecordEntryFill(db, id, fill).1.Ok?
    ensures RecordEntryFill(db, id, fill).0.executions.Keys == db.executions.Keys
  {
  }

  /** And it can be filled, with whatever the exchange confirms. */
  lemma FilledWorld(intent: TradeIntent, policy: RiskPolicy, fill: ConfirmedFill)
      returns (w: World, stored: StoredIntent)
    requires Approved(intent, policy, policy)
    ensures IsReachable(w) && IsAt(w, 0, ACCOUNT, FillRecorded(stored, fill)) && stored.intent == intent
    ensures UnresolvedIds(w.db, ACCOUNT) == {}
  {
    var sent, row := SentWorld(intent, policy, policy);
    stored := row;
    ReachableOk(sent);
    FillingMirrors(sent, 0, ACCOUNT, stored, fill);
    FillKeepsKeys(sent.db, intent.intentId, fill);
    NextIsReachable(sent, EntryReturns(0, Ok(fill)));
    w := Next(sent, EntryReturns(0, Ok(fill)));
    NothingUnresolved(w, stored, fill);
  }

  lemma NothingUnresolved(w: World, stored: StoredIntent, fill: ConfirmedFill)
    requires IsReachable(w) && IsAt(w, 0, ACCOUNT, FillRecorded(stored, fill))
    requires w.db.executions.Keys == {stored.intent.intentId}
    ensures UnresolvedIds(w.db, ACCOUNT) == {}
  {
    ReachableOk(w);
    HeldUnresolved(w, 0, stored.intent.intentId);
  }

  // ---------- Samples ----------

  function SamplePolicy(cap: real): RiskPolicy {
    RiskPolicy("1", {ACCOUNT}, true, RiskLimits(1.0, cap, 10.0, 50, 1_000), map[])
  }

  const ONE_TARGET: seq<TakeProfitTarget> := [TakeProfitTarget(110.0, 100)]

  lemma SampleDecision(targets: seq<TakeProfitTarget>, cap: real)
    requires 1.0 <= cap <= 100.0
    ensures ValidPolicy(SamplePolicy(cap)) && Sizable(SampleIntent(targets))
    ensures EvaluateAdmission(SamplePolicy(cap), SampleIntent(targets)).approvedNotionalUsd == Some(cap)
    ensures EvaluateAdmission(SamplePolicy(cap), SampleIntent(targets)).status.Approved?
  {
    var intent := SampleIntent(targets);
    assert !Blank("1") by {
      assert "1"[0] == '1';
    }
    assert StopFraction(intent) == 0.05;
    assert 10.0 / 0.05 == 200.0;
  }

  lemma OneTargetIsValid()
    ensures Validate(SampleIntent(ONE_TARGET), 0).None?
  {
    assert ONE_TARGET[..0] == [];
    assert PercentTotal(ONE_TARGET) == 100;
    SampleIsValid(ONE_TARGET);
  }

  // ---------- The limits are met ----------

  /** A worker crashes over a recorded fill in a reachable world, and may start again. */
  lemma CrashOverFillIsReachable() returns (w: World)
    ensures IsReachable(w) && 0 in w.workers && AwaitsProtection(w.workers[0].pc)
    ensures Enabled(Next(w, Crash(0)), Start(0))
  {
    OneTargetIsValid();
    SampleDecision(ONE_TARGET, 100.0);
    var stored;
    w, stored := FilledWorld(SampleIntent(ONE_TARGET), SamplePolicy(100.0), FULL_FILL);
    ReachableOk(w);
    CrashLocksExactly(w, 0);
  }

  /** A reachable entry carries more than the policy in force at its confirmation would approve. */
  lemma OldNotionalIsReachable() returns (w: World)
    ensures IsReachable(w) && |w.calls| == 1 && w.calls[0].EntryCall? && w.calls[0].id in w.db.intents
    ensures var intent := w.db.intents[w.calls[0].id].intent;
            && Sizable(intent) && Registered(w.policy, intent)
            && !Feasible(LimitsInForce(w.policy, intent), intent, w.calls[0].notional)
  {
    var intent := SampleIntent(ONE_TARGET);
    OneTargetIsValid();
    SampleDecision(ONE_TARGET, 100.0);
    SampleDecision(ONE_TARGET, 50.0);
    var stored;
    w, stored := SentWorld(intent, SamplePolicy(100.0), SamplePolicy(50.0));
    ReachableOk(w);
    assert WorkerAt(w, 0);
    assert w.db.intents[w.calls[0].id].intent == intent;
  }

  /** With the kill switch on, a reachable run sends an entry. */
  lemma EntryUnderKillSwitchIsReachable() returns (w: World, run: seq<Action>)
    ensures IsReachable(w) && w.db.killSwitch && SwitchKill(false) !in run
    ensures w.calls == [] && EntriesFor(After(w, run).calls, SampleIntent(ONE_TARGET).intentId) == 1
  {
    var intent := SampleIntent(ONE_TARGET);
    OneTargetIsValid();
    SampleDecision(ONE_TARGET, 100.0);
    var ready := ReadyWorld(intent, SamplePolicy(100.0), SamplePolicy(100.0));
    NextIsReachable(ready, SwitchKill(true));
    w := Next(ready, SwitchKill(true));
    assert w == ready.(db := Database.SetKillSwitch(ready.db, true));
    SwitchKeepsQueue(ready.db, intent.intentId);
    ReachableOk(w);
    OldestIsSentAnyway(w, 0, ACCOUNT, intent.intentId);
    run := SendRun(0, intent.intentId);
  }

  lemma SwitchKeepsQueue(db: Tables, id: IntentId)
    requires Oldest(db, ACCOUNT, id)
    ensures Oldest(Database.SetKillSwitch(db, true), ACCOUNT, id)
    ensures Database.SetKillSwitch(db, true).reconciliation == db.reconciliation
  {
    SameQueue(db, Database.SetKillSwitch(db, true), id);
  }

  lemma SameQueue(db: Tables, after: Tables, id: IntentId)
    requires after.executions == db.executions && after.intents == db.intents && Oldest(db, ACCOUNT, id)
    ensures Oldest(after, ACCOUNT, id)
  {
    forall other ensures Claimable(after, ACCOUNT, other) <==> Claimable(db, ACCOUNT, other) {
      SameBlocks(db, after, other);
    }
  }

  lemma SameBlocks(db: Tables, after: Tables, id: IntentId)
    requires after.executions == db.executions && after.intents == db.intents
    ensures Blocked(after, id) <==> Blocked(db, id)
  {
    forall other ensures SameMarket(after, other, id) <==> SameMarket(db, other, id) {
    }
  }

  lemma BareSnapshotIsStored(w: World)
    requires WorldOk(w)
    ensures var after := Next(w, TakeSnapshot(BareSnapshot(ACCOUNT)));
            && IsCloseOnly(after.db, ACCOUNT)
            && after == w.(db := after.db)
            && after.db.executions == w.db.executions && after.db.intents == w.db.intents
  {
    var s := BareSnapshot(ACCOUNT);
    BareSnapshotCloses(w, ACCOUNT);
    assert Enabled(w, TakeSnapshot(s));
    assert Next(w, TakeSnapshot(s)) == w.(db := RecordSnapshot(w.db, s).0);
    SnapshotIsQuiet(w.db, s);
  }

  lemma PassedWorld(intent: TradeIntent, policy: RiskPolicy) returns (w: World)
    requires Approved(intent, policy, policy)
    ensures IsReachable(w) && w.calls == [] && IsAt(w, 0, ACCOUNT, GatePassed) && Oldest(w.db, ACCOUNT, intent.intentId)
  {
    var ready := ReadyWorld(intent, policy, policy);
    ReachableOk(ready);
    GatePassedRun(ready, 0, ACCOUNT);
    NextIsReachable(ready, PassGate(0));
    w := Next(ready, PassGate(0));
  }

  /** A snapshot can put the account into close-only while its worker is past the gate, and the worker still
      sends its entry. */
  lemma EntryInCloseOnlyIsReachable() returns (w: World)
    ensures IsReachable(w) && IsCloseOnly(w.db, ACCOUNT) && w.calls == []
    ensures var after := Next(Next(w, ClaimNext(0, Some(SampleIntent(ONE_TARGET).intentId))), SendEntry(0));
            IsCloseOnly(after.db, ACCOUNT) && EntriesSent(after.calls, ACCOUNT) == 1
  {
    var intent := SampleIntent(ONE_TARGET);
    OneTargetIsValid();
    SampleDecision(ONE_TARGET, 100.0);
    var passed := PassedWorld(intent, SamplePolicy(100.0));
    ReachableOk(passed);
    NextIsReachable(passed, TakeSnapshot(BareSnapshot(ACCOUNT)));
    BareSnapshotIsStored(passed);
    w := Next(passed, TakeSnapshot(BareSnapshot(ACCOUNT)));
    SameQueue(passed.db, w.db, intent.intentId);
    ReachableOk(w);
    WorkerPastGateStillSends(w, 0, intent.intentId, ACCOUNT);
  }

  lemma {:induction false} ManyTargetsAt(n: nat, k: nat)
    requires k < n
    ensures |ManyTargets(n)| == n
    ensures ManyTargets(n)[k] == TakeProfitTarget(110.0, if k < 257 then 255 else 101)
  {
    if k < n - 1 {
      ManyTargetsAt(n - 1, k);
    } else if n > 1 {
      ManyTargetsAt(n - 1, 0);
    }
  }

  /** The entry filled as it was ordered: a hundred lots of an asset with two size decimals. */
  const FULL_FILL := ConfirmedFill(1, 1.0, 100.0)
  const TWO_DECIMALS: Option<nat> := Some(2)

  lemma PercentIsLots(pct: Percent)
    ensures InLots(TargetSize(FULL_FILL.size, pct), 2) == pct as real
  {
    TargetSizeInLots(FULL_FILL.size, pct, 2);
    assert InLots(1.0, 2) == InLots(10.0, 1) == InLots(100.0, 0) == 100.0;
  }

  lemma PositiveTargetsAreSized(targets: seq<TakeProfitTarget>)
    requires forall t | t in targets :: t.positionPct > 0
    ensures Sized(SampleIntent(targets), FULL_FILL, TWO_DECIMALS)
  {
    var intent := SampleIntent(targets);
    assert InLots(1.0, 2) == InLots(10.0, 1) == InLots(100.0, 0) == 100.0;
    forall k | 0 <= k < |targets| ensures RoundSize(TWO_DECIMALS, LegSize(intent, FULL_FILL, k)).Ok? {
      assert targets[k] in targets;
      PercentIsLots(targets[k].positionPct);
    }
  }

  /** All 258 targets of the intent with the wrapped total have their lots. */
  lemma ManyTargetsAreSized()
    ensures Sized(SampleIntent(ManyTargets(258)), FULL_FILL, TWO_DECIMALS)
  {
    ManyTargetsAt(258, 0);
    forall t | t in ManyTargets(258) ensures t.positionPct > 0 {
      var k :| 0 <= k < 258 && ManyTargets(258)[k] == t;
      ManyTargetsAt(258, k);
    }
    PositiveTargetsAreSized(ManyTargets(258));
  }

  /** The intent whose percentages wrapped in validation gets as far as sending its protection, in which
      client order ids repeat and the legs exceed the stop. */
  lemma RepeatedIdsAreReachable() returns (w: World)
    ensures IsReachable(w) && 0 in w.workers && w.workers[0].pc.ProtectionSent?
    ensures !DistinctIds(w.calls)
    ensures PercentTotal(w.workers[0].pc.stored.intent.exit.takeProfit) >= 0x1_0000
  {
    ManyTargetsPassValidation();
    ManyTargetsAreSized();
    var stored;
    w, stored := ProtectionSentWorld(ManyTargets(258));
    ReachableOk(w);
    LastCallRepeatsIds(w, stored);
  }

  lemma LastCallRepeatsIds(w: World, stored: StoredIntent)
    requires WorldOk(w) && w.calls != [] && 0 in w.workers
    requires w.workers[0].pc.ProtectionSent? && w.workers[0].pc.stored == stored
    requires w.calls[|w.calls| - 1].ProtectionCall? && w.calls[|w.calls| - 1].id == stored.intent.intentId
    requires |stored.intent.exit.takeProfit| > 256
    ensures !DistinctIds(w.calls)
  {
    assert WorkerAt(w, 0);
    var n := |w.calls| - 1;
    RepeatedTargetIds(w, n);
    assert CloidsOf(w.calls[n])[1] == CloidsOf(w.calls[n])[257];
  }

  /** Every order of a request is waiting. */
  function WaitingStatuses(n: nat): (statuses: seq<OrderResponse>)
    ensures |statuses| == n && EachWaits(statuses)
  {
    if n == 0 then [] else WaitingStatuses(n - 1) + [WaitingForTrigger]
  }

  /** Taken and verified by the exchange, that protection cannot be recorded: the worker stops. */
  lemma StoppedWorkerIsReachable() returns (w: World)
    ensures IsReachable(w) && 0 in w.workers && w.workers[0].pc.Stopped?
  {
    var sent := RepeatedIdsAreReachable();
    var statuses := WaitingStatuses(259);
    ReachableOk(sent);
    WrappedTotalStopsTheWorker(sent, 0, statuses, []);
    NextIsReachable(sent, ProtectionReturns(0, Ok(statuses)));
    w := Next(sent, ProtectionReturns(0, Ok(statuses)));
  }

  lemma ProtectionIsHeard(w: World, stored: StoredIntent, fill: ConfirmedFill, statuses: seq<OrderResponse>)
    requires IsAt(w, 0, ACCOUNT, ProtectionSent(stored, fill)) && EachWaits(statuses)
    ensures RepliesOf(Next(w, ProtectionReturns(0, Ok(statuses))), stored.intent.intentId).protection
            == Some(Ok(statuses))
  {
    assert Next(w, ProtectionReturns(0, Ok(statuses))) == DoProtectionReturns(w, 0, Ok(statuses));
  }

  lemma RecordedWorld(sent: World, stored: StoredIntent, fill: ConfirmedFill, statuses: seq<OrderResponse>)
    returns (w: World)
    requires IsReachable(sent) && IsAt(sent, 0, ACCOUNT, ProtectionSent(stored, fill)) && EachWaits(statuses)
    requires |stored.intent.exit.takeProfit| <= 256
    ensures IsReachable(w) && IsAt(w, 0, ACCOUNT, ProtectionRecorded(stored, fill)) && w.calls == sent.calls
    ensures RepliesOf(w, stored.intent.intentId).protection == Some(Ok(statuses))
  {
    ReachableOk(sent);
    ProtectingMirrors(sent, 0, ACCOUNT, stored, fill, statuses);
    ProtectionIsHeard(sent, stored, fill, statuses);
    NextIsReachable(sent, ProtectionReturns(0, Ok(statuses)));
    w := Next(sent, ProtectionReturns(0, Ok(statuses)));
  }

  lemma FinishingHearsNothing(w: World, stored: StoredIntent, fill: ConfirmedFill)
    requires IsAt(w, 0, ACCOUNT, ProtectionRecorded(stored, fill))
    ensures Next(w, FinishProtected(0)).replies == w.replies
  {
    assert Next(w, FinishProtected(0)) == DoFinishProtected(w, 0);
  }

  lemma ProtectedWorld(recorded: World, stored: StoredIntent, fill: ConfirmedFill) returns (w: World)
    requires IsReachable(recorded) && IsAt(recorded, 0, ACCOUNT, ProtectionRecorded(stored, fill))
    ensures IsReachable(w) && w.calls == recorded.calls && w.replies == recorded.replies
    ensures stored.intent.intentId in w.db.executions && w.db.executions[stored.intent.intentId].status.Protected?
  {
    ReachableOk(recorded);
    FinishingMirrors(recorded, 0, ACCOUNT, stored, fill);
    FinishingHearsNothing(recorded, stored, fill);
    NextIsReachable(recorded, FinishProtected(0));
    w := Next(recorded, FinishProtected(0));
  }

  /** The protective orders of the full fill were sent. */
  lemma ProtectionSentWorld(targets: seq<TakeProfitTarget>) returns (w: World, stored: StoredIntent)
    requires Validate(SampleIntent(targets), 0).None? && Sized(SampleIntent(targets), FULL_FILL, TWO_DECIMALS)
    ensures IsReachable(w) && IsAt(w, 0, ACCOUNT, ProtectionSent(stored, FULL_FILL))
    ensures stored.intent == SampleIntent(targets)
    ensures w.calls != []
    ensures var call := w.calls[|w.calls| - 1];
            call.ProtectionCall? && call.id == stored.intent.intentId && |call.orders| == |targets| + 1
  {
    SampleDecision(targets, 100.0);
    var orders := SizedCanBeSent(SampleIntent(targets), FULL_FILL, TWO_DECIMALS);
    var filled, row := FilledWorld(SampleIntent(targets), SamplePolicy(100.0), FULL_FILL);
    stored := row;
    ReachableOk(filled);
    SendingProtectionMirrors(filled, 0, ACCOUNT, stored, FULL_FILL, TWO_DECIMALS, orders);
    NextIsReachable(filled, SendProtection(0, TWO_DECIMALS, orders));
    w := Next(filled, SendProtection(0, TWO_DECIMALS, orders));
  }

  /** An execution can be protected, its target recorded as open, although the exchange took only the
      stop. */
  lemma UntakenTargetIsReachable() returns (w: World, n: nat)
    ensures IsReachable(w)
    ensures var id := SampleIntent(ONE_TARGET).intentId;
            && id in w.db.executions && w.db.executions[id].status.Protected?
            && n < |w.calls| && w.calls[n].ProtectionCall? && w.calls[n].id == id && |w.calls[n].orders| == 2
            && Agreed(RepliesOf(w, id).protection)
            && IsTaken(RepliesOf(w, id).protection.value.value, 0)
            && !IsTaken(RepliesOf(w, id).protection.value.value, 1)
            && StableName(TargetRole(0)) in LedgerOf(w.db, id)
            && LedgerOf(w.db, id)[StableName(TargetRole(0))].status.OpenVerified?
  {
    OneTargetIsValid();
    PositiveTargetsAreSized(ONE_TARGET);
    var sent, stored := ProtectionSentWorld(ONE_TARGET);
    var recorded := RecordedWorld(sent, stored, FULL_FILL, WaitingStatuses(1));
    w := ProtectedWorld(recorded, stored, FULL_FILL);
    n := |w.calls| - 1;
    TargetIsRecordedAsOpen(w, n);
  }

  lemma TargetIsRecordedAsOpen(w: World, n: nat)
    requires IsReachable(w) && n < |w.calls| && w.calls[n].ProtectionCall? && |w.calls[n].orders| == 2
    requires w.calls[n].id in w.db.executions && w.db.executions[w.calls[n].id].status.Protected?
    ensures StableName(TargetRole(0)) in LedgerOf(w.db, w.calls[n].id)
    ensures LedgerOf(w.db, w.calls[n].id)[StableName(TargetRole(0))].status.OpenVerified?
  {
    var m := ProtectedRecordsOrdersAsOpen(w, w.calls[n].id);
    OneProtection(w, m, n);
    assert RoleAt(w.calls[n], 1) == TargetRole(0);
  }

  lemma OneProtection(w: World, m: nat, n: nat)
    requires IsReachable(w) && m < |w.calls| && n < |w.calls|
    requires w.calls[m].ProtectionCall? && w.calls[n].ProtectionCall?
    requires w.calls[m].id == w.calls[n].id
    ensures m == n
  {
    if m < n {
      ProtectionIsSentOnce(w, m, n);
    } else if n < m {
      ProtectionIsSentOnce(w, n, m);
    }
  }

  /** An execution can be recorded as closed while half of what was filled is still open. */
  lemma PartialCloseIsReachable() returns (w: World)
    ensures IsReachable(w)
    ensures var id := SampleIntent(ONE_TARGET).intentId;
            && id in w.db.executions && w.db.executions[id].status.Closed?
            && Agreed(RepliesOf(w, id).entry) && Agreed(RepliesOf(w, id).close)
            && LeftOpen(RepliesOf(w, id).entry.value.value, RepliesOf(w, id).close.value.value) == 0.5
  {
    var fill, half := FULL_FILL, ConfirmedFill(2, 0.5, 95.0);
    var failure := Definite("stop rejected");
    OneTargetIsValid();
    SampleDecision(ONE_TARGET, 100.0);
    var filled, stored := FilledWorld(SampleIntent(ONE_TARGET), SamplePolicy(100.0), fill);
    ReachableOk(filled);
    ClosingMirrors(filled, 0, ACCOUNT, stored, fill, failure);
    NextIsReachable(filled, ProtectionReturns(0, Err(failure)));
    var closing := Next(filled, ProtectionReturns(0, Err(failure)));
    ReachableOk(closing);
    assert InLots(1.0, 2) == InLots(10.0, 1) == InLots(100.0, 0) == 100.0;
    SendingCloseMirrors(closing, 0, ACCOUNT, stored, fill, TWO_DECIMALS, 100);
    NextIsReachable(closing, SendClose(0, TWO_DECIMALS));
    var closeSent := Next(closing, SendClose(0, TWO_DECIMALS));
    w := ClosedWith(closeSent, stored, fill, half);
  }

  lemma RepliesAfterClose(w: World, stored: StoredIntent, fill: ConfirmedFill, reported: ConfirmedFill)
    requires WorldOk(w) && IsAt(w, 0, ACCOUNT, CloseSent(stored, fill))
    ensures var replies := RepliesOf(Next(w, CloseReturns(0, Ok(reported))), stored.intent.intentId);
            replies.entry == Some(Ok(fill)) && replies.close == Some(Ok(reported))
  {
    assert Next(w, CloseReturns(0, Ok(reported))) == DoCloseReturns(w, 0, Ok(reported));
    EntryReplyOf(w, stored, fill);
  }

  lemma EntryReplyOf(w: World, stored: StoredIntent, fill: ConfirmedFill)
    requires WorldOk(w) && IsAt(w, 0, ACCOUNT, CloseSent(stored, fill))
    ensures RepliesOf(w, stored.intent.intentId).entry == Some(Ok(fill))
  {
    assert WorkerAt(w, 0);
  }

  lemma ClosedWith(closeSent: World, stored: StoredIntent, fill: ConfirmedFill, reported: ConfirmedFill)
      returns (w: World)
    requires IsReachable(closeSent) && IsAt(closeSent, 0, ACCOUNT, CloseSent(stored, fill))
    ensures IsReachable(w)
    ensures var id := stored.intent.intentId;
            && id in w.db.executions && w.db.executions[id].status.Closed?
            && RepliesOf(w, id).entry == Some(Ok(fill)) && RepliesOf(w, id).close == Some(Ok(reported))
  {
    var action := CloseReturns(0, Ok(reported));
    ReachableOk(closeSent);
    ClosedMirrors(closeSent, 0, ACCOUNT, stored, fill, Ok(reported));
    RepliesAfterClose(closeSent, stored, fill, reported);
    NextIsReachable(closeSent, action);
    w := Next(closeSent, action);
  }
}
