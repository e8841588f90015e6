/** The worker of one account: one pass of its loop, and the run of the protocol that the pass is
    (src/live_execution.rs). */
module LiveWorker {
  import opened Wrappers
  import opened Domain
  import opened Orders
  import opened Gateway
  import opened Fills
  import opened Database
  import opened Store
  import opened StoreInvariant
  import opened Protocol
  import opened ProtocolInvariant
  import opened ProtocolSteps
  import opened Reachable
  import opened Evolution

  /** What the exchange exchange during one pass, as far as it comes to it: the positions before the entry,
      its submission, the order found for it and the readings of its fills, the size decimals of the asset,
      the placement of the protective orders, the polls for the stop, and the emergency close. */
  datatype Exchange = Exchange(
    positions: Option<seq<UserPosition>>,
    submission: Option<ExchangeResponse>,
    order: Option<(Oid, string)>,
    attempts: seq<Option<seq<UserFill>>>,
    decimals: Option<nat>,
    placement: Option<ExchangeResponse>,
    polls: seq<Poll>,
    closing: Option<ExchangeResponse>)
  {
    predicate Complete() { |attempts| == 5 && |polls| == 5 }
  }

  ghost predicate FillsEntry(intent: TradeIntent, exchange: Exchange)
    requires exchange.Complete()
  {
    EntryFills(intent.symbol, exchange.positions, exchange.submission, exchange.order, exchange.attempts)
  }

  ghost predicate RefusesEntry(intent: TradeIntent, exchange: Exchange)
    requires exchange.Complete()
  {
    EntryRefused(intent.symbol, exchange.positions, exchange.submission, exchange.order, exchange.attempts)
  }

  ghost predicate Confirms(exchange: Exchange, fill: ConfirmedFill)
    requires exchange.Complete()
  {
    ConfirmsFill(exchange.order, exchange.attempts, fill)
  }

  ghost predicate Protects(intent: TradeIntent, fill: ConfirmedFill, exchange: Exchange) {
    Established(intent, fill, exchange.decimals, exchange.placement, exchange.polls)
  }

  predicate Closes(fill: ConfirmedFill, exchange: Exchange) {
    Gateway.EmergencyClose(fill, exchange.decimals, exchange.closing).Ok?
  }

  /** How an execution ends once its fill is confirmed. */
  ghost function OutcomeOfFill(intent: TradeIntent, fill: ConfirmedFill, exchange: Exchange): LiveStatus {
    if Protects(intent, fill, exchange) then Protected
    else if Closes(fill, exchange) then Closed else ReconciliationRequired
  }

  /** What the exchange exchange makes of an execution. */
  ghost predicate EndsAs(intent: TradeIntent, exchange: Exchange, status: LiveStatus)
    requires exchange.Complete()
  {
    if FillsEntry(intent, exchange)
    then exists fill :: Confirms(exchange, fill) && status == OutcomeOfFill(intent, fill, exchange)
    else if RefusesEntry(intent, exchange) then status == LiveStatus.Failed
    else status == EntryUnknown
  }

  /** The fill holds, but recording its protection fails. */
  ghost predicate CannotRecord(intent: TradeIntent, exchange: Exchange)
    requires exchange.Complete()
  {
    && FillsEntry(intent, exchange)
    && PercentTotal(intent.exit.takeProfit) >= 0x1_0000
    && exists fill :: Confirms(exchange, fill) && Protects(intent, fill, exchange)
  }

  ghost predicate ActionsOf(run: seq<Action>, k: WorkerId) {
    forall action | action in run :: ActorOf(action) == Some(k)
  }

  /** A run that consists of actions of one worker leads from one world to another. */
  ghost predicate Leads(w: World, run: seq<Action>, k: WorkerId, after: World) {
    ActionsOf(run, k) && After(w, run) == after
  }

  lemma ActionsOfBoth(first: seq<Action>, second: seq<Action>, k: WorkerId)
    requires ActionsOf(first, k) && ActionsOf(second, k)
    ensures ActionsOf(first + second, k)
  {
  }

  lemma AfterOneMore(w: World, run: seq<Action>, action: Action)
    ensures After(w, run + [action]) == Next(After(w, run), action)
  {
    assert (run + [action])[..|run|] == run;
  }

  lemma {:induction false} AfterInTwo(w: World, first: seq<Action>, second: seq<Action>)
    ensures After(w, first + second) == After(After(w, first), second)
  {
    if second == [] {
      assert first + second == first;
    } else {
      var init, last := second[..|second| - 1], second[|second| - 1];
      AfterInTwo(w, first, init);
      AfterOneMore(w, first + init, last);
      assert first + second == first + init + [last];
    }
  }

  lemma LeadsFurther(w: World, first: seq<Action>, second: seq<Action>, k: WorkerId, middle: World, after: World)
    requires Leads(w, first, k, middle) && Leads(middle, second, k, after)
    ensures Leads(w, first + second, k, after)
  {
    ActionsOfBoth(first, second, k);
    AfterInTwo(w, first, second);
  }

  ghost predicate IsAt(w: World, k: WorkerId, account: Account, pc: Pc) {
    k in w.workers && w.workers[k] == Worker(account, pc)
  }

  // ---------- The single actions, as the store sees them ----------

  lemma ClaimingMirrors(w: World, k: WorkerId, account: Account, id: IntentId)
    requires WorldOk(w) && IsAt(w, k, account, GatePassed) && Oldest(w.db, account, id)
    ensures Claim(w.db, id).1.Ok?
    ensures var (execution, stored) := Claim(w.db, id).1.value;
            var after := Next(w, ClaimNext(k, Some(id)));
            && IsAt(after, k, account, Claimed(stored, execution))
            && stored.intent.intentId == id
            && after.db == Claim(w.db, id).0 && after.calls == w.calls
            && stored.riskDecision.Some? && stored.riskDecision.value.approvedNotionalUsd.Some?
  {
    assert Next(w, ClaimNext(k, Some(id))) == DoClaim(w, k, Some(id));
    assert RowOk(w.db, id);
    ClaimKeepsTables(w.db, account, id);
    DecisionIsApproved(w, id);
  }

  lemma SendingMirrors(w: World, k: WorkerId, account: Account, stored: StoredIntent, execution: LiveExecution,
      notional: real)
    requires WorldOk(w) && IsAt(w, k, account, Claimed(stored, execution))
    requires stored.riskDecision.Some? && stored.riskDecision.value.approvedNotionalUsd == Some(notional)
    ensures var after := Next(w, SendEntry(k));
            && IsAt(after, k, account, EntrySent(stored))
            && after.db == w.db
            && after.calls == w.calls + [EntryCall(stored.intent.intentId, account, notional, execution.entryCloid)]
  {
    assert Next(w, SendEntry(k)) == DoSendEntry(w, k);
  }

  /** The execution has reached a status, and its worker is idle again. */
  ghost predicate EndsIn(w: World, k: WorkerId, account: Account, id: IntentId, status: LiveStatus) {
    IsAt(w, k, account, Idle) && id in w.db.executions && w.db.executions[id].status == status
  }

  /** A worker can always record the outcome of what it holds. */
  lemma OutcomeIsRecorded(w: World, id: IntentId, move: Move)
    requires WorldOk(w) && Paired(move)
    requires id in w.db.executions && w.db.executions[id].status == move.fromLive
    ensures FinishLiveTransition(w.db, id, move).1 == Ok(())
    ensures id in FinishLiveTransition(w.db, id, move).0.executions
    ensures FinishLiveTransition(w.db, id, move).0.executions[id].status == move.toLive
  {
    FinishKeepsTables(w.db, id, move);
    FinishChanges(w.db, id, move);
  }

  /** The status that an execution has while its worker waits for an answer. */
  lemma HeldStatus(w: World, k: WorkerId, account: Account, pc: Pc, id: IntentId, status: LiveStatus)
    requires WorldOk(w) && IsAt(w, k, account, pc) && Held(pc) == Some(id)
    requires || (pc.EntrySent? && status.EntrySubmitting?)
             || (pc.ProtectionRecorded? && status.EntryFilled?)
             || ((pc.Closing? || pc.CloseSent?) && status.EmergencyClosing?)
    ensures id in w.db.executions && w.db.executions[id].status == status
  {
    assert WorkerAt(w, k);
  }

  lemma FailingMirrors(w: World, k: WorkerId, account: Account, stored: StoredIntent, failure: GatewayFailure)
    requires WorldOk(w) && IsAt(w, k, account, EntrySent(stored))
    ensures var id, move := stored.intent.intentId, if failure.Definite? then ENTRY_FAILED else ENTRY_UNKNOWN;
            var after := Next(w, EntryReturns(k, Err(failure)));
            && FinishLiveTransition(w.db, id, move) == (after.db, Ok(()))
            && after.calls == w.calls
            && EndsIn(after, k, account, id, move.toLive)
  {
    var id, move := stored.intent.intentId, if failure.Definite? then ENTRY_FAILED else ENTRY_UNKNOWN;
    assert Next(w, EntryReturns(k, Err(failure))) == DoEntryReturns(w, k, Err(failure));
    HeldStatus(w, k, account, EntrySent(stored), id, EntrySubmitting);
    OutcomesArePaired();
    OutcomeIsRecorded(w, id, move);
  }

  lemma FillIsRecorded(w: World, k: WorkerId, account: Account, stored: StoredIntent, fill: ConfirmedFill)
    requires WorldOk(w) && IsAt(w, k, account, EntrySent(stored))
    ensures RecordEntryFill(w.db, stored.intent.intentId, fill).1 == Ok(())
  {
    var id := stored.intent.intentId;
    assert WorkerAt(w, k) && IdOk(w, id);
    FillKeepsTables(w.db, id, fill);
  }

  lemma FillingMirrors(w: World, k: WorkerId, account: Account, stored: StoredIntent, fill: ConfirmedFill)
    requires WorldOk(w) && IsAt(w, k, account, EntrySent(stored))
    ensures var after := Next(w, EntryReturns(k, Ok(fill)));
            && RecordEntryFill(w.db, stored.intent.intentId, fill) == (after.db, Ok(()))
            && after.calls == w.calls
            && IsAt(after, k, account, FillRecorded(stored, fill))
  {
    assert Next(w, EntryReturns(k, Ok(fill))) == DoEntryReturns(w, k, Ok(fill));
    FillIsRecorded(w, k, account, stored, fill);
  }

  lemma SendingProtectionMirrors(
    w: World, k: WorkerId, account: Account, stored: StoredIntent, fill: ConfirmedFill,
    decimals: Option<nat>, orders: seq<TriggerOrder>)
    requires WorldOk(w) && IsAt(w, k, account, FillRecorded(stored, fill))
    requires IsProtection(stored.intent, fill, decimals, orders)
    ensures var after := Next(w, SendProtection(k, decimals, orders));
            && IsAt(after, k, account, ProtectionSent(stored, fill))
            && after.db == w.db
            && after.calls == w.calls + [ProtectionCall(stored.intent.intentId, account, decimals, orders)]
  {
    assert Next(w, SendProtection(k, decimals, orders)) == DoSendProtection(w, k, decimals, orders);
  }

  lemma ProtectingMirrors(
    w: World, k: WorkerId, account: Account, stored: StoredIntent, fill: ConfirmedFill,
    statuses: seq<OrderResponse>)
    requires WorldOk(w) && IsAt(w, k, account, ProtectionSent(stored, fill)) && EachWaits(statuses)
    ensures var after := Next(w, ProtectionReturns(k, Ok(statuses)));
            var (db, result) := RecordProtectionOrders(w.db, stored.intent, fill);
            && db == after.db && after.calls == w.calls
            && (result.Ok? <==> |stored.intent.exit.takeProfit| <= 256)
            && IsAt(after, k, account, if result.Ok? then ProtectionRecorded(stored, fill) else Stopped(Some(stored)))
  {
    assert Next(w, ProtectionReturns(k, Ok(statuses))) == DoProtectionReturns(w, k, Ok(statuses));
    ProtectionHoldsStep(w, k, Ok(statuses));
  }

  /** The fill of a held execution is recorded, its protection possibly sent. */
  ghost predicate IsFilled(w: World, k: WorkerId, account: Account, stored: StoredIntent, fill: ConfirmedFill) {
    IsAt(w, k, account, FillRecorded(stored, fill)) || IsAt(w, k, account, ProtectionSent(stored, fill))
  }

  lemma FilledStatus(w: World, k: WorkerId, account: Account, stored: StoredIntent, fill: ConfirmedFill)
    requires WorldOk(w) && IsFilled(w, k, account, stored, fill)
    ensures stored.intent.intentId in w.db.executions
    ensures w.db.executions[stored.intent.intentId].status.EntryFilled?
  {
    assert WorkerAt(w, k);
  }

  lemma ClosingWorld(
    w: World, k: WorkerId, account: Account, stored: StoredIntent, fill: ConfirmedFill, failure: GatewayFailure)
    requires WorldOk(w) && IsFilled(w, k, account, stored, fill)
    ensures var after := DoProtectionReturns(w, k, Err(failure));
            && FinishLiveTransition(w.db, stored.intent.intentId, EMERGENCY_CLOSING) == (after.db, Ok(()))
            && after.calls == w.calls
            && IsAt(after, k, account, Closing(stored, fill))
  {
    FilledStatus(w, k, account, stored, fill);
    OutcomesArePaired();
    OutcomeIsRecorded(w, stored.intent.intentId, EMERGENCY_CLOSING);
  }

  lemma ClosingMirrors(
    w: World, k: WorkerId, account: Account, stored: StoredIntent, fill: ConfirmedFill, failure: GatewayFailure)
    requires WorldOk(w) && IsFilled(w, k, account, stored, fill)
    ensures var after := Next(w, ProtectionReturns(k, Err(failure)));
            && FinishLiveTransition(w.db, stored.intent.intentId, EMERGENCY_CLOSING) == (after.db, Ok(()))
            && after.calls == w.calls
            && IsAt(after, k, account, Closing(stored, fill))
  {
    assert Next(w, ProtectionReturns(k, Err(failure))) == DoProtectionReturns(w, k, Err(failure));
    ClosingWorld(w, k, account, stored, fill, failure);
  }

  lemma FinishingMirrors(w: World, k: WorkerId, account: Account, stored: StoredIntent, fill: ConfirmedFill)
    requires WorldOk(w) && IsAt(w, k, account, ProtectionRecorded(stored, fill))
    ensures var after := Next(w, FinishProtected(k));
            && FinishLiveTransition(w.db, stored.intent.intentId, PROTECTED) == (after.db, Ok(()))
            && after.calls == w.calls
            && EndsIn(after, k, account, stored.intent.intentId, Protected)
  {
    var id := stored.intent.intentId;
    assert Next(w, FinishProtected(k)) == DoFinishProtected(w, k);
    HeldStatus(w, k, account, ProtectionRecorded(stored, fill), id, EntryFilled);
    OutcomesArePaired();
    OutcomeIsRecorded(w, id, PROTECTED);
  }

  lemma SendingCloseMirrors(
    w: World, k: WorkerId, account: Account, stored: StoredIntent, fill: ConfirmedFill, decimals: Option<nat>,
    lots: int)
    requires WorldOk(w) && IsAt(w, k, account, Closing(stored, fill)) && RoundSize(decimals, fill.size) == Ok(lots)
    ensures var after := Next(w, SendClose(k, decimals));
            var id := stored.intent.intentId;
            && IsAt(after, k, account, CloseSent(stored, fill))
            && after.db == w.db
            && after.calls == w.calls + [CloseCall(id, account, decimals, lots, DeterministicCloid(id, EmergencyClose))]
  {
    assert Next(w, SendClose(k, decimals)) == DoSendClose(w, k, decimals);
  }

  lemma ClosedWorld(
    w: World, k: WorkerId, account: Account, stored: StoredIntent, fill: ConfirmedFill, reply: Reply<ConfirmedFill>)
    requires WorldOk(w)
    requires IsAt(w, k, account, CloseSent(stored, fill)) || IsAt(w, k, account, Closing(stored, fill))
    ensures var id, move := stored.intent.intentId, if reply.Ok? then CLOSED else RECONCILIATION_REQUIRED;
            var after := DoCloseReturns(w, k, reply);
            && FinishLiveTransition(w.db, id, move) == (after.db, Ok(()))
            && after.calls == w.calls
            && EndsIn(after, k, account, id, move.toLive)
  {
    var id, move := stored.intent.intentId, if reply.Ok? then CLOSED else RECONCILIATION_REQUIRED;
    HeldStatus(w, k, account, w.workers[k].pc, id, EmergencyClosing);
    OutcomesArePaired();
    OutcomeIsRecorded(w, id, move);
  }

  lemma ClosedMirrors(
    w: World, k: WorkerId, account: Account, stored: StoredIntent, fill: ConfirmedFill, reply: Reply<ConfirmedFill>)
    requires WorldOk(w)
    requires IsAt(w, k, account, CloseSent(stored, fill)) || (IsAt(w, k, account, Closing(stored, fill)) && reply.Err?)
    ensures var id, move := stored.intent.intentId, if reply.Ok? then CLOSED else RECONCILIATION_REQUIRED;
            var after := Next(w, CloseReturns(k, reply));
            && FinishLiveTransition(w.db, id, move) == (after.db, Ok(()))
            && after.calls == w.calls
            && EndsIn(after, k, account, id, move.toLive)
  {
    assert Next(w, CloseReturns(k, reply)) == DoCloseReturns(w, k, reply);
    ClosedWorld(w, k, account, stored, fill, reply);
  }

  // ---------- The loop body ----------

  /** The run of one worker that a piece of its program was, with the tables it left and the calls it
      sent. */
  ghost predicate Ran(w: World, run: seq<Action>, k: WorkerId, after: World, db: Tables, sent: seq<Call>) {
    Leads(w, run, k, after) && WorldOk(after) && after.db == db && after.calls == w.calls + sent
  }

  lemma RanNothing(w: World, k: WorkerId)
    requires WorldOk(w)
    ensures Ran(w, [], k, w, w.db, [])
  {
    assert w.calls + [] == w.calls;
  }

  lemma RanOne(w: World, action: Action, k: WorkerId, sent: seq<Call>)
    requires WorldOk(w) && ActorOf(action) == Some(k)
    requires Next(w, action).calls == w.calls + sent
    ensures Ran(w, [action], k, Next(w, action), Next(w, action).db, sent)
  {
    NextKeepsWorld(w, action);
    assert [action][..0] == [];
  }

  lemma RanBoth(
    w: World, first: seq<Action>, second: seq<Action>, k: WorkerId, middle: World, after: World,
    early: seq<Call>, late: seq<Call>)
    requires Ran(w, first, k, middle, middle.db, early) && Ran(middle, second, k, after, after.db, late)
    ensures Ran(w, first + second, k, after, after.db, early + late)
  {
    LeadsFurther(w, first, second, k, middle, after);
    assert w.calls + early + late == w.calls + (early + late);
  }

  lemma ProtectingRun(
    w: World, k: WorkerId, account: Account, stored: StoredIntent, fill: ConfirmedFill,
    statuses: seq<OrderResponse>, after: World)
    requires WorldOk(w) && IsAt(w, k, account, ProtectionSent(stored, fill)) && EachWaits(statuses)
    requires after == Next(w, ProtectionReturns(k, Ok(statuses)))
    ensures Ran(w, [ProtectionReturns(k, Ok(statuses))], k, after, after.db, [])
    ensures var (db, result) := RecordProtectionOrders(w.db, stored.intent, fill);
            && db == after.db
            && (result.Ok? <==> |stored.intent.exit.takeProfit| <= 256)
            && (result.Ok? ==> IsAt(after, k, account, ProtectionRecorded(stored, fill)))
  {
    ProtectingMirrors(w, k, account, stored, fill, statuses);
    RanSilently(w, ProtectionReturns(k, Ok(statuses)), k, after);
  }

  lemma FinishingRun(
    w: World, k: WorkerId, account: Account, stored: StoredIntent, fill: ConfirmedFill, after: World)
    requires WorldOk(w) && IsAt(w, k, account, ProtectionRecorded(stored, fill))
    requires after == Next(w, FinishProtected(k))
    ensures Ran(w, [FinishProtected(k)], k, after, after.db, [])
    ensures FinishLiveTransition(w.db, stored.intent.intentId, PROTECTED) == (after.db, Ok(()))
    ensures EndsIn(after, k, account, stored.intent.intentId, Protected)
  {
    FinishingMirrors(w, k, account, stored, fill);
    RanSilently(w, FinishProtected(k), k, after);
  }

  lemma ProtectionSentRun(
    w: World, k: WorkerId, account: Account, stored: StoredIntent, fill: ConfirmedFill,
    decimals: Option<nat>, orders: seq<TriggerOrder>, sent: seq<Call>)
    requires WorldOk(w) && IsAt(w, k, account, FillRecorded(stored, fill))
    requires IsProtection(stored.intent, fill, decimals, orders)
    requires sent == [ProtectionCall(stored.intent.intentId, account, decimals, orders)]
    ensures var after := Next(w, SendProtection(k, decimals, orders));
            && Ran(w, [SendProtection(k, decimals, orders)], k, after, w.db, sent)
            && IsAt(after, k, account, ProtectionSent(stored, fill))
  {
    SendingProtectionMirrors(w, k, account, stored, fill, decimals, orders);
    RanOne(w, SendProtection(k, decimals, orders), k, sent);
  }

  lemma CloseBegun(
    w: World, k: WorkerId, account: Account, stored: StoredIntent, fill: ConfirmedFill, failure: GatewayFailure)
    requires WorldOk(w) && IsFilled(w, k, account, stored, fill)
    ensures var closing := Next(w, ProtectionReturns(k, Err(failure)));
            && Ran(w, [ProtectionReturns(k, Err(failure))], k, closing, closing.db, [])
            && IsAt(closing, k, account, Closing(stored, fill))
            && FinishLiveTransition(w.db, stored.intent.intentId, EMERGENCY_CLOSING) == (closing.db, Ok(()))
  {
    ClosingMirrors(w, k, account, stored, fill, failure);
    RanOne(w, ProtectionReturns(k, Err(failure)), k, []);
  }

  lemma CloseSentRun(
    w: World, k: WorkerId, account: Account, stored: StoredIntent, fill: ConfirmedFill,
    decimals: Option<nat>, lots: int, sent: seq<Call>)
    requires WorldOk(w) && IsAt(w, k, account, Closing(stored, fill)) && RoundSize(decimals, fill.size) == Ok(lots)
    requires sent == [CloseCall(stored.intent.intentId, account, decimals, lots,
                                DeterministicCloid(stored.intent.intentId, EmergencyClose))]
    ensures var after := Next(w, SendClose(k, decimals));
            && Ran(w, [SendClose(k, decimals)], k, after, w.db, sent)
            && IsAt(after, k, account, CloseSent(stored, fill))
  {
    SendingCloseMirrors(w, k, account, stored, fill, decimals, lots);
    RanOne(w, SendClose(k, decimals), k, sent);
  }

  lemma RanSilently(w: World, action: Action, k: WorkerId, after: World)
    requires WorldOk(w) && ActorOf(action) == Some(k)
    requires after == Next(w, action) && after.calls == w.calls
    ensures Ran(w, [action], k, after, after.db, [])
  {
    assert w.calls + [] == w.calls;
    RanOne(w, action, k, []);
  }

  lemma FilledRun(w: World, k: WorkerId, account: Account, stored: StoredIntent, fill: ConfirmedFill)
    requires WorldOk(w) && IsAt(w, k, account, EntrySent(stored))
    ensures var after := Next(w, EntryReturns(k, Ok(fill)));
            && Ran(w, [EntryReturns(k, Ok(fill))], k, after, after.db, [])
            && RecordEntryFill(w.db, stored.intent.intentId, fill) == (after.db, Ok(()))
            && IsAt(after, k, account, FillRecorded(stored, fill))
  {
    FillingMirrors(w, k, account, stored, fill);
    RanOne(w, EntryReturns(k, Ok(fill)), k, []);
  }

  lemma FailedRun(
    w: World, k: WorkerId, account: Account, stored: StoredIntent, failure: GatewayFailure)
    requires WorldOk(w) && IsAt(w, k, account, EntrySent(stored))
    ensures var id, move := stored.intent.intentId, if failure.Definite? then ENTRY_FAILED else ENTRY_UNKNOWN;
            var after := Next(w, EntryReturns(k, Err(failure)));
            && Ran(w, [EntryReturns(k, Err(failure))], k, after, after.db, [])
            && FinishLiveTransition(w.db, id, move) == (after.db, Ok(()))
            && EndsIn(after, k, account, id, move.toLive)
  {
    FailingMirrors(w, k, account, stored, failure);
    RanOne(w, EntryReturns(k, Err(failure)), k, []);
  }

  lemma SentRun(
    w: World, k: WorkerId, account: Account, stored: StoredIntent, execution: LiveExecution, notional: real,
    entry: seq<Call>)
    requires WorldOk(w) && IsAt(w, k, account, Claimed(stored, execution))
    requires stored.riskDecision.Some? && stored.riskDecision.value.approvedNotionalUsd == Some(notional)
    requires entry == [EntryCall(stored.intent.intentId, account, notional, execution.entryCloid)]
    ensures var after := Next(w, SendEntry(k));
            Ran(w, [SendEntry(k)], k, after, w.db, entry) && IsAt(after, k, account, EntrySent(stored))
  {
    SendingMirrors(w, k, account, stored, execution, notional);
    RanOne(w, SendEntry(k), k, entry);
  }

  lemma GatePassedRun(w: World, k: WorkerId, account: Account)
    requires WorldOk(w) && IsAt(w, k, account, Idle) && !EntriesBlocked(w.db, account)
    ensures var passed := Next(w, PassGate(k));
            Ran(w, [PassGate(k)], k, passed, w.db, []) && IsAt(passed, k, account, GatePassed)
  {
    assert Next(w, PassGate(k)) == SetPc(w, k, GatePassed);
    RanOne(w, PassGate(k), k, []);
  }

  lemma NothingClaimedRun(w: World, k: WorkerId, account: Account)
    requires WorldOk(w) && IsAt(w, k, account, GatePassed)
    requires forall id | PendingFor(w.db, account, id) :: Blocked(w.db, id)
    ensures var after := Next(w, ClaimNext(k, None));
            Ran(w, [ClaimNext(k, None)], k, after, w.db, []) && IsAt(after, k, account, Idle)
  {
    assert Next(w, ClaimNext(k, None)) == SetPc(w, k, Idle);
    RanOne(w, ClaimNext(k, None), k, []);
  }

  lemma ClaimedRun(w: World, k: WorkerId, account: Account, id: IntentId)
    requires WorldOk(w) && IsAt(w, k, account, GatePassed) && Oldest(w.db, account, id)
    ensures var after := Next(w, ClaimNext(k, Some(id)));
            Ran(w, [ClaimNext(k, Some(id))], k, after, after.db, [])
  {
    ClaimingMirrors(w, k, account, id);
    RanOne(w, ClaimNext(k, Some(id)), k, []);
  }

  /** Gate and claim together. */
  lemma GateAndClaimRun(w: World, k: WorkerId, account: Account, id: IntentId, passed: World, middle: World)
    requires WorldOk(w) && IsAt(w, k, account, Idle) && !EntriesBlocked(w.db, account) && Oldest(w.db, account, id)
    requires passed == Next(w, PassGate(k)) && middle == Next(passed, ClaimNext(k, Some(id)))
    ensures Ran(w, [PassGate(k)] + [ClaimNext(k, Some(id))], k, middle, middle.db, [])
    ensures Claim(w.db, id).1.Ok?
    ensures var (execution, stored) := Claim(w.db, id).1.value;
            && IsAt(middle, k, account, Claimed(stored, execution))
            && stored.intent.intentId == id && stored.intent == w.db.intents[id].intent
            && middle.db == Claim(w.db, id).0
            && stored.riskDecision.Some? && stored.riskDecision.value.approvedNotionalUsd.Some?
  {
    GatePassedRun(w, k, account);
    ClaimedRun(passed, k, account, id);
    ClaimingMirrors(passed, k, account, id);
    RanBoth(w, [PassGate(k)], [ClaimNext(k, Some(id))], k, passed, middle, [], []);
  }

  lemma RanAfter(
    w: World, first: seq<Action>, second: seq<Action>, k: WorkerId, middle: World, after: World, sent: seq<Call>)
    requires Ran(w, first, k, middle, middle.db, []) && Ran(middle, second, k, after, after.db, sent)
    ensures Ran(w, first + second, k, after, after.db, sent)
  {
    RanBoth(w, first, second, k, middle, after, [], sent);
    assert [] + sent == sent;
  }

  lemma RanBefore(
    w: World, first: seq<Action>, second: seq<Action>, k: WorkerId, middle: World, after: World, sent: seq<Call>)
    requires Ran(w, first, k, middle, middle.db, sent) && Ran(middle, second, k, after, after.db, [])
    ensures Ran(w, first + second, k, after, after.db, sent)
  {
    RanBoth(w, first, second, k, middle, after, sent, []);
    assert sent + [] == sent;
  }

  lemma GateAndNothingRun(w: World, k: WorkerId, account: Account, passed: World, after: World)
    requires WorldOk(w) && IsAt(w, k, account, Idle) && !EntriesBlocked(w.db, account)
    requires forall id | PendingFor(w.db, account, id) :: Blocked(w.db, id)
    requires passed == Next(w, PassGate(k)) && after == Next(passed, ClaimNext(k, None))
    ensures Ran(w, [PassGate(k)] + [ClaimNext(k, None)], k, after, w.db, []) && IsAt(after, k, account, Idle)
  {
    GatePassedRun(w, k, account);
    NothingClaimedRun(passed, k, account);
    RanBoth(w, [PassGate(k)], [ClaimNext(k, None)], k, passed, after, [], []);
  }

  /** The execution has ended as the exchange answered, and its worker is idle again. */
  ghost predicate Ended(
    w: World, k: WorkerId, account: Account, id: IntentId, intent: TradeIntent, exchange: Exchange)
    requires exchange.Complete()
  {
    IsAt(w, k, account, Idle) && id in w.db.executions && EndsAs(intent, exchange, w.db.executions[id].status)
  }

  lemma OnlyThisFill(intent: TradeIntent, exchange: Exchange, fill: ConfirmedFill)
    requires exchange.Complete() && FillsEntry(intent, exchange) && Confirms(exchange, fill)
    ensures EndsAs(intent, exchange, OutcomeOfFill(intent, fill, exchange))
    ensures CannotRecord(intent, exchange) <==>
            Protects(intent, fill, exchange) && PercentTotal(intent.exit.takeProfit) >= 0x1_0000
  {
    forall other | Confirms(exchange, other) ensures other == fill {
      ConfirmsOneFill(exchange.order, exchange.attempts, other, fill);
    }
  }

  /** The emergency close of a fill, unless its size truncates to nothing. */
  function SentForClose(id: IntentId, account: Account, fill: ConfirmedFill, decimals: Option<nat>): seq<Call> {
    var lots := RoundSize(decimals, fill.size);
    if lots.Err? then []
    else [CloseCall(id, account, decimals, lots.value, DeterministicCloid(id, EmergencyClose))]
  }

  lemma CloseNeedsLots(fill: ConfirmedFill, exchange: Exchange)
    ensures Closes(fill, exchange) ==> RoundSize(exchange.decimals, fill.size).Ok?
  {
  }

  /** What is sent for a fill: its protective orders, if they can be sized, and an emergency close, if
      protection does not hold and a lot is left to close. */
  ghost predicate SentForFill(
    intent: TradeIntent, account: Account, fill: ConfirmedFill, exchange: Exchange, sent: seq<Call>)
  {
    var id, decimals := intent.intentId, exchange.decimals;
    var closes := if Protects(intent, fill, exchange) then [] else SentForClose(id, account, fill, decimals);
    if !Sized(intent, fill, decimals) then sent == closes
    else
      && sent != [] && sent[1..] == closes
      && sent[0].ProtectionCall? && sent[0].id == id && sent[0].account == account && sent[0].decimals == decimals
      && IsProtection(intent, fill, decimals, sent[0].orders)
  }

  class LiveExecutionWorker {
    const store: ExecutionStore
    const account: Account

    constructor (store: ExecutionStore, account: Account)
      ensures this.store == store && this.account == account
    {
      this.store := store;
      this.account := account;
    }

    /** The protection was verified: its orders are recorded. */
    method RecordProtection(
      stored: StoredIntent, fill: ConfirmedFill, statuses: seq<OrderResponse>, ghost w: World, ghost k: WorkerId)
      returns (result: StoreResult<()>, ghost run: seq<Action>, ghost after: World)
      requires WorldOk(w) && w.db == store.db && IsAt(w, k, account, ProtectionSent(stored, fill))
      requires EachWaits(statuses)
      modifies store
      ensures Ran(w, run, k, after, store.db, [])
      ensures result.Ok? ==> EndsIn(after, k, account, stored.intent.intentId, Protected)
      ensures result.Err? <==> PercentTotal(stored.intent.exit.takeProfit) >= 0x1_0000
    {
      SentTargetsWrapExactly(w, k);
      after, run := Next(w, ProtectionReturns(k, Ok(statuses))), [ProtectionReturns(k, Ok(statuses))];
      ProtectingRun(w, k, account, stored, fill, statuses, after);
      result := store.RecordLiveProtectionOrders(stored.intent, fill);
      if result.Ok? {
        ghost var recorded := after;
        after := Next(recorded, FinishProtected(k));
        FinishingRun(recorded, k, account, stored, fill, after);
        RanAfter(w, run, [FinishProtected(k)], k, recorded, after, []);
        run := run + [FinishProtected(k)];
        result := store.FinishLiveTransition(stored.intent.intentId, PROTECTED);
      }
    }

    /** The answer to the emergency close, or why it could not be sent, is recorded. */
    method RecordClose(
      stored: StoredIntent, fill: ConfirmedFill, close: Reply<ConfirmedFill>, ghost w: World, ghost k: WorkerId)
      returns (result: StoreResult<()>, ghost after: World)
      requires WorldOk(w) && w.db == store.db
      requires || IsAt(w, k, account, CloseSent(stored, fill))
               || (IsAt(w, k, account, Closing(stored, fill)) && close.Err?)
      modifies store
      ensures Ran(w, [CloseReturns(k, close)], k, after, store.db, [])
      ensures result.Ok?
      ensures EndsIn(after, k, account, stored.intent.intentId, if close.Ok? then Closed else ReconciliationRequired)
    {
      after := Next(w, CloseReturns(k, close));
      ClosedMirrors(w, k, account, stored, fill, close);
      RanSilently(w, CloseReturns(k, close), k, after);
      result := store.FinishLiveTransition(
        stored.intent.intentId, if close.Ok? then CLOSED else RECONCILIATION_REQUIRED);
    }

    /** Sends the emergency close, unless its size truncates to nothing, and records the answer. */
    method EmergencyCloseFill(
      stored: StoredIntent, fill: ConfirmedFill, decimals: Option<nat>, close: Reply<ConfirmedFill>, ghost w: World,
      ghost k: WorkerId)
      returns (result: StoreResult<()>, sent: seq<Call>, ghost run: seq<Action>, ghost after: World)
      requires WorldOk(w) && w.db == store.db && IsAt(w, k, account, Closing(stored, fill))
      requires close.Ok? ==> RoundSize(decimals, fill.size).Ok?
      modifies store
      ensures Ran(w, run, k, after, store.db, sent)
      ensures result.Ok?
      ensures EndsIn(after, k, account, stored.intent.intentId, if close.Ok? then Closed else ReconciliationRequired)
      ensures sent == SentForClose(stored.intent.intentId, account, fill, decimals)
    {
      sent := SentForClose(stored.intent.intentId, account, fill, decimals);
      run := [CloseReturns(k, close)];
      if sent == [] {
        result, after := RecordClose(stored, fill, close, w, k);
      } else {
        ghost var closeSent := Next(w, SendClose(k, decimals));
        CloseSentRun(w, k, account, stored, fill, decimals, RoundSize(decimals, fill.size).value, sent);
        result, after := RecordClose(stored, fill, close, closeSent, k);
        RanBefore(w, [SendClose(k, decimals)], run, k, closeSent, after, sent);
        run := [SendClose(k, decimals)] + run;
      }
    }

    /** The protection failed: the account is locked and the fill is closed again. */
    method CloseAgain(
      stored: StoredIntent, fill: ConfirmedFill, failure: GatewayFailure, exchange: Exchange, ghost w: World,
      ghost k: WorkerId)
      returns (result: StoreResult<()>, sent: seq<Call>, ghost run: seq<Action>, ghost after: World)
      requires WorldOk(w) && w.db == store.db && IsFilled(w, k, account, stored, fill)
      modifies store
      ensures Ran(w, run, k, after, store.db, sent)
      ensures result.Ok?
      ensures EndsIn(after, k, account, stored.intent.intentId,
                     if Closes(fill, exchange) then Closed else ReconciliationRequired)
      ensures sent == SentForClose(stored.intent.intentId, account, fill, exchange.decimals)
    {
      CloseBegun(w, k, account, stored, fill, failure);
      ghost var closing := Next(w, ProtectionReturns(k, Err(failure)));
      result := store.FinishLiveTransition(stored.intent.intentId, EMERGENCY_CLOSING);
      var close := Gateway.EmergencyClose(fill, exchange.decimals, exchange.closing);
      CloseNeedsLots(fill, exchange);
      ghost var rest;
      result, sent, rest, after := EmergencyCloseFill(stored, fill, exchange.decimals, close, closing, k);
      run := [ProtectionReturns(k, Err(failure))] + rest;
      RanAfter(w, [ProtectionReturns(k, Err(failure))], rest, k, closing, after, sent);
    }

    /** The protective orders were sent: what became of them is recorded. */
    method RecordOutcome(
      stored: StoredIntent, fill: ConfirmedFill, established: ProtectionReply, exchange: Exchange, ghost w: World,
      ghost k: WorkerId)
      returns (result: StoreResult<()>, sent: seq<Call>, ghost run: seq<Action>, ghost after: World)
      requires WorldOk(w) && w.db == store.db && IsAt(w, k, account, ProtectionSent(stored, fill))
      requires established.Ok? ==> EachWaits(established.value)
      modifies store
      ensures Ran(w, run, k, after, store.db, sent)
      ensures sent == if established.Ok? then []
                      else SentForClose(stored.intent.intentId, account, fill, exchange.decimals)
      ensures result.Ok? ==> EndsIn(after, k, account, stored.intent.intentId,
                                    if established.Ok? then Protected
                                    else if Closes(fill, exchange) then Closed else ReconciliationRequired)
      ensures result.Err? <==> established.Ok? && PercentTotal(stored.intent.exit.takeProfit) >= 0x1_0000
    {
      if established.Ok? {
        result, run, after := RecordProtection(stored, fill, established.value, w, k);
        sent := [];
      } else {
        result, sent, run, after := CloseAgain(stored, fill, established.error, exchange, w, k);
      }
    }

    /** Sends the protective orders of a recorded fill and records what becomes of them. */
    method Protect(stored: StoredIntent, fill: ConfirmedFill, exchange: Exchange, ghost w: World, ghost k: WorkerId)
      returns (result: StoreResult<()>, sent: seq<Call>, ghost run: seq<Action>, ghost after: World)
      requires WorldOk(w) && w.db == store.db && IsAt(w, k, account, FillRecorded(stored, fill)) && exchange.Complete()
      modifies store
      ensures Ran(w, run, k, after, store.db, sent)
      ensures SentForFill(stored.intent, account, fill, exchange, sent)
      ensures result.Ok? ==> EndsIn(after, k, account, stored.intent.intentId,
                                    OutcomeOfFill(stored.intent, fill, exchange))
      ensures result.Err? <==>
                Protects(stored.intent, fill, exchange) && PercentTotal(stored.intent.exit.takeProfit) >= 0x1_0000
    {
      var orders := ProtectiveOrders(stored.intent, fill, exchange.decimals);
      var established :=
        EstablishProtection(stored.intent, fill, exchange.decimals, exchange.placement, exchange.polls);
      ghost var rest;
      if orders.Err? {
        result, sent, run, after := CloseAgain(stored, fill, orders.error, exchange, w, k);
        return;
      }
      var protection := [ProtectionCall(stored.intent.intentId, account, exchange.decimals, orders.value)];
      ghost var send := SendProtection(k, exchange.decimals, orders.value);
      ProtectionSentRun(w, k, account, stored, fill, exchange.decimals, orders.value, protection);
      ghost var protecting := Next(w, send);
      result, sent, rest, after := RecordOutcome(stored, fill, established, exchange, protecting, k);
      RanBoth(w, [send], rest, k, protecting, after, protection, sent);
      sent, run := protection + sent, [send] + rest;
    }

    /** Records a confirmed fill and sees to its protection, or closes it again. It fails only when the
        protective orders of an intent whose percentages wrapped in validation are to be recorded. */
    method HandleFill(stored: StoredIntent, fill: ConfirmedFill, exchange: Exchange, ghost w: World, ghost k: WorkerId)
      returns (result: StoreResult<()>, sent: seq<Call>, ghost run: seq<Action>, ghost after: World)
      requires WorldOk(w) && w.db == store.db && IsAt(w, k, account, EntrySent(stored)) && exchange.Complete()
      modifies store
      ensures Ran(w, run, k, after, store.db, sent)
      ensures SentForFill(stored.intent, account, fill, exchange, sent)
      ensures result.Ok? ==> EndsIn(after, k, account, stored.intent.intentId,
                                    OutcomeOfFill(stored.intent, fill, exchange))
      ensures result.Err? <==>
                Protects(stored.intent, fill, exchange) && PercentTotal(stored.intent.exit.takeProfit) >= 0x1_0000
    {
      FilledRun(w, k, account, stored, fill);
      ghost var filled := Next(w, EntryReturns(k, Ok(fill)));
      ghost var rest;
      result := store.RecordLiveEntryFill(stored.intent.intentId, fill);
      result, sent, rest, after := Protect(stored, fill, exchange, filled, k);
      RanBoth(w, [EntryReturns(k, Ok(fill))], rest, k, filled, after, [], sent);
      assert [] + sent == sent;
      run := [EntryReturns(k, Ok(fill))] + rest;
    }

    /** Submits the entry of a claimed execution and records what becomes of it. */
    method Execute(
      stored: StoredIntent, execution: LiveExecution, exchange: Exchange, ghost w: World, ghost k: WorkerId)
      returns (result: StoreResult<()>, sent: seq<Call>, ghost run: seq<Action>, ghost after: World)
      requires WorldOk(w) && w.db == store.db && IsAt(w, k, account, Claimed(stored, execution))
      requires exchange.Complete()
      requires stored.riskDecision.Some? && stored.riskDecision.value.approvedNotionalUsd.Some?
      modifies store
      ensures Ran(w, run, k, after, store.db, sent)
      ensures sent != [] && sent[0] == EntryCall(
                stored.intent.intentId, account, stored.riskDecision.value.approvedNotionalUsd.value,
                execution.entryCloid)
      ensures result.Ok? ==> Ended(after, k, account, stored.intent.intentId, stored.intent, exchange)
      ensures result.Err? <==> CannotRecord(stored.intent, exchange)
    {
      var approvedNotional := stored.riskDecision.value.approvedNotionalUsd.value;
      var entry := [EntryCall(stored.intent.intentId, account, approvedNotional, execution.entryCloid)];
      SentRun(w, k, account, stored, execution, approvedNotional, entry);
      ghost var entrySent := Next(w, SendEntry(k));
      ghost var rest;
      var submitted := SubmitEntry(
        stored.intent.symbol, exchange.positions, exchange.submission, exchange.order, exchange.attempts);
      if submitted.Ok? {
        OnlyThisFill(stored.intent, exchange, submitted.value);
        result, sent, rest, after := HandleFill(stored, submitted.value, exchange, entrySent, k);
      } else {
        var failure := submitted.error;
        FailedRun(entrySent, k, account, stored, failure);
        rest, after, sent := [EntryReturns(k, Err(failure))], Next(entrySent, EntryReturns(k, Err(failure))), [];
        result := store.FinishLiveTransition(
          stored.intent.intentId, if failure.Definite? then ENTRY_FAILED else ENTRY_UNKNOWN);
      }
      RanBoth(w, [SendEntry(k)], rest, k, entrySent, after, entry, sent);
      run := [SendEntry(k)] + rest;
      sent := entry + sent;
    }

    /** One pass of the worker: it returns false when new entries are blocked or no pending execution has
        a free symbol, and otherwise takes the oldest such execution to the end that the answers of the
        exchange determine. The pass is a run of the protocol by this worker alone. */
    method RunOnce(exchange: Exchange, ghost w: World, ghost k: WorkerId)
      returns (result: StoreResult<bool>, sent: seq<Call>, ghost run: seq<Action>, ghost after: World)
      requires WorldOk(w) && w.db == store.db && IsAt(w, k, account, Idle) && exchange.Complete()
      modifies store
      ensures Ran(w, run, k, after, store.db, sent)
      ensures result == Ok(false) <==>
                EntriesBlocked(old(store.db), account)
                || forall id | PendingFor(old(store.db), account, id) :: Blocked(old(store.db), id)
      ensures result == Ok(false) ==> store.db == old(store.db) && sent == [] && IsAt(after, k, account, Idle)
      ensures result == Ok(true) ==> exists id ::
                && Oldest(old(store.db), account, id)
                && Ended(after, k, account, id, old(store.db).intents[id].intent, exchange)
                && sent != [] && sent[0].EntryCall? && sent[0].id == id
      ensures result.Err? ==> exists id ::
                Oldest(old(store.db), account, id) && CannotRecord(old(store.db).intents[id].intent, exchange)
    {
      RanNothing(w, k);
      if EntriesBlocked(store.db, account) {
        return Ok(false), [], [], w;
      }
      EveryClaimSucceeds(w, account);
      ghost var passed := Next(w, PassGate(k));
      var claimed := store.ClaimNextLiveExecution(account);
      match claimed.value {
        case None =>
          after := Next(passed, ClaimNext(k, None));
          GateAndNothingRun(w, k, account, passed, after);
          return Ok(false), [], [PassGate(k)] + [ClaimNext(k, None)], after;
        case Some((id, execution, stored)) =>
          ghost var middle := Next(passed, ClaimNext(k, Some(id)));
          GateAndClaimRun(w, k, account, id, passed, middle);
          var finished;
          ghost var rest;
          finished, sent, rest, after := Execute(stored, execution, exchange, middle, k);
          run := [PassGate(k)] + [ClaimNext(k, Some(id))];
          RanAfter(w, run, rest, k, middle, after, sent);
          run := run + rest;
          assert sent[0].id == id;
          result := if finished.Ok? then Ok(true) else Err(finished.error);
      }
    }
  }

  /** Nothing that is pending and unblocked can fail to be claimed. */
  lemma EveryClaimSucceeds(w: World, account: Account)
    requires WorldOk(w)
    ensures forall id | Oldest(w.db, account, id) :: Claim(w.db, id).1.Ok?
  {
    forall id | Oldest(w.db, account, id) ensures Claim(w.db, id).1.Ok? {
      ClaimKeepsTables(w.db, account, id);
    }
  }
}
