/** What holds in every world that any interleaving of API, workers, snapshots, operator and crashes
    can reach. */
module ProtocolInvariant {
  import opened Wrappers
  import opened Domain
  import opened Risk
  import opened Orders
  import opened Gateway
  import opened Database
  import opened StoreInvariant
  import opened Protocol

  // ---------- The history of one id ----------

  function EntryLedger(execution: LiveExecution, fill: ConfirmedFill): Ledger {
    map[StableName(Entry) := EntryOrder(execution, fill)]
  }

  /** The ledger after the protective orders of the whole fill were recorded. */
  predicate FullLedger(ledger: Ledger, intent: TradeIntent, execution: LiveExecution, fill: ConfirmedFill) {
    InsertProtection(EntryLedger(execution, fill), intent, fill.size) == Some(ledger)
  }

  predicate RolesRunOut(intent: TradeIntent) {
    |intent.exit.takeProfit| > 256
  }

  predicate Agreed<T>(reply: Option<Reply<T>>) { reply.Some? && reply.value.Ok? }
  predicate Denied<T>(reply: Option<Reply<T>>) { reply.Some? && reply.value.Err? }

  /** The status of an execution is what the gateway's recorded answers say. */
  predicate AnswersOk(status: LiveStatus, r: Replies) {
    match status
    case Pending => r == NO_REPLIES
    case EntrySubmitting => r == NO_REPLIES
    case Failed => Denied(r.entry) && r.entry.value.error.Definite? && r.protection.None? && r.close.None?
    case EntryUnknown => Denied(r.entry) && r.entry.value.error.OutcomeUnknown? && r.protection.None? && r.close.None?
    case EntryFilled => Agreed(r.entry) && !Denied(r.protection) && r.close.None?
    case Protected => Agreed(r.entry) && Agreed(r.protection) && r.close.None?
    case EmergencyClosing => Agreed(r.entry) && Denied(r.protection) && r.close.None?
    case Closed => Agreed(r.entry) && Denied(r.protection) && Agreed(r.close)
    case ReconciliationRequired => Agreed(r.entry) && Denied(r.protection) && Denied(r.close)
    case Protecting => false
  }

  predicate CallCountsOk(status: LiveStatus, n: Counts) {
    match status
    case Pending => n == Counts(0, 0, 0)
    case EntrySubmitting => n.entries <= 1 && n.protections == 0 && n.closes == 0
    case EntryFilled => n.entries == 1 && n.protections <= 1 && n.closes == 0
    case Protected => n == Counts(1, 1, 0)
    case EmergencyClosing => n.entries == 1 && n.protections <= 1 && n.closes <= 1
    case Closed => n.entries == 1 && n.protections <= 1 && n.closes == 1
    case ReconciliationRequired => n.entries == 1 && n.protections <= 1 && n.closes <= 1
    case _ => n == Counts(1, 0, 0)
  }

  /** The ledger holds the filled entry, and the protective orders once they were recorded. */
  predicate LedgerOk(ledger: Ledger, intent: TradeIntent, execution: LiveExecution, r: Replies) {
    if !Agreed(r.entry) then ledger == map[]
    else
      var fill := r.entry.value.value;
      if execution.status.Protected? then FullLedger(ledger, intent, execution, fill)
      else if execution.status.EntryFilled? && Agreed(r.protection) then
        FullLedger(ledger, intent, execution, fill) || (RolesRunOut(intent) && ledger == EntryLedger(execution, fill))
      else ledger == EntryLedger(execution, fill)
  }

  predicate HistoryOk(
    row: Option<StoredIntent>, execution: Option<LiveExecution>, ledger: Ledger, r: Replies, n: Counts)
  {
    if execution.None? || row.None? then ledger == map[] && r == NO_REPLIES && n == Counts(0, 0, 0)
    else
      && AnswersOk(execution.value.status, r)
      && (Agreed(r.protection) ==> EachWaits(r.protection.value.value) && n.protections == 1)
      && CallCountsOk(execution.value.status, n)
      && LedgerOk(ledger, row.value.intent, execution.value, r)
  }

  ghost predicate HistoryAt(w: World, id: IntentId) {
    HistoryOk(Lookup(w.db.intents, id), Lookup(w.db.executions, id), LedgerOf(w.db, id), RepliesOf(w, id),
              CountsOf(w.calls, id))
  }

  ghost predicate Validated(intent: TradeIntent) {
    Sizable(intent) && exists now :: Validate(intent, now).None?
  }

  /** A stored intent carries the decision of the policy it was admitted under, and its digest binds
      both. */
  ghost predicate AdmissionAt(w: World, id: IntentId) {
    id in w.db.intents ==>
      var row := w.db.intents[id];
      && id in w.admittedUnder
      && Validated(row.intent)
      && row.riskDecision == Some(EvaluateAdmission(w.admittedUnder[id], row.intent))
      && (row.manualConfirmation.Some? ==>
            && row.riskDecision.value.status.Approved?
            && row.manualConfirmation.value.digest
               == Digest(row.intent, row.riskDecision.value, row.manualConfirmation.value.expiresAt))
  }

  /** A queued execution was confirmed with exactly that digest. */
  ghost predicate ConfirmationAt(w: World, id: IntentId) {
    id in w.db.executions && id in w.db.intents ==>
      var row := w.db.intents[id];
      && row.manualConfirmation.Some?
      && row.manualConfirmation.value.confirmedBy.Some?
      && IntentManuallyConfirmed(id, row.manualConfirmation.value.digest,
          row.manualConfirmation.value.confirmedBy.value)
         in w.db.journal
  }

  ghost predicate IdOk(w: World, id: IntentId) {
    HistoryAt(w, id) && AdmissionAt(w, id) && ConfirmationAt(w, id)
  }

  // ---------- Workers ----------

  /** The execution a worker is responsible for. */
  function Held(pc: Pc): Option<IntentId> {
    match pc
    case Claimed(stored, _) => Some(stored.intent.intentId)
    case EntrySent(stored) => Some(stored.intent.intentId)
    case FillRecorded(stored, _) => Some(stored.intent.intentId)
    case ProtectionSent(stored, _) => Some(stored.intent.intentId)
    case ProtectionRecorded(stored, _) => Some(stored.intent.intentId)
    case Closing(stored, _) => Some(stored.intent.intentId)
    case CloseSent(stored, _) => Some(stored.intent.intentId)
    case _ => None
  }

  /** What the worker remembers of the intent is what is stored. */
  predicate Holds(db: Tables, account: Account, stored: StoredIntent, status: LiveStatus) {
    var id := stored.intent.intentId;
    && id in db.executions && id in db.intents
    && db.executions[id].account == account
    && db.executions[id].status == status
    && db.intents[id].intent == stored.intent
    && db.intents[id].riskDecision == stored.riskDecision
  }

  /** Recording more than 256 verified targets fails. The gateway sends only positive percentages, so
      their sum must have wrapped in validation. */
  predicate TotalWraps(intent: TradeIntent) {
    RolesRunOut(intent) && PercentTotal(intent.exit.takeProfit) >= 0x1_0000
  }

  ghost predicate WorkerOk(w: World, account: Account, pc: Pc) {
    match pc
    case Claimed(stored, execution) =>
      && Holds(w.db, account, stored, EntrySubmitting)
      && EntriesFor(w.calls, stored.intent.intentId) == 0
      && stored.riskDecision.Some? && stored.riskDecision.value.approvedNotionalUsd.Some?
      && execution.entryCloid == DeterministicCloid(stored.intent.intentId, Entry)
    case EntrySent(stored) =>
      && Holds(w.db, account, stored, EntrySubmitting)
      && EntriesFor(w.calls, stored.intent.intentId) == 1
    case FillRecorded(stored, fill) =>
      && Holds(w.db, account, stored, EntryFilled)
      && RepliesOf(w, stored.intent.intentId) == Replies(Some(Ok(fill)), None, None)
      && ProtectionsFor(w.calls, stored.intent.intentId) == 0
    case ProtectionSent(stored, fill) =>
      && Holds(w.db, account, stored, EntryFilled)
      && RepliesOf(w, stored.intent.intentId) == Replies(Some(Ok(fill)), None, None)
      && ProtectionsFor(w.calls, stored.intent.intentId) == 1
      && LegsPositive(stored.intent)
    case ProtectionRecorded(stored, fill) =>
      && Holds(w.db, account, stored, EntryFilled)
      && RepliesOf(w, stored.intent.intentId).entry == Some(Ok(fill))
      && RepliesOf(w, stored.intent.intentId).protection.Some?
      && ProtectionsFor(w.calls, stored.intent.intentId) == 1
      && FullLedger(
           LedgerOf(w.db, stored.intent.intentId), stored.intent, w.db.executions[stored.intent.intentId], fill)
    case Closing(stored, fill) =>
      && Holds(w.db, account, stored, EmergencyClosing)
      && RepliesOf(w, stored.intent.intentId).entry == Some(Ok(fill))
      && ClosesFor(w.calls, stored.intent.intentId) == 0
    case CloseSent(stored, fill) =>
      && Holds(w.db, account, stored, EmergencyClosing)
      && RepliesOf(w, stored.intent.intentId).entry == Some(Ok(fill))
      && ClosesFor(w.calls, stored.intent.intentId) == 1
    case Stopped(held) => held.Some? && TotalWraps(held.value.intent)
    case Panicked => false
    case _ => true
  }

  ghost predicate WorkerAt(w: World, k: WorkerId) {
    k in w.workers ==> WorkerOk(w, w.workers[k].account, w.workers[k].pc)
  }

  ghost predicate HeldOnce(w: World) {
    forall j, k | j in w.workers && k in w.workers && j != k && Held(w.workers[j].pc).Some? ::
      Held(w.workers[j].pc) != Held(w.workers[k].pc)
  }

  /** A call belongs to its execution and carries what was decided for it: an entry the approved notional
      and the id of its role, protective orders and an emergency close the sizes and ids that follow
      from the confirmed fill. */
  ghost predicate CallOk(w: World, call: Call) {
    && call.id in w.db.executions
    && call.id in w.db.intents
    && call.account == w.db.executions[call.id].account
    && CallFits(w.db.intents[call.id], RepliesOf(w, call.id).entry, call)
  }

  ghost predicate CallFits(row: StoredIntent, entry: Option<Reply<ConfirmedFill>>, call: Call) {
    match call
    case EntryCall(id, _, notional, cloid) =>
      && row.riskDecision.Some? && row.riskDecision.value.approvedNotionalUsd == Some(notional)
      && cloid == DeterministicCloid(id, Entry)
    case ProtectionCall(id, _, decimals, orders) =>
      && row.intent.intentId == id && Agreed(entry)
      && IsProtection(row.intent, entry.value.value, decimals, orders)
    case CloseCall(id, _, decimals, lots, cloid) =>
      && Agreed(entry)
      && RoundSize(decimals, entry.value.value.size) == Ok(lots)
      && cloid == DeterministicCloid(id, EmergencyClose)
  }

  ghost predicate CallsOk(w: World) {
    forall n | 0 <= n < |w.calls| :: CallOk(w, w.calls[n])
  }

  ghost predicate WorldOk(w: World) {
    && TablesOk(w.db)
    && (forall id :: IdOk(w, id))
    && (forall k :: WorkerAt(w, k))
    && HeldOnce(w)
    && CallsOk(w)
  }

  // ---------- Frames ----------

  /** Everything recorded about an id is unchanged. */
  ghost predicate SameAt(w: World, after: World, id: IntentId) {
    && SameRow(w.db, after.db, id)
    && RepliesOf(after, id) == RepliesOf(w, id)
    && CountsOf(after.calls, id) == CountsOf(w.calls, id)
    && (id in w.admittedUnder ==> id in after.admittedUnder && after.admittedUnder[id] == w.admittedUnder[id])
  }

  lemma IdFrame(w: World, after: World, id: IntentId)
    requires IdOk(w, id) && SameAt(w, after, id)
    requires w.db.journal <= after.db.journal
    ensures IdOk(after, id)
  {
    if id in w.db.executions && id in w.db.intents {
      var row := w.db.intents[id];
      var event := IntentManuallyConfirmed(
        id, row.manualConfirmation.value.digest, row.manualConfirmation.value.confirmedBy.value);
      var n :| 0 <= n < |w.db.journal| && w.db.journal[n] == event;
      assert after.db.journal[n] == event;
    }
  }

  lemma WorkerFrame(w: World, after: World, account: Account, pc: Pc)
    requires WorkerOk(w, account, pc)
    requires Held(pc).Some? ==> SameAt(w, after, Held(pc).value)
    ensures WorkerOk(after, account, pc)
  {
  }

  /** A confirmed fill is never answered again. */
  ghost predicate KeepsFills(w: World, after: World) {
    forall id | Agreed(RepliesOf(w, id).entry) :: RepliesOf(after, id).entry == RepliesOf(w, id).entry
  }

  lemma CallFrame(w: World, after: World, call: Call)
    requires CallOk(w, call) && Remembers(w.db, after.db) && KeepsFills(w, after)
    ensures CallOk(after, call)
  {
  }

  /** A step on one id by at most one worker: everything else is as before. */
  ghost predicate StepOn(w: World, after: World, id: IntentId, actor: Option<WorkerId>) {
    && TablesOk(after.db)
    && Remembers(w.db, after.db)
    && (forall k :: k != id ==> SameAt(w, after, k))
    && after.workers.Keys == w.workers.Keys
    && (forall k | k in w.workers && actor != Some(k) :: after.workers[k] == w.workers[k])
  }

  /** The shape of all steps on one id: its rows, its answers, its policy and at most one new call. */
  ghost predicate Touches(w: World, after: World, id: IntentId, actor: Option<WorkerId>) {
    && OnlyRow(w.db, after.db, id)
    && (after.replies == w.replies || after.replies == w.replies[id := RepliesOf(after, id)])
    && (after.calls == w.calls || (|after.calls| == |w.calls| + 1 && after.calls == w.calls + [after.calls[|w.calls|]]
                                   && after.calls[|w.calls|].id == id))
    && (forall k | k in w.admittedUnder && k != id ::
          k in after.admittedUnder && after.admittedUnder[k] == w.admittedUnder[k])
    && after.workers.Keys == w.workers.Keys
    && (forall k | k in w.workers && actor != Some(k) :: after.workers[k] == w.workers[k])
  }

  lemma TouchesIsStep(w: World, after: World, id: IntentId, actor: Option<WorkerId>)
    requires Touches(w, after, id, actor) && TablesOk(after.db) && Remembers(w.db, after.db)
    ensures StepOn(w, after, id, actor)
  {
    if after.calls != w.calls {
      CallAdded(w.calls, after.calls[|w.calls|]);
    }
    forall k | k != id ensures SameAt(w, after, k) {
      assert SameRow(w.db, after.db, k);
    }
  }

  /** What remains to be shown of a step on one id. */
  lemma StepKeepsWorld(w: World, after: World, id: IntentId, actor: Option<WorkerId>)
    requires WorldOk(w) && StepOn(w, after, id, actor)
    requires IdOk(after, id)
    requires forall k | k in w.workers && actor != Some(k) :: Held(w.workers[k].pc) != Some(id)
    requires actor.Some? ==> WorkerAt(after, actor.value)
    requires actor.Some? && actor.value in after.workers ==> Held(after.workers[actor.value].pc) in {None, Some(id)}
    requires CallsOk(after)
    ensures WorldOk(after)
  {
    forall k ensures IdOk(after, k) {
      if k != id {
        IdFrame(w, after, k);
      }
    }
    forall k ensures WorkerAt(after, k) {
      if k in w.workers && actor != Some(k) {
        assert WorkerAt(w, k);
        WorkerFrame(w, after, w.workers[k].account, w.workers[k].pc);
      }
    }
  }

  lemma CallsKept(w: World, after: World)
    requires CallsOk(w) && Remembers(w.db, after.db) && KeepsFills(w, after)
    requires after.calls == w.calls
    ensures CallsOk(after)
  {
    forall n | 0 <= n < |after.calls| ensures CallOk(after, after.calls[n]) {
      CallFrame(w, after, w.calls[n]);
    }
  }

  /** A step of the API on an intent that has no execution yet. */
  lemma ApiStep(w: World, after: World, id: IntentId)
    requires WorldOk(w) && id !in w.db.executions
    requires StepOn(w, after, id, None)
    requires after.calls == w.calls && after.replies == w.replies
    requires IdOk(after, id)
    ensures WorldOk(after)
  {
    forall k | k in w.workers ensures Held(w.workers[k].pc) != Some(id) {
      assert WorkerAt(w, k);
    }
    CallsKept(w, after);
    StepKeepsWorld(w, after, id, None);
  }

  lemma IdsFrame(w: World, after: World)
    requires forall id :: IdOk(w, id)
    requires forall id :: SameAt(w, after, id)
    requires w.db.journal <= after.db.journal
    ensures forall id :: IdOk(after, id)
  {
    forall id ensures IdOk(after, id) {
      IdFrame(w, after, id);
    }
  }

  lemma WorkersFrame(w: World, after: World)
    requires forall k :: WorkerAt(w, k)
    requires forall id :: SameAt(w, after, id)
    requires after.workers.Keys == w.workers.Keys
    requires forall k | k in w.workers ::
               after.workers[k] == w.workers[k] || after.workers[k].pc in {Down, Idle, GatePassed}
    ensures forall k :: WorkerAt(after, k)
  {
    forall k ensures WorkerAt(after, k) {
      if k in w.workers && after.workers[k] == w.workers[k] {
        assert WorkerAt(w, k);
        WorkerFrame(w, after, w.workers[k].account, w.workers[k].pc);
      }
    }
  }

  /** A step that leaves every id as it is. */
  lemma QuietStep(w: World, after: World)
    requires WorldOk(w)
    requires TablesOk(after.db) && Remembers(w.db, after.db)
    requires forall id :: SameAt(w, after, id)
    requires after.calls == w.calls
    requires after.workers.Keys == w.workers.Keys
    requires forall k | k in w.workers ::
               after.workers[k] == w.workers[k] || after.workers[k].pc in {Down, Idle, GatePassed}
    ensures WorldOk(after)
  {
    IdsFrame(w, after);
    WorkersFrame(w, after);
    forall id ensures RepliesOf(after, id) == RepliesOf(w, id) {
      assert SameAt(w, after, id);
    }
    CallsKept(w, after);
  }

  /** A step of the worker that holds the id. */
  lemma WorkerStep(w: World, after: World, k: WorkerId, id: IntentId)
    requires WorldOk(w) && k in w.workers && Held(w.workers[k].pc) == Some(id)
    requires StepOn(w, after, id, Some(k))
    requires IdOk(after, id) && WorkerAt(after, k) && CallsOk(after)
    requires Held(after.workers[k].pc) in {None, Some(id)}
    ensures WorldOk(after)
  {
    StepKeepsWorld(w, after, id, Some(k));
  }
}
