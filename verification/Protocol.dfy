/** The execution protocol: API, workers, snapshot service and operator interleave on one store, and
    any worker can crash at any point (src/live_execution.rs, src/main.rs). */
module Protocol {
  import opened Wrappers
  import opened Domain
  import opened Risk
  import opened Orders
  import opened Gateway
  import opened Coverage
  import opened Reconciliation
  import opened Database
  import opened Engine

  type WorkerId = nat

  type Reply<T> = Result<T, GatewayFailure>

  /** Protection that holds comes with the statuses that the exchange listed for its orders. */
  type ProtectionReply = Reply<seq<OrderResponse>>

  /** Where a worker is inside run_once, with what it remembers. The gate and the claim are two
      separate lock acquisitions. */
  datatype Pc =
    | Down
    | Idle
    | GatePassed
    | Claimed(stored: StoredIntent, execution: LiveExecution)
    | EntrySent(stored: StoredIntent)
    | FillRecorded(stored: StoredIntent, fill: ConfirmedFill)
    | ProtectionSent(stored: StoredIntent, fill: ConfirmedFill)
    | ProtectionRecorded(stored: StoredIntent, fill: ConfirmedFill)
    | Closing(stored: StoredIntent, fill: ConfirmedFill)
    | CloseSent(stored: StoredIntent, fill: ConfirmedFill)
    | Stopped(held: Option<StoredIntent>)
    | Panicked

  datatype Worker = Worker(account: Account, pc: Pc)

  /** A request that reaches the exchange. Protective orders go out in one request, and sizes in the
      lots of the metadata in force. */
  datatype Call =
    | EntryCall(id: IntentId, account: Account, notional: real, cloid: Cloid)
    | ProtectionCall(id: IntentId, account: Account, decimals: Option<nat>, orders: seq<TriggerOrder>)
    | CloseCall(id: IntentId, account: Account, decimals: Option<nat>, lots: int, cloid: Cloid)

  /** What the gateway answered for one intent, as far as a worker lived to record it. The statuses of its
      protective orders and the fill that an emergency close reports are among it, although the program
      drops them. */
  datatype Replies = Replies(
    entry: Option<Reply<ConfirmedFill>>, protection: Option<ProtectionReply>, close: Option<Reply<ConfirmedFill>>)

  const NO_REPLIES := Replies(None, None, None)

  /** The store and the workers, the policy in force, and three history variables: the gateway calls
      made, the recorded answers and the policy under which each intent was admitted. */
  datatype World = World(
    db: Tables,
    workers: map<WorkerId, Worker>,
    policy: RiskPolicy,
    calls: seq<Call>,
    replies: map<IntentId, Replies>,
    admittedUnder: map<IntentId, RiskPolicy>)

  datatype Action =
    | Submit(intent: TradeIntent, key: string, now: Time)
    | RejectAtConfirmation(id: IntentId, now: Time)
    | ConfirmShadow(id: IntentId, digest: Digest, operator: string, now: Time)
    | ConfirmLive(id: IntentId, digest: Digest, operator: string, account: Account, now: Time)
    | SwitchKill(enabled: bool)
    | Configure(account: Account)
    | TakeSnapshot(snapshot: AccountSnapshot)
    | AcknowledgeRecovery(account: Account, reason: string, operator: string)
    | LearnHistory(account: Account, fills: set<FillFact>, funding: set<FundingFact>)
    | LearnOrderUpdates(account: Account, updates: set<OrderUpdate>)
    | LoadPolicy(policy: RiskPolicy)
    | Start(worker: WorkerId)
    | Crash(worker: WorkerId)
    | PassGate(worker: WorkerId)
    | ClaimNext(worker: WorkerId, choice: Option<IntentId>)
    | SendEntry(worker: WorkerId)
    | EntryReturns(worker: WorkerId, entry: Reply<ConfirmedFill>)
    | SendProtection(worker: WorkerId, decimals: Option<nat>, orders: seq<TriggerOrder>)
    | ProtectionReturns(worker: WorkerId, answer: ProtectionReply)
    | FinishProtected(worker: WorkerId)
    | SendClose(worker: WorkerId, decimals: Option<nat>)
    | CloseReturns(worker: WorkerId, close: Reply<ConfirmedFill>)

  function Initial(accounts: map<WorkerId, Account>, policy: RiskPolicy): World {
    World(EMPTY, map w | w in accounts :: Worker(accounts[w], Down), policy, [], map[], map[])
  }

  function PcOf(w: World, id: WorkerId): Pc {
    if id in w.workers then w.workers[id].pc else Down
  }

  function SetPc(w: World, id: WorkerId, pc: Pc): World {
    if id in w.workers then w.(workers := w.workers[id := w.workers[id].(pc := pc)]) else w
  }

  function RepliesOf(w: World, id: IntentId): Replies {
    if id in w.replies then w.replies[id] else NO_REPLIES
  }

  function SetReplies(w: World, id: IntentId, replies: Replies): World {
    w.(replies := w.replies[id := replies])
  }

  /** The engine's checks before a confirmation, made with the policy in force at that time. */
  predicate ConfirmationChecked(w: World, id: IntentId, now: Time, approved: bool) {
    && id in w.db.intents
    && Validate(w.db.intents[id].intent, now).None?
    && Sizable(w.db.intents[id].intent)
    && EvaluateAdmission(w.policy, w.db.intents[id].intent).status.Approved? == approved
  }

  /** Protection and close can fail before anything is sent, but hold only after it was. */
  ghost predicate Enabled(w: World, action: Action) {
    match action
    case Submit(intent, _, now) => Validate(intent, now).None? && Sizable(intent)
    case RejectAtConfirmation(id, now) => ConfirmationChecked(w, id, now, false)
    case ConfirmShadow(id, _, _, now) => ConfirmationChecked(w, id, now, true)
    case ConfirmLive(id, _, _, _, now) => ConfirmationChecked(w, id, now, true)
    case TakeSnapshot(s) => s.coverage == EvaluateProtectionCoverage(s.positions, s.openOrders, s.mids)
    case LoadPolicy(policy) => ValidPolicy(policy) && forall k | k in w.workers :: w.workers[k].pc.Down?
    case Start(k) => PcOf(w, k).Down? && k in w.workers && UnresolvedIds(w.db, w.workers[k].account) == {}
    case Crash(k) => k in w.workers
    case PassGate(k) => k in w.workers && PcOf(w, k).Idle? && !EntriesBlocked(w.db, w.workers[k].account)
    case ClaimNext(k, choice) =>
      && k in w.workers
      && PcOf(w, k).GatePassed?
      && (match choice
          case Some(id) => Oldest(w.db, w.workers[k].account, id)
          case None => forall id :: !Claimable(w.db, w.workers[k].account, id))
    case SendEntry(k) => k in w.workers && PcOf(w, k).Claimed?
    case EntryReturns(k, _) => k in w.workers && PcOf(w, k).EntrySent?
    case SendProtection(k, decimals, orders) =>
      && k in w.workers && PcOf(w, k).FillRecorded?
      && IsProtection(PcOf(w, k).stored.intent, PcOf(w, k).fill, decimals, orders)
    case ProtectionReturns(k, answer) =>
      && k in w.workers
      && (if answer.Ok? then PcOf(w, k).ProtectionSent? && EachWaits(answer.value)
          else PcOf(w, k).ProtectionSent? || PcOf(w, k).FillRecorded?)
    case FinishProtected(k) => k in w.workers && PcOf(w, k).ProtectionRecorded?
    case SendClose(k, decimals) =>
      k in w.workers && PcOf(w, k).Closing? && RoundSize(decimals, PcOf(w, k).fill.size).Ok?
    case CloseReturns(k, close) =>
      k in w.workers && (PcOf(w, k).CloseSent? || (PcOf(w, k).Closing? && close.Err?))
    case _ => true
  }

  /** The program counter after a store call of run_once: an error stops the worker. */
  function Continue<T>(result: StoreResult<T>, stored: StoredIntent, next: Pc): Pc {
    if result.Ok? then next else Stopped(Some(stored))
  }

  function AfterClaim(stored: StoredIntent, execution: LiveExecution): Pc {
    if stored.riskDecision.Some? && stored.riskDecision.value.approvedNotionalUsd.Some?
    then Claimed(stored, execution) else Panicked
  }

  function DoSubmit(w: World, intent: TradeIntent, key: string, now: Time): World
    requires Sizable(intent)
  {
    var (db, result) := Admit(w.policy, w.db, intent, key, now);
    if result.Ok? && result.value.1
    then w.(db := db, admittedUnder := w.admittedUnder[intent.intentId := w.policy])
    else w.(db := db)
  }

  function DoClaim(w: World, k: WorkerId, choice: Option<IntentId>): World
    requires k in w.workers
    requires choice.Some? ==> choice.value in w.db.executions && choice.value in w.db.intents
  {
    match choice
    case None => SetPc(w, k, Idle)
    case Some(id) =>
      var (db, result) := Claim(w.db, id);
      match result
      case Err(_) => SetPc(w, k, Stopped(None))
      case Ok((execution, stored)) => SetPc(w.(db := db), k, AfterClaim(stored, execution))
  }

  function DoSendEntry(w: World, k: WorkerId): World
    requires k in w.workers && w.workers[k].pc.Claimed?
  {
    var pc := w.workers[k].pc;
    var decision := pc.stored.riskDecision;
    var notional := if decision.Some? && decision.value.approvedNotionalUsd.Some?
                    then decision.value.approvedNotionalUsd.value else 0.0;
    var call := EntryCall(pc.stored.intent.intentId, w.workers[k].account, notional, pc.execution.entryCloid);
    SetPc(w.(calls := w.calls + [call]), k, EntrySent(pc.stored))
  }

  function DoEntryReturns(w: World, k: WorkerId, reply: Reply<ConfirmedFill>): World
    requires k in w.workers && w.workers[k].pc.EntrySent?
  {
    var stored := w.workers[k].pc.stored;
    var id := stored.intent.intentId;
    var heard := SetReplies(w, id, RepliesOf(w, id).(entry := Some(reply)));
    match reply
    case Ok(fill) =>
      var (db, result) := RecordEntryFill(w.db, id, fill);
      SetPc(heard.(db := db), k, Continue(result, stored, FillRecorded(stored, fill)))
    case Err(Definite(_)) =>
      var (db, result) := FinishLiveTransition(w.db, id, ENTRY_FAILED);
      SetPc(heard.(db := db), k, Continue(result, stored, Idle))
    case Err(OutcomeUnknown(_)) =>
      var (db, result) := FinishLiveTransition(w.db, id, ENTRY_UNKNOWN);
      SetPc(heard.(db := db), k, Continue(result, stored, Idle))
  }

  function DoSendProtection(w: World, k: WorkerId, decimals: Option<nat>, orders: seq<TriggerOrder>): World
    requires k in w.workers && w.workers[k].pc.FillRecorded?
  {
    var FillRecorded(stored, fill) := w.workers[k].pc;
    var call := ProtectionCall(stored.intent.intentId, w.workers[k].account, decimals, orders);
    SetPc(w.(calls := w.calls + [call]), k, ProtectionSent(stored, fill))
  }

  function DoProtectionReturns(w: World, k: WorkerId, reply: ProtectionReply): World
    requires k in w.workers && (w.workers[k].pc.FillRecorded? || w.workers[k].pc.ProtectionSent?)
  {
    var stored, fill := w.workers[k].pc.stored, w.workers[k].pc.fill;
    var id := stored.intent.intentId;
    var heard := SetReplies(w, id, RepliesOf(w, id).(protection := Some(reply)));
    match reply
    case Ok(_) =>
      var (db, result) := RecordProtectionOrders(w.db, stored.intent, fill);
      SetPc(heard.(db := db), k, Continue(result, stored, ProtectionRecorded(stored, fill)))
    case Err(_) =>
      var (db, result) := FinishLiveTransition(w.db, id, EMERGENCY_CLOSING);
      SetPc(heard.(db := db), k, Continue(result, stored, Closing(stored, fill)))
  }

  function DoFinishProtected(w: World, k: WorkerId): World
    requires k in w.workers && w.workers[k].pc.ProtectionRecorded?
  {
    var stored := w.workers[k].pc.stored;
    var (db, result) := FinishLiveTransition(w.db, stored.intent.intentId, PROTECTED);
    SetPc(w.(db := db), k, Continue(result, stored, Idle))
  }

  function DoSendClose(w: World, k: WorkerId, decimals: Option<nat>): World
    requires k in w.workers && w.workers[k].pc.Closing?
    requires RoundSize(decimals, w.workers[k].pc.fill.size).Ok?
  {
    var Closing(stored, fill) := w.workers[k].pc;
    var id := stored.intent.intentId;
    var lots := RoundSize(decimals, fill.size).value;
    var call := CloseCall(id, w.workers[k].account, decimals, lots, DeterministicCloid(id, EmergencyClose));
    SetPc(w.(calls := w.calls + [call]), k, CloseSent(stored, fill))
  }

  function DoCloseReturns(w: World, k: WorkerId, reply: Reply<ConfirmedFill>): World
    requires k in w.workers && (w.workers[k].pc.Closing? || w.workers[k].pc.CloseSent?)
  {
    var stored := w.workers[k].pc.stored;
    var id := stored.intent.intentId;
    var heard := SetReplies(w, id, RepliesOf(w, id).(close := Some(reply)));
    var (db, result) := FinishLiveTransition(w.db, id, if reply.Ok? then CLOSED else RECONCILIATION_REQUIRED);
    SetPc(heard.(db := db), k, Continue(result, stored, Idle))
  }

  ghost function Effect(w: World, action: Action): World
    requires Enabled(w, action)
  {
    match action
    case Submit(intent, key, now) => DoSubmit(w, intent, key, now)
    case RejectAtConfirmation(id, _) =>
      w.(db := TransitionIntent(w.db, id, RiskRejected, "confirmation_pre_trade_rejected").0)
    case ConfirmShadow(id, digest, operator, now) => w.(db := ConfirmIntent(w.db, id, digest, operator, now).0)
    case ConfirmLive(id, digest, operator, account, now) =>
      w.(db := ConfirmIntentForExecution(w.db, id, digest, operator, account, now).0)
    case SwitchKill(enabled) => w.(db := SetKillSwitch(w.db, enabled))
    case Configure(account) => w.(db := ConfigureAccount(w.db, account))
    case TakeSnapshot(snapshot) => w.(db := RecordSnapshot(w.db, snapshot).0)
    case AcknowledgeRecovery(account, reason, operator) => w.(db := Acknowledge(w.db, account, reason, operator).0)
    case LearnHistory(account, fills, funding) => w.(db := RecordHistory(w.db, account, fills, funding))
    case LearnOrderUpdates(account, updates) => w.(db := RecordOrderUpdates(w.db, account, updates))
    case LoadPolicy(policy) => w.(policy := policy)
    case Start(k) => SetPc(w, k, Idle)
    case Crash(k) => SetPc(w, k, Down)
    case PassGate(k) => SetPc(w, k, GatePassed)
    case ClaimNext(k, choice) => DoClaim(w, k, choice)
    case SendEntry(k) => DoSendEntry(w, k)
    case EntryReturns(k, reply) => DoEntryReturns(w, k, reply)
    case SendProtection(k, decimals, orders) => DoSendProtection(w, k, decimals, orders)
    case ProtectionReturns(k, reply) => DoProtectionReturns(w, k, reply)
    case FinishProtected(k) => DoFinishProtected(w, k)
    case SendClose(k, decimals) => DoSendClose(w, k, decimals)
    case CloseReturns(k, reply) => DoCloseReturns(w, k, reply)
  }

  /** An action that is not enabled does nothing. */
  ghost function Next(w: World, action: Action): World {
    if Enabled(w, action) then Effect(w, action) else w
  }

  /** The world after a run: any interleaving of any actions. */
  ghost function After(w: World, run: seq<Action>): World {
    if run == [] then w else Next(After(w, run[..|run| - 1]), run[|run| - 1])
  }

  // ---------- Counting calls ----------

  function EntriesFor(calls: seq<Call>, id: IntentId): nat {
    if calls == [] then 0
    else
      var last := calls[|calls| - 1];
      EntriesFor(calls[..|calls| - 1], id) + if last.EntryCall? && last.id == id then 1 else 0
  }

  function ProtectionsFor(calls: seq<Call>, id: IntentId): nat {
    if calls == [] then 0
    else
      var last := calls[|calls| - 1];
      ProtectionsFor(calls[..|calls| - 1], id) + if last.ProtectionCall? && last.id == id then 1 else 0
  }

  function ClosesFor(calls: seq<Call>, id: IntentId): nat {
    if calls == [] then 0
    else
      var last := calls[|calls| - 1];
      ClosesFor(calls[..|calls| - 1], id) + if last.CloseCall? && last.id == id then 1 else 0
  }

  /** How often each kind of call was made for an intent. */
  datatype Counts = Counts(entries: nat, protections: nat, closes: nat)

  function CountsOf(calls: seq<Call>, id: IntentId): Counts {
    Counts(EntriesFor(calls, id), ProtectionsFor(calls, id), ClosesFor(calls, id))
  }

  function EntriesSent(calls: seq<Call>, account: Account): nat {
    if calls == [] then 0
    else EntriesSent(calls[..|calls| - 1], account)
         + if calls[|calls| - 1].EntryCall? && calls[|calls| - 1].account == account then 1 else 0
  }

  function Counted(counts: Counts, call: Call, id: IntentId): Counts {
    if call.id != id then counts
    else
      match call
      case EntryCall(_, _, _, _) => counts.(entries := counts.entries + 1)
      case ProtectionCall(_, _, _, _) => counts.(protections := counts.protections + 1)
      case CloseCall(_, _, _, _, _) => counts.(closes := counts.closes + 1)
  }

  lemma CallAdded(calls: seq<Call>, call: Call)
    ensures forall id :: CountsOf(calls + [call], id) == Counted(CountsOf(calls, id), call, id)
    ensures forall a :: EntriesSent(calls + [call], a)
                        == EntriesSent(calls, a) + if call.EntryCall? && call.account == a then 1 else 0
  {
    assert (calls + [call])[..|calls|] == calls;
  }
}
