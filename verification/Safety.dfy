/** The safety theorems of the execution protocol, for every reachable world. */
module Safety {
  import opened Wrappers
  import opened Domain
  import opened Risk
  import opened Orders
  import opened Gateway
  import opened Database
  import opened Journal
  import opened StoreInvariant
  import opened Protocol
  import opened ProtocolInvariant
  import opened ProtocolSteps
  import opened ProtectionLedger
  import opened Reachable
  import opened Evolution
  import opened Modes

  ghost predicate IsReachable(w: World) {
    exists accounts, policy, run :: ValidPolicy(policy) && w == After(Initial(accounts, policy), run)
  }

  lemma ReachableOk(w: World)
    requires IsReachable(w)
    ensures WorldOk(w)
  {
    var accounts, policy, run :| ValidPolicy(policy) && w == After(Initial(accounts, policy), run);
    InitialOk(accounts, policy);
    EveryRunKeepsWorld(Initial(accounts, policy), run);
  }

  // ---------- At most one entry ----------

  predicate SameKind(a: Call, b: Call) {
    && (a.EntryCall? <==> b.EntryCall?)
    && (a.ProtectionCall? <==> b.ProtectionCall?)
    && (a.CloseCall? <==> b.CloseCall?)
  }

  /** How often calls of one kind were made for an intent. */
  function CountLike(counts: Counts, call: Call): nat {
    match call
    case EntryCall(_, _, _, _) => counts.entries
    case ProtectionCall(_, _, _, _) => counts.protections
    case CloseCall(_, _, _, _, _) => counts.closes
  }

  lemma LastCounted(calls: seq<Call>, call: Call)
    requires calls != []
    ensures var init, last := calls[..|calls| - 1], calls[|calls| - 1];
            CountLike(CountsOf(calls, call.id), call)
            == CountLike(CountsOf(init, call.id), call) + if SameKind(last, call) && last.id == call.id then 1 else 0
  {
  }

  lemma {:induction false} CountedTwice(calls: seq<Call>, m: nat, n: nat)
    requires m < n < |calls| && calls[m].id == calls[n].id && SameKind(calls[m], calls[n])
    ensures CountLike(CountsOf(calls, calls[m].id), calls[m]) >= 2
  {
    LastCounted(calls, calls[m]);
    if n == |calls| - 1 {
      CountedOnce(calls[..n], m);
    } else {
      CountedTwice(calls[..|calls| - 1], m, n);
    }
  }

  lemma {:induction false} CountedOnce(calls: seq<Call>, n: nat)
    requires n < |calls|
    ensures CountLike(CountsOf(calls, calls[n].id), calls[n]) >= 1
  {
    LastCounted(calls, calls[n]);
    if n < |calls| - 1 {
      CountedOnce(calls[..|calls| - 1], n);
    }
  }

  lemma CallsAreCounted(w: World, id: IntentId)
    requires WorldOk(w)
    ensures var n := CountsOf(w.calls, id); n.entries <= 1 && n.protections <= 1 && n.closes <= 1
    ensures EntriesFor(w.calls, id) == 1 ==>
              id in w.db.executions && !w.db.executions[id].status.Pending? && w.db.executions[id].attempt == 1
  {
    assert IdOk(w, id) && RowOk(w.db, id);
  }

  /** Entry, protection and emergency close are each sent at most once for an intent. */
  lemma EachIsSentOnce(w: World, m: nat, n: nat)
    requires WorldOk(w) && m < n < |w.calls| && SameKind(w.calls[m], w.calls[n])
    ensures w.calls[m].id != w.calls[n].id
  {
    if w.calls[m].id == w.calls[n].id {
      CountedTwice(w.calls, m, n);
      CallsAreCounted(w, w.calls[m].id);
    }
  }

  /** Over every run, with any number of workers, crashes and restarts: the entry of an intent, and the
      entry of a signal of a strategy instance on an account, is sent at most once. */
  lemma EntriesAreSentOnce(w: World, m: nat, n: nat)
    requires IsReachable(w) && m < n < |w.calls| && w.calls[m].EntryCall? && w.calls[n].EntryCall?
    ensures w.calls[m].id != w.calls[n].id
    ensures w.calls[m].id in w.db.intents && w.calls[n].id in w.db.intents
    ensures var a, b := w.db.intents[w.calls[m].id].intent, w.db.intents[w.calls[n].id].intent;
            || a.accountId != b.accountId
            || a.strategyInstanceId != b.strategyInstanceId
            || a.signalId != b.signalId
  {
    ReachableOk(w);
    EachIsSentOnce(w, m, n);
    assert CallOk(w, w.calls[m]) && CallOk(w, w.calls[n]);
  }

  /** Over every run the protective orders of an intent are sent at most once, and so is its emergency
      close. */
  lemma ProtectionIsSentOnce(w: World, m: nat, n: nat)
    requires IsReachable(w) && m < n < |w.calls|
    requires (w.calls[m].ProtectionCall? && w.calls[n].ProtectionCall?)
        || (w.calls[m].CloseCall? && w.calls[n].CloseCall?)
    ensures w.calls[m].id != w.calls[n].id
  {
    ReachableOk(w);
    EachIsSentOnce(w, m, n);
  }

  // ---------- Client order ids ----------

  /** The client order ids of a call, in order. */
  function CloidsOf(call: Call): seq<Cloid> {
    match call
    case EntryCall(_, _, _, cloid) => [cloid]
    case ProtectionCall(_, _, _, orders) => seq(|orders|, i requires 0 <= i < |orders| => orders[i].cloid)
    case CloseCall(_, _, _, _, cloid) => [cloid]
  }

  /** The role of the i-th order of a call. */
  function RoleAt(call: Call, i: nat): OrderRole {
    match call
    case EntryCall(_, _, _, _) => Entry
    case ProtectionCall(_, _, _, _) => if i == 0 then StopLoss else TargetRole(i - 1)
    case CloseCall(_, _, _, _, _) => EmergencyClose
  }

  lemma LegCloid(row: StoredIntent, entry: Option<Reply<ConfirmedFill>>, call: Call, k: nat)
    requires call.ProtectionCall? && CallFits(row, entry, call) && k + 1 < |call.orders|
    ensures |call.orders| == 1 + |row.intent.exit.takeProfit|
    ensures call.orders[k + 1].cloid == DeterministicCloid(call.id, TargetRole(k))
  {
    assert RoundSize(call.decimals, LegSize(row.intent, entry.value.value, k)).Ok?;
  }

  lemma CloidAt(w: World, n: nat, i: nat)
    requires WorldOk(w) && n < |w.calls| && i < |CloidsOf(w.calls[n])|
    ensures CloidsOf(w.calls[n])[i] == DeterministicCloid(w.calls[n].id, RoleAt(w.calls[n], i))
    ensures w.calls[n].ProtectionCall? ==> |CloidsOf(w.calls[n])| == 1 + TargetsOf(w, w.calls[n].id)
  {
    var call := w.calls[n];
    assert CallOk(w, call);
    if call.ProtectionCall? && i > 0 {
      LegCloid(w.db.intents[call.id], RepliesOf(w, call.id).entry, call, i - 1);
    }
  }

  function TargetsOf(w: World, id: IntentId): nat {
    if id in w.db.intents then |w.db.intents[id].intent.exit.takeProfit| else 0
  }

  ghost predicate DistinctIds(calls: seq<Call>) {
    forall m, i, n, j | 0 <= m < |calls| && 0 <= n < |calls|
                        && 0 <= i < |CloidsOf(calls[m])| && 0 <= j < |CloidsOf(calls[n])| && (m != n || i != j) ::
      CloidsOf(calls[m])[i] != CloidsOf(calls[n])[j]
  }

  /** Roles of one intent repeat only among more than 256 targets. */
  lemma RolesDiffer(w: World, m: nat, i: nat, n: nat, j: nat)
    requires WorldOk(w) && m < |w.calls| && n < |w.calls| && w.calls[m].id == w.calls[n].id
    requires i < |CloidsOf(w.calls[m])| && j < |CloidsOf(w.calls[n])| && (m != n || i != j)
    requires w.calls[m].ProtectionCall? ==> TargetsOf(w, w.calls[m].id) <= 256
    ensures RoleAt(w.calls[m], i) != RoleAt(w.calls[n], j)
  {
    CloidAt(w, m, i);
    CloidAt(w, n, j);
    if m < n && SameKind(w.calls[m], w.calls[n]) {
      EachIsSentOnce(w, m, n);
    } else if n < m && SameKind(w.calls[m], w.calls[n]) {
      EachIsSentOnce(w, n, m);
    }
  }

  lemma IdsDiffer(w: World, m: nat, i: nat, n: nat, j: nat)
    requires WorldOk(w) && m < |w.calls| && n < |w.calls|
    requires i < |CloidsOf(w.calls[m])| && j < |CloidsOf(w.calls[n])| && (m != n || i != j)
    requires w.calls[m].ProtectionCall? ==> TargetsOf(w, w.calls[m].id) <= 256
    ensures CloidsOf(w.calls[m])[i] != CloidsOf(w.calls[n])[j]
  {
    CloidAt(w, m, i);
    CloidAt(w, n, j);
    if w.calls[m].id == w.calls[n].id {
      RolesDiffer(w, m, i, n, j);
      StableNameInjective(RoleAt(w.calls[m], i), RoleAt(w.calls[n], j));
    }
  }

  /** All client order ids ever sent, of entries, stops, targets and emergency closes, are pairwise
      distinct exactly if no protection of more than 256 targets was sent. */
  lemma ClientOrderIdsDistinctExactly(w: World)
    requires IsReachable(w)
    ensures DistinctIds(w.calls) <==>
            forall n | 0 <= n < |w.calls| && w.calls[n].ProtectionCall? :: TargetsOf(w, w.calls[n].id) <= 256
  {
    ReachableOk(w);
    if forall n | 0 <= n < |w.calls| && w.calls[n].ProtectionCall? :: TargetsOf(w, w.calls[n].id) <= 256 {
      forall m, i, n, j | 0 <= m < |w.calls| && 0 <= n < |w.calls|
                          && 0 <= i < |CloidsOf(w.calls[m])| && 0 <= j < |CloidsOf(w.calls[n])| && (m != n || i != j)
        ensures CloidsOf(w.calls[m])[i] != CloidsOf(w.calls[n])[j]
      {
        IdsDiffer(w, m, i, n, j);
      }
    } else {
      var n :| 0 <= n < |w.calls| && w.calls[n].ProtectionCall? && TargetsOf(w, w.calls[n].id) > 256;
      RepeatedTargetIds(w, n);
    }
  }

  /** The first and the 257th target of a protection have the same id. */
  lemma RepeatedTargetIds(w: World, n: nat)
    requires WorldOk(w) && n < |w.calls| && w.calls[n].ProtectionCall? && TargetsOf(w, w.calls[n].id) > 256
    ensures |CloidsOf(w.calls[n])| > 257 && CloidsOf(w.calls[n])[1] == CloidsOf(w.calls[n])[257]
  {
    assert CallOk(w, w.calls[n]);
    CloidAt(w, n, 0);
    CloidAt(w, n, 1);
    CloidAt(w, n, 257);
  }

  /** The claim is committed before the call: an execution has made no attempt exactly while it is
      pending, one afterwards, and only one past pending has its entry sent. */
  lemma ClaimPrecedesCall(w: World, id: IntentId)
    requires IsReachable(w)
    ensures id in w.db.executions ==>
              && w.db.executions[id].attempt == (if w.db.executions[id].status.Pending? then 0 else 1)
              && EntriesFor(w.calls, id) <= w.db.executions[id].attempt
    ensures id !in w.db.executions ==> EntriesFor(w.calls, id) == 0
  {
    ReachableOk(w);
    assert RowOk(w.db, id);
    CallsAreCounted(w, id);
  }

  // ---------- Statuses ----------

  /** Every execution has its intent, in exactly the status that goes with its own. */
  lemma StatusesArePaired(w: World, id: IntentId)
    requires IsReachable(w) && id in w.db.executions
    ensures id in w.db.intents
    ensures match w.db.executions[id].status
            case Pending => w.db.intents[id].status == TradeIntentStatus.Approved
            case EntrySubmitting => w.db.intents[id].status.Submitting?
            case EntryFilled => w.db.intents[id].status.Executing?
            case EmergencyClosing => w.db.intents[id].status.Executing?
            case Protected => w.db.intents[id].status.Completed?
            case Protecting => false
            case _ => w.db.intents[id].status == TradeIntentStatus.Failed
  {
    ReachableOk(w);
    assert RowOk(w.db, id);
  }

  /** The approved notional is always there, and no compare-and-set of a worker ever fails: the only
      worker that stops is one that holds an intent of more than 256 targets whose percentages wrapped
      in validation. */
  lemma WorkersNeverFail(w: World, k: WorkerId)
    requires IsReachable(w) && k in w.workers
    ensures !w.workers[k].pc.Panicked?
    ensures w.workers[k].pc.Stopped? ==>
              && w.workers[k].pc.held.Some?
              && |w.workers[k].pc.held.value.intent.exit.takeProfit| > 256
              && PercentTotal(w.workers[k].pc.held.value.intent.exit.takeProfit) >= 0x1_0000
  {
    ReachableOk(w);
    assert WorkerAt(w, k);
  }

  /** At most one execution per account and symbol is under way or protected. */
  lemma OneActivePerMarket(w: World, a: IntentId, b: IntentId)
    requires IsReachable(w) && a in w.db.executions && b in w.db.executions && a != b
    requires w.db.executions[a].account == w.db.executions[b].account
    ensures a in w.db.intents && b in w.db.intents
    ensures w.db.intents[a].intent.symbol == w.db.intents[b].intent.symbol ==>
              !(Active(w.db.executions[a].status) && Active(w.db.executions[b].status))
  {
    ReachableOk(w);
    assert RowOk(w.db, a) && RowOk(w.db, b);
    if ActiveAt(w.db, a) && ActiveAt(w.db, b) {
      assert !SameMarket(w.db, a, b);
    }
  }

  // ---------- The journal ----------

  /** Folding the journal from cursor zero gives exactly the status of every intent and of every
      execution, and the kill switch. */
  lemma JournalRebuildsState(w: World)
    requires IsReachable(w)
    ensures Replay(w.db.journal) == ProjectionOf(w.db)
  {
    ReachableOk(w);
  }

  /** The journal that a client pages through only grows along a run. */
  lemma {:induction false} JournalOnlyGrows(w: World, run: seq<Action>, i: nat)
    requires WorldOk(w) && i <= |run|
    ensures After(w, run[..i]).db.journal <= After(w, run).db.journal
  {
    if i == |run| {
      assert run[..i] == run;
    } else {
      var init := run[..|run| - 1];
      assert init[..i] == run[..i];
      JournalOnlyGrows(w, init, i);
      EveryRunKeepsWorld(w, init);
      NextRemembers(After(w, init), run[|run| - 1]);
    }
  }

  // ---------- What is sent is what was approved ----------

  ghost predicate PoliciesValid(w: World) {
    ValidPolicy(w.policy) && forall id | id in w.admittedUnder :: ValidPolicy(w.admittedUnder[id])
  }

  lemma SubmitKeepsPolicies(w: World, intent: TradeIntent, key: string, now: Time)
    requires PoliciesValid(w) && Sizable(intent)
    ensures PoliciesValid(DoSubmit(w, intent, key, now))
  {
  }

  lemma AnswersKeepPolicies(w: World, action: Action)
    requires Enabled(w, action) && (action.EntryReturns? || action.ProtectionReturns?)
    ensures Effect(w, action).policy == w.policy && Effect(w, action).admittedUnder == w.admittedUnder
  {
    match action
    case EntryReturns(k, reply) => assert DoEntryReturns(w, k, reply).policy == w.policy;
    case ProtectionReturns(k, reply) => assert DoProtectionReturns(w, k, reply).policy == w.policy;
  }

  lemma WorkerKeepsPolicies(w: World, action: Action)
    requires Enabled(w, action)
    requires IsReturn(action) || action.ClaimNext?
    ensures Effect(w, action).policy == w.policy && Effect(w, action).admittedUnder == w.admittedUnder
  {
    if action.EntryReturns? || action.ProtectionReturns? {
      AnswersKeepPolicies(w, action);
    } else if action.FinishProtected? {
      assert DoFinishProtected(w, action.worker).policy == w.policy;
    } else if action.CloseReturns? {
      assert DoCloseReturns(w, action.worker, action.close).policy == w.policy;
    } else {
      assert DoClaim(w, action.worker, action.choice).policy == w.policy;
    }
  }

  lemma OthersKeepPolicies(w: World, action: Action)
    requires !action.Submit? && !action.LoadPolicy?
    ensures Next(w, action).policy == w.policy && Next(w, action).admittedUnder == w.admittedUnder
  {
    if Enabled(w, action) && (IsReturn(action) || action.ClaimNext?) {
      WorkerKeepsPolicies(w, action);
    }
  }

  lemma NextKeepsPolicies(w: World, action: Action)
    requires PoliciesValid(w)
    ensures PoliciesValid(Next(w, action))
  {
    if Enabled(w, action) {
      if action.Submit? {
        SubmitKeepsPolicies(w, action.intent, action.key, action.now);
      } else if IsReturn(action) || action.ClaimNext? {
        WorkerKeepsPolicies(w, action);
      }
    }
  }

  lemma {:induction false} RunKeepsPolicies(w: World, run: seq<Action>)
    requires PoliciesValid(w)
    ensures PoliciesValid(After(w, run))
  {
    if run != [] {
      RunKeepsPolicies(w, run[..|run| - 1]);
      NextKeepsPolicies(After(w, run[..|run| - 1]), run[|run| - 1]);
    }
  }

  lemma ReachablePolicies(w: World)
    requires IsReachable(w)
    ensures PoliciesValid(w)
  {
    var accounts, policy, run :| ValidPolicy(policy) && w == After(Initial(accounts, policy), run);
    RunKeepsPolicies(Initial(accounts, policy), run);
  }

  /** Every entry ever sent carries the notional decided at admission, bound by the digest that an
      operator confirmed. It is positive, respects both ceilings of the intent and both of the policy
      of its admission, and is the largest amount that does. */
  lemma EntriesCarryTheApprovedNotional(w: World, n: nat)
    requires IsReachable(w) && n < |w.calls| && w.calls[n].EntryCall?
    ensures var call := w.calls[n];
            && call.id in w.db.intents && call.id in w.admittedUnder
            && var row, policy := w.db.intents[call.id], w.admittedUnder[call.id];
               && Sizable(row.intent)
               && EvaluateAdmission(policy, row.intent).approvedNotionalUsd == Some(call.notional)
               && PassesScreen(policy, row.intent)
               && (var limits := LimitsInForce(policy, row.intent);
                   && 0.0 < limits.minOrderNotionalUsd <= call.notional
                   && Feasible(limits, row.intent, call.notional)
                   && forall other :: Feasible(limits, row.intent, other) ==> other <= call.notional)
               && row.manualConfirmation.Some?
               && row.manualConfirmation.value.confirmedBy.Some?
               && IntentManuallyConfirmed(
                    call.id,
                    Digest(row.intent, EvaluateAdmission(policy, row.intent), row.manualConfirmation.value.expiresAt),
                    row.manualConfirmation.value.confirmedBy.value)
                  in w.db.journal
  {
    ReachableOk(w);
    ReachablePolicies(w);
    var id := w.calls[n].id;
    assert CallOk(w, w.calls[n]) && IdOk(w, id);
    AdmissionIsOptimal(w.admittedUnder[id], w.db.intents[id].intent);
  }

  // ---------- Outcomes ----------

  lemma FullLedgerHoldsEntry(ledger: Ledger, intent: TradeIntent, execution: LiveExecution, fill: ConfirmedFill)
    requires ledger == EntryLedger(execution, fill) || FullLedger(ledger, intent, execution, fill)
    ensures "entry" in ledger && ledger["entry"] == EntryOrder(execution, fill)
  {
    InsertProtectionExact(EntryLedger(execution, fill), intent, EntryOrder(execution, fill), fill.size);
  }

  /** The ledger of an intent has an entry exactly when the gateway confirmed a fill, and then with the
      size and price that were confirmed; without a confirmed fill it is empty. */
  lemma FillsAreRecordedExactly(w: World, id: IntentId)
    requires IsReachable(w)
    ensures var ledger, answer := LedgerOf(w.db, id), RepliesOf(w, id).entry;
            && (ledger != map[] <==> answer.Some? && answer.value.Ok?)
            && (answer.Some? && answer.value.Ok? ==>
                  var fill := answer.value.value;
                  && id in w.db.executions
                  && "entry" in ledger
                  && ledger["entry"]
                     == LiveOrder(DeterministicCloid(id, Entry), Some(fill.exchangeOid), Filled, fill.size, fill.size,
                                  Some(fill.averagePrice)))
  {
    ReachableOk(w);
    assert RowOk(w.db, id) && IdOk(w, id);
    var answer := RepliesOf(w, id).entry;
    if answer.Some? && answer.value.Ok? {
      FullLedgerHoldsEntry(LedgerOf(w.db, id), w.db.intents[id].intent, w.db.executions[id], answer.value.value);
    }
  }

  /** Protected means: the ledger holds the filled entry, one stop for the whole fill and one target
      order per target in distinct roles, and nothing else; the stop closes the whole fill, and so do
      the targets together. */
  lemma ProtectedMeansCovered(w: World, id: IntentId)
    requires IsReachable(w) && id in w.db.executions && w.db.executions[id].status.Protected?
    ensures id in w.db.intents
    ensures RepliesOf(w, id).entry.Some? && RepliesOf(w, id).entry.value.Ok?
    ensures var fill := RepliesOf(w, id).entry.value.value;
            var ledger, intent := LedgerOf(w.db, id), w.db.intents[id].intent;
            && ProtectedLedger(ledger, intent, EntryOrder(w.db.executions[id], fill), fill.size)
            && "entry" in ledger && ledger["entry"].filledSize == fill.size
            && ledger["entry"].exchangeOid == Some(fill.exchangeOid)
            && "stop_loss" in ledger && ledger["stop_loss"].requestedSize == fill.size
            && TargetsRequested(ledger, |intent.exit.takeProfit|) == fill.size
  {
    ReachableOk(w);
    assert RowOk(w.db, id) && IdOk(w, id);
    var fill, intent := RepliesOf(w, id).entry.value.value, w.db.intents[id].intent;
    var entry := EntryOrder(w.db.executions[id], fill);
    InsertProtectionExact(EntryLedger(w.db.executions[id], fill), intent, entry, fill.size);
    var now :| Validate(intent, now).None?;
    FewTargetsTotal100(intent, now);
    ProtectedLedgerClosesTheFill(LedgerOf(w.db, id), intent, entry, fill.size);
  }

  // ---------- What was sent for a fill ----------

  /** The protective orders sent for a fill allocate no more to the targets than to the stop, and fall
      short of it by less than one lot per target, exactly if the percentages did not wrap in
      validation. */
  lemma ProtectionFitsExactly(w: World, n: nat)
    requires IsReachable(w) && n < |w.calls| && w.calls[n].ProtectionCall?
    ensures var call := w.calls[n];
            && call.id in w.db.intents
            && var targets := w.db.intents[call.id].intent.exit.takeProfit;
               && |call.orders| == 1 + |targets|
               && (TotalLots(call.orders[1..]) <= call.orders[0].lots <==> PercentTotal(targets) < 0x1_0000)
               && (PercentTotal(targets) < 0x1_0000 ==> call.orders[0].lots < TotalLots(call.orders[1..]) + |targets|)
  {
    ReachableOk(w);
    var call := w.calls[n];
    assert CallOk(w, call) && IdOk(w, call.id);
    var intent, fill := w.db.intents[call.id].intent, RepliesOf(w, call.id).entry.value.value;
    var now :| Validate(intent, now).None?;
    ValidatedPercentTotal(intent, now);
    if PercentTotal(intent.exit.takeProfit) < 0x1_0000 {
      SentProtectionFits(intent, fill, call.decimals, call.orders);
    } else {
      WrappedTotalOverAllocates(intent, fill, call.decimals, call.orders);
    }
  }

  lemma {:induction false} FindProtection(calls: seq<Call>, id: IntentId) returns (n: nat)
    requires ProtectionsFor(calls, id) > 0
    ensures n < |calls| && calls[n].ProtectionCall? && calls[n].id == id
  {
    var last := |calls| - 1;
    if calls[last].ProtectionCall? && calls[last].id == id {
      n := last;
    } else {
      n := FindProtection(calls[..last], id);
    }
  }

  /** For every protection that held: its orders were sent, and exactly those were taken that have a status
      in the response. Every order sent was taken, exactly if the response lists one more status than there
      are targets (a response lists no more statuses than orders were sent). */
  lemma HeldProtectionIsTakenExactly(w: World, id: IntentId) returns (n: nat)
    requires IsReachable(w) && Agreed(RepliesOf(w, id).protection)
    ensures n < |w.calls| && w.calls[n].ProtectionCall? && w.calls[n].id == id && id in w.db.intents
    ensures var orders, statuses := w.calls[n].orders, RepliesOf(w, id).protection.value.value;
            var targets := |w.db.intents[id].intent.exit.takeProfit|;
            && |orders| == targets + 1
            && (forall k: nat | k < |orders| :: IsTaken(statuses, k) <==> k < |statuses|)
            && (AllTaken(orders, statuses) <==> |statuses| >= targets + 1)
            && (|statuses| <= |orders| ==> (AllTaken(orders, statuses) <==> |statuses| == targets + 1))
  {
    ReachableOk(w);
    assert RowOk(w.db, id) && IdOk(w, id);
    n := FindProtection(w.calls, id);
    assert CallOk(w, w.calls[n]);
    OrdersTakenExactly(
      w.db.intents[id].intent, RepliesOf(w, id).entry.value.value, w.calls[n].decimals, w.calls[n].orders,
      RepliesOf(w, id).protection.value.value);
  }

  lemma LedgerRowsAreOpen(ledger: Ledger, intent: TradeIntent, entry: LiveOrder, size: real, call: Call, i: nat)
    requires ProtectedLedger(ledger, intent, entry, size)
    requires call.ProtectionCall? && i < 1 + |intent.exit.takeProfit|
    ensures StableName(RoleAt(call, i)) in ledger && ledger[StableName(RoleAt(call, i))].status.OpenVerified?
  {
    if i > 0 {
      assert TargetName(i - 1) in ledger;
    }
  }

  /** A protected execution records every order that was sent as open, taken or not. So what the ledger
      says is right about all of them exactly if the response listed one more status than there are
      targets. */
  lemma ProtectedRecordsOrdersAsOpen(w: World, id: IntentId) returns (n: nat)
    requires IsReachable(w) && id in w.db.executions && w.db.executions[id].status.Protected?
    ensures n < |w.calls| && w.calls[n].ProtectionCall? && w.calls[n].id == id && id in w.db.intents
    ensures Agreed(RepliesOf(w, id).protection)
    ensures forall i: nat | i < |w.calls[n].orders| ::
              var name := StableName(RoleAt(w.calls[n], i));
              name in LedgerOf(w.db, id) && LedgerOf(w.db, id)[name].status.OpenVerified?
    ensures var orders, statuses := w.calls[n].orders, RepliesOf(w, id).protection.value.value;
            AllTaken(orders, statuses) <==> |statuses| >= |w.db.intents[id].intent.exit.takeProfit| + 1
  {
    ReachableOk(w);
    assert IdOk(w, id);
    ProtectedMeansCovered(w, id);
    n := HeldProtectionIsTakenExactly(w, id);
    var fill := RepliesOf(w, id).entry.value.value;
    forall i: nat | i < |w.calls[n].orders|
      ensures StableName(RoleAt(w.calls[n], i)) in LedgerOf(w.db, id)
      ensures LedgerOf(w.db, id)[StableName(RoleAt(w.calls[n], i))].status.OpenVerified?
    {
      LedgerRowsAreOpen(
        LedgerOf(w.db, id), w.db.intents[id].intent, EntryOrder(w.db.executions[id], fill), fill.size, w.calls[n], i);
    }
  }

  lemma {:induction false} FindClose(calls: seq<Call>, id: IntentId) returns (n: nat)
    requires ClosesFor(calls, id) > 0
    ensures n < |calls| && calls[n].CloseCall? && calls[n].id == id
  {
    var last := |calls| - 1;
    if calls[last].CloseCall? && calls[last].id == id {
      n := last;
    } else {
      n := FindClose(calls[..last], id);
    }
  }

  /** A closed execution had its fill and its close answered, and one close of the truncated size sent. */
  lemma ClosedByOneOrder(w: World, id: IntentId) returns (n: nat)
    requires WorldOk(w) && id in w.db.executions && w.db.executions[id].status.Closed?
    ensures n < |w.calls| && w.calls[n].CloseCall? && w.calls[n].id == id
    ensures w.calls[n].cloid == Cloid(id, "emergency_close")
    ensures Agreed(RepliesOf(w, id).entry) && Agreed(RepliesOf(w, id).close)
    ensures RoundSize(w.calls[n].decimals, RepliesOf(w, id).entry.value.value.size) == Ok(w.calls[n].lots)
  {
    assert RowOk(w.db, id) && IdOk(w, id);
    n := FindClose(w.calls, id);
    assert CallOk(w, w.calls[n]);
  }

  lemma LeftByClose(fill: ConfirmedFill, decimals: Option<nat>, lots: int, reported: ConfirmedFill)
    requires RoundSize(decimals, fill.size) == Ok(lots)
    ensures LeftOpen(fill, reported) == 0.0 <==> reported.size >= fill.size
    ensures InLots(reported.size, decimals.value) == lots as real ==>
              (LeftOpen(fill, reported) == 0.0 <==>
               InLots(fill.size, decimals.value) == InLots(fill.size, decimals.value).Floor as real)
  {
    if InLots(reported.size, decimals.value) == lots as real {
      CloseFilledAsSent(fill, decimals, reported);
    }
  }

  /** An execution is recorded as closed after one close of the truncated size was sent and the exchange
      reported a fill. Nothing is left open exactly if the reported size covers the entry; when the
      close was filled as it was sent, exactly if the entry is a whole number of lots. */
  lemma ClosedLeavesNothingOpenExactly(w: World, id: IntentId) returns (n: nat)
    requires IsReachable(w) && id in w.db.executions && w.db.executions[id].status.Closed?
    ensures n < |w.calls| && w.calls[n].CloseCall? && w.calls[n].id == id
    ensures w.calls[n].cloid == Cloid(id, "emergency_close")
    ensures Agreed(RepliesOf(w, id).entry) && Agreed(RepliesOf(w, id).close)
    ensures var fill, reported := RepliesOf(w, id).entry.value.value, RepliesOf(w, id).close.value.value;
            var decimals, lots := w.calls[n].decimals, w.calls[n].lots;
            && RoundSize(decimals, fill.size) == Ok(lots)
            && (LeftOpen(fill, reported) == 0.0 <==> reported.size >= fill.size)
            && (InLots(reported.size, decimals.value) == lots as real ==>
                  (LeftOpen(fill, reported) == 0.0 <==>
                   InLots(fill.size, decimals.value) == InLots(fill.size, decimals.value).Floor as real))
  {
    ReachableOk(w);
    n := ClosedByOneOrder(w, id);
    LeftByClose(RepliesOf(w, id).entry.value.value, w.calls[n].decimals, w.calls[n].lots,
                RepliesOf(w, id).close.value.value);
  }

  predicate Finished(status: LiveStatus) {
    status == LiveStatus.Failed || status.Protected? || LocksAccount(status)
  }

  predicate LocksAccount(status: LiveStatus) {
    status.EntryUnknown? || status.Closed? || status.ReconciliationRequired?
  }

  lemma FinishedBy(w: World, k: WorkerId, id: IntentId, move: Move)
    requires WorldOk(w) && k in w.workers && Held(w.workers[k].pc) == Some(id) && Paired(move)
    requires id in w.db.executions && w.db.executions[id].status == move.fromLive
    ensures var db := FinishLiveTransition(w.db, id, move).0;
            && id in db.executions && db.executions[id].status == move.toLive
            && (move.forceCloseOnly ==> IsCloseOnly(db, w.workers[k].account))
  {
    assert WorkerAt(w, k);
    FinishKeepsTables(w.db, id, move);
    FinishChanges(w.db, id, move);
  }

  /** The answers after which run_once has nothing left to do. */
  predicate LastAnswer(action: Action, k: WorkerId) {
    || (action.EntryReturns? && action.worker == k && action.entry.Err?)
    || action == FinishProtected(k)
    || (action.CloseReturns? && action.worker == k)
  }

  lemma GoesOn(w: World, action: Action, k: WorkerId)
    requires WorldOk(w) && Enabled(w, action) && ActorOf(action) == Some(k) && !LastAnswer(action, k)
    requires action.EntryReturns? || action.ProtectionReturns?
    ensures !PcOf(Effect(w, action), k).Idle?
  {
    match action
    case EntryReturns(_, Ok(fill)) => FillRecordedStep(w, k, fill);
    case ProtectionReturns(_, Ok(statuses)) => ProtectionHoldsStep(w, k, Ok(statuses));
    case ProtectionReturns(_, Err(failure)) => ProtectionFailsStep(w, k, Err(failure));
  }

  lemma EndsWithLastAnswer(w: World, action: Action, k: WorkerId)
    requires WorldOk(w) && Enabled(w, action) && k in w.workers && Held(w.workers[k].pc).Some?
    ensures PcOf(Next(w, action), k).Idle? ==> LastAnswer(action, k)
  {
    OnlyActorMoves(w, action);
    if ActorOf(action) == Some(k) && !LastAnswer(action, k) {
      if action.EntryReturns? || action.ProtectionReturns? {
        GoesOn(w, action, k);
      }
    }
  }

  function LastMove(action: Action): Move
    requires action.EntryReturns? || action.FinishProtected? || action.CloseReturns?
  {
    match action
    case EntryReturns(_, Err(Definite(_))) => ENTRY_FAILED
    case EntryReturns(_, _) => ENTRY_UNKNOWN
    case FinishProtected(_) => PROTECTED
    case CloseReturns(_, Ok(_)) => CLOSED
    case _ => RECONCILIATION_REQUIRED
  }

  lemma LastAnswerRecords(w: World, action: Action, k: WorkerId, id: IntentId)
    requires Enabled(w, action) && k in w.workers && LastAnswer(action, k) && Held(w.workers[k].pc) == Some(id)
    ensures Next(w, action).db == FinishLiveTransition(w.db, id, LastMove(action)).0
  {
    match action
    case EntryReturns(_, reply) => assert Next(w, action) == DoEntryReturns(w, k, reply);
    case FinishProtected(_) => assert Next(w, action) == DoFinishProtected(w, k);
    case CloseReturns(_, answer) => assert Next(w, action) == DoCloseReturns(w, k, answer);
  }

  lemma LastMoveIsFinal(action: Action)
    requires (action.EntryReturns? && action.entry.Err?) || action.FinishProtected? || action.CloseReturns?
    ensures Paired(LastMove(action))
    ensures Finished(LastMove(action).toLive)
    ensures LocksAccount(LastMove(action).toLive) ==> LastMove(action).forceCloseOnly
    ensures LastMove(action).fromLive == if action.EntryReturns? then EntrySubmitting
                                         else if action.FinishProtected? then EntryFilled else EmergencyClosing
  {
  }

  lemma HeldStatus(w: World, k: WorkerId, id: IntentId)
    requires WorldOk(w) && k in w.workers && Held(w.workers[k].pc) == Some(id)
    ensures id in w.db.executions
    ensures w.workers[k].pc.EntrySent? ==> w.db.executions[id].status.EntrySubmitting?
    ensures w.workers[k].pc.ProtectionRecorded? ==> w.db.executions[id].status.EntryFilled?
    ensures w.workers[k].pc.Closing? || w.workers[k].pc.CloseSent? ==> w.db.executions[id].status.EmergencyClosing?
  {
    assert WorkerAt(w, k);
  }

  lemma AwaitedBy(w: World, action: Action, k: WorkerId)
    requires Enabled(w, action) && k in w.workers && LastAnswer(action, k)
    ensures action.EntryReturns? ==> w.workers[k].pc.EntrySent?
    ensures action.FinishProtected? ==> w.workers[k].pc.ProtectionRecorded?
    ensures action.CloseReturns? ==> w.workers[k].pc.Closing? || w.workers[k].pc.CloseSent?
  {
  }

  /** When run_once ends for a claimed execution, whatever ran in between, the execution is protected,
      failed, of unknown entry, closed or in need of reconciliation, and in the last three cases the
      same transaction put the account into close-only. */
  lemma RunOnceEnds(w: World, action: Action, k: WorkerId, id: IntentId)
    requires WorldOk(w) && k in w.workers && Held(w.workers[k].pc) == Some(id)
    ensures PcOf(Next(w, action), k).Idle? ==>
              var db := Next(w, action).db;
              && id in db.executions && Finished(db.executions[id].status)
              && (LocksAccount(db.executions[id].status) ==> IsCloseOnly(db, w.workers[k].account))
  {
    if Enabled(w, action) {
      EndsWithLastAnswer(w, action, k);
      if LastAnswer(action, k) {
        LastAnswerFinishes(w, action, k, id);
      }
    }
  }

  lemma LastAnswerFinishes(w: World, action: Action, k: WorkerId, id: IntentId)
    requires WorldOk(w) && Enabled(w, action) && k in w.workers && Held(w.workers[k].pc) == Some(id)
    requires LastAnswer(action, k)
    ensures var db := Next(w, action).db;
            && id in db.executions && Finished(db.executions[id].status)
            && (LocksAccount(db.executions[id].status) ==> IsCloseOnly(db, w.workers[k].account))
  {
    HeldStatus(w, k, id);
    AwaitedBy(w, action, k);
    LastMoveIsFinal(action);
    LastAnswerRecords(w, action, k, id);
    FinishedBy(w, k, id, LastMove(action));
  }

  /** What an outcome leaves behind: both statuses, the reason with the intent, and either a close-only lock
      for that reason or the reconciliation state as it was. */
  ghost predicate Leaves(
    w: World, k: WorkerId, id: IntentId, after: Tables, live: LiveStatus, status: TradeIntentStatus, reason: string,
    locks: bool)
    requires k in w.workers
  {
    var account := w.workers[k].account;
    && id in after.executions && after.executions[id].status == live
    && id in after.intents && after.intents[id].status == status && after.intents[id].statusReason == reason
    && (if locks then
          && account in after.reconciliation
          && var row := after.reconciliation[account];
             row.mode.CloseOnly? && !row.ready && row.reasonCode == Some(reason) && row.cleanStreak == 0
        else after.reconciliation == w.db.reconciliation)
  }

  lemma FinishLeaves(db: Tables, id: IntentId, move: Move)
    requires FinishLiveTransition(db, id, move).1.Ok?
    ensures var after := FinishLiveTransition(db, id, move).0;
            && id in db.executions && id in after.executions && after.executions[id].status == move.toLive
            && id in after.intents && after.intents[id].status == move.toIntent
            && after.intents[id].statusReason == move.reason
            && after.reconciliation ==
                 if move.forceCloseOnly
                 then db.reconciliation[db.executions[id].account :=
                        ForcedRow(Lookup(db.reconciliation, db.executions[id].account), move.reason)]
                 else db.reconciliation
  {
  }

  lemma MoveLeaves(w: World, k: WorkerId, id: IntentId, move: Move)
    requires WorldOk(w) && k in w.workers && Held(w.workers[k].pc) == Some(id) && Paired(move)
    requires id in w.db.executions && w.db.executions[id].status == move.fromLive
    ensures Leaves(w, k, id, FinishLiveTransition(w.db, id, move).0, move.toLive, move.toIntent, move.reason,
                   move.forceCloseOnly)
  {
    assert WorkerAt(w, k);
    FinishKeepsTables(w.db, id, move);
    FinishLeaves(w.db, id, move);
  }

  lemma RefusedProtectionRecords(w: World, k: WorkerId, id: IntentId, failure: GatewayFailure)
    requires WorldOk(w) && k in w.workers && Held(w.workers[k].pc) == Some(id)
    requires Enabled(w, ProtectionReturns(k, Err(failure)))
    ensures var after := Next(w, ProtectionReturns(k, Err(failure))).db;
            Leaves(w, k, id, after, EmergencyClosing, Executing, "protection_failed", true)
  {
    assert WorkerAt(w, k);
    OutcomesArePaired();
    MoveLeaves(w, k, id, EMERGENCY_CLOSING);
    assert Next(w, ProtectionReturns(k, Err(failure))) == DoProtectionReturns(w, k, Err(failure));
  }

  lemma LastOutcomeRecords(w: World, action: Action, k: WorkerId, id: IntentId)
    requires WorldOk(w) && Enabled(w, action) && k in w.workers && Held(w.workers[k].pc) == Some(id)
    requires LastAnswer(action, k)
    ensures var move := LastMove(action);
            Leaves(w, k, id, Next(w, action).db, move.toLive, move.toIntent, move.reason, move.forceCloseOnly)
  {
    HeldStatus(w, k, id);
    AwaitedBy(w, action, k);
    LastMoveIsFinal(action);
    LastAnswerRecords(w, action, k, id);
    MoveLeaves(w, k, id, LastMove(action));
  }

  /** What each answer of the exchange makes of the execution that the worker holds, whatever ran before.
      A refused entry failed and locks nothing; an entry of unknown outcome locks the account; protection
      that does not hold, for whatever reason, starts an emergency close and locks it; so do a close and a
      close of unknown outcome, which differ in what they leave. */
  lemma OutcomesAreRecorded(w: World, action: Action, k: WorkerId, id: IntentId)
    requires WorldOk(w) && Enabled(w, action) && k in w.workers && Held(w.workers[k].pc) == Some(id)
    ensures var db := Next(w, action).db;
            match action
            case EntryReturns(j, Err(Definite(_))) =>
              j == k ==> Leaves(w, k, id, db, LiveStatus.Failed, TradeIntentStatus.Failed, "entry_rejected", false)
            case EntryReturns(j, Err(OutcomeUnknown(_))) =>
              j == k ==> Leaves(w, k, id, db, EntryUnknown, TradeIntentStatus.Failed, "entry_outcome_unknown", true)
            case ProtectionReturns(j, Err(_)) =>
              j == k ==> Leaves(w, k, id, db, EmergencyClosing, Executing, "protection_failed", true)
            case FinishProtected(j) =>
              j == k ==> Leaves(w, k, id, db, Protected, Completed, "protection_verified", false)
            case CloseReturns(j, Ok(_)) =>
              j == k ==>
                Leaves(w, k, id, db, Closed, TradeIntentStatus.Failed, "unprotected_entry_emergency_closed", true)
            case CloseReturns(j, Err(_)) =>
              j == k ==>
                Leaves(w, k, id, db, ReconciliationRequired, TradeIntentStatus.Failed,
                       "emergency_close_outcome_unknown", true)
            case _ => true
  {
    if LastAnswer(action, k) {
      LastOutcomeRecords(w, action, k, id);
    } else if action.ProtectionReturns? && action.worker == k && action.answer.Err? {
      RefusedProtectionRecords(w, k, id, action.answer.error);
    }
  }
}
