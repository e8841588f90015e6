/** Runs that send what can still be sent with the kill switch on: they free the market, bring up a worker,
    open the gate and let everything older fail. */
module SendingRuns {
  import opened Wrappers
  import opened Domain
  import opened Orders
  import opened Coverage
  import opened Gateway
  import opened Reconciliation
  import opened Database
  import opened Store
  import opened StoreInvariant
  import opened Protocol
  import opened ProtocolInvariant
  import opened ProtocolSteps
  import opened Reachable
  import opened Evolution
  import opened Modes
  import opened NormalMode
  import opened LiveWorker
  import opened KillSwitch
  import opened Sendability

  // ---------- Waiting ----------

  /** The execution is pending, its market is free, and the switch is on. */
  ghost predicate Waits(w: World, id: IntentId) {
    && WorldOk(w) && w.db.killSwitch
    && id in w.db.executions && id in w.db.intents && w.db.executions[id].status.Pending?
    && !Blocked(w.db, id)
  }

  /** The execution is pending behind an active one of its market. */
  ghost predicate WaitsBehind(w: World, id: IntentId, other: IntentId) {
    && WorldOk(w) && w.db.killSwitch
    && SameMarket(w.db, other, id) && other != id && w.db.executions[id].status.Pending?
    && Active(w.db.executions[other].status)
  }

  /** An action that claims nothing makes no execution active. */
  lemma NothingBecomesActive(w: World, action: Action, after: World, id: IntentId)
    requires WorldOk(w) && StepAt(w, action, after, id) && !action.ClaimNext?
    requires id in after.db.executions && Active(after.db.executions[id].status)
    ensures id in w.db.executions && Active(w.db.executions[id].status)
  {
    if id in w.db.executions && w.db.executions[id].status.Pending? {
      NoHolder(w, id);
    }
  }

  lemma SameMarketBefore(db: Tables, after: Tables, a: IntentId, b: IntentId)
    requires Remembers(db, after) && SameMarket(after, a, b)
    requires a in db.executions && a in db.intents && b in db.executions && b in db.intents
    ensures SameMarket(db, a, b)
  {
  }

  lemma StaysPending(w: World, action: Action, after: World, id: IntentId)
    requires WorldOk(w) && StepAt(w, action, after, id) && !action.ClaimNext?
    requires id in w.db.executions && w.db.executions[id].status.Pending?
    ensures id in after.db.executions && after.db.executions[id] == w.db.executions[id]
  {
    NoHolder(w, id);
  }

  lemma PendingIsKept(w: World, action: Action, id: IntentId)
    requires WorldOk(w) && !action.ClaimNext?
    requires id in w.db.executions && id in w.db.intents && w.db.executions[id].status.Pending?
    ensures var after := Next(w, action).db;
            && id in after.executions && id in after.intents && after.executions[id].status.Pending?
            && after.executions[id].account == w.db.executions[id].account
  {
    NextEvolves(w, action, id);
    StaysPending(w, action, Next(w, action), id);
    NextRemembers(w, action);
  }

  lemma WasActiveThere(w: World, action: Action, after: World, id: IntentId, other: IntentId)
    requires WorldOk(w) && !action.ClaimNext? && id in w.db.executions && id in w.db.intents
    requires StepAt(w, action, after, other) && Remembers(w.db, after.db)
    requires SameMarket(after.db, other, id) && Active(after.db.executions[other].status)
    ensures SameMarket(w.db, other, id) && Active(w.db.executions[other].status)
  {
    NothingBecomesActive(w, action, after, other);
    assert RowOk(w.db, other);
    SameMarketBefore(w.db, after.db, other, id);
  }

  lemma ActiveBefore(w: World, action: Action, id: IntentId, other: IntentId)
    requires WorldOk(w) && !action.ClaimNext? && id in w.db.executions && id in w.db.intents
    requires SameMarket(Next(w, action).db, other, id)
    requires Active(Next(w, action).db.executions[other].status)
    ensures SameMarket(w.db, other, id) && Active(w.db.executions[other].status)
  {
    NextEvolves(w, action, other);
    NextRemembers(w, action);
    WasActiveThere(w, action, Next(w, action), id, other);
  }

  lemma WaitsKept(w: World, action: Action, id: IntentId)
    requires Waits(w, id) && !action.ClaimNext? && action != SwitchKill(false)
    ensures Waits(Next(w, action), id)
  {
    var after := Next(w, action);
    NextKeepsWorld(w, action);
    NextKeepsSwitch(w, action);
    PendingIsKept(w, action, id);
    forall other | other in after.db.executions && other != id && SameMarket(after.db, other, id)
      ensures !Active(after.db.executions[other].status)
    {
      if Active(after.db.executions[other].status) {
        ActiveBefore(w, action, id, other);
      }
    }
  }

  lemma WaitsBehindKept(w: World, action: Action, id: IntentId, other: IntentId)
    requires WaitsBehind(w, id, other) && !action.ClaimNext? && action != SwitchKill(false)
    requires other in Next(w, action).db.executions && Active(Next(w, action).db.executions[other].status)
    ensures WaitsBehind(Next(w, action), id, other)
  {
    NextKeepsWorld(w, action);
    NextKeepsSwitch(w, action);
    PendingIsKept(w, action, id);
    NextRemembers(w, action);
  }

  /** Once the active execution is not active any more, the market is free, because there was only one. */
  lemma MarketIsFreed(w: World, action: Action, id: IntentId, other: IntentId)
    requires WaitsBehind(w, id, other) && !action.ClaimNext? && action != SwitchKill(false)
    requires other in Next(w, action).db.executions && !Active(Next(w, action).db.executions[other].status)
    ensures Waits(Next(w, action), id)
  {
    var after := Next(w, action);
    NextKeepsWorld(w, action);
    NextKeepsSwitch(w, action);
    PendingIsKept(w, action, id);
    forall third | third in after.db.executions && third != id && SameMarket(after.db, third, id)
      ensures !Active(after.db.executions[third].status)
    {
      if Active(after.db.executions[third].status) {
        ActiveBefore(w, action, id, third);
        OnlyOneActive(w, id, other, third);
      }
    }
  }

  lemma OnlyOneActive(w: World, id: IntentId, a: IntentId, b: IntentId)
    requires WorldOk(w) && SameMarket(w.db, a, id) && SameMarket(w.db, b, id)
    requires Active(w.db.executions[a].status) && Active(w.db.executions[b].status)
    ensures a == b
  {
    assert ActiveAt(w.db, a) && ActiveAt(w.db, b);
    assert SameMarket(w.db, a, b);
  }

  // ---------- Bringing up a worker ----------

  const REFUSED: GatewayFailure := Definite("refused")

  /** One more action of the worker while the execution waits. */
  lemma OneStep(w: World, id: IntentId, action: Action) returns (after: World)
    requires Waits(w, id) && !action.ClaimNext? && action != SwitchKill(false)
    ensures after == Next(w, action) && Under(w, [action], after) && Waits(after, id)
  {
    after := Next(w, action);
    WaitsKept(w, action, id);
    UnderOne(w, action);
  }

  /** A worker with a recorded fill gives it up and becomes idle. */
  lemma GivesUp(w: World, k: WorkerId, account: Account, id: IntentId, stored: StoredIntent, fill: ConfirmedFill)
    returns (run: seq<Action>, after: World)
    requires Waits(w, id)
    requires IsAt(w, k, account, Closing(stored, fill)) || IsAt(w, k, account, CloseSent(stored, fill))
    ensures Under(w, run, after) && Waits(after, id) && IsAt(after, k, account, Idle)
  {
    run := [CloseReturns(k, Err(REFUSED))];
    ClosedMirrors(w, k, account, stored, fill, Err(REFUSED));
    after := OneStep(w, id, CloseReturns(k, Err(REFUSED)));
  }

  lemma LeavesUnprotected(
    w: World, k: WorkerId, account: Account, id: IntentId, stored: StoredIntent, fill: ConfirmedFill)
    returns (run: seq<Action>, after: World)
    requires Waits(w, id) && IsFilled(w, k, account, stored, fill)
    ensures Under(w, run, after) && Waits(after, id) && IsAt(after, k, account, Idle)
  {
    ClosingMirrors(w, k, account, stored, fill, REFUSED);
    var closing := OneStep(w, id, ProtectionReturns(k, Err(REFUSED)));
    var rest, last := GivesUp(closing, k, account, id, stored, fill);
    run, after := [ProtectionReturns(k, Err(REFUSED))] + rest, last;
    UnderBoth(w, [ProtectionReturns(k, Err(REFUSED))], rest, closing, after);
  }

  lemma IsRefused(w: World, k: WorkerId, account: Account, id: IntentId, stored: StoredIntent)
    returns (run: seq<Action>, after: World)
    requires Waits(w, id) && IsAt(w, k, account, EntrySent(stored))
    ensures Under(w, run, after) && Waits(after, id) && IsAt(after, k, account, Idle)
  {
    run := [EntryReturns(k, Err(REFUSED))];
    FailingMirrors(w, k, account, stored, REFUSED);
    after := OneStep(w, id, EntryReturns(k, Err(REFUSED)));
  }

  lemma SendsAndIsRefused(
    w: World, k: WorkerId, account: Account, id: IntentId, stored: StoredIntent, execution: LiveExecution)
    returns (run: seq<Action>, after: World)
    requires Waits(w, id) && IsAt(w, k, account, Claimed(stored, execution))
    ensures Under(w, run, after) && Waits(after, id) && IsAt(after, k, account, Idle)
  {
    ClaimedIsDecided(w, k, account, stored, execution);
    SendingMirrors(w, k, account, stored, execution, stored.riskDecision.value.approvedNotionalUsd.value);
    var sent := OneStep(w, id, SendEntry(k));
    var rest, last := IsRefused(sent, k, account, id, stored);
    run, after := [SendEntry(k)] + rest, last;
    UnderBoth(w, [SendEntry(k)], rest, sent, after);
  }

  lemma ClaimedIsDecided(w: World, k: WorkerId, account: Account, stored: StoredIntent, execution: LiveExecution)
    requires WorldOk(w) && IsAt(w, k, account, Claimed(stored, execution))
    ensures stored.riskDecision.Some? && stored.riskDecision.value.approvedNotionalUsd.Some?
  {
    assert WorkerAt(w, k);
  }

  lemma FinishesProtected(
    w: World, k: WorkerId, account: Account, id: IntentId, stored: StoredIntent, fill: ConfirmedFill)
    returns (run: seq<Action>, after: World)
    requires Waits(w, id) && IsAt(w, k, account, ProtectionRecorded(stored, fill))
    ensures Under(w, run, after) && Waits(after, id) && IsAt(after, k, account, Idle)
  {
    run := [FinishProtected(k)];
    FinishingMirrors(w, k, account, stored, fill);
    after := OneStep(w, id, FinishProtected(k));
  }

  /** Every running worker comes to the end of its pass, or is past the gate already. */
  lemma ComesToIdle(w: World, k: WorkerId, account: Account, id: IntentId) returns (run: seq<Action>, after: World)
    requires Waits(w, id) && k in w.workers && w.workers[k].account == account && Running(w.workers[k].pc)
    ensures Under(w, run, after) && Waits(after, id)
    ensures IsAt(after, k, account, Idle) || IsAt(after, k, account, GatePassed)
  {
    assert WorkerAt(w, k);
    match w.workers[k].pc
    case Claimed(stored, execution) => run, after := SendsAndIsRefused(w, k, account, id, stored, execution);
    case EntrySent(stored) => run, after := IsRefused(w, k, account, id, stored);
    case FillRecorded(stored, fill) => run, after := LeavesUnprotected(w, k, account, id, stored, fill);
    case ProtectionSent(stored, fill) => run, after := LeavesUnprotected(w, k, account, id, stored, fill);
    case ProtectionRecorded(stored, fill) => run, after := FinishesProtected(w, k, account, id, stored, fill);
    case Closing(stored, fill) => run, after := GivesUp(w, k, account, id, stored, fill);
    case CloseSent(stored, fill) => run, after := GivesUp(w, k, account, id, stored, fill);
    case _ =>
      UnderNothing(w);
      run, after := [], w;
  }

  lemma CrashedAndStarted(w: World, k: WorkerId)
    requires k in w.workers && UnresolvedIds(w.db, w.workers[k].account) == {}
    ensures Next(w, Crash(k)) == SetPc(w, k, Down)
    ensures Next(SetPc(w, k, Down), Start(k)) == SetPc(SetPc(w, k, Down), k, Idle)
  {
  }

  /** A worker that is down or stopped starts, if nothing of its account is unresolved. */
  lemma StartsUp(w: World, k: WorkerId, account: Account, id: IntentId) returns (run: seq<Action>, after: World)
    requires Waits(w, id) && k in w.workers && w.workers[k].account == account && !Running(w.workers[k].pc)
    requires UnresolvedIds(w.db, account) == {}
    ensures Under(w, run, after) && Waits(after, id) && IsAt(after, k, account, Idle)
  {
    CrashedAndStarted(w, k);
    var down := OneStep(w, id, Crash(k));
    after := OneStep(down, id, Start(k));
    UnderBoth(w, [Crash(k)], [Start(k)], down, after);
    run := [Crash(k)] + [Start(k)];
  }

  // ---------- Freeing the market ----------

  /** Every positive size has a lot at some precision. */
  lemma EnoughDecimals(size: real, n: nat) returns (decimals: nat)
    requires size > 0.0 && n as real * size >= 1.0
    ensures RoundSize(Some(decimals), size).Ok?
    decreases n
  {
    if size >= 1.0 {
      decimals := 0;
    } else {
      var m := (n + 9) / 10;
      TenfoldIsEnough(size, n, m);
      var fewer := EnoughDecimals(10.0 * size, m);
      decimals := fewer + 1;
    }
  }

  lemma TenfoldIsEnough(size: real, n: nat, m: nat)
    requires 0.0 < size < 1.0 && n as real * size >= 1.0 && m == (n + 9) / 10
    ensures m < n && m as real * (10.0 * size) >= 1.0
  {
    AtLeastTwo(size, n);
    assert 10 * m >= n;
    ScaledOrder(n as real, (10 * m) as real, size);
    assert m as real * (10.0 * size) == (10 * m) as real * size;
  }

  lemma AtLeastTwo(size: real, n: nat)
    requires 0.0 < size < 1.0 && n as real * size >= 1.0
    ensures n >= 2
  {
  }

  lemma SomeMultiple(size: real) returns (n: nat)
    requires size > 0.0
    ensures n as real * size >= 1.0
  {
    var quotient := 1.0 / size;
    assert quotient * size == 1.0;
    n := quotient.Floor + 1;
    ScaledOrder(quotient, n as real, size);
  }

  lemma StepBehind(w: World, k: WorkerId, id: IntentId, other: IntentId, action: Action) returns (after: World)
    requires WaitsBehind(w, id, other) && !action.ClaimNext? && action != SwitchKill(false)
    requires k in Next(w, action).workers && Held(Next(w, action).workers[k].pc) == Some(other)
    ensures after == Next(w, action) && Under(w, [action], after) && WaitsBehind(after, id, other)
  {
    after := Next(w, action);
    NextKeepsWorld(w, action);
    HeldIsActive(after, k, other);
    WaitsBehindKept(w, action, id, other);
    UnderOne(w, action);
  }

  lemma LastStep(w: World, k: WorkerId, account: Account, id: IntentId, other: IntentId, action: Action)
    returns (after: World)
    requires WaitsBehind(w, id, other) && !action.ClaimNext? && action != SwitchKill(false)
    requires EndsIn(Next(w, action), k, account, other, LiveStatus.Failed)
             || EndsIn(Next(w, action), k, account, other, Closed)
    ensures after == Next(w, action) && Under(w, [action], after) && Waits(after, id)
  {
    after := Next(w, action);
    MarketIsFreed(w, action, id, other);
    UnderOne(w, action);
  }

  lemma CloseFrees(
    w: World, k: WorkerId, account: Account, id: IntentId, other: IntentId, stored: StoredIntent, fill: ConfirmedFill)
    returns (run: seq<Action>, after: World)
    requires WaitsBehind(w, id, other) && stored.intent.intentId == other
    requires IsAt(w, k, account, CloseSent(stored, fill))
    ensures Under(w, run, after) && Waits(after, id) && IsAt(after, k, account, Idle)
  {
    run := [CloseReturns(k, Ok(fill))];
    ClosedMirrors(w, k, account, stored, fill, Ok(fill));
    after := LastStep(w, k, account, id, other, CloseReturns(k, Ok(fill)));
  }

  lemma ClosingFrees(
    w: World, k: WorkerId, account: Account, id: IntentId, other: IntentId, stored: StoredIntent, fill: ConfirmedFill)
    returns (run: seq<Action>, after: World)
    requires WaitsBehind(w, id, other) && stored.intent.intentId == other && fill.size > 0.0
    requires IsAt(w, k, account, Closing(stored, fill))
    ensures Under(w, run, after) && Waits(after, id) && IsAt(after, k, account, Idle)
  {
    var n := SomeMultiple(fill.size);
    var decimals := EnoughDecimals(fill.size, n);
    var send := SendClose(k, Some(decimals));
    SendingCloseMirrors(w, k, account, stored, fill, Some(decimals), RoundSize(Some(decimals), fill.size).value);
    var sent := StepBehind(w, k, id, other, send);
    var rest, last := CloseFrees(sent, k, account, id, other, stored, fill);
    run, after := [send] + rest, last;
    UnderBoth(w, [send], rest, sent, after);
  }

  lemma FilledFrees(
    w: World, k: WorkerId, account: Account, id: IntentId, other: IntentId, stored: StoredIntent, fill: ConfirmedFill)
    returns (run: seq<Action>, after: World)
    requires WaitsBehind(w, id, other) && stored.intent.intentId == other && fill.size > 0.0
    requires IsFilled(w, k, account, stored, fill)
    ensures Under(w, run, after) && Waits(after, id) && IsAt(after, k, account, Idle)
  {
    var fail := ProtectionReturns(k, Err(REFUSED));
    ClosingMirrors(w, k, account, stored, fill, REFUSED);
    var closing := StepBehind(w, k, id, other, fail);
    var rest, last := ClosingFrees(closing, k, account, id, other, stored, fill);
    run, after := [fail] + rest, last;
    UnderBoth(w, [fail], rest, closing, after);
  }

  lemma EntryFrees(w: World, k: WorkerId, account: Account, id: IntentId, other: IntentId, stored: StoredIntent)
    returns (run: seq<Action>, after: World)
    requires WaitsBehind(w, id, other) && stored.intent.intentId == other && IsAt(w, k, account, EntrySent(stored))
    ensures Under(w, run, after) && Waits(after, id) && IsAt(after, k, account, Idle)
  {
    run := [EntryReturns(k, Err(REFUSED))];
    FailingMirrors(w, k, account, stored, REFUSED);
    after := LastStep(w, k, account, id, other, EntryReturns(k, Err(REFUSED)));
  }

  lemma ClaimFrees(
    w: World, k: WorkerId, account: Account, id: IntentId, other: IntentId, stored: StoredIntent,
    execution: LiveExecution)
    returns (run: seq<Action>, after: World)
    requires WaitsBehind(w, id, other) && stored.intent.intentId == other
    requires IsAt(w, k, account, Claimed(stored, execution))
    ensures Under(w, run, after) && Waits(after, id) && IsAt(after, k, account, Idle)
  {
    ClaimedIsDecided(w, k, account, stored, execution);
    SendingMirrors(w, k, account, stored, execution, stored.riskDecision.value.approvedNotionalUsd.value);
    var sent := StepBehind(w, k, id, other, SendEntry(k));
    var rest, last := EntryFrees(sent, k, account, id, other, stored);
    run, after := [SendEntry(k)] + rest, last;
    UnderBoth(w, [SendEntry(k)], rest, sent, after);
  }

  /** A worker that can free the market does so, and becomes idle. */
  lemma MarketComesFree(w: World, k: WorkerId, account: Account, id: IntentId, other: IntentId)
    returns (run: seq<Action>, after: World)
    requires WaitsBehind(w, id, other) && k in w.workers && w.workers[k].account == account
    requires Held(w.workers[k].pc) == Some(other) && Frees(w.workers[k].pc)
    ensures Under(w, run, after) && Waits(after, id) && IsAt(after, k, account, Idle)
  {
    match w.workers[k].pc
    case Claimed(stored, execution) => run, after := ClaimFrees(w, k, account, id, other, stored, execution);
    case EntrySent(stored) => run, after := EntryFrees(w, k, account, id, other, stored);
    case FillRecorded(stored, fill) => run, after := FilledFrees(w, k, account, id, other, stored, fill);
    case ProtectionSent(stored, fill) => run, after := FilledFrees(w, k, account, id, other, stored, fill);
    case Closing(stored, fill) => run, after := ClosingFrees(w, k, account, id, other, stored, fill);
    case CloseSent(stored, fill) => run, after := CloseFrees(w, k, account, id, other, stored, fill);
  }

  // ---------- Opening the gate ----------

  /** A snapshot of a position without a stop. */
  function BareSnapshot(account: Account): AccountSnapshot {
    var positions := [Position("ETH", 1.0, None)];
    AccountSnapshot(account, 1, positions, [], EvaluateProtectionCoverage(positions, [], map[]), map[])
  }

  lemma BareSnapshotIsUnprotected(account: Account)
    ensures Unprotected(BareSnapshot(account))
  {
    var position, s := Position("ETH", 1.0, None), BareSnapshot(account);
    assert [position][..0] == [];
    assert s.coverage == [CoverageOf(position, [], map[])];
    assert !s.coverage[0].covered;
  }

  /** A snapshot of a flat account without orders. */
  function FlatSnapshot(account: Account, observedAt: Time): AccountSnapshot {
    AccountSnapshot(account, observedAt, [], [], [], map[])
  }

  /** Every projected position has a fill in the window. */
  ghost predicate Explained(row: Option<ReconciliationRow>, book: Book) {
    forall c | c in book.positions :: HasFill(book.fills, c, WindowStart(row))
  }

  lemma FlatSnapshotIsClean(book: Book, row: Option<ReconciliationRow>, s: AccountSnapshot)
    requires Explained(row, book) && s == FlatSnapshot(s.account, s.observedAt)
    ensures !Discrepancy(Compare(book, row, s), s)
    ensures Compare(book, row, s).positions.Keys == book.positions.Keys
  {
    var listed := DiffPositions(book.positions, book.fills, [], IsBaseline(row), WindowStart(row));
    assert listed == PositionDiff(book.positions, {});
  }

  /** The row of an account in close-only with this reason and streak, and an explained book. */
  ghost predicate Recovering(db: Tables, account: Account, reason: string, streak: nat) {
    && IsCloseOnly(db, account)
    && db.reconciliation[account].reasonCode == Some(reason)
    && db.reconciliation[account].cleanStreak == streak
  }

  ghost predicate IsExplained(db: Tables, account: Account) {
    Explained(Lookup(db.reconciliation, account), BookOf(db, account))
  }

  const UNPROTECTED: string := "unprotected_position"

  lemma BareSnapshotCloses(w: World, account: Account)
    requires WorldOk(w)
    ensures Recovering(Next(w, TakeSnapshot(BareSnapshot(account))).db, account, UNPROTECTED, 0)
  {
    BareSnapshotIsUnprotected(account);
    assert Enabled(w, TakeSnapshot(BareSnapshot(account)));
    NextRowOf(w, TakeSnapshot(BareSnapshot(account)), account);
  }

  /** A fill of every projected position. */
  function FillsOfAll(book: Book, time: nat): set<FillFact> {
    set c | c in book.positions :: FillFact("", 0, c, time, 1.0, 1.0)
  }

  lemma FillsExplain(book: Book, row: Option<ReconciliationRow>)
    ensures Explained(row, book.(fills := book.fills + FillsOfAll(book, WindowStart(row))))
  {
    var fills := book.fills + FillsOfAll(book, WindowStart(row));
    forall c | c in book.positions ensures HasFill(fills, c, WindowStart(row)) {
      assert FillFact("", 0, c, WindowStart(row), 1.0, 1.0) in fills;
    }
  }

  lemma FillsAreLearnt(w: World, account: Account, reason: string, streak: nat)
    requires WorldOk(w) && Recovering(w.db, account, reason, streak)
    ensures var learn := LearnHistory(
              account, FillsOfAll(BookOf(w.db, account), WindowStart(Lookup(w.db.reconciliation, account))), {});
            Recovering(Next(w, learn).db, account, reason, streak) && IsExplained(Next(w, learn).db, account)
  {
    var row, book := Lookup(w.db.reconciliation, account), BookOf(w.db, account);
    var learn := LearnHistory(account, FillsOfAll(book, WindowStart(row)), {});
    NextRowOf(w, learn, account);
    NextBookOf(w, learn, account);
    FillsExplain(book, row);
    assert book.funding + {} == book.funding;
  }

  lemma FlatSnapshotCounts(w: World, account: Account, reason: string, streak: nat)
    requires WorldOk(w) && Recovering(w.db, account, reason, streak) && IsExplained(w.db, account) && streak < 3
    ensures var take := TakeSnapshot(FlatSnapshot(account, WindowStart(Lookup(w.db.reconciliation, account))));
            Recovering(Next(w, take).db, account, reason, streak + 1) && IsExplained(Next(w, take).db, account)
  {
    var row, book := Lookup(w.db.reconciliation, account), BookOf(w.db, account);
    var s := FlatSnapshot(account, WindowStart(row));
    FlatSnapshotIsClean(book, row, s);
    assert s.coverage == EvaluateProtectionCoverage([], [], map[]);
    assert Enabled(w, TakeSnapshot(s));
    NextRowOf(w, TakeSnapshot(s), account);
    NextBookOf(w, TakeSnapshot(s), account);
  }

  lemma AcknowledgementOpens(w: World, account: Account, reason: string)
    requires WorldOk(w) && Recovering(w.db, account, reason, 3)
    ensures !EntriesBlocked(Next(w, AcknowledgeRecovery(account, reason, "operator")).db, account)
  {
    NextRowOf(w, AcknowledgeRecovery(account, reason, "operator"), account);
    AcknowledgeRow(w.db, AcknowledgeRecovery(account, reason, "operator"), account);
  }

  predicate IsService(action: Action) {
    action.TakeSnapshot? || action.LearnHistory? || action.AcknowledgeRecovery?
  }

  lemma ServiceKeepsExecutions(w: World, action: Action)
    requires IsService(action)
    ensures Next(w, action).db.executions == w.db.executions
  {
    match action
    case TakeSnapshot(s) => SnapshotIsQuiet(w.db, s);
    case LearnHistory(account, fills, funding) => HistoryIsQuiet(w.db, account, fills, funding);
    case AcknowledgeRecovery(account, reason, operator) => AcknowledgeIsQuiet(w.db, account, reason, operator);
  }

  /** The worker is idle, the execution waits, and which executions there are has not changed. */
  ghost predicate Ready(
    w: World, k: WorkerId, account: Account, id: IntentId, executions: map<IntentId, LiveExecution>)
  {
    Waits(w, id) && IsAt(w, k, account, Idle) && w.db.executions == executions
  }

  lemma ServiceStep(
    w: World, k: WorkerId, account: Account, id: IntentId, executions: map<IntentId, LiveExecution>, action: Action)
    requires Ready(w, k, account, id, executions) && IsService(action)
    ensures Under(w, [action], Next(w, action)) && Ready(Next(w, action), k, account, id, executions)
  {
    WaitsKept(w, action, id);
    OnlyActorMoves(w, action);
    ServiceKeepsExecutions(w, action);
    UnderOne(w, action);
  }

  /** Clean snapshots up to the third. */
  lemma CollectsClean(
    w: World, k: WorkerId, account: Account, id: IntentId, executions: map<IntentId, LiveExecution>, reason: string,
    streak: nat)
    returns (run: seq<Action>, after: World)
    requires Ready(w, k, account, id, executions) && streak <= 3
    requires Recovering(w.db, account, reason, streak) && IsExplained(w.db, account)
    ensures Under(w, run, after) && Ready(after, k, account, id, executions) && Recovering(after.db, account, reason, 3)
    decreases 3 - streak
  {
    if streak == 3 {
      UnderNothing(w);
      run, after := [], w;
    } else {
      var take := TakeSnapshot(FlatSnapshot(account, WindowStart(Lookup(w.db.reconciliation, account))));
      ServiceStep(w, k, account, id, executions, take);
      FlatSnapshotCounts(w, account, reason, streak);
      var rest, last := CollectsClean(Next(w, take), k, account, id, executions, reason, streak + 1);
      run, after := [take] + rest, last;
      UnderBoth(w, [take], rest, Next(w, take), after);
    }
  }

  lemma Recovers3(
    w: World, k: WorkerId, account: Account, id: IntentId, executions: map<IntentId, LiveExecution>)
    returns (run: seq<Action>, after: World)
    requires Ready(w, k, account, id, executions) && Recovering(w.db, account, UNPROTECTED, 0)
    ensures Under(w, run, after) && Ready(after, k, account, id, executions) && !EntriesBlocked(after.db, account)
  {
    var learn := LearnHistory(
      account, FillsOfAll(BookOf(w.db, account), WindowStart(Lookup(w.db.reconciliation, account))), {});
    var acknowledge := AcknowledgeRecovery(account, UNPROTECTED, "operator");
    ServiceStep(w, k, account, id, executions, learn);
    FillsAreLearnt(w, account, UNPROTECTED, 0);
    var learnt := Next(w, learn);
    var clean, ready := CollectsClean(learnt, k, account, id, executions, UNPROTECTED, 0);
    ServiceStep(ready, k, account, id, executions, acknowledge);
    AcknowledgementOpens(ready, account, UNPROTECTED);
    after := Next(ready, acknowledge);
    UnderBoth(w, [learn], clean, learnt, ready);
    UnderBoth(w, [learn] + clean, [acknowledge], ready, after);
    run := [learn] + clean + [acknowledge];
  }

  /** From any state of the account, snapshots, learnt fills and an acknowledgement open the gate. */
  lemma GateOpens(w: World, k: WorkerId, account: Account, id: IntentId, executions: map<IntentId, LiveExecution>)
    returns (run: seq<Action>, after: World)
    requires Ready(w, k, account, id, executions)
    ensures Under(w, run, after) && Ready(after, k, account, id, executions) && !EntriesBlocked(after.db, account)
  {
    if !EntriesBlocked(w.db, account) {
      UnderNothing(w);
      run, after := [], w;
    } else {
      var take := TakeSnapshot(BareSnapshot(account));
      ServiceStep(w, k, account, id, executions, take);
      BareSnapshotCloses(w, account);
      var rest, last := Recovers3(Next(w, take), k, account, id, executions);
      run, after := [take] + rest, last;
      UnderBoth(w, [take], rest, Next(w, take), after);
    }
  }

  // ---------- Letting everything older fail ----------

  function PendingIds(db: Tables, account: Account): set<IntentId> {
    set id | id in db.executions && db.executions[id].account == account && db.executions[id].status.Pending?
  }

  /** The executions after one of them was claimed, sent and refused. */
  ghost predicate OneFailed(db: Tables, after: Tables, failed: IntentId) {
    && failed in db.executions && failed in after.executions
    && after.executions == db.executions[failed := after.executions[failed]]
    && after.executions[failed].status == LiveStatus.Failed
    && after.executions[failed].account == db.executions[failed].account
    && Remembers(db, after)
  }

  lemma FailedFreesNothing(db: Tables, after: Tables, failed: IntentId, id: IntentId)
    requires OneFailed(db, after, failed) && (forall k :: RowOk(db, k))
    requires id != failed && id in db.executions && id in db.intents && !Blocked(db, id)
    ensures !Blocked(after, id)
  {
    forall other | other in after.executions && other != id && SameMarket(after, other, id)
      ensures !Active(after.executions[other].status)
    {
      assert RowOk(db, other);
      SameMarketBefore(db, after, other, id);
    }
  }

  lemma FewerPending(db: Tables, after: Tables, failed: IntentId, account: Account)
    requires OneFailed(db, after, failed) && failed in PendingIds(db, account)
    ensures |PendingIds(after, account)| < |PendingIds(db, account)|
  {
    assert PendingIds(after, account) == PendingIds(db, account) - {failed};
  }

  lemma ClaimedAndFailed(db: Tables, claimed: Tables, after: Tables, id: IntentId)
    requires id in db.executions && id in db.intents && Claim(db, id).1.Ok? && claimed == Claim(db, id).0
    requires FinishLiveTransition(claimed, id, ENTRY_FAILED).1.Ok?
    requires after == FinishLiveTransition(claimed, id, ENTRY_FAILED).0
    ensures id in after.executions && after.executions == db.executions[id := after.executions[id]]
    ensures after.executions[id].status == LiveStatus.Failed
    ensures after.executions[id].account == db.executions[id].account
    ensures after.killSwitch == db.killSwitch
  {
    FinishChanges(claimed, id, ENTRY_FAILED);
    FinishKeepsSwitch(claimed, id, ENTRY_FAILED);
    ClaimKeepsSwitch(db, id);
  }

  /** A worker that has claimed an execution sends it and is refused. */
  lemma ClaimedFails(
    w: World, k: WorkerId, account: Account, stored: StoredIntent, execution: LiveExecution, sent: World, after: World)
    requires WorldOk(w) && IsAt(w, k, account, Claimed(stored, execution))
    requires sent == Next(w, SendEntry(k)) && after == Next(sent, EntryReturns(k, Err(REFUSED)))
    ensures WorldOk(after) && IsAt(after, k, account, Idle)
    ensures FinishLiveTransition(w.db, stored.intent.intentId, ENTRY_FAILED) == (after.db, Ok(()))
  {
    ClaimedIsDecided(w, k, account, stored, execution);
    SendingMirrors(w, k, account, stored, execution, stored.riskDecision.value.approvedNotionalUsd.value);
    NextKeepsWorld(w, SendEntry(k));
    FailingMirrors(sent, k, account, stored, REFUSED);
    NextKeepsWorld(sent, EntryReturns(k, Err(REFUSED)));
  }

  /** A worker past the gate claims the oldest free execution, sends it, and is refused. */
  lemma OldestFails(w: World, k: WorkerId, account: Account, id: IntentId, oldest: IntentId)
    returns (run: seq<Action>, after: World)
    requires Waits(w, id) && IsAt(w, k, account, GatePassed) && Oldest(w.db, account, oldest) && oldest != id
    ensures Under(w, run, after) && Waits(after, id) && IsAt(after, k, account, Idle)
    ensures OneFailed(w.db, after.db, oldest)
  {
    var claim := ClaimNext(k, Some(oldest));
    var claimed := Next(w, claim);
    ClaimingMirrors(w, k, account, oldest);
    NextKeepsWorld(w, claim);
    var (execution, stored) := Claim(w.db, oldest).1.value;
    var sent := Next(claimed, SendEntry(k));
    after := Next(sent, EntryReturns(k, Err(REFUSED)));
    ClaimedFails(claimed, k, account, stored, execution, sent, after);
    run := ThreeSteps(w, claim, SendEntry(k), EntryReturns(k, Err(REFUSED)), claimed, sent, after);
    ClaimedAndFailed(w.db, claimed.db, after.db, oldest);
    StillWaits(w, run, after, id, oldest);
  }

  lemma StillWaits(w: World, run: seq<Action>, after: World, id: IntentId, failed: IntentId)
    requires Waits(w, id) && WorldOk(after) && Under(w, run, after) && failed != id && after.db.killSwitch
    requires failed in w.db.executions && failed in after.db.executions
    requires after.db.executions == w.db.executions[failed := after.db.executions[failed]]
    requires after.db.executions[failed].status == LiveStatus.Failed
    requires after.db.executions[failed].account == w.db.executions[failed].account
    ensures Waits(after, id) && OneFailed(w.db, after.db, failed)
  {
    RunRemembers(w, run);
    FailedFreesNothing(w.db, after.db, failed, id);
  }

  lemma ThreeSteps(w: World, a: Action, b: Action, c: Action, first: World, second: World, third: World)
    returns (run: seq<Action>)
    requires a != SwitchKill(false) && b != SwitchKill(false) && c != SwitchKill(false)
    requires first == Next(w, a) && second == Next(first, b) && third == Next(second, c)
    ensures Under(w, run, third)
  {
    UnderOne(w, a);
    UnderOne(first, b);
    UnderOne(second, c);
    UnderBoth(w, [a], [b], first, second);
    UnderBoth(w, [a] + [b], [c], second, third);
    run := [a] + [b] + [c];
  }

  lemma ClaimedIsSent(w: World, k: WorkerId, id: IntentId) returns (after: World)
    requires WorldOk(w) && k in w.workers && w.workers[k].pc.Claimed? && Held(w.workers[k].pc) == Some(id)
    ensures Under(w, [SendEntry(k)], after) && EntriesFor(after.calls, id) == 1
  {
    after := Next(w, SendEntry(k));
    ClaimedIsUnsent(w, k, id);
    NextEntry(w, SendEntry(k), id);
    UnderOne(w, SendEntry(k));
  }

  /** A worker past the gate sends the execution if it is the oldest free one. */
  lemma OldestIsSent(w: World, k: WorkerId, account: Account, id: IntentId) returns (run: seq<Action>, after: World)
    requires Waits(w, id) && IsAt(w, k, account, GatePassed) && Oldest(w.db, account, id)
    ensures Under(w, run, after) && EntriesFor(after.calls, id) == 1
  {
    var claim := ClaimNext(k, Some(id));
    ClaimingMirrors(w, k, account, id);
    NextKeepsWorld(w, claim);
    var claimed := Next(w, claim);
    UnderOne(w, claim);
    after := ClaimedIsSent(claimed, k, id);
    UnderBoth(w, [claim], [SendEntry(k)], claimed, after);
    run := [claim] + [SendEntry(k)];
  }

  lemma SomeOldest(db: Tables, account: Account, id: IntentId) returns (oldest: IntentId)
    requires Claimable(db, account, id)
    ensures Oldest(db, account, oldest)
  {
    var candidates := set c | c in db.executions && Claimable(db, account, c);
    assert id in candidates;
    OldestExists(db, account, candidates);
    oldest :| oldest in candidates && forall other | other in candidates ::
      db.executions[oldest].createdAt <= db.executions[other].createdAt;
    forall other | Claimable(db, account, other)
      ensures db.executions[oldest].createdAt <= db.executions[other].createdAt
    {
      assert other in candidates;
    }
  }

  lemma PassesGate(w: World, k: WorkerId, account: Account, id: IntentId) returns (after: World)
    requires Waits(w, id) && IsAt(w, k, account, Idle) && !EntriesBlocked(w.db, account)
    ensures Under(w, [PassGate(k)], after) && Waits(after, id)
    ensures IsAt(after, k, account, GatePassed) && after.db == w.db
  {
    GatePassedRun(w, k, account);
    after := OneStep(w, id, PassGate(k));
  }

  lemma SentFromGate(w: World, k: WorkerId, account: Account, id: IntentId) returns (run: seq<Action>, after: World)
    requires Waits(w, id) && IsAt(w, k, account, GatePassed) && w.db.executions[id].account == account
    ensures Under(w, run, after) && EntriesFor(after.calls, id) == 1
    decreases |PendingIds(w.db, account)|, 0
  {
    var oldest := SomeOldest(w.db, account, id);
    if oldest == id {
      run, after := OldestIsSent(w, k, account, id);
    } else {
      var first, failed := OldestFails(w, k, account, id, oldest);
      FewerPending(w.db, failed.db, oldest, account);
      var rest, last := SentFromIdle(failed, k, account, id);
      run, after := first + rest, last;
      UnderBoth(w, first, rest, failed, after);
    }
  }

  /** An idle worker sends every waiting execution of its account in the end. */
  lemma SentFromIdle(w: World, k: WorkerId, account: Account, id: IntentId) returns (run: seq<Action>, after: World)
    requires Waits(w, id) && IsAt(w, k, account, Idle) && w.db.executions[id].account == account
    ensures Under(w, run, after) && EntriesFor(after.calls, id) == 1
    decreases |PendingIds(w.db, account)|, 1
  {
    var opening, open := GateOpens(w, k, account, id, w.db.executions);
    var passed := PassesGate(open, k, account, id);
    var rest, last := SentFromGate(passed, k, account, id);
    UnderBoth(w, opening, [PassGate(k)], open, passed);
    UnderBoth(w, opening + [PassGate(k)], rest, passed, last);
    run, after := opening + [PassGate(k)] + rest, last;
  }

  // ---------- The exact condition ----------

  lemma SentWhenWaiting(w: World, id: IntentId) returns (run: seq<Action>, after: World)
    requires Waits(w, id) && WorkerAvailable(w, w.db.executions[id].account)
    ensures Under(w, run, after) && EntriesFor(after.calls, id) == 1
  {
    var account := w.db.executions[id].account;
    var k :| k in w.workers && w.workers[k].account == account
             && (Running(w.workers[k].pc) || UnresolvedIds(w.db, account) == {});
    var first, up, rest, last;
    if Running(w.workers[k].pc) {
      first, up := ComesToIdle(w, k, account, id);
    } else {
      first, up := StartsUp(w, k, account, id);
    }
    AccountIsKept(w, first, up, id);
    if IsAt(up, k, account, Idle) {
      rest, last := SentFromIdle(up, k, account, id);
    } else {
      rest, last := SentFromGate(up, k, account, id);
    }
    UnderBoth(w, first, rest, up, last);
    run, after := first + rest, last;
  }

  lemma AccountIsKept(w: World, run: seq<Action>, after: World, id: IntentId)
    requires WorldOk(w) && Under(w, run, after) && id in w.db.executions
    ensures id in after.db.executions && after.db.executions[id].account == w.db.executions[id].account
  {
    RunRemembers(w, run);
  }

  lemma SentWhenMarketFrees(w: World, id: IntentId) returns (run: seq<Action>, after: World)
    requires WorldOk(w) && w.db.killSwitch && id in w.db.executions && w.db.executions[id].status.Pending?
    requires MarketFrees(w, id) && WorkerAvailable(w, w.db.executions[id].account)
    ensures Under(w, run, after) && EntriesFor(after.calls, id) == 1
  {
    assert RowOk(w.db, id);
    if Blocked(w.db, id) {
      var other :| other in w.db.executions && other != id && SameMarket(w.db, other, id)
                   && Active(w.db.executions[other].status);
      assert !Stuck(w, other);
      var k :| k in w.workers && Held(w.workers[k].pc) == Some(other) && Frees(w.workers[k].pc);
      HeldIsActive(w, k, other);
      var account := w.db.executions[id].account;
      var first, free := MarketComesFree(w, k, account, id, other);
      AccountIsKept(w, first, free, id);
      var rest, last := SentFromIdle(free, k, account, id);
      UnderBoth(w, first, rest, free, last);
      run, after := first + rest, last;
    } else {
      run, after := SentWhenWaiting(w, id);
    }
  }

  lemma NotSentBefore(w: World, id: IntentId)
    requires WorldOk(w) && CanStillBeSent(w, id)
    ensures EntriesFor(w.calls, id) == 0
  {
    if k :| k in w.workers && w.workers[k].pc.Claimed? && Held(w.workers[k].pc) == Some(id) {
      ClaimedIsUnsent(w, k, id);
    } else {
      assert RowOk(w.db, id);
      NothingSentBefore(w, id);
    }
  }

  lemma CanBeSent(w: World, id: IntentId) returns (run: seq<Action>)
    requires WorldOk(w) && w.db.killSwitch && CanStillBeSent(w, id)
    ensures SwitchKill(false) !in run && EntriesFor(After(w, run).calls, id) == 1
  {
    var after;
    if k :| k in w.workers && w.workers[k].pc.Claimed? && Held(w.workers[k].pc) == Some(id) {
      after := ClaimedIsSent(w, k, id);
      run := [SendEntry(k)];
    } else {
      run, after := SentWhenMarketFrees(w, id);
    }
  }

  lemma CannotBeSent(w: World, run: seq<Action>, id: IntentId)
    requires WorldOk(w) && w.db.killSwitch && SwitchKill(false) !in run && !CanStillBeSent(w, id)
    ensures EntriesFor(After(w, run).calls, id) == EntriesFor(w.calls, id)
  {
    EveryRunKeepsWorld(w, run);
    if id !in w.db.executions {
      KillSwitchQueuesNothing(w, run);
      NoExecutionNoEntry(w, id);
      NoExecutionNoEntry(After(w, run), id);
    } else if !w.db.executions[id].status.Pending? {
      UnsendableForever(w, run, id);
    } else {
      assert RowOk(w.db, id);
      if MarketFrees(w, id) {
        UnavailableForever(w, run, id);
      } else {
        var other :| other != id && Stuck(w, other) && SameMarket(w.db, other, id);
        StuckMarketBlocks(w, run, id, other);
      }
      assert RowOk(After(w, run).db, id);
      NothingSentBefore(w, id);
      NothingSentBefore(After(w, run), id);
    }
  }

  lemma NoExecutionNoEntry(w: World, id: IntentId)
    requires WorldOk(w) && id !in w.db.executions
    ensures EntriesFor(w.calls, id) == 0
  {
    assert IdOk(w, id);
  }

  /** While the kill switch stays on, an entry of an intent can still be sent exactly if a worker has claimed
      it, or it is pending, no execution keeps its market occupied for good, and a worker of its account
      runs or may be started. */
  lemma SentUnderSwitchExactly(w: World, id: IntentId)
    requires WorldOk(w) && w.db.killSwitch
    ensures CanStillBeSent(w, id) <==>
            exists run :: SwitchKill(false) !in run && EntriesFor(After(w, run).calls, id) > EntriesFor(w.calls, id)
  {
    if CanStillBeSent(w, id) {
      NotSentBefore(w, id);
      var run := CanBeSent(w, id);
      assert EntriesFor(After(w, run).calls, id) > EntriesFor(w.calls, id);
    } else {
      forall run | SwitchKill(false) !in run
        ensures EntriesFor(After(w, run).calls, id) == EntriesFor(w.calls, id)
      {
        CannotBeSent(w, run, id);
      }
    }
  }
}
