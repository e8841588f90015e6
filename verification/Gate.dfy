/** How many entries can still be sent once an account is in close-only: the gate is read before an
    execution is claimed, so those already past it are not stopped. */
module Gate {
  import opened Wrappers
  import opened Domain
  import opened Reconciliation
  import opened Database
  import opened Protocol
  import opened ProtocolInvariant
  import opened ProtocolSteps
  import opened Reachable
  import opened Evolution
  import opened Modes

  predicate IsPastGate(pc: Pc) {
    pc.GatePassed? || pc.Claimed?
  }

  /** The workers of an account that are past the gate and have not sent their entry. */
  function PastGate(w: World, account: Account): set<WorkerId> {
    set k | k in w.workers && w.workers[k].account == account && IsPastGate(w.workers[k].pc)
  }

  lemma ReturnsAreNotPastGate(w: World, action: Action)
    requires Enabled(w, action) && IsReturn(action)
    ensures !IsPastGate(PcOf(Effect(w, action), action.worker))
    ensures Effect(w, action).calls == w.calls
  {
    match action
    case EntryReturns(k, reply) => assert !IsPastGate(PcOf(DoEntryReturns(w, k, reply), k));
    case ProtectionReturns(k, reply) => assert !IsPastGate(PcOf(DoProtectionReturns(w, k, reply), k));
    case FinishProtected(k) => assert !IsPastGate(PcOf(DoFinishProtected(w, k), k));
    case CloseReturns(k, reply) => assert !IsPastGate(PcOf(DoCloseReturns(w, k, reply), k));
  }

  lemma ClaimIsPastGate(w: World, k: WorkerId, choice: Option<IntentId>)
    requires Enabled(w, ClaimNext(k, choice))
    ensures IsPastGate(w.workers[k].pc)
    ensures DoClaim(w, k, choice).calls == w.calls
  {
  }

  /** The gate is open to an idle worker exactly if its account is ready and in normal mode, or is not
      reconciled at all. */
  lemma GateIsOpenExactly(w: World, k: WorkerId)
    ensures Enabled(w, PassGate(k)) <==>
            && k in w.workers && w.workers[k].pc == Idle
            && (w.workers[k].account in w.db.reconciliation ==>
                  var row := w.db.reconciliation[w.workers[k].account];
                  row.ready && row.mode == Normal)
  {
  }

  /** Only passing the gate brings a worker past it. */
  lemma OnlyGateLeadsPastGate(w: World, action: Action, k: WorkerId)
    requires IsPastGate(PcOf(Next(w, action), k))
    ensures IsPastGate(PcOf(w, k)) || (action == PassGate(k) && Enabled(w, action))
  {
    OnlyActorMoves(w, action);
    if ActorOf(action) == Some(k) && Enabled(w, action) {
      if IsReturn(action) {
        ReturnsAreNotPastGate(w, action);
      } else if action.ClaimNext? {
        ClaimIsPastGate(w, k, action.choice);
      }
    }
  }

  lemma QuietCalls(w: World, action: Action)
    requires Enabled(w, action) && !action.SendEntry? && !action.SendProtection? && !action.SendClose?
    ensures Effect(w, action).calls == w.calls
  {
    if IsReturn(action) {
      ReturnsAreNotPastGate(w, action);
    } else if action.ClaimNext? {
      ClaimIsPastGate(w, action.worker, action.choice);
    }
  }

  /** Only a claimed execution is sent. */
  lemma NextSends(w: World, action: Action, account: Account)
    ensures EntriesSent(Next(w, action).calls, account) == EntriesSent(w.calls, account)
            + if action.SendEntry? && Enabled(w, action) && w.workers[action.worker].account == account then 1 else 0
  {
    if Enabled(w, action) {
      if action.SendEntry? {
        CallAdded(w.calls, DoSendEntry(w, action.worker).calls[|w.calls|]);
      } else if action.SendProtection? {
        CallAdded(w.calls, DoSendProtection(w, action.worker, action.decimals, action.orders).calls[|w.calls|]);
      } else if action.SendClose? {
        CallAdded(w.calls, DoSendClose(w, action.worker, action.decimals).calls[|w.calls|]);
      } else {
        QuietCalls(w, action);
      }
    }
  }

  /** While entries are blocked no worker passes the gate, and each entry sent is one worker less past
      it. */
  lemma GateStep(w: World, action: Action, account: Account)
    requires EntriesBlocked(w.db, account)
    ensures EntriesSent(Next(w, action).calls, account) + |PastGate(Next(w, action), account)|
            <= EntriesSent(w.calls, account) + |PastGate(w, account)|
  {
    var after := Next(w, action);
    NextSends(w, action, account);
    NextKeepsAccounts(w, action);
    forall k | k in PastGate(after, account) ensures k in PastGate(w, account) {
      OnlyGateLeadsPastGate(w, action, k);
    }
    if action.SendEntry? && Enabled(w, action) && w.workers[action.worker].account == account {
      var k := action.worker;
      assert k in PastGate(w, account) && k !in PastGate(after, account);
      Subset(PastGate(after, account), PastGate(w, account) - {k});
    } else {
      Subset(PastGate(after, account), PastGate(w, account));
    }
  }

  lemma {:induction false} Subset(a: set<WorkerId>, b: set<WorkerId>)
    requires a <= b
    ensures |a| <= |b|
  {
    if a != {} {
      var x :| x in a;
      Subset(a - {x}, b - {x});
    }
  }

  /** No acknowledgement for the account succeeds during the run. */
  ghost predicate NeverRecovers(w: World, run: seq<Action>, account: Account) {
    run == [] || (NeverRecovers(w, run[..|run| - 1], account)
                  && !Recovers(After(w, run[..|run| - 1]), run[|run| - 1], account))
  }

  lemma NextKeepsCloseOnly(w: World, action: Action, account: Account)
    requires WorldOk(w) && IsCloseOnly(w.db, account) && !Recovers(w, action, account)
    ensures IsCloseOnly(Next(w, action).db, account)
  {
    StayStep(w, action, account);
    NextRowOf(w, action, account);
  }

  /** Once an account is in close-only it stays there until an acknowledgement succeeds, and until then
      at most as many entries are sent as workers of the account were past the gate. */
  lemma {:induction false} CloseOnlyBoundsEntries(w: World, run: seq<Action>, account: Account)
    requires WorldOk(w) && IsCloseOnly(w.db, account) && NeverRecovers(w, run, account)
    ensures IsCloseOnly(After(w, run).db, account)
    ensures EntriesSent(After(w, run).calls, account) + |PastGate(After(w, run), account)|
            <= EntriesSent(w.calls, account) + |PastGate(w, account)|
  {
    if run != [] {
      var init, last := run[..|run| - 1], run[|run| - 1];
      CloseOnlyBoundsEntries(w, init, account);
      EveryRunKeepsWorld(w, init);
      NextKeepsCloseOnly(After(w, init), last, account);
      GateStep(After(w, init), last, account);
    }
  }

  // ---------- From a dirty snapshot to the next clean one ----------

  ghost predicate ReportsClean(w: World, action: Action, account: Account) {
    Snapshots(w, action, account) && !Dirty(w.db, action.snapshot)
  }

  /** No clean snapshot of the account is recorded during the run, and no acknowledgement succeeds. */
  ghost predicate NeverReopens(w: World, run: seq<Action>, account: Account) {
    run == [] || (NeverReopens(w, run[..|run| - 1], account)
                  && !ReportsClean(After(w, run[..|run| - 1]), run[|run| - 1], account)
                  && !Recovers(After(w, run[..|run| - 1]), run[|run| - 1], account))
  }

  lemma DirtyRowBlocks(db: Tables, s: AccountSnapshot)
    requires Dirty(db, s)
    ensures var row := NextRow(Lookup(db.reconciliation, s.account), SnapshotDiff(db, s), s);
            !row.ready && !row.mode.Normal?
  {
  }

  lemma RowStaysBlocked(w: World, action: Action, account: Account)
    requires EntriesBlocked(w.db, account) && !ReportsClean(w, action, account) && !Recovers(w, action, account)
    ensures RowAfter(w, action, account).Some?
    ensures var row := RowAfter(w, action, account).value;
            !row.ready || !row.mode.Normal?
  {
    if Snapshots(w, action, account) {
      DirtyRowBlocks(w.db, action.snapshot);
    }
  }

  lemma NextKeepsBlocked(w: World, action: Action, account: Account)
    requires WorldOk(w) && EntriesBlocked(w.db, account)
    requires !ReportsClean(w, action, account) && !Recovers(w, action, account)
    ensures EntriesBlocked(Next(w, action).db, account)
  {
    RowStaysBlocked(w, action, account);
    NextRowOf(w, action, account);
  }

  /** While entries are blocked, for whatever reason and also by a mere halt, they stay blocked until a
      clean snapshot or an acknowledgement, and until then at most as many entries are sent as workers
      were past the gate. */
  lemma {:induction false} BlockedBoundsEntries(w: World, run: seq<Action>, account: Account)
    requires WorldOk(w) && EntriesBlocked(w.db, account) && NeverReopens(w, run, account)
    ensures EntriesBlocked(After(w, run).db, account)
    ensures EntriesSent(After(w, run).calls, account) + |PastGate(After(w, run), account)|
            <= EntriesSent(w.calls, account) + |PastGate(w, account)|
  {
    if run != [] {
      var init, last := run[..|run| - 1], run[|run| - 1];
      BlockedBoundsEntries(w, init, account);
      EveryRunKeepsWorld(w, init);
      NextKeepsBlocked(After(w, init), last, account);
      GateStep(After(w, init), last, account);
    }
  }

  lemma DirtySnapshotBlocks(w: World, action: Action, account: Account)
    requires WorldOk(w) && Snapshots(w, action, account) && Dirty(w.db, action.snapshot)
    ensures EntriesBlocked(Next(w, action).db, account)
    ensures PastGate(Next(w, action), account) == PastGate(w, account)
    ensures Next(w, action).calls == w.calls
  {
    DirtyRowBlocks(w.db, action.snapshot);
    NextRowOf(w, action, account);
    OnlyActorMoves(w, action);
    QuietCalls(w, action);
  }

  /** Any unexplained difference and any unprotected position blocks new entries: from the snapshot that
      shows it to the next clean one only workers that were past the gate send theirs. */
  lemma DirtySnapshotBoundsEntries(w: World, action: Action, run: seq<Action>, account: Account)
    requires WorldOk(w) && Snapshots(w, action, account) && Dirty(w.db, action.snapshot)
    requires NeverReopens(Next(w, action), run, account)
    ensures EntriesSent(After(Next(w, action), run).calls, account)
            <= EntriesSent(w.calls, account) + |PastGate(w, account)|
  {
    NextKeepsWorld(w, action);
    DirtySnapshotBlocks(w, action, account);
    BlockedBoundsEntries(Next(w, action), run, account);
  }

  // ---------- One worker for the account ----------

  ghost predicate OneWorker(w: World, account: Account) {
    forall j, k | j in w.workers && k in w.workers && w.workers[j].account == w.workers[k].account == account :: j == k
  }

  /** With one worker for the account, at most one more entry is sent after it entered close-only for
      whatever reason. */
  lemma AtMostOneMoreEntry(w: World, run: seq<Action>, account: Account)
    requires WorldOk(w) && IsCloseOnly(w.db, account) && NeverRecovers(w, run, account)
    requires OneWorker(w, account)
    ensures EntriesSent(After(w, run).calls, account) <= EntriesSent(w.calls, account) + 1
  {
    CloseOnlyBoundsEntries(w, run, account);
    if k :| k in PastGate(w, account) {
      Subset(PastGate(w, account), {k});
    }
  }

  lemma LockingWorkerIsNotPastGate(w: World, action: Action, account: Account)
    requires WorldOk(w) && Locks(w, action, account) && OneWorker(w, account)
    ensures PastGate(Next(w, action), account) == {}
  {
    var after := Next(w, action);
    NextKeepsAccounts(w, action);
    ReturnsAreNotPastGate(w, action);
    var actor := ActingWorker(action);
    forall k ensures k !in PastGate(after, account) {
      assert k in PastGate(after, account) ==> k == actor;
    }
  }

  /** With one worker for the account, not a single entry is sent after an outcome of that worker
      locked the account, until an acknowledgement succeeds. */
  lemma NoEntryAfterLock(w: World, action: Action, run: seq<Action>, account: Account)
    requires WorldOk(w) && Locks(w, action, account) && OneWorker(w, account)
    requires NeverRecovers(Next(w, action), run, account)
    ensures IsCloseOnly(After(Next(w, action), run).db, account)
    ensures EntriesSent(After(Next(w, action), run).calls, account) == EntriesSent(w.calls, account)
  {
    var locked := Next(w, action);
    NextKeepsWorld(w, action);
    NextRowOf(w, action, account);
    NextSends(w, action, account);
    LockingWorkerIsNotPastGate(w, action, account);
    CloseOnlyBoundsEntries(locked, run, account);
    EntriesOnlyGrow(locked, run, account);
  }

  lemma {:induction false} EntriesOnlyGrow(w: World, run: seq<Action>, account: Account)
    ensures EntriesSent(w.calls, account) <= EntriesSent(After(w, run).calls, account)
  {
    if run != [] {
      EntriesOnlyGrow(w, run[..|run| - 1], account);
      NextSends(After(w, run[..|run| - 1]), run[|run| - 1], account);
    }
  }

  lemma ClaimedInCloseOnly(w: World, k: WorkerId, id: IntentId, account: Account)
    requires WorldOk(w) && IsCloseOnly(w.db, account)
    requires k in w.workers && w.workers[k] == Worker(account, GatePassed) && Oldest(w.db, account, id)
    ensures var claimed := Next(w, ClaimNext(k, Some(id)));
            && IsCloseOnly(claimed.db, account)
            && k in claimed.workers && claimed.workers[k].account == account && claimed.workers[k].pc.Claimed?
            && EntriesSent(claimed.calls, account) == EntriesSent(w.calls, account)
  {
    var claim := ClaimNext(k, Some(id));
    assert Enabled(w, claim) && Next(w, claim) == DoClaim(w, k, Some(id));
    ClaimStep(w, k, id);
    ClaimRows(w, k, Some(id));
    NextKeepsAccounts(w, claim);
    NextSends(w, claim, account);
  }

  /** The bound is met: a worker past the gate sends its entry although the account is in close-only by
      now. */
  lemma WorkerPastGateStillSends(w: World, k: WorkerId, id: IntentId, account: Account)
    requires WorldOk(w) && IsCloseOnly(w.db, account)
    requires k in w.workers && w.workers[k] == Worker(account, GatePassed) && Oldest(w.db, account, id)
    ensures var after := Next(Next(w, ClaimNext(k, Some(id))), SendEntry(k));
            IsCloseOnly(after.db, account) && EntriesSent(after.calls, account) == EntriesSent(w.calls, account) + 1
  {
    var claimed := Next(w, ClaimNext(k, Some(id)));
    ClaimedInCloseOnly(w, k, id, account);
    assert Enabled(claimed, SendEntry(k));
    NextSends(claimed, SendEntry(k), account);
    assert Next(claimed, SendEntry(k)).db == claimed.db;
  }
}
