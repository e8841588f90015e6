/** Exactly which executions can still be sent while the kill switch stays on. */
module Sendability {
  import opened Wrappers
  import opened Domain
  import opened Orders
  import opened Gateway
  import opened Database
  import opened Protocol
  import opened ProtocolInvariant
  import opened ProtocolSteps
  import opened Reachable
  import opened Evolution
  import opened LiveWorker
  import opened KillSwitch

  // ---------- The condition ----------

  /** A worker in this state can still end its execution so that the symbol is free again. */
  predicate Frees(pc: Pc) {
    match pc
    case Claimed(_, _) => true
    case EntrySent(_) => true
    case FillRecorded(_, fill) => fill.size > 0.0
    case ProtectionSent(_, fill) => fill.size > 0.0
    case Closing(_, fill) => fill.size > 0.0
    case CloseSent(_, _) => true
    case _ => false
  }

  ghost predicate FreedBySome(w: World, id: IntentId) {
    exists k :: k in w.workers && Held(w.workers[k].pc) == Some(id) && Frees(w.workers[k].pc)
  }

  /** The execution keeps its market occupied for good. */
  ghost predicate Stuck(w: World, id: IntentId) {
    id in w.db.executions && Active(w.db.executions[id].status) && !FreedBySome(w, id)
  }

  /** No other execution keeps the market of this one occupied for good. */
  ghost predicate MarketFrees(w: World, id: IntentId) {
    forall other | other != id && Stuck(w, other) :: !SameMarket(w.db, other, id)
  }

  predicate Running(pc: Pc) {
    !pc.Down? && !pc.Stopped?
  }

  /** A worker of the account runs or may be started. */
  ghost predicate WorkerAvailable(w: World, account: Account) {
    exists k :: k in w.workers && w.workers[k].account == account
                && (Running(w.workers[k].pc) || UnresolvedIds(w.db, account) == {})
  }

  /** A worker has claimed the execution, or it is pending, its market can become free, and a worker of its
      account is or can be at work. */
  ghost predicate CanStillBeSent(w: World, id: IntentId) {
    || ClaimedBySome(w, id)
    || (&& id in w.db.executions && w.db.executions[id].status.Pending?
        && MarketFrees(w, id)
        && WorkerAvailable(w, w.db.executions[id].account))
  }

  // ---------- Runs with the switch on ----------

  ghost predicate Under(w: World, run: seq<Action>, after: World) {
    After(w, run) == after && SwitchKill(false) !in run
  }

  lemma UnderNothing(w: World)
    ensures Under(w, [], w)
  {
  }

  lemma UnderOne(w: World, action: Action)
    requires action != SwitchKill(false)
    ensures Under(w, [action], Next(w, action))
  {
    assert [action][..0] == [];
  }

  lemma UnderBoth(w: World, first: seq<Action>, second: seq<Action>, middle: World, after: World)
    requires Under(w, first, middle) && Under(middle, second, after)
    ensures Under(w, first + second, after)
  {
    AfterInTwo(w, first, second);
  }

  // ---------- What is stuck stays stuck ----------

  lemma LotsNeedSize(decimals: Option<nat>, size: real)
    requires RoundSize(decimals, size).Ok?
    ensures size > 0.0
  {
    InLotsKeepsSign(-size, decimals.value);
    InLotsOfOpposite(size, decimals.value);
  }

  lemma {:induction false} InLotsOfOpposite(size: real, decimals: nat)
    ensures InLots(-size, decimals) == -InLots(size, decimals)
    decreases decimals
  {
    if decimals > 0 {
      assert 10.0 * -size == -(10.0 * size);
      InLotsOfOpposite(10.0 * size, decimals - 1);
    }
  }

  lemma UnsizedStaysUnfreed(w: World, action: Action, k: WorkerId)
    requires Enabled(w, action) && ActorOf(action) == Some(k) && k in w.workers && !Frees(w.workers[k].pc)
    requires w.workers[k].pc.FillRecorded? || w.workers[k].pc.ProtectionSent? || w.workers[k].pc.Closing?
    requires !action.ProtectionReturns?
    ensures !Frees(PcOf(Next(w, action), k))
  {
    match action
    case SendProtection(_, decimals, _) => LotsNeedSize(decimals, w.workers[k].pc.fill.size);
    case SendClose(_, decimals) => LotsNeedSize(decimals, w.workers[k].pc.fill.size);
    case CloseReturns(_, close) => assert !Frees(PcOf(DoCloseReturns(w, k, close), k));
    case _ =>
  }

  lemma AnswerStaysUnfreed(w: World, k: WorkerId, answer: ProtectionReply)
    requires Enabled(w, ProtectionReturns(k, answer)) && !Frees(w.workers[k].pc)
    ensures !Frees(PcOf(DoProtectionReturns(w, k, answer), k))
  {
  }

  lemma RecordedStaysUnfreed(w: World, action: Action, k: WorkerId)
    requires Enabled(w, action) && ActorOf(action) == Some(k) && k in w.workers
    requires w.workers[k].pc.ProtectionRecorded?
    ensures !Frees(PcOf(Next(w, action), k))
  {
    if action.FinishProtected? {
      assert !Frees(PcOf(DoFinishProtected(w, k), k));
    }
  }

  /** A worker that does not free what it holds never comes to do so. */
  lemma StaysUnfreed(w: World, action: Action, k: WorkerId)
    requires Enabled(w, action) && ActorOf(action) == Some(k) && k in w.workers
    requires Held(w.workers[k].pc).Some? && !Frees(w.workers[k].pc)
    ensures !Frees(PcOf(Next(w, action), k))
  {
    if w.workers[k].pc.ProtectionRecorded? {
      RecordedStaysUnfreed(w, action, k);
    } else if action.ProtectionReturns? {
      AnswerStaysUnfreed(w, k, action.answer);
    } else {
      UnsizedStaysUnfreed(w, action, k);
    }
  }

  /** A fill without lots cannot be closed. */
  lemma UnsizedNeverCloses(w: World, action: Action, k: WorkerId, id: IntentId)
    requires WorldOk(w) && Enabled(w, action) && ActorOf(action) == Some(k) && k in w.workers
    requires w.workers[k].pc.Closing? && Held(w.workers[k].pc) == Some(id) && !Frees(w.workers[k].pc)
    ensures id in Next(w, action).db.executions && Active(Next(w, action).db.executions[id].status)
  {
    var Closing(stored, fill) := w.workers[k].pc;
    assert WorkerAt(w, k);
    match action
    case SendClose(_, decimals) => LotsNeedSize(decimals, fill.size);
    case CloseReturns(_, close) => ClosedMirrors(w, k, w.workers[k].account, stored, fill, close);
    case Crash(_) => assert Next(w, action).db == w.db;
    case _ =>
  }

  lemma HeldIsActive(w: World, k: WorkerId, id: IntentId)
    requires WorldOk(w) && k in w.workers && Held(w.workers[k].pc) == Some(id)
    ensures id in w.db.executions && Active(w.db.executions[id].status)
    ensures w.db.executions[id].account == w.workers[k].account
    ensures w.workers[k].pc.FillRecorded? || w.workers[k].pc.ProtectionSent? || w.workers[k].pc.ProtectionRecorded? ==>
              w.db.executions[id].status.EntryFilled?
  {
    assert WorkerAt(w, k);
  }

  lemma ActorStaysActive(w: World, action: Action, k: WorkerId, id: IntentId)
    requires WorldOk(w) && Enabled(w, action) && ActorOf(action) == Some(k) && k in w.workers
    requires Held(w.workers[k].pc) == Some(id) && !Frees(w.workers[k].pc)
    ensures id in Next(w, action).db.executions && Active(Next(w, action).db.executions[id].status)
  {
    if w.workers[k].pc.Closing? {
      UnsizedNeverCloses(w, action, k, id);
    } else {
      HeldIsActive(w, k, id);
      NextEvolves(w, action, id);
      StaysFilledOrActive(w.db.executions[id], Lookup(Next(w, action).db.executions, id));
    }
  }

  lemma UnfreedStaysActive(w: World, action: Action, k: WorkerId, id: IntentId)
    requires WorldOk(w) && k in w.workers && Held(w.workers[k].pc) == Some(id) && !Frees(w.workers[k].pc)
    ensures id in Next(w, action).db.executions && Active(Next(w, action).db.executions[id].status)
  {
    if Enabled(w, action) && ActorOf(action) == Some(k) {
      ActorStaysActive(w, action, k, id);
    } else {
      OnlyActorMoves(w, action);
      NextKeepsWorld(w, action);
      HeldIsActive(Next(w, action), k, id);
    }
  }

  lemma StaysFilledOrActive(before: LiveExecution, after: Option<LiveExecution>)
    requires before.status.EntryFilled? && ExecutionStep(Some(before), after)
    ensures after.Some? && Active(after.value.status)
  {
  }

  lemma NobodyFrees(w: World, action: Action, id: IntentId)
    requires WorldOk(w) && Stuck(w, id)
    ensures !FreedBySome(Next(w, action), id)
  {
    var after := Next(w, action);
    NextEvolves(w, action, id);
    OnlyActorMoves(w, action);
    forall k | k in after.workers && Held(after.workers[k].pc) == Some(id) ensures !Frees(after.workers[k].pc) {
      assert HeldByClaim(w, action, after, id);
      assert Held(w.workers[k].pc) == Some(id) && !Frees(w.workers[k].pc);
      if Enabled(w, action) && ActorOf(action) == Some(k) {
        StaysUnfreed(w, action, k);
      }
    }
  }

  lemma NextKeepsStuck(w: World, action: Action, id: IntentId)
    requires WorldOk(w) && Stuck(w, id)
    ensures Stuck(Next(w, action), id)
  {
    NobodyFrees(w, action, id);
    if k :| k in w.workers && Held(w.workers[k].pc) == Some(id) {
      assert !Frees(w.workers[k].pc);
      UnfreedStaysActive(w, action, k, id);
    } else {
      NextKeepsAbandoned(w, action, id);
    }
  }

  lemma {:induction false} StuckMarketBlocks(w: World, run: seq<Action>, id: IntentId, other: IntentId)
    requires WorldOk(w) && Stuck(w, other) && SameMarket(w.db, other, id) && w.db.executions[id].status.Pending?
    ensures Stuck(After(w, run), other)
    ensures SameMarket(After(w, run).db, other, id) && After(w, run).db.executions[id].status.Pending?
  {
    if run != [] {
      var init, last := run[..|run| - 1], run[|run| - 1];
      StuckMarketBlocks(w, init, id, other);
      EveryRunKeepsWorld(w, init);
      NextKeepsStuck(After(w, init), last, other);
      Evolution.NextKeepsBlocked(After(w, init), last, other, id);
      RunRemembers(w, run);
    }
  }

  // ---------- Without a worker nothing is claimed ----------

  lemma UnresolvedIsAbandoned(w: World, account: Account, id: IntentId)
    requires WorldOk(w) && !WorkerAvailable(w, account) && id in UnresolvedIds(w.db, account)
    ensures Abandoned(w, id)
  {
    forall k | k in w.workers ensures Held(w.workers[k].pc) != Some(id) {
      if Held(w.workers[k].pc) == Some(id) {
        HeldIsActive(w, k, id);
      }
    }
  }

  lemma StaysDown(w: World, action: Action, k: WorkerId)
    requires k in w.workers && !Running(w.workers[k].pc) && UnresolvedIds(w.db, w.workers[k].account) != {}
    ensures !Running(PcOf(Next(w, action), k))
  {
    OnlyActorMoves(w, action);
  }

  lemma StaysUnresolved(w: World, action: Action, account: Account)
    requires WorldOk(w) && !WorkerAvailable(w, account) && UnresolvedIds(w.db, account) != {}
    ensures UnresolvedIds(Next(w, action).db, account) != {}
  {
    var id :| id in UnresolvedIds(w.db, account);
    UnresolvedIsAbandoned(w, account, id);
    NextKeepsAbandoned(w, action, id);
    assert id in UnresolvedIds(Next(w, action).db, account);
  }

  lemma NextKeepsUnavailable(w: World, action: Action, account: Account)
    requires WorldOk(w) && !WorkerAvailable(w, account)
    ensures !WorkerAvailable(Next(w, action), account)
  {
    var after := Next(w, action);
    NextKeepsAccounts(w, action);
    forall k | k in after.workers && after.workers[k].account == account
      ensures !Running(after.workers[k].pc) && UnresolvedIds(after.db, account) != {}
    {
      assert k in w.workers && !Running(w.workers[k].pc) && UnresolvedIds(w.db, account) != {};
      StaysDown(w, action, k);
      StaysUnresolved(w, action, account);
    }
  }

  lemma NobodyClaims(w: World, action: Action, id: IntentId)
    requires Enabled(w, action) && id in w.db.executions && !WorkerAvailable(w, w.db.executions[id].account)
    ensures !exists k :: action == ClaimNext(k, Some(id)) && k in w.workers && Oldest(w.db, w.workers[k].account, id)
  {
  }

  lemma UnavailableClaimsNothing(w: World, action: Action, after: World, id: IntentId)
    requires WorldOk(w) && StepAt(w, action, after, id)
    requires id in w.db.executions && w.db.executions[id].status.Pending?
    requires Enabled(w, action) && !WorkerAvailable(w, w.db.executions[id].account)
    ensures id in after.db.executions && after.db.executions[id] == w.db.executions[id]
  {
    NoHolder(w, id);
    NobodyClaims(w, action, id);
  }

  lemma {:induction false} UnavailableForever(w: World, run: seq<Action>, id: IntentId)
    requires WorldOk(w) && id in w.db.executions && w.db.executions[id].status.Pending?
    requires !WorkerAvailable(w, w.db.executions[id].account)
    ensures id in After(w, run).db.executions && After(w, run).db.executions[id] == w.db.executions[id]
    ensures !WorkerAvailable(After(w, run), w.db.executions[id].account)
  {
    if run != [] {
      var init, last := run[..|run| - 1], run[|run| - 1];
      UnavailableForever(w, init, id);
      EveryRunKeepsWorld(w, init);
      NextKeepsUnavailable(After(w, init), last, w.db.executions[id].account);
      if Enabled(After(w, init), last) {
        NextEvolves(After(w, init), last, id);
        UnavailableClaimsNothing(After(w, init), last, After(w, run), id);
      }
    }
  }
}
