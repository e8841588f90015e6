/** What is known after crashes and restarts, and what the protocol does not recover from. */
module Restart {
  import opened Wrappers
  import opened Domain
  import opened Orders
  import opened Gateway
  import opened Database
  import opened StoreInvariant
  import opened Protocol
  import opened ProtocolInvariant
  import opened ProtocolSteps
  import opened Reachable
  import opened Evolution
  import opened Safety

  /** The answer to a call is recorded and leaves no doubt: a fill or a definite refusal for an entry, any
      answer for protective orders, a success for an emergency close. */
  predicate DefinitelyAnswered(w: World, call: Call) {
    match call
    case EntryCall(id, _, _, _) =>
      RepliesOf(w, id).entry.Some? && (RepliesOf(w, id).entry.value.Ok? || RepliesOf(w, id).entry.value.error.Definite?)
    case ProtectionCall(id, _, _, _) => RepliesOf(w, id).protection.Some?
    case CloseCall(id, _, _, _, _) => RepliesOf(w, id).close.Some? && RepliesOf(w, id).close.value.Ok?
  }

  lemma SettledMeansAnswered(status: LiveStatus, r: Replies, n: Counts)
    requires AnswersOk(status, r) && CallCountsOk(status, n) && !Unresolved(status)
    ensures n.entries > 0 ==> r.entry.Some? && (r.entry.value.Ok? || r.entry.value.error.Definite?)
    ensures n.protections > 0 && !status.EntryFilled? ==> r.protection.Some?
    ensures n.closes > 0 ==> r.close.Some? && r.close.value.Ok?
  {
  }

  /** Whenever the count of unresolved executions of an account is zero, so whenever one of its workers
      can start, every call ever made for it has a definite recorded outcome, except protective orders
      of an execution that is still recorded as filled. */
  lemma NothingUnresolvedMeansAllAnswered(w: World, account: Account, n: nat)
    requires IsReachable(w) && UnresolvedIds(w.db, account) == {}
    requires n < |w.calls| && w.calls[n].account == account
    ensures w.calls[n].id in w.db.executions
    ensures || DefinitelyAnswered(w, w.calls[n])
            || (w.calls[n].ProtectionCall? && w.db.executions[w.calls[n].id].status.EntryFilled?)
  {
    ReachableOk(w);
    var id := w.calls[n].id;
    assert CallOk(w, w.calls[n]) && IdOk(w, id);
    CountedOnce(w.calls, n);
    assert id !in UnresolvedIds(w.db, account);
    SettledMeansAnswered(w.db.executions[id].status, RepliesOf(w, id), CountsOf(w.calls, id));
  }

  // ---------- Crashes ----------

  /** The worker has recorded a fill, and neither its protection nor the failure of it. */
  predicate AwaitsProtection(pc: Pc) {
    pc.FillRecorded? || pc.ProtectionSent? || pc.ProtectionRecorded?
  }

  lemma HeldUnresolved(w: World, k: WorkerId, id: IntentId)
    requires WorldOk(w) && k in w.workers && Held(w.workers[k].pc) == Some(id)
    ensures id in w.db.executions && w.db.executions[id].account == w.workers[k].account
    ensures AwaitsProtection(w.workers[k].pc) <==> w.db.executions[id].status.EntryFilled?
    ensures AwaitsProtection(w.workers[k].pc) <==> !Unresolved(w.db.executions[id].status)
  {
    assert WorkerAt(w, k);
  }

  /** When a worker crashes, it can start again exactly if no other execution of the account is unresolved
      and it held none or was waiting for protection. A worker that stopped holds none. */
  lemma CrashLocksExactly(w: World, k: WorkerId)
    requires WorldOk(w) && k in w.workers
    ensures var held := Held(w.workers[k].pc);
            var others := UnresolvedIds(w.db, w.workers[k].account) - (if held.Some? then {held.value} else {});
            Enabled(Next(w, Crash(k)), Start(k)) <==>
              others == {} && (held.None? || AwaitsProtection(w.workers[k].pc))
  {
    var held, unresolved := Held(w.workers[k].pc), UnresolvedIds(w.db, w.workers[k].account);
    assert Next(w, Crash(k)) == SetPc(w, k, Down);
    if held.Some? {
      HeldUnresolved(w, k, held.value);
      OneLess(unresolved, held.value);
      assert held.value in unresolved <==> Unresolved(w.db.executions[held.value].status);
    }
  }

  lemma OneLess(ids: set<IntentId>, id: IntentId)
    ensures ids == {} <==> ids - {id} == {} && id !in ids
  {
    if ids - {id} == {} && id !in ids {
      assert ids == ids - {id};
    }
  }

  /** The count does not include executions whose entry is filled. When a worker crashes before it recorded
      the outcome of the protection, or after it stopped because it could not, nothing unresolved keeps it
      from starting, and the execution stays filled and without recorded protection for good. */
  lemma FilledEntryIsForgotten(w: World, k: WorkerId, id: IntentId, later: seq<Action>)
    requires WorldOk(w) && k in w.workers && id in w.db.executions && w.db.executions[id].status.EntryFilled?
    requires Held(w.workers[k].pc) == Some(id) || !HeldBySome(w, id)
    ensures var crashed := Next(w, Crash(k));
            && (Enabled(crashed, Start(k)) <==> UnresolvedIds(w.db, w.workers[k].account) == {})
            && id in After(crashed, later).db.executions
            && After(crashed, later).db.executions[id].status.EntryFilled?
  {
    var crash := Crash(k);
    assert Next(w, crash) == SetPc(w, k, Down);
    if Held(w.workers[k].pc) == Some(id) {
      CrashAbandons(w, k, id);
    } else {
      NextKeepsAbandoned(w, crash, id);
    }
    NextKeepsWorld(w, crash);
    AbandonedForever(Next(w, crash), later, id);
  }

  // ---------- Too many targets ----------

  /** Protection that was sent and verified is recorded exactly if the percentages of the targets did not
      wrap in validation. Otherwise there are more than 256 of them, the role of a target repeats,
      recording fails, and the worker stops; the execution keeps its filled status for good. */
  lemma WrappedTotalStopsTheWorker(w: World, k: WorkerId, statuses: seq<OrderResponse>, later: seq<Action>)
    requires WorldOk(w) && k in w.workers && w.workers[k].pc.ProtectionSent? && EachWaits(statuses)
    ensures var intent := w.workers[k].pc.stored.intent;
            var after := Next(w, ProtectionReturns(k, Ok(statuses)));
            && (PcOf(after, k).Stopped? <==> PercentTotal(intent.exit.takeProfit) >= 0x1_0000)
            && (PcOf(after, k).ProtectionRecorded? <==> PercentTotal(intent.exit.takeProfit) < 0x1_0000)
            && (PcOf(after, k).Stopped? ==>
                  && intent.intentId in After(after, later).db.executions
                  && After(after, later).db.executions[intent.intentId].status.EntryFilled?)
  {
    var id, action := w.workers[k].pc.stored.intent.intentId, ProtectionReturns(k, Ok(statuses));
    SentTargetsWrapExactly(w, k);
    assert Next(w, action) == DoProtectionReturns(w, k, Ok(statuses));
    ProtectionHoldsStep(w, k, Ok(statuses));
    if RolesRunOut(w.workers[k].pc.stored.intent) {
      StoppedAbandons(w, k, id, statuses);
      AbandonedForever(Next(w, action), later, id);
    }
  }

  lemma StoppedAbandons(w: World, k: WorkerId, id: IntentId, statuses: seq<OrderResponse>)
    requires WorldOk(w) && k in w.workers && w.workers[k].pc.ProtectionSent?
    requires w.workers[k].pc.stored.intent.intentId == id
    requires DoProtectionReturns(w, k, Ok(statuses)).workers[k].pc.Stopped?
    ensures var after := DoProtectionReturns(w, k, Ok(statuses));
            Abandoned(after, id) && after.db.executions[id].status.EntryFilled?
  {
    var after := DoProtectionReturns(w, k, Ok(statuses));
    assert WorkerAt(w, k);
    ProtectionKeepsTables(w.db, w.workers[k].pc.stored.intent, w.workers[k].pc.fill);
    ProtectionReturnsMoves(w, k, Ok(statuses));
    forall j | j in after.workers ensures Held(after.workers[j].pc) != Some(id) {
      assert j != k ==> Held(w.workers[j].pc) != Held(w.workers[k].pc);
    }
  }
}
