/** The invariant holds in every reachable world; the safety theorems of the protocol follow from it. */
module Reachable {
  import opened Wrappers
  import opened Domain
  import opened Risk
  import opened Database
  import opened Journal
  import opened StoreInvariant
  import opened Protocol
  import opened ProtocolInvariant
  import opened ProtocolSteps

  lemma InitialOk(accounts: map<WorkerId, Account>, policy: RiskPolicy)
    ensures WorldOk(Initial(accounts, policy))
  {
    assert ProjectionOf(EMPTY) == Replay([]);
  }

  lemma ApiActionKeepsWorld(w: World, action: Action)
    requires WorldOk(w) && Enabled(w, action)
    requires action.Submit? || action.RejectAtConfirmation? || action.ConfirmShadow? || action.ConfirmLive?
    ensures WorldOk(Effect(w, action))
  {
    match action
    case Submit(intent, key, now) => SubmitStep(w, intent, key, now);
    case RejectAtConfirmation(id, _) => RejectStep(w, id, "confirmation_pre_trade_rejected");
    case ConfirmShadow(id, digest, operator, now) => ConfirmShadowStep(w, id, digest, operator, now);
    case ConfirmLive(id, digest, operator, account, now) => ConfirmLiveStep(w, id, digest, operator, account, now);
  }

  lemma KillActionKeepsWorld(w: World, enabled: bool)
    requires WorldOk(w)
    ensures WorldOk(Effect(w, SwitchKill(enabled)))
  {
    KillStep(w, enabled);
  }

  lemma FactActionKeepsWorld(w: World, action: Action)
    requires WorldOk(w) && Enabled(w, action)
    requires action.Configure? || action.LearnHistory? || action.LearnOrderUpdates?
    ensures WorldOk(Effect(w, action))
  {
    match action
    case Configure(account) =>
      ConfigureIsQuiet(w.db, account);
      ReconciliationStep(w, ConfigureAccount(w.db, account), HistoryBackfilled(account));
    case LearnHistory(account, fills, funding) =>
      HistoryIsQuiet(w.db, account, fills, funding);
      ReconciliationStep(w, RecordHistory(w.db, account, fills, funding), HistoryBackfilled(account));
    case LearnOrderUpdates(account, updates) =>
      UpdatesAreQuiet(w.db, account, updates);
      ReconciliationStep(w, RecordOrderUpdates(w.db, account, updates), OrderUpdatesRecorded(account));
  }

  lemma RecoveryActionKeepsWorld(w: World, action: Action)
    requires WorldOk(w) && Enabled(w, action)
    requires action.TakeSnapshot? || action.AcknowledgeRecovery?
    ensures WorldOk(Effect(w, action))
  {
    match action
    case TakeSnapshot(s) =>
      SnapshotIsQuiet(w.db, s);
      ReconciliationStep(w, RecordSnapshot(w.db, s).0, SnapshotRecorded(s.account, s.observedAt));
    case AcknowledgeRecovery(account, reason, operator) =>
      AcknowledgeIsQuiet(w.db, account, reason, operator);
      ReconciliationStep(w, Acknowledge(w.db, account, reason, operator).0,
          RecoveryAcknowledged(account, reason, operator));
  }

  lemma ProcessActionKeepsWorld(w: World, action: Action)
    requires WorldOk(w) && Enabled(w, action)
    requires action.LoadPolicy? || action.Start? || action.Crash? || action.PassGate?
    ensures WorldOk(Effect(w, action))
  {
    ProcessStep(w, Effect(w, action));
  }

  lemma SendActionKeepsWorld(w: World, action: Action)
    requires WorldOk(w) && Enabled(w, action)
    requires action.ClaimNext? || action.SendEntry? || action.SendProtection? || action.SendClose?
    ensures WorldOk(Effect(w, action))
  {
    match action
    case ClaimNext(k, Some(id)) => ClaimStep(w, k, id);
    case ClaimNext(k, None) => ProcessStep(w, SetPc(w, k, Idle));
    case SendEntry(k) => SendEntryStep(w, k);
    case SendProtection(k, decimals, orders) => SendProtectionStep(w, k, decimals, orders);
    case SendClose(k, decimals) => SendCloseStep(w, k, decimals);
  }

  lemma ReturnActionKeepsWorld(w: World, action: Action)
    requires WorldOk(w) && Enabled(w, action)
    requires action.EntryReturns? || action.ProtectionReturns? || action.FinishProtected? || action.CloseReturns?
    ensures WorldOk(Effect(w, action))
  {
    match action
    case EntryReturns(k, Ok(fill)) => FillRecordedStep(w, k, fill);
    case EntryReturns(k, Err(failure)) => EntryFailsStep(w, k, Err(failure));
    case ProtectionReturns(k, Ok(statuses)) => ProtectionHoldsStep(w, k, Ok(statuses));
    case ProtectionReturns(k, Err(failure)) => ProtectionFailsStep(w, k, Err(failure));
    case FinishProtected(k) => FinishProtectedStep(w, k);
    case CloseReturns(k, reply) => CloseReturnsStep(w, k, reply);
  }

  lemma ServiceActionKeepsWorld(w: World, action: Action)
    requires WorldOk(w) && Enabled(w, action)
    requires || action.SwitchKill? || action.Configure? || action.TakeSnapshot? || action.AcknowledgeRecovery?
             || action.LearnHistory? || action.LearnOrderUpdates?
    ensures WorldOk(Effect(w, action))
  {
    if action.SwitchKill? {
      KillActionKeepsWorld(w, action.enabled);
    } else if action.TakeSnapshot? || action.AcknowledgeRecovery? {
      RecoveryActionKeepsWorld(w, action);
    } else {
      FactActionKeepsWorld(w, action);
    }
  }

  /** Every action, enabled or not, keeps the invariant. */
  lemma NextKeepsWorld(w: World, action: Action)
    requires WorldOk(w)
    ensures WorldOk(Next(w, action))
  {
    if Enabled(w, action) {
      if action.Submit? || action.RejectAtConfirmation? || action.ConfirmShadow? || action.ConfirmLive? {
        ApiActionKeepsWorld(w, action);
      } else if action.LoadPolicy? || action.Start? || action.Crash? || action.PassGate? {
        ProcessActionKeepsWorld(w, action);
      } else if action.ClaimNext? || action.SendEntry? || action.SendProtection? || action.SendClose? {
        SendActionKeepsWorld(w, action);
      } else if action.EntryReturns? || action.ProtectionReturns? || action.FinishProtected? || action.CloseReturns? {
        ReturnActionKeepsWorld(w, action);
      } else {
        ServiceActionKeepsWorld(w, action);
      }
    }
  }

  /** Over every run, with any number of workers, crashes and restarts. */
  lemma {:induction false} EveryRunKeepsWorld(w: World, run: seq<Action>)
    requires WorldOk(w)
    ensures WorldOk(After(w, run))
  {
    if run != [] {
      EveryRunKeepsWorld(w, run[..|run| - 1]);
      NextKeepsWorld(After(w, run[..|run| - 1]), run[|run| - 1]);
    }
  }
}
