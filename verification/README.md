# Verified model of the trade execution service

The service takes trade intents from strategies, sizes and confirms them, sends each entry to the
exchange at most once, protects what was filled, and compares the account with an authoritative
snapshot of the exchange. Four kinds of actors work on one transactional store: the HTTP API, a worker
for each account, the snapshot service and an operator. Any worker can crash at any point.

The model follows that structure.

- `Domain`, `Risk`, `Orders`, `Coverage` hold the pure parts: intent validation and lifecycle,
  admission control, order roles and client order ids, stop coverage. `Gateway` and `Fills` hold the
  gateway's sizing, its reading of responses, its protection check and its fill aggregation; what the
  exchange answers is a parameter.
- `Database` defines the tables and, transaction by transaction, what the store does to them.
  `Store.ExecutionStore` is the store as the program has it: an object whose methods work on a
  transaction and commit or roll back, proved equal to those definitions. `Engine` and `LiveWorker`
  hold the objects that call it, `Reconciliation` the comparison with a snapshot, `Journal` the event
  journal.
- `Protocol` is the state machine of the whole service. A world is the store, the program counter of
  every worker, the policy in force and the history of gateway calls and answers. An action is one
  transaction, one gateway call (entry, protective orders or emergency close, with their sizes and
  ids), one answer (success, definite failure or unknown outcome, chosen freely), a crash, a start or a
  policy reload. The gate and the claim of a worker are two actions. Theorems quantify over all runs,
  that is over all finite sequences of actions.
- `StoreInvariant`, `ProtocolInvariant`, `ProtectionLedger`, `ProtocolSteps` and `Reachable` prove one
  invariant, `WorldOk`, for every reachable world. `Evolution`, `Modes`, `NormalMode`, `Discrepancies`,
  `Gate`, `Safety`, `Restart`, `Requests`, `KillSwitch`, `Sendability` and `SendingRuns` draw the
  consequences. `Scenarios` gives runs from the empty store that reach what the limits below speak
  about.

What the model shows beyond the intended guarantees, where code and documentation differ or a promise
has a limit. Each is a theorem with its exact condition.

- `ROADMAP.md:94` asks that a restart restores protection. The count that locks the worker at start
  (`src/store.rs:860-877`) does not include `entry_filled`: a crash between recording a fill and
  recording the outcome of its protection, or after the worker stopped because it could not record it,
  leaves the execution filled for good, and the worker can start (`Restart.CrashLocksExactly`,
  `Restart.FilledEntryIsForgotten`, `Scenarios.CrashOverFillIsReachable`).
- Once an execution is protected, its account and symbol stay occupied for good, because nothing moves
  it any more (`Evolution.BlockedForever`); in the same way an unresolved execution locks the workers
  of its account for good (`Evolution.LockedForever`).
- The percentages of the targets are added in sixteen bits. A validated intent totals 100 if and only if
  the true sum fits (`Domain.ValidatedPercentTotal`), and from 258 targets on it can wrap. The legs sent
  for a fill exceed the stop if and only if it wrapped (`Safety.ProtectionFitsExactly`).
- `ROADMAP.md:77` asks that no code path submits twice for one client order id. Target roles carry an
  eight-bit index, so all ids ever sent are distinct if and only if no protection of more than 256
  targets was sent (`Safety.ClientOrderIdsDistinctExactly`), which takes a wrapped sum. Such a
  protection can be sent, and recording it stops the worker (`Restart.WrappedTotalStopsTheWorker`,
  `Scenarios.RepeatedIdsAreReachable`, `Scenarios.StoppedWorkerIsReachable`).
- The stop is truncated to whole lots but checked against the exact fill, so a fill that is not a whole
  number of lots can never be verified as protected and is closed again (`Gateway.SentStopIsVerified`).
- Only the stop is verified, and a response is accepted whatever number of statuses it lists. For every
  protection that held, every order sent was taken if and only if the response lists one more status
  than there are targets, which `src/live_gateway.rs:391-404` does not ask
  (`Safety.HeldProtectionIsTakenExactly`). A protected execution records all of them as open either
  way (`Safety.ProtectedRecordsOrdersAsOpen`, `Scenarios.UntakenTargetIsReachable`).
- An emergency close is accepted with a fill of any size. An execution that is recorded as closed leaves
  nothing open if and only if the reported size covers the entry, for a close filled as sent if and only
  if the entry is a whole number of lots (`Safety.ClosedLeavesNothingOpenExactly`,
  `Scenarios.PartialCloseIsReachable`).
- A policy loaded after admission decides whether the intent may be confirmed, but the entry is sent
  with the notional of the admission (`Requests.NotionalOutlivesPolicy`,
  `Scenarios.OldNotionalIsReachable`).
- The kill switch stops admission and confirmation, not executions that are queued already. While it
  stays on, an entry can still be sent if and only if a worker has claimed it, or it is pending, no
  execution occupies its account and symbol for good, and a worker of the account runs or may be
  started (`SendingRuns.SentUnderSwitchExactly`, `Scenarios.EntryUnderKillSwitchIsReachable`).
- An account can be in close-only while the entry of a worker past the gate is still sent; the bound of
  one per such worker is reached (`Gate.WorkerPastGateStillSends`,
  `Scenarios.EntryInCloseOnlyIsReachable`).

## Model

| member | source | states |
|---|---|---|
| Safety.EntriesAreSentOnce | src/live_execution.rs:110-131 | in every reachable world, two entry calls never concern the same intent, nor the same signal of the same strategy instance on the same account, whatever crashes, restarts and workers interleaved |
| Safety.ClientOrderIdsDistinctExactly | ROADMAP.md:77 | in every reachable world all client order ids ever sent, of entries, stops, targets and emergency closes, are pairwise distinct if and only if no protection of more than 256 targets was sent |
| Safety.ProtectionIsSentOnce | src/live_execution.rs:158-187 | protective orders, and an emergency close, are sent at most once for an intent over every run |
| Safety.ProtectionFitsExactly | src/live_gateway.rs:95-117 | the targets ever sent for a fill allocate no more than its stop if and only if the percentages did not wrap in validation, and then fall short by less than a lot each |
| Safety.ClosedLeavesNothingOpenExactly | src/store.rs:1040-1051 | a closed execution was closed by one sent order of the truncated size; when that was filled as sent, nothing is left open if and only if the entry is a whole number of lots, and in general the reported size decides |
| Safety.HeldProtectionIsTakenExactly | src/live_gateway.rs:391-423 | for every protection that held, in every reachable world, exactly the sent orders with a status in the response were taken; all of them if and only if it lists one more status than there are targets |
| Safety.ProtectedRecordsOrdersAsOpen | src/store.rs:984-1010 | a protected execution records every order that was sent as open, so that is right of all of them if and only if the response listed one more status than there are targets |
| Safety.ClaimPrecedesCall | src/store.rs:821-848 | the attempt counter is 0 exactly while pending and 1 afterwards, and an entry is sent at most that often |
| Safety.StatusesArePaired | src/store.rs:1823-1867 | every execution has its intent, in the one status that belongs to its own |
| Safety.WorkersNeverFail | src/live_execution.rs:122-126 | the missing-notional panic is unreachable and no compare-and-set of a worker ever fails; a worker stops only over more than 256 targets whose percentages wrapped in validation |
| Safety.OneActivePerMarket | src/store.rs:802-819 | at most one execution of an account and symbol is outside pending, closed and failed |
| Safety.JournalRebuildsState | ROADMAP.md:37 | folding the journal from cursor zero gives exactly the status of every intent and execution and the kill switch |
| Safety.JournalOnlyGrows | src/store.rs:2068-2087 | along a run the journal is only appended to, which is what a paging client relies on |
| Safety.EntriesCarryTheApprovedNotional | src/engine.rs:71-96 | every entry sent carries the notional of its admission, which is positive, feasible under intent and policy, the largest such amount, and bound by the digest an operator confirmed |
| Safety.ProtectedMeansCovered | src/store.rs:968-1021 | a protected execution has a ledger of exactly the filled entry, one stop for the whole fill and one order per target in distinct roles, and the sizes of the targets add up to the fill |
| Safety.FillsAreRecordedExactly | src/store.rs:910-953 | an intent has orders in the ledger if and only if the gateway confirmed a fill, and then the entry with the size, price and order id confirmed |
| Safety.RunOnceEnds | src/live_execution.rs:127-187 | a pass that ends for a claimed execution leaves it protected, failed, of unknown entry, closed or in need of reconciliation, the last three together with close-only |
| Safety.OutcomesAreRecorded | src/live_execution.rs:127-187 | what each answer of the exchange makes of execution, intent and reconciliation state, with the reason recorded: refused, unknown, unprotected, protected, closed and close of unknown outcome |
| Gate.CloseOnlyBoundsEntries | src/live_execution.rs:110-131 | from close-only on, until an acknowledgement succeeds, the mode stays and at most as many entries are sent as workers were past the gate |
| Gate.AtMostOneMoreEntry | src/store.rs:1353-1385 | with one worker for the account, a close-only raised by a snapshot lets at most one more entry through |
| Gate.BlockedBoundsEntries | src/live_execution.rs:110-131 | the same from any blocked state, a mere halt included, until a clean snapshot or an acknowledgement |
| Gate.DirtySnapshotBoundsEntries | ROADMAP.md:93 | from a snapshot with an unexplained difference or an unprotected position to the next clean one, at most the workers that were past the gate send their entries |
| Gate.NoEntryAfterLock | src/store.rs:1099-1111 | with one worker for the account, no entry at all is sent after an outcome of the worker locked it, until an acknowledgement succeeds |
| Gate.WorkerPastGateStillSends | src/live_execution.rs:111-118 | the bound of one entry is reached, because gate and claim are separate |
| Gate.OnlyGateLeadsPastGate | src/live_execution.rs:111-115 | nothing but a read of an open gate brings a worker past it |
| Gate.GateIsOpenExactly | src/live_execution.rs:111-115 | the gate is open to an idle worker if and only if its account is ready and in normal mode, or has no reconciliation state |
| Gate.NextSends | src/live_execution.rs:127-131 | an entry is sent for an account only by a worker of that account with a claimed execution |
| Modes.NextRowOf | src/store.rs:1071-1114 | exactly snapshots of the account, locking outcomes of its workers, successful acknowledgements and the first configuration change its reconciliation state, and how |
| Modes.StreakCountsCleanSnapshots | src/store.rs:1362-1368 | over every run, the streak in close-only is the number of clean snapshots since the last dirty snapshot or lock (saturating), and zero in other modes |
| Modes.OnlyAcknowledgementEndsCloseOnly | src/store.rs:1498-1543 | an action ends close-only if and only if it is an acknowledgement with the current reason after at least three clean snapshots since the last dirty one or lock |
| NormalMode.EveryRunJustifiesModes | src/store.rs:1347-1412 | normal, ready and no reason code are the same; each, like a positive streak, means that the latest snapshot was clean; the book still holds what that snapshot stored, and projected orders have a recorded origin |
| NormalMode.NormalMeansProtected | src/mainnet_read.rs:458-499 | in normal mode the last snapshot kept shows every open position fully stop-covered, by at least one stop of its own coin, and the projected positions agree with it |
| NormalMode.WindowFollowsSnapshots | src/store.rs:1233-1241 | over every run, the window of explanation starts at the latest recorded snapshot, clean or not, and exactly the first snapshot of an account is a baseline |
| NormalMode.ConfirmableMeansProtectedAndFlat | src/engine.rs:134-195 | when the engine's checks pass, the latest snapshot is at most twenty seconds old, fully protected by stops of the right coins, and flat in the symbol |
| NormalMode.NextBookOf | src/store.rs:1598-1726 | only snapshots and newly learnt facts change the projections and facts of an account |
| Restart.NothingUnresolvedMeansAllAnswered | src/store.rs:860-877 | when no execution of an account is unresolved, every call ever made for it has a definite recorded answer, except protective orders of an execution still recorded as filled |
| Restart.CrashLocksExactly | src/main.rs:90-96 | after a crash, whatever its state, a worker can start if and only if no other execution of the account is unresolved and it held none, a stopped worker included, or was waiting for protection |
| Restart.FilledEntryIsForgotten | src/store.rs:860-877 | an execution recorded as filled, held by the worker that crashes or by nobody, does not keep the worker from starting and stays filled forever |
| Restart.WrappedTotalStopsTheWorker | src/store.rs:995-1010 | recording protection that was sent and verified stops the worker if and only if the percentages wrapped in validation, and then the execution stays filled forever |
| Requests.RepeatedSubmission | src/store.rs:466-490 | an admitted request is answered from the store at any later time and changes nothing; its key refuses other intents and its signal admits nothing else |
| Requests.RequestIsAnswered | src/store.rs:466-510 | each request is answered in one of five ways, and which one: replay, conflict of the key, known id, known signal, or admission, which alone changes anything |
| Requests.AdmissionOutcome | src/engine.rs:71-96 | an admitted request is rejected at once if and only if the kill switch is on or the policy refuses, and otherwise awaits a confirmation that binds intent and decision and lapses with the intent or after two minutes, whichever is earlier |
| Requests.ShadowConfirmationSettles | src/store.rs:610-706 | a shadow confirmation changes the tables if and only if the intent awaits that digest; it accepts if and only if in time with the kill switch off, naming operator and time, and rejects for good otherwise, with the reason |
| Requests.RefusalsExactly | src/store.rs:625-645 | what both confirmations answer when they settle or queue nothing |
| Requests.ShadowConfirmationRepeats | src/store.rs:625-645 | a settled intent is changed by no further confirmation, and an accepted one is answered the same |
| Requests.LiveConfirmationRepeats | src/store.rs:708-735 | over every run, a live confirmation that queued an intent is answered the same when repeated, by whomever, if and only if the execution is still pending, and afterwards that nothing awaits confirmation; it changes nothing |
| Requests.ConfirmedOnce | src/store.rs:708-790 | once an intent is queued, no confirmation changes anything any more |
| Requests.QueuedExactly | src/engine.rs:98-132 | an execution comes into being if and only if a live confirmation presents the digest of an intent that is still valid, approved by the policy in force, awaiting confirmation and in time, with the kill switch off |
| Requests.ApiChecksExactly | src/engine.rs:98-132 | valid requests are submitted; a valid intent is confirmed while the policy in force approves it and rejected by a confirmation while it does not |
| KillSwitch.KillSwitchBoundsEntries | src/store.rs:739-746 | while the kill switch is on, an entry is sent only for an execution that was pending, or claimed by a worker that had not sent it |
| KillSwitch.OldestIsSentAnyway | src/live_execution.rs:110-131 | with the kill switch on, a worker in front of an open gate passes it, claims the oldest pending execution whose symbol is free, and sends it |
| KillSwitch.ClaimedIsSentAnyway | src/live_execution.rs:127-131 | and a worker that has claimed an execution sends it |
| KillSwitch.UnsendableForever | src/store.rs:802-830 | what is neither pending nor claimed by a worker is never sent again |
| SendingRuns.SentUnderSwitchExactly | src/live_execution.rs:110-131 | while the kill switch stays on, some run sends an entry of an intent if and only if a worker has claimed it, or it is pending, no execution occupies its market for good, and a worker of its account runs or may be started |
| SendingRuns.GateOpens | src/store.rs:1498-1543 | from any state of an account, some snapshots, learnt fills and an acknowledgement open its gate, and change no execution |
| SendingRuns.SentFromIdle | src/store.rs:802-819 | an idle worker can send every pending execution of its account whose market is free, however many are older |
| Sendability.StuckMarketBlocks | src/store.rs:812-815 | an execution that no worker can end any more keeps every pending one of its market pending in every run |
| Sendability.UnavailableForever | src/main.rs:90-96 | an account without a running worker and with an unresolved execution keeps every pending execution pending in every run |
| KillSwitch.KillSwitchQueuesNothing | src/store.rs:492-510 | while the kill switch is on, no execution is created |
| Requests.NotionalOutlivesPolicy | src/engine.rs:98-132 | the entry carries the notional of the admission policy; it is feasible under another approving policy if and only if that one approves at least as much |
| Evolution.NextEvolves | src/store.rs:1823-1867 | every step moves statuses forward along the lifecycle; executions are queued only by a timely, matching confirmation with the kill switch off, moved only by the worker that claimed them, and held only through a claim |
| Evolution.NothingGoesBack | src/store.rs:821-830 | along every run an execution never disappears, never returns to an earlier status and never leaves a final one |
| Evolution.RunRemembers | src/store.rs:511-560 | over every run stored intents, decisions, digests, keys and accounts are kept and the journal is extended |
| Evolution.ConfirmLiveQueuesExactly | src/store.rs:708-790 | a live confirmation queues an intent if and only if it awaits confirmation, the digest matches, neither expiry has passed, the kill switch is off and nothing is queued; otherwise nothing changes |
| Evolution.AbandonedForever | src/live_execution.rs:116-120 | an execution past its claim that no worker holds never changes again |
| Evolution.FinalIsAbandoned | src/live_execution.rs:127-187 | no worker holds an execution that is protected, closed, failed, of unknown entry or in need of reconciliation |
| Evolution.CrashAbandons | src/main.rs:104-116 | a crash abandons what the worker held |
| Evolution.BlockedForever | src/store.rs:812-815 | an abandoned active execution keeps all pending ones of its account and symbol pending in every continuation |
| Evolution.LockedForever | src/main.rs:90-96 | an abandoned unresolved execution keeps every worker of its account from starting in every continuation |
| Reachable.EveryRunKeepsWorld | src/store.rs:792-850 | the invariant of store, workers and calls survives every run of every interleaving |
| Reachable.NextKeepsWorld | src/live_execution.rs:110-189 | every single action, with every possible answer, keeps the invariant |
| StoreInvariant.MoveKeepsTables | src/store.rs:1823-1867 | a paired outcome always succeeds from its status, and keeps pairing, exclusivity, signals, index and replay |
| StoreInvariant.ClaimKeepsTables | src/store.rs:792-850 | claiming an unblocked pending execution succeeds and keeps the same |
| StoreInvariant.SubmitKeepsTables | src/store.rs:466-560 | so does admission |
| StoreInvariant.ConfirmLiveKeepsTables | src/store.rs:708-790 | so does live confirmation, and what it queues carries the digest presented and the operator |
| StoreInvariant.ConfirmShadowKeepsTables | src/store.rs:610-706 | so does shadow confirmation with its persisted rejections |
| ProtocolSteps.ProtectionHoldsStep | src/live_execution.rs:163-166 | after verified protection the worker goes on if and only if the roles suffice |
| ProtectionLedger.InsertProtectionExact | src/store.rs:984-1010 | protective orders fit over a filled entry if and only if there are at most 256 targets, and then the ledger is exactly entry, stop and targets |
| ProtectionLedger.ProtectedLedgerClosesTheFill | src/store.rs:984-1010 | in a protected ledger the stop closes the whole fill and the requested sizes of the targets add up to it |
| LiveWorker.LiveExecutionWorker.RunOnce | src/live_execution.rs:110-146 | one pass is a run of the protocol by this worker alone; it returns false exactly when the gate is closed or every pending execution is blocked, and otherwise the oldest free execution ends as the positions, responses, readings and polls of the exchange determine |
| LiveWorker.LiveExecutionWorker.HandleFill | src/live_execution.rs:148-189 | a fill ends protected, closed or in need of reconciliation as placement, polls and close response determine; protective orders are sent if and only if they can be sized, an emergency close if and only if protection failed and a lot is left; it fails if and only if wrapped targets are to be recorded |
| Store.ExecutionStore.SubmitShadowIntent | src/store.rs:466-560 | the method computes the admission transaction of the tables |
| Store.ExecutionStore.TransitionIntent | src/store.rs:562-608 | a legal move changes status and reason of one row and appends its event, and anything else changes nothing; the journal still replays |
| Store.ExecutionStore.ConfirmIntent | src/store.rs:610-706 | the method computes the shadow confirmation, including rejections that are committed although it fails |
| Store.ExecutionStore.ConfirmIntentForExecution | src/store.rs:708-790 | the method computes the live confirmation, which leaves no trace when it fails |
| Store.ExecutionStore.ClaimNextLiveExecution | src/store.rs:792-850 | the oldest free execution is claimed: pending, of the account, with no other execution of the same account and symbol that is anything but pending, closed or failed; none is claimed if and only if none is free |
| Database.ClaimableExactly | src/store.rs:802-819 | the existence test of the query comes to exactly that condition on accounts, statuses and symbols |
| Database.OldestExactly | src/store.rs:802-819 | what may be claimed next is a free execution than which no free one of the account is older |
| Database.OtherMarketsNeverBlock | src/store.rs:812-815 | what happens to an execution of another symbol or account, or whether it exists, never decides whether an execution can be claimed |
| Database.ClaimExactly | src/store.rs:821-848 | a claim succeeds if and only if the intent is approved, counts the attempt, moves the two statuses and changes nothing else |
| Store.ExecutionStore.UnresolvedLiveExecutionCount | src/store.rs:860-877 | counts exactly the executions of the account that are submitting, of unknown entry, closing or in need of reconciliation; zero if and only if there are none |
| Store.ExecutionStore.FinishLiveTransition | src/store.rs:1071-1114 | moves execution and intent together, or neither, and locks the account in the same transaction |
| Store.ExecutionStore.RecordLiveEntryFill | src/store.rs:910-953 | records the filled entry and moves both statuses, or leaves everything |
| Store.ExecutionStore.RecordLiveProtectionOrders | src/store.rs:968-1021 | the loop records stop and targets, or nothing when a role repeats |
| Store.ExecutionStore.SetKillSwitch | src/store.rs:1173-1197 | nothing stored or queued changes, the invariant of the tables is kept, and the journal replays to the value set |
| Store.ExecutionStore.RecordMainnetSnapshot | src/store.rs:1211-1470 | three loops compute the comparison; the account is in normal mode afterwards if and only if it was not in close-only, every position is covered, every open order is projected or updated in the window, and every projected position is as shown or has a fill of its own coin in the window |
| Store.ExecutionStore.RecordMainnetHistory | src/store.rs:1598-1664 | fills and funding payments are added as sets; it is journalled if and only if one of either is new |
| Store.ExecutionStore.RecordMainnetOrderUpdates | src/store.rs:1666-1726 | order updates likewise |
| Store.ExecutionStore.ConfigureMainnetAccount | src/store.rs:1472-1485 | a new account starts with entries blocked and not in close-only, a known one and all others are left alone; no account is opened |
| Store.ExecutionStore.AcknowledgeReconciliationRecovery | src/store.rs:1498-1543 | recovery needs close-only, the current reason and eligibility, checked in this order |
| Store.ReconcileOrders | src/store.rs:1242-1275 | the loop over open orders computes the order difference |
| Store.ReconcileListedPositions | src/store.rs:1282-1319 | the loop over positions computes the difference of the listed coins |
| Store.ReconcileVanishedPositions | src/store.rs:1320-1346 | the loop over prior coins, in any order, computes the difference of the unlisted coins |
| Store.InsertOrIgnore | src/store.rs:1612-1634 | the insertion loop adds exactly the rows that are new, and counts them |
| Reconciliation.DiffOrdersExact | src/store.rs:1243-1275 | for any list, exactly the open orders that are not projected and have no update of their own in the window are unexplained and left out; all others are projected with the right coin and origin |
| Reconciliation.OtherOrdersExplainNothing | src/store.rs:1244-1255 | projections and updates of other orders never change whether an order is unexplained |
| Reconciliation.PositionsExact | src/store.rs:1276-1346 | with distinct coins, the unexplained coins are exactly the projected ones of which the snapshot shows another size while no fill of that coin lies in the window; they keep their row, all others agree with the snapshot |
| Reconciliation.OtherCoinsExplainNothing | src/store.rs:1294-1303 | fills, projections and positions of other coins never change whether a coin is unexplained |
| Reconciliation.ProvenanceKept | src/store.rs:1250-1275 | a comparison never projects an order without baseline or recorded update |
| Reconciliation.RepeatedSnapshotIsStable | src/store.rs:1233-1346 | the same positions and orders recorded again without new facts give the same unexplained items and the same projections |
| Discrepancies.DiscrepancyNeverClearsByItself | src/store.rs:1233-1412 | along every run that shows the same positions and orders at later times and brings no new fact about the one order or coin that is unexplained, it keeps the account out of normal mode and its streak at zero, whatever is learnt about others and whatever workers and operator do |
| Discrepancies.UnexplainedSnapshotIsStuck | src/store.rs:1242-1346 | every snapshot that reports an order or a position leads there, for each of them |
| Reconciliation.BaselineExplainsEverything | src/store.rs:1256-1303 | the baseline has no unexplained order or position |
| Reconciliation.HaltLastsOnePoll | src/store.rs:1386-1412 | a snapshot taken while entries are halted leads to normal, if and only if it is clean, or to close-only, never to another halt |
| Reconciliation.ModeAfterSnapshot | src/store.rs:1347-1412 | the mode after a snapshot, in both directions: when close-only, when halted, when normal |
| Reconciliation.ReasonAfterSnapshot | src/store.rs:1376-1412 | the reason an operator has to acknowledge after a snapshot, in both directions |
| Reconciliation.NormalAfterSnapshotExactly | src/store.rs:1233-1412 | the condition for normal mode after a snapshot, in terms of the rows, facts and positions compared |
| Reconciliation.SnapshotsAreRetained | src/store.rs:1439-1446 | the latest thousand snapshots of an account are kept, in order |
| Reconciliation.NextRowConsistent | src/store.rs:1369-1412 | every snapshot keeps mode, readiness, reason and streak consistent |
| Coverage.CoverageIsComplete | src/mainnet_read.rs:458-499 | all coverage rows are covered if and only if stops on the loss side add up to at least every position that is not flat |
| Coverage.CoverageRowMeaning | src/mainnet_read.rs:458-499 | a row is covered if and only if the stops close the position, its size is what they close, and its reason says why not |
| Coverage.OrderCountsExactly | src/mainnet_read.rs:468-515 | an open order adds its size to the cover of a position if and only if it is a reduce-only trigger of the same coin, on the closing side, with a trigger price on the loss side of the mid or else the entry price; it changes nothing otherwise |
| Coverage.ForeignOrdersNeverCount | src/mainnet_read.rs:501-515 | orders of other coins, orders that can open a position and orders without a trigger never change the row of a position |
| Coverage.ProtectionNeedsAStop | src/mainnet_read.rs:458-515 | a position counts as protected only with at least one stop of its own |
| Coverage.StopSizeMonotone | src/mainnet_read.rs:468-480 | coverage does not depend on the order of the open orders, and further orders never lower it |
| Coverage.ProfitSideNeverCounts | src/mainnet_read.rs:501-515 | a trigger at or beyond the profit side of the reference price never counts |
| Gateway.VerifyProtection | src/live_gateway.rs:252-295 | succeeds if and only if some poll before the first failed one shows a reduce-only trigger with the client order id of the stop of this intent, on its symbol and closing side, for at least the fill; refutes it if and only if all five polls are read without one |
| Gateway.OnlyTheOwnStopVerifies | src/live_gateway.rs:280-290 | orders without a client order id, orders sent for other intents and the other orders of the same intent never verify protection, however many are open |
| Gateway.EstablishProtection | src/live_gateway.rs:90-125 | protection holds if and only if every size leaves a lot, the request is answered, every listed status waits and the stop is seen; it failed for certain if and only if a size is too small, the exchange rejected an order or five polls show no stop |
| Gateway.AllAcceptedExactly | src/live_gateway.rs:391-423 | a response is accepted if and only if all its statuses, possibly none, wait; it is a definite refusal if and only if the request or an order was rejected |
| Gateway.TargetsAreNeverVerified | src/live_gateway.rs:252-290 | protection that holds with some statuses holds with any number of the last ones left out, down to none |
| Gateway.OrdersTakenExactly | src/live_gateway.rs:391-404 | of accepted protective orders exactly those with a status were taken, and all of them if and only if the response lists one more status than there are targets |
| Gateway.ProtectiveOrders | src/live_gateway.rs:95-117 | the orders are a stop for the whole fill and one reduce-only order per target, or none if a size rounds to zero |
| Gateway.LegsNeverOverAllocate | src/live_gateway.rs:104-116 | for any percentages totalling 100, the truncated legs never exceed the truncated stop and fall short of it by less than one lot per leg |
| Gateway.SentProtectionFits | src/live_gateway.rs:90-117 | the same for the orders actually sent, for any number of size decimals |
| Gateway.RoundSizeExactly | src/live_gateway.rs:162-184 | a size is sent as the whole lots that it contains, and is refused if and only if the asset is unknown or it contains no lot |
| Gateway.InLotsExactly | src/live_gateway.rs:175-184 | a unit of an asset has ten to the power of its size decimals lots |
| Gateway.TruncationIsIdentityOnLots | src/live_gateway.rs:175-184 | truncation is the identity on whole lots, so the stop covers a fill in whole lots |
| Gateway.SentStopIsVerified | src/live_gateway.rs:90-101 | the stop that is sent passes the protection check, as the exchange shows it, if and only if the fill is a whole number of lots |
| Gateway.VerifiedMeansCovered | src/live_gateway.rs:252-290 | what the gateway verifies is what the snapshot service counts, if the trigger is on the loss side of the mid, whatever other orders are open |
| Gateway.EmergencyCloseExactly | src/live_gateway.rs:127-160 | a close succeeds with a fill if and only if its size leaves a lot, the request is answered and that fill is its one status; it failed for certain if and only if nothing could be sent or the exchange said so |
| Gateway.CloseFilledAsSent | src/live_gateway.rs:175-184 | a close filled as sent leaves nothing open if and only if the fill is a whole number of lots, and less than a lot otherwise |
| Gateway.WrappedTotalOverAllocates | src/live_gateway.rs:104-116 | when the percentages wrapped, the legs sent exceed the stop |
| Gateway.ProtectionHasPositiveLegs | src/live_gateway.rs:175-184 | protection can be sent only if every target has a positive percentage |
| Fills.Aggregate | src/live_gateway.rs:209-236 | the loop returns the size of the order's fills and an average that times the size is their quote; it fails if and only if a fill of the order is unreadable |
| Fills.QueryConfirmedFill | src/live_gateway.rs:195-250 | a fill is confirmed if and only if one of five attempts settles it, and definitely refused if and only if the order ended and all five show nothing |
| Fills.SubmitEntry | src/live_gateway.rs:47-88 | an entry succeeds if and only if the symbol was flat, the exchange took it and a fill settled; its failure is definite if and only if the symbol was occupied, the exchange declined, or the order ended and five readings show no fill |
| Fills.ConfirmsOneFill | src/live_gateway.rs:204-236 | the readings of an order confirm at most one fill |
| Fills.SubmissionAcceptedExactly | src/live_gateway.rs:376-385 | a submission counts as accepted if and only if its one status is filled or waiting, and as definitely refused if and only if the exchange said so |
| Fills.AverageIsBetweenPrices | src/live_gateway.rs:215-234 | with positive fill sizes the average lies between any bounds on the order's prices, whatever else traded |
| Risk.AdmissionIsOptimal | src/risk.rs:293-334 | a screened intent is approved if and only if an amount at or above the minimum exists whose loss at the stop, by the distance from the reference price, respects all four ceilings, and then with the largest one |
| Risk.FeasibleUpTo | src/risk.rs:305-321 | the amounts that respect the ceilings are exactly those up to the computed notional |
| Risk.StatedRiskIsExact | src/risk.rs:305-334 | the risk stated with an approval, times the reference price, is the approved notional times the stop distance, and within both ceilings; the stated basis points are the same distance |
| Risk.RejectionNamesItsCause | src/risk.rs:293-334 | each cause is named if and only if its check is the first that fails: account, strategy, slippage, stop distance, and that no amount from the minimum on is feasible |
| Risk.ValidLimitsExactly | src/risk.rs:185-197 | limits are valid if and only if their minimum is positive and some valid intent would be approved under them |
| Risk.ValidPolicyExactly | src/risk.rs:71-84 | a policy is valid if and only if it has a version and an account, and neither its default limits nor those of a strategy are invalid |
| Risk.ValidatedIsSizable | src/domain/trade_intent.rs:176-227 | validation makes both divisions of admission safe |
| Domain.ValidationIsExact | src/domain/trade_intent.rs:145-227 | validation passes if and only if every requirement on texts, amounts, prices on both sides, percentages and times holds, and otherwise names the first that does not |
| Domain.ValidatedPercentTotal | src/domain/trade_intent.rs:191-206 | the percentages of a validated intent total 100 if and only if their sum fits in sixteen bits |
| Domain.FewTargetsTotal100 | src/domain/trade_intent.rs:191-206 | so they do up to 257 targets |
| Domain.LifecycleMovesForward | src/domain/trade_intent.rs:86-104 | transitions never lead back, and exactly rejected, completed, canceled and failed intents have none |
| Domain.StatusesAreReachedFrom | src/domain/trade_intent.rs:86-104 | the lifecycle read backwards: from which statuses each status is reached |
| Domain.ManyTargetsPassValidation | src/domain/trade_intent.rs:191-206 | an intent of 258 targets with a total of 65636 percent passes validation, because the sum wraps |
| Orders.StableNameInjective | src/live_execution.rs:36-46 | different roles have different names |
| Orders.TargetRolesDistinct | src/store.rs:995-1004 | target roles are distinct if and only if there are at most 256 |
| Orders.DigitsRoundTrip | src/live_execution.rs:37-45 | the decimal text of a target index reads back as the index |
| Orders.TargetsCloseEverything | src/store.rs:995-1010 | percentages totalling 100 divide the fill exactly |
| Journal.FollowCursor | src/api.rs:281-297 | a client that follows the next cursor, with any limits and any events appended in between, receives exactly the journal behind its start, in order, and all of it once a page is empty |
| Journal.PageProgress | src/store.rs:1134-1171 | a page holds the events directly behind the cursor, as many as there are, as were asked for and at most five hundred, and the next one starts where it ends |
| Scenarios.ReadyWorld | src/engine.rs:71-132 | every intent that one policy admits and another confirms comes up for execution in a reachable world |
| Scenarios.FilledWorld | src/live_execution.rs:110-160 | and can be filled there, with no execution unresolved |
| Scenarios.CrashOverFillIsReachable | src/main.rs:90-96 | a crash over a recorded fill after which the worker may start is reachable |
| Scenarios.OldNotionalIsReachable | src/engine.rs:98-132 | an entry that exceeds the policy of its confirmation is reachable |
| Scenarios.EntryUnderKillSwitchIsReachable | src/live_execution.rs:110-131 | an entry sent with the kill switch on is reachable |
| Scenarios.EntryInCloseOnlyIsReachable | src/live_execution.rs:111-118 | an entry sent in close-only, after a snapshot between gate and claim, is reachable |
| Scenarios.RepeatedIdsAreReachable | src/live_gateway.rs:104-116 | a protection with 258 targets and repeated client order ids is reachable |
| Scenarios.StoppedWorkerIsReachable | src/store.rs:995-1010 | and with it a worker that stops over recording it |
| Scenarios.PartialCloseIsReachable | src/store.rs:1040-1051 | an execution recorded as closed with half of the fill still open is reachable |
| Scenarios.UntakenTargetIsReachable | src/live_gateway.rs:391-404 | a protected execution whose target is recorded as open but was not taken is reachable |
| Engine.ShadowExecutionEngine.Submit | src/engine.rs:71-96 | nothing is stored unless the account is ready and the intent valid; what is stored carries the policy's decision and the digest that binds it |
| Engine.ShadowExecutionEngine.Confirm | src/engine.rs:98-132 | the checks before a confirmation, in their order, and which of the transactions a request causes |
| Engine.ChecksExactly | src/engine.rs:134-195 | requests pass if and only if the account is ready with a snapshot at most twenty seconds old, and confirmations if moreover that snapshot is flat in the symbol; a refusal names what is missing |

## Left out

- Wall-clock columns and free text that nothing reads back (`detail`, `last_error`, `updated_at`), SQL, migrations, serialisation and the mutex: a transaction is one method on tables, and rolling back means unchanged tables.
- `create_intent`: an entry point of the store that the engine does not use.
- `evaluate_pre_trade`, portfolio and market limits: no code path calls them with real data.
- Order and position status tables in `src/domain`: nothing else uses them.
- Floating-point prices and sizes, and the price of an emergency close: not exact arithmetic.
- The size in floating point and the price bound that `submit_entry` sends (`src/live_gateway.rs:70-84`); the protocol allows any answer to an entry.
- Twenty-eight digit rounding of decimals: decimals are exact reals, and the text of a size is canonical, since the code compares sizes as text.
- SHA-256: digests and client order ids are represented by what is hashed into them, so different preimages differ.
- Identifiers are numbers, times are milliseconds, event types are constructors instead of strings; white space and lengths are those of ASCII text.
- The debug build, in which the sixteen-bit percentage sum panics instead of wrapping.
- Retention keeps the latest snapshot in the model and drops the oldest; columns of fills, funding payments and order updates that nothing reads back are left out.
- Key vault, HTTP routing, WebSocket, timers and the console stream, apart from the cursor rule.
- Liveness: a run may stop anywhere, and no action has to happen.
- Protocol actions of the API: the engine's readiness and position checks are separate lock acquisitions, so a request can act after they have become stale. The protocol therefore allows requests without them; its theorems hold a fortiori with them.
- Reconciliation.PositionsExact: the unexplained coins are a set; the program keeps a list, in the order of the loops.
- Store.ReconcileVanishedPositions: visits the coins in arbitrary order, as the query has no ordering clause.
- Store.ExecutionStore.ClaimNextLiveExecution: executions created at the same time may be claimed in any order, as in the query.
- Gateway.VerifyProtection: a poll is unreadable when a request or a number in it fails before the stop is seen; the requests inside one poll are not told apart.
- Requests.NotionalOutlivesPolicy: the code promises no more; a stricter policy loaded after admission does not lower an entry that is already confirmed or awaits confirmation.
- Safety.EntriesCarryTheApprovedNotional: speaks of the policy in force at admission, for the reason given before.
- LiveWorker.LiveExecutionWorker.RunOnce: what the exchange answers is an argument, and nobody else acts during the pass; interleaving is the subject of the protocol. `Execute`, `Protect`, `RecordOutcome`, `RecordProtection`, `CloseAgain`, `EmergencyCloseFill` and `RecordClose` are parts of `run_once` and `handle_fill` on their own.
- Safety.ProtectedMeansCovered: speaks of the order ledger. That the stop is open at the exchange was verified once; whether the targets are is the subject of Safety.HeldProtectionIsTakenExactly.
- Gateway.OrdersTakenExactly: statuses answer the orders of a request in their order, as the exchange lists them.
- SendingRuns.SentUnderSwitchExactly: says what some run does. Whether snapshots, answers and the operator ever come is outside the model.
- Safety.ClosedLeavesNothingOpenExactly: what is left open is the entry less the reported close, as a reduce-only order leaves it; other orders that fill in the meantime are not counted.
