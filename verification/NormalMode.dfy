/** What normal mode says: the latest recorded snapshot was explained and fully protected, and the
    projections agree with it. */
module NormalMode {
  import opened Wrappers
  import opened Domain
  import opened Coverage
  import opened Reconciliation
  import opened Database
  import opened Protocol
  import opened ProtocolInvariant
  import opened Reachable
  import opened Modes
  import opened Engine

  // ---------- What changes the book of an account ----------

  ghost function BookAfter(w: World, action: Action, account: Account): Book {
    var book := BookOf(w.db, account);
    if Snapshots(w, action, account) then UpdatedBook(book, SnapshotDiff(w.db, action.snapshot), action.snapshot)
    else if action.LearnHistory? && action.account == account then
      book.(fills := book.fills + action.fills, funding := book.funding + action.funding)
    else if action.LearnOrderUpdates? && action.account == account then book.(updates := book.updates + action.updates)
    else book
  }

  lemma HistoryBook(
    db: Tables, learner: Account, fills: set<FillFact>, funding: set<FundingFact>, account: Account)
    ensures var book := BookOf(db, account);
            BookOf(RecordHistory(db, learner, fills, funding), account)
            == if learner == account then book.(fills := book.fills + fills, funding := book.funding + funding)
               else book
  {
    var book := BookOf(db, learner);
    if fills <= book.fills && funding <= book.funding {
      assert book.fills + fills == book.fills && book.funding + funding == book.funding;
    }
  }

  lemma UpdatesBook(db: Tables, learner: Account, updates: set<OrderUpdate>, account: Account)
    ensures BookOf(RecordOrderUpdates(db, learner, updates), account)
            == if learner == account then BookOf(db, account).(updates := BookOf(db, account).updates + updates)
               else BookOf(db, account)
  {
    if updates <= BookOf(db, learner).updates {
      assert BookOf(db, learner).updates + updates == BookOf(db, learner).updates;
    }
  }

  lemma FactsBook(w: World, action: Action, account: Account)
    requires action.LearnHistory? || action.LearnOrderUpdates?
    ensures BookOf(Next(w, action).db, account) == BookAfter(w, action, account)
  {
    match action
    case LearnHistory(learner, fills, funding) => HistoryBook(w.db, learner, fills, funding, account);
    case LearnOrderUpdates(learner, updates) => UpdatesBook(w.db, learner, updates, account);
  }

  lemma SnapshotBook(w: World, action: Action, account: Account)
    requires Enabled(w, action) && action.TakeSnapshot?
    ensures BookOf(Effect(w, action).db, account) == BookAfter(w, action, account)
  {
  }

  lemma OperatorBook(w: World, action: Action)
    requires action.AcknowledgeRecovery? || action.Configure?
    ensures Next(w, action).db.books == w.db.books
  {
  }

  lemma WorkerOrApiBook(w: World, action: Action, account: Account)
    requires WorldOk(w) && Enabled(w, action) && (IsReturn(action) || IsQuiet(action))
    ensures Effect(w, action).db.books == w.db.books
  {
    if IsReturn(action) {
      ReturnRow(w, action, account);
    } else {
      QuietRow(w, action);
    }
  }

  lemma UnchangedBook(w: World, action: Action, account: Account)
    requires !action.LearnHistory? && !action.LearnOrderUpdates? && !Snapshots(w, action, account)
    ensures BookAfter(w, action, account) == BookOf(w.db, account)
  {
  }

  lemma ServiceBook(w: World, action: Action, account: Account)
    requires || action.LearnHistory? || action.LearnOrderUpdates? || action.AcknowledgeRecovery? || action.Configure?
             || (action.TakeSnapshot? && Enabled(w, action))
    ensures BookOf(Next(w, action).db, account) == BookAfter(w, action, account)
  {
    if action.LearnHistory? || action.LearnOrderUpdates? {
      FactsBook(w, action, account);
    } else if action.TakeSnapshot? {
      SnapshotBook(w, action, account);
    } else {
      OperatorBook(w, action);
      UnchangedBook(w, action, account);
    }
  }

  lemma NextBookOf(w: World, action: Action, account: Account)
    requires WorldOk(w)
    ensures BookOf(Next(w, action).db, account) == BookAfter(w, action, account)
  {
    if || action.LearnHistory? || action.LearnOrderUpdates? || action.AcknowledgeRecovery? || action.Configure?
       || (action.TakeSnapshot? && Enabled(w, action)) {
      ServiceBook(w, action, account);
    } else {
      UnchangedBook(w, action, account);
      if Enabled(w, action) {
        WorkerOrApiBook(w, action, account);
      }
    }
  }

  // ---------- The latest snapshot ----------

  /** A snapshot with the tables it was compared with. */
  datatype Comparison = Comparison(db: Tables, snapshot: AccountSnapshot)

  /** The last snapshot of the account that a run recorded. */
  ghost function LatestComparison(w: World, run: seq<Action>, account: Account): Option<Comparison> {
    if run == [] then None
    else
      var before, last := After(w, run[..|run| - 1]), run[|run| - 1];
      if Snapshots(before, last, account) then Some(Comparison(before.db, last.snapshot))
      else LatestComparison(w, run[..|run| - 1], account)
  }

  /** Nothing in this comparison was unexplained or unprotected. */
  predicate Clean(c: Comparison) {
    !Dirty(c.db, c.snapshot)
  }

  /** Normal mode, and a positive streak, stand for a clean latest snapshot. */
  predicate Justified(row: Option<ReconciliationRow>, latest: Option<Comparison>) {
    && (row.Some? ==> RowConsistent(row.value))
    && (row.Some? && (row.value.mode.Normal? || row.value.cleanStreak > 0) ==> latest.Some? && Clean(latest.value))
  }

  /** The book still holds what the latest comparison stored. */
  ghost predicate Stored(book: Book, latest: Option<Comparison>) {
    && Provenance(book)
    && (latest.Some? ==>
          var s := latest.value.snapshot;
          var diff := SnapshotDiff(latest.value.db, s);
          && book.snapshots != [] && book.snapshots[|book.snapshots| - 1] == s
          && book.orders == diff.orders && book.positions == diff.positions
          && s.coverage == EvaluateProtectionCoverage(s.positions, s.openOrders, s.mids))
  }

  lemma JustifiedSnapshot(db: Tables, s: AccountSnapshot, latest: Option<Comparison>)
    requires Justified(Lookup(db.reconciliation, s.account), latest)
    ensures Justified(Some(NextRow(Lookup(db.reconciliation, s.account), SnapshotDiff(db, s), s)),
        Some(Comparison(db, s)))
  {
    NextRowConsistent(Lookup(db.reconciliation, s.account), SnapshotDiff(db, s), s);
  }

  lemma JustifiedLock(before: Option<ReconciliationRow>, reason: string, latest: Option<Comparison>)
    requires Justified(before, latest)
    ensures Justified(Some(ForcedRow(before, reason)), latest)
  {
  }

  lemma JustifiedOtherwise(w: World, action: Action, account: Account, latest: Option<Comparison>)
    requires Justified(Lookup(w.db.reconciliation, account), latest) && !Snapshots(w, action, account)
    ensures Justified(RowAfter(w, action, account), latest)
  {
    if Locks(w, action, account) {
      JustifiedLock(Lookup(w.db.reconciliation, account), LockReason(action).value, latest);
    }
  }

  lemma JustifiedStep(w: World, action: Action, account: Account, latest: Option<Comparison>)
    requires Justified(Lookup(w.db.reconciliation, account), latest)
    ensures Justified(RowAfter(w, action, account),
                      if Snapshots(w, action, account) then Some(Comparison(w.db, action.snapshot)) else latest)
  {
    if Snapshots(w, action, account) {
      JustifiedSnapshot(w.db, action.snapshot, latest);
    } else {
      JustifiedOtherwise(w, action, account, latest);
    }
  }

  lemma StoredStep(w: World, action: Action, account: Account, latest: Option<Comparison>)
    requires Stored(BookOf(w.db, account), latest)
    ensures Stored(BookAfter(w, action, account),
                   if Snapshots(w, action, account) then Some(Comparison(w.db, action.snapshot)) else latest)
  {
    var book := BookOf(w.db, account);
    if Snapshots(w, action, account) {
      ProvenanceKept(book, Lookup(w.db.reconciliation, account), action.snapshot);
    } else if action.LearnOrderUpdates? && action.account == account {
      MoreUpdatesKeepProvenance(book, action.updates);
    }
  }

  lemma MoreUpdatesKeepProvenance(book: Book, updates: set<OrderUpdate>)
    requires Provenance(book)
    ensures Provenance(book.(updates := book.updates + updates))
  {
    forall oid | oid in book.orders && HasUpdate(book.updates, oid, 0)
      ensures HasUpdate(book.updates + updates, oid, 0)
    {
      var u :| u in book.updates && u.oid == oid && u.timeMs >= 0;
      assert u in book.updates + updates;
    }
  }

  /** Over every run, for every account: mode normal, ready and no reason code are the same thing, and
      each of them, like a positive streak, means that the latest recorded snapshot was clean; every
      projected order was imported with the baseline or has a recorded update. */
  lemma {:induction false} EveryRunJustifiesModes(w: World, run: seq<Action>, account: Account)
    requires WorldOk(w) && account !in w.db.reconciliation && account !in w.db.books
    ensures Justified(Lookup(After(w, run).db.reconciliation, account), LatestComparison(w, run, account))
    ensures Stored(BookOf(After(w, run).db, account), LatestComparison(w, run, account))
  {
    if run != [] {
      var init, last := run[..|run| - 1], run[|run| - 1];
      EveryRunJustifiesModes(w, init, account);
      EveryRunKeepsWorld(w, init);
      NextRowOf(After(w, init), last, account);
      NextBookOf(After(w, init), last, account);
      JustifiedStep(After(w, init), last, account, LatestComparison(w, init, account));
      StoredStep(After(w, init), last, account, LatestComparison(w, init, account));
    }
  }

  // ---------- The window of explanation ----------

  /** Where the window starts after a snapshot. */
  function WindowOf(latest: Option<Comparison>): nat {
    if latest.Some? && latest.value.snapshot.observedAt > 0 then latest.value.snapshot.observedAt else 0
  }

  predicate Windowed(row: Option<ReconciliationRow>, latest: Option<Comparison>) {
    && WindowStart(row) == WindowOf(latest)
    && (IsBaseline(row) <==> latest.None?)
    && (latest.Some? ==> row.Some? && row.value.lastReconciledAt == Some(latest.value.snapshot.observedAt))
    && (row.Some? && row.value.lastReconciledAt.Some? ==> latest.Some?)
  }

  lemma WindowSnapshot(db: Tables, s: AccountSnapshot, latest: Option<Comparison>)
    requires Windowed(Lookup(db.reconciliation, s.account), latest)
    ensures Windowed(Some(NextRow(Lookup(db.reconciliation, s.account), SnapshotDiff(db, s), s)),
        Some(Comparison(db, s)))
  {
  }

  lemma WindowStep(w: World, action: Action, account: Account, latest: Option<Comparison>)
    requires Windowed(Lookup(w.db.reconciliation, account), latest)
    ensures Windowed(RowAfter(w, action, account),
                     if Snapshots(w, action, account) then Some(Comparison(w.db, action.snapshot)) else latest)
  {
    if Snapshots(w, action, account) {
      WindowSnapshot(w.db, action.snapshot, latest);
    }
  }

  /** Over every run: the facts that can explain the next snapshot are those since the latest recorded
      one, clean or not, and only the first snapshot of an account is a baseline; locks,
      acknowledgements and configuration change neither. */
  lemma {:induction false} WindowFollowsSnapshots(w: World, run: seq<Action>, account: Account)
    requires WorldOk(w) && account !in w.db.reconciliation
    ensures Windowed(Lookup(After(w, run).db.reconciliation, account), LatestComparison(w, run, account))
  {
    if run != [] {
      var init, last := run[..|run| - 1], run[|run| - 1];
      WindowFollowsSnapshots(w, init, account);
      EveryRunKeepsWorld(w, init);
      NextRowOf(After(w, init), last, account);
      WindowStep(After(w, init), last, account, LatestComparison(w, init, account));
    }
  }

  /** The projected sizes are those of the snapshot. */
  ghost predicate AgreesWith(book: Book, s: AccountSnapshot) {
    forall c | c in book.positions :: ShowsSize(s.positions, c, book.positions[c].signedSize)
  }

  lemma CleanMeansProtected(c: Comparison)
    requires Clean(c)
    requires c.snapshot.coverage
             == EvaluateProtectionCoverage(c.snapshot.positions, c.snapshot.openOrders, c.snapshot.mids)
    ensures forall p | p in c.snapshot.positions && p.signedSize != 0.0 ::
              && FullyProtected(p, c.snapshot.openOrders, c.snapshot.mids)
              && HasOwnStop(p, c.snapshot.openOrders, c.snapshot.mids)
  {
    var s := c.snapshot;
    CoverageIsComplete(s.positions, s.openOrders, s.mids);
    assert AllCovered(s.coverage);
    forall p | p in s.positions && p.signedSize != 0.0 ensures HasOwnStop(p, s.openOrders, s.mids) {
      ProtectionNeedsAStop(p, s.openOrders, s.mids);
    }
  }

  lemma CleanMeansAgreement(c: Comparison, book: Book)
    requires Clean(c) && DistinctCoins(c.snapshot.positions)
    requires book.positions == SnapshotDiff(c.db, c.snapshot).positions
    ensures AgreesWith(book, c.snapshot)
  {
    PositionsExact(BookOf(c.db, c.snapshot.account), Lookup(c.db.reconciliation, c.snapshot.account), c.snapshot);
  }

  /** In every reachable world, an account in normal mode has a recorded snapshot, it is the last one
      kept, every open position in it is fully protected by stops of its own, and the projected positions
      agree with it: this survives everything the operator and the workers do. */
  lemma NormalMeansProtected(w: World, run: seq<Action>, account: Account)
    requires WorldOk(w) && account !in w.db.reconciliation && account !in w.db.books
    requires var db := After(w, run).db; account in db.reconciliation && db.reconciliation[account].mode.Normal?
    ensures var latest := LatestComparison(w, run, account);
            var book := BookOf(After(w, run).db, account);
            && latest.Some?
            && var s := latest.value.snapshot;
               && book.snapshots != [] && book.snapshots[|book.snapshots| - 1] == s
               && (forall p | p in s.positions && p.signedSize != 0.0 ::
                     FullyProtected(p, s.openOrders, s.mids) && HasOwnStop(p, s.openOrders, s.mids))
               && (DistinctCoins(s.positions) ==> AgreesWith(book, s))
  {
    EveryRunJustifiesModes(w, run, account);
    var latest := LatestComparison(w, run, account).value;
    CleanMeansProtected(latest);
    if DistinctCoins(latest.snapshot.positions) {
      LatestIsOfAccount(w, run, account);
      CleanMeansAgreement(latest, BookOf(After(w, run).db, account));
    }
  }

  lemma {:induction false} LatestIsOfAccount(w: World, run: seq<Action>, account: Account)
    ensures LatestComparison(w, run, account).Some? ==>
              LatestComparison(w, run, account).value.snapshot.account == account
  {
    if run != [] {
      LatestIsOfAccount(w, run[..|run| - 1], account);
    }
  }

  /** What the engine's checks before a live confirmation are worth, in every reachable world: the latest
      snapshot of the account is at most twenty seconds old, every position in it is fully protected,
      and the symbol of the intent is flat in it. */
  lemma ConfirmableMeansProtectedAndFlat(w: World, run: seq<Action>, account: Account, symbol: string, now: Time)
    requires WorldOk(w) && account !in w.db.reconciliation && account !in w.db.books
    requires ReadinessError(After(w, run).db, Some(account), now).None?
    requires ExistingPositionError(After(w, run).db, Some(account), symbol).None?
    ensures var latest := LatestComparison(w, run, account);
            && latest.Some?
            && var s := latest.value.snapshot;
               && now - s.observedAt <= 20_000
               && (forall p | p in s.positions && p.signedSize != 0.0 ::
                     FullyProtected(p, s.openOrders, s.mids) && HasOwnStop(p, s.openOrders, s.mids))
               && (forall p | p in s.positions && p.coin == symbol :: p.signedSize == 0.0)
  {
    EveryRunJustifiesModes(w, run, account);
    WindowFollowsSnapshots(w, run, account);
    NormalMeansProtected(w, run, account);
  }
}
