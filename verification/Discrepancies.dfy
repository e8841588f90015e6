/** A discrepancy never clears by itself: without new facts, the same positions and orders keep an account
    out of normal mode for good. */
module Discrepancies {
  import opened Wrappers
  import opened Domain
  import opened Orders
  import opened Coverage
  import opened Reconciliation
  import opened Database
  import opened Protocol
  import opened ProtocolInvariant
  import opened Reachable
  import opened Modes
  import opened NormalMode

  datatype Item = ItemOrder(oid: Oid) | ItemPosition(coin: Coin)

  /** What the exchange shows of an account, one item of it, and since when nothing explains that item. */
  datatype Picture = Picture(
    account: Account, positions: seq<Position>, openOrders: seq<OpenOrder>, item: Item, since: nat)

  /** The item is an open order that is not projected and has no update in the window, or a projected
      position of another size than shown that has no fill of its coin in the window. */
  ghost predicate Unexplained(book: Book, p: Picture) {
    match p.item
    case ItemOrder(oid) =>
      && (exists o | o in p.openOrders :: o.oid == oid)
      && oid !in book.orders
      && (forall u | u in book.updates && u.oid == oid :: u.timeMs < p.since)
    case ItemPosition(coin) =>
      && coin in book.positions
      && !ShowsSize(p.positions, coin, book.positions[coin].signedSize)
      && (forall f | f in book.fills && f.coin == coin :: f.timeMs < p.since)
  }

  /** The action brings no new fact about the item, whatever it brings about others, and its snapshots of
      the account show the same picture, later. */
  ghost predicate ShowsTheSame(action: Action, p: Picture) {
    && (action.LearnHistory? && action.account == p.account && p.item.ItemPosition? ==>
          forall f | f in action.fills && f.coin == p.item.coin :: f.timeMs < p.since)
    && (action.LearnOrderUpdates? && action.account == p.account && p.item.ItemOrder? ==>
          forall u | u in action.updates && u.oid == p.item.oid :: u.timeMs < p.since)
    && (action.TakeSnapshot? && action.snapshot.account == p.account ==>
          && action.snapshot.positions == p.positions
          && action.snapshot.openOrders == p.openOrders
          && action.snapshot.observedAt >= p.since)
  }

  /** The account is out of normal mode, has no streak, and its difference is unexplained. */
  ghost predicate Stuck(row: Option<ReconciliationRow>, book: Book, p: Picture) {
    && row.Some? && !row.value.mode.Normal? && row.value.cleanStreak == 0
    && !IsBaseline(row) && WindowStart(row) >= p.since
    && Unexplained(book, p)
  }

  /** The comparison reports the item. */
  predicate Reports(d: Diff, item: Item) {
    match item
    case ItemOrder(oid) => oid in d.unexplainedOrders
    case ItemPosition(coin) => coin in d.unexplainedPositions
  }

  lemma ReportedIsUnexplained(book: Book, row: Option<ReconciliationRow>, s: AccountSnapshot, p: Picture)
    requires s.positions == p.positions && s.openOrders == p.openOrders && DistinctCoins(p.positions)
    requires WindowStart(row) >= p.since
    ensures var d := Compare(book, row, s);
            && (!IsBaseline(row) && Unexplained(book, p) ==> Reports(d, p.item))
            && (Reports(d, p.item) ==>
                  !IsBaseline(row) && (WindowStart(row) == p.since ==> Unexplained(UpdatedBook(book, d, s), p)))
            && (Reports(d, p.item) && Unexplained(book, p) ==> Unexplained(UpdatedBook(book, d, s), p))
  {
    match p.item
    case ItemOrder(oid) =>
      DiffOrdersExact(book.orders, book.updates, s.openOrders, IsBaseline(row), WindowStart(row), oid);
    case ItemPosition(coin) =>
      PositionsExactAt(book, row, s, coin);
  }

  lemma DirtyRow(row: Option<ReconciliationRow>, d: Diff, s: AccountSnapshot)
    requires row.Some? && !IsBaseline(row) && Discrepancy(d, s)
    ensures var next := NextRow(row, d, s);
            && !next.mode.Normal? && next.cleanStreak == 0 && !IsBaseline(Some(next))
            && WindowStart(Some(next)) == if s.observedAt > 0 then s.observedAt else 0
  {
  }

  lemma FactsStayMissing(book: Book, action: Action, p: Picture)
    requires Unexplained(book, p) && ShowsTheSame(action, p)
    ensures action.LearnHistory? && action.account == p.account ==>
              Unexplained(book.(fills := book.fills + action.fills, funding := book.funding + action.funding), p)
    ensures action.LearnOrderUpdates? && action.account == p.account ==>
              Unexplained(book.(updates := book.updates + action.updates), p)
  {
  }

  lemma StuckRow(w: World, action: Action, p: Picture)
    requires Stuck(Lookup(w.db.reconciliation, p.account), BookOf(w.db, p.account), p)
    requires DistinctCoins(p.positions) && ShowsTheSame(action, p)
    ensures Stuck(RowAfter(w, action, p.account), BookAfter(w, action, p.account), p)
  {
    var row, book := Lookup(w.db.reconciliation, p.account), BookOf(w.db, p.account);
    FactsStayMissing(book, action, p);
    if Snapshots(w, action, p.account) {
      ReportedIsUnexplained(book, row, action.snapshot, p);
      DirtyRow(row, SnapshotDiff(w.db, action.snapshot), action.snapshot);
    }
  }

  lemma NextStaysStuck(w: World, action: Action, p: Picture)
    requires WorldOk(w) && Stuck(Lookup(w.db.reconciliation, p.account), BookOf(w.db, p.account), p)
    requires DistinctCoins(p.positions) && ShowsTheSame(action, p)
    ensures Stuck(Lookup(Next(w, action).db.reconciliation, p.account), BookOf(Next(w, action).db, p.account), p)
  {
    StuckRow(w, action, p);
    NextRowOf(w, action, p.account);
    NextBookOf(w, action, p.account);
  }

  /** Along every run that brings no new facts about the item and shows the same positions and orders
      of the account at later times, whatever else happens, whatever is learnt about other orders and
      coins and whatever the operator tries: an account with an unexplained item never returns to
      normal, and its streak stays zero. */
  lemma {:induction false} DiscrepancyNeverClearsByItself(w: World, run: seq<Action>, p: Picture)
    requires WorldOk(w) && Stuck(Lookup(w.db.reconciliation, p.account), BookOf(w.db, p.account), p)
    requires DistinctCoins(p.positions) && forall action | action in run :: ShowsTheSame(action, p)
    ensures Stuck(Lookup(After(w, run).db.reconciliation, p.account), BookOf(After(w, run).db, p.account), p)
  {
    if run != [] {
      var init, last := run[..|run| - 1], run[|run| - 1];
      assert last in run && forall action | action in init :: action in run;
      DiscrepancyNeverClearsByItself(w, init, p);
      EveryRunKeepsWorld(w, init);
      NextStaysStuck(After(w, init), last, p);
    }
  }

  /** Every snapshot that reports an order or a position leads there, for each item that it reports. */
  lemma UnexplainedSnapshotIsStuck(w: World, s: AccountSnapshot, p: Picture)
    requires WorldOk(w) && Snapshots(w, TakeSnapshot(s), s.account)
    requires p.account == s.account && p.positions == s.positions && p.openOrders == s.openOrders
    requires p.since == WindowStart(Lookup(w.db.reconciliation, s.account)) <= s.observedAt
    requires DistinctCoins(s.positions) && Reports(SnapshotDiff(w.db, s), p.item)
    ensures var after := Next(w, TakeSnapshot(s)).db;
            Stuck(Lookup(after.reconciliation, s.account), BookOf(after, s.account), p)
  {
    var row, book := Lookup(w.db.reconciliation, s.account), BookOf(w.db, s.account);
    ReportedIsUnexplained(book, row, s, p);
    DirtyRow(row, SnapshotDiff(w.db, s), s);
    NextRowOf(w, TakeSnapshot(s), s.account);
    NextBookOf(w, TakeSnapshot(s), s.account);
  }
}
