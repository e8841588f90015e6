/** Comparing an authoritative account snapshot with the local projections, and the execution mode
    that follows from it (record_mainnet_snapshot in src/store.rs). */
module Reconciliation {
  import opened Wrappers
  import opened Domain
  import opened Orders
  import opened Coverage

  datatype Mode = Normal | HaltNewEntries | CloseOnly

  datatype ReconciliationRow = ReconciliationRow(
    mode: Mode,
    ready: bool,
    reasonCode: Option<string>,
    baselineEstablishedAt: Option<Time>,
    lastReconciledAt: Option<Time>,
    cleanStreak: U32)
  {
    predicate RecoveryEligible() { mode.CloseOnly? && cleanStreak >= 3 }
  }

  datatype Source = FromBaseline | FromSnapshot

  datatype OrderRow = OrderRow(coin: Coin, source: Source)

  datatype PositionRow = PositionRow(signedSize: real, source: Source)

  datatype FillFact = FillFact(hash: string, oid: Oid, coin: Coin, timeMs: nat, price: real, size: real)

  datatype FundingFact = FundingFact(coin: Coin, timeMs: nat, usdc: real, signedSize: real, rate: real)

  datatype OrderUpdate = OrderUpdate(oid: Oid, status: string, timeMs: nat)

  datatype AccountSnapshot = AccountSnapshot(
    account: Account,
    observedAt: Time,
    positions: seq<Position>,
    openOrders: seq<OpenOrder>,
    coverage: seq<ProtectionCoverage>,
    mids: map<Coin, real>)

  /** The rows of one account: its projections, the facts received from the exchange and the
      retained snapshots. */
  datatype Book = Book(
    orders: map<Oid, OrderRow>,
    positions: map<Coin, PositionRow>,
    fills: set<FillFact>,
    funding: set<FundingFact>,
    updates: set<OrderUpdate>,
    snapshots: seq<AccountSnapshot>)

  const EMPTY_BOOK := Book(map[], map[], {}, {}, {}, [])
  const RETAINED_SNAPSHOTS: nat := 1000
  const U32_MAX: U32 := 0xFFFF_FFFF

  /** Facts from this time on can explain a change. */
  function WindowStart(previous: Option<ReconciliationRow>): nat {
    if previous.Some? && previous.value.lastReconciledAt.Some? && previous.value.lastReconciledAt.value > 0
    then previous.value.lastReconciledAt.value
    else 0
  }

  predicate IsBaseline(previous: Option<ReconciliationRow>) {
    previous.None? || previous.value.baselineEstablishedAt.None?
  }

  predicate HasUpdate(updates: set<OrderUpdate>, oid: Oid, since: nat) {
    exists u | u in updates :: u.oid == oid && u.timeMs >= since
  }

  predicate HasFill(fills: set<FillFact>, coin: Coin, since: nat) {
    exists f | f in fills :: f.coin == coin && f.timeMs >= since
  }

  function RowSource(baseline: bool): Source {
    if baseline then FromBaseline else FromSnapshot
  }

  // ---------- First loop: open orders ----------

  datatype OrderDiff = OrderDiff(rows: map<Oid, OrderRow>, unexplained: seq<Oid>)

  /** An upsert that keeps the source of an existing row. */
  function UpsertOrder(rows: map<Oid, OrderRow>, order: OpenOrder, baseline: bool): map<Oid, OrderRow> {
    rows[order.oid := OrderRow(order.coin, if order.oid in rows then rows[order.oid].source else RowSource(baseline))]
  }

  function DiffOrders(
    rows: map<Oid, OrderRow>, updates: set<OrderUpdate>, orders: seq<OpenOrder>, baseline: bool, since: nat): OrderDiff
  {
    if orders == [] then OrderDiff(rows, [])
    else
      var d := DiffOrders(rows, updates, orders[..|orders| - 1], baseline, since);
      var order := orders[|orders| - 1];
      if !baseline && order.oid !in d.rows && !HasUpdate(updates, order.oid, since)
      then d.(unexplained := d.unexplained + [order.oid])
      else d.(rows := UpsertOrder(d.rows, order, baseline))
  }

  /** The coin of the last listed order with this id. */
  function OrderCoin(orders: seq<OpenOrder>, oid: Oid): Option<Coin> {
    if orders == [] then None
    else if orders[|orders| - 1].oid == oid then Some(orders[|orders| - 1].coin)
    else OrderCoin(orders[..|orders| - 1], oid)
  }

  lemma {:induction false} OrderCoinExists(orders: seq<OpenOrder>, oid: Oid)
    ensures OrderCoin(orders, oid).Some? <==> exists o | o in orders :: o.oid == oid
    ensures OrderCoin(orders, oid).Some? ==>
              exists o | o in orders :: o.oid == oid && o.coin == OrderCoin(orders, oid).value
  {
    if orders != [] {
      OrderCoinExists(orders[..|orders| - 1], oid);
      assert orders == orders[..|orders| - 1] + [orders[|orders| - 1]];
    }
  }

  /** An open order is unexplained when it was neither projected before nor updated in the window. */
  ghost predicate OrderUnexplained(
    rows: map<Oid, OrderRow>, updates: set<OrderUpdate>, oid: Oid, baseline: bool, since: nat)
  {
    !baseline && oid !in rows && forall u | u in updates && u.oid == oid :: u.timeMs < since
  }

  /** The first loop, order by order: whatever the list, exactly the unexplained open orders are
      reported and left out of the projection, and every other open order is in it, with the coin under
      which it is listed last. */
  lemma {:induction false} DiffOrdersExact(
    rows: map<Oid, OrderRow>, updates: set<OrderUpdate>, orders: seq<OpenOrder>, baseline: bool, since: nat, oid: Oid)
    ensures var d := DiffOrders(rows, updates, orders, baseline, since);
            var listed := exists o | o in orders :: o.oid == oid;
            var unexplained := OrderUnexplained(rows, updates, oid, baseline, since);
            && (oid in d.unexplained <==> listed && unexplained)
            && (oid in d.rows <==> oid in rows || (listed && !unexplained))
            && (listed <==> OrderCoin(orders, oid).Some?)
            && (oid in d.rows ==>
                  d.rows[oid] == OrderRow(
                    if listed then OrderCoin(orders, oid).value else rows[oid].coin,
                    if oid in rows then rows[oid].source else if baseline then FromBaseline else FromSnapshot))
  {
    OrderCoinExists(orders, oid);
    if orders != [] {
      DiffOrdersExact(rows, updates, orders[..|orders| - 1], baseline, since, oid);
      OrderCoinExists(orders[..|orders| - 1], oid);
    }
  }

  /** Facts about other orders never change whether an order is unexplained. */
  lemma OtherOrdersExplainNothing(
    book: Book, other: Book, previous: Option<ReconciliationRow>, snapshot: AccountSnapshot, oid: Oid)
    requires oid in book.orders <==> oid in other.orders
    requires forall u: OrderUpdate | u.oid == oid :: u in book.updates <==> u in other.updates
    ensures oid in Compare(book, previous, snapshot).unexplainedOrders
            <==> oid in Compare(other, previous, snapshot).unexplainedOrders
  {
    var baseline, since := IsBaseline(previous), WindowStart(previous);
    DiffOrdersExact(book.orders, book.updates, snapshot.openOrders, baseline, since, oid);
    DiffOrdersExact(other.orders, other.updates, snapshot.openOrders, baseline, since, oid);
  }

  // ---------- Second loop: listed positions ----------

  datatype PositionDiff = PositionDiff(rows: map<Coin, PositionRow>, unexplained: set<Coin>)

  function UpsertPosition(rows: map<Coin, PositionRow>, position: Position, baseline: bool): map<Coin, PositionRow> {
    rows[position.coin := PositionRow(
      position.signedSize, if position.coin in rows then rows[position.coin].source else RowSource(baseline))]
  }

  predicate PositionChanged(rows: map<Coin, PositionRow>, position: Position) {
    position.coin in rows && rows[position.coin].signedSize != position.signedSize
  }

  function DiffPositions(
    rows: map<Coin, PositionRow>, fills: set<FillFact>, positions: seq<Position>, baseline: bool,
    since: nat): PositionDiff
  {
    if positions == [] then PositionDiff(rows, {})
    else
      var d := DiffPositions(rows, fills, positions[..|positions| - 1], baseline, since);
      var position := positions[|positions| - 1];
      if !baseline && PositionChanged(d.rows, position) && !HasFill(fills, position.coin, since)
      then d.(unexplained := d.unexplained + {position.coin})
      else d.(rows := UpsertPosition(d.rows, position, baseline))
  }

  function CoinsOf(positions: seq<Position>): set<Coin> {
    set p | p in positions :: p.coin
  }

  // ---------- Third loop: projected positions that are no longer listed ----------

  predicate Vanished(rows: map<Coin, PositionRow>, current: set<Coin>, coin: Coin) {
    coin in rows && rows[coin].signedSize != 0.0 && coin !in current
  }

  function CloseVanished(
    rows: map<Coin, PositionRow>, fills: set<FillFact>, current: set<Coin>, baseline: bool, since: nat): PositionDiff
  {
    PositionDiff(
      map c | c in rows ::
        if Vanished(rows, current, c) && (baseline || HasFill(fills, c, since))
        then rows[c].(signedSize := 0.0) else rows[c],
      set c | c in rows && Vanished(rows, current, c) && !baseline && !HasFill(fills, c, since))
  }

  // ---------- The whole comparison ----------

  datatype Diff = Diff(
    orders: map<Oid, OrderRow>,
    positions: map<Coin, PositionRow>,
    unexplainedOrders: seq<Oid>,
    unexplainedPositions: set<Coin>)

  function Compare(book: Book, previous: Option<ReconciliationRow>, snapshot: AccountSnapshot): Diff {
    var baseline, since := IsBaseline(previous), WindowStart(previous);
    var o := DiffOrders(book.orders, book.updates, snapshot.openOrders, baseline, since);
    var listed := DiffPositions(book.positions, book.fills, snapshot.positions, baseline, since);
    var closed := CloseVanished(listed.rows, book.fills, CoinsOf(snapshot.positions), baseline, since);
    Diff(o.rows, closed.rows, o.unexplained, listed.unexplained + closed.unexplained)
  }

  predicate Unprotected(snapshot: AccountSnapshot) {
    exists k | 0 <= k < |snapshot.coverage| :: !snapshot.coverage[k].covered
  }

  predicate Discrepancy(diff: Diff, snapshot: AccountSnapshot) {
    diff.unexplainedOrders != [] || diff.unexplainedPositions != {} || Unprotected(snapshot)
  }

  function NextStreak(previous: Option<ReconciliationRow>, discrepancy: bool): U32 {
    if previous.Some? && previous.value.mode.CloseOnly? && !discrepancy
    then (if previous.value.cleanStreak < U32_MAX then previous.value.cleanStreak + 1 else U32_MAX)
    else 0
  }

  /** The execution mode after a snapshot: close-only is never left here. */
  function NextRow(
    previous: Option<ReconciliationRow>, diff: Diff, snapshot: AccountSnapshot): ReconciliationRow
  {
    var discrepancy := Discrepancy(diff, snapshot);
    var baselineAt := if IsBaseline(previous) then Some(snapshot.observedAt) else previous.value.baselineEstablishedAt;
    var streak := NextStreak(previous, discrepancy);
    var at := Some(snapshot.observedAt);
    if Unprotected(snapshot) then
      ReconciliationRow(CloseOnly, false, Some("unprotected_position"), baselineAt, at, streak)
    else if previous.Some? && previous.value.mode.CloseOnly? then
      ReconciliationRow(CloseOnly, false, previous.value.reasonCode, baselineAt, at, streak)
    else if previous.Some? && previous.value.mode.HaltNewEntries? && discrepancy && !IsBaseline(previous) then
      ReconciliationRow(
        CloseOnly, false,
        Some(if diff.unexplainedOrders != [] then "unknown_exchange_order" else "unexplained_position_change"),
        baselineAt, at, streak)
    else if discrepancy then
      ReconciliationRow(HaltNewEntries, false, Some("reconciliation_discrepancy_pending"), baselineAt, at, streak)
    else
      ReconciliationRow(Normal, true, None, baselineAt, at, streak)
  }

  function Latest<T>(items: seq<T>, n: nat): seq<T> {
    if |items| <= n then items else items[|items| - n..]
  }

  function UpdatedBook(book: Book, diff: Diff, snapshot: AccountSnapshot): Book {
    book.(orders := diff.orders, positions := diff.positions,
          snapshots := Latest(book.snapshots + [snapshot], RETAINED_SNAPSHOTS))
  }

  /** The latest thousand snapshots of an account are kept, in order. */
  lemma SnapshotsAreRetained(book: Book, diff: Diff, snapshot: AccountSnapshot)
    ensures var kept, all := UpdatedBook(book, diff, snapshot).snapshots, book.snapshots + [snapshot];
            && kept != [] && kept[|kept| - 1] == snapshot
            && (|all| <= 1000 ==> kept == all)
            && (|all| > 1000 ==> |kept| == 1000 && kept == all[|all| - 1000..])
  {
  }

  // ---------- What the comparison means ----------

  ghost predicate DistinctCoins(positions: seq<Position>) {
    forall i, j | 0 <= i < j < |positions| :: positions[i].coin != positions[j].coin
  }

  /** The size that the snapshot lists for a coin. */
  function ListedSize(positions: seq<Position>, coin: Coin): Option<real> {
    if positions == [] then None
    else if positions[|positions| - 1].coin == coin then Some(positions[|positions| - 1].signedSize)
    else ListedSize(positions[..|positions| - 1], coin)
  }

  /** An unlisted coin has size zero. */
  function SizeOrZero(positions: seq<Position>, coin: Coin): real {
    if ListedSize(positions, coin).Some? then ListedSize(positions, coin).value else 0.0
  }

  lemma {:induction false} ListedIffCoin(positions: seq<Position>, coin: Coin)
    ensures ListedSize(positions, coin).Some? <==> coin in CoinsOf(positions)
  {
    if positions != [] {
      var init, last := positions[..|positions| - 1], positions[|positions| - 1];
      ListedIffCoin(init, coin);
      assert positions == init + [last];
    }
  }

  lemma {:induction false} DiffPositionsExact(
    rows: map<Coin, PositionRow>, fills: set<FillFact>, positions: seq<Position>, baseline: bool, since: nat,
    coin: Coin)
    requires DistinctCoins(positions)
    ensures var d := DiffPositions(rows, fills, positions, baseline, since);
            var listed := ListedSize(positions, coin);
            var unexplained := !baseline && coin in rows && listed.Some?
                               && rows[coin].signedSize != listed.value && !HasFill(fills, coin, since);
            && (coin in d.unexplained <==> unexplained)
            && (coin in d.rows <==> coin in rows || listed.Some?)
            && (coin in d.rows ==>
                  d.rows[coin].signedSize == (if listed.Some? && !unexplained then listed.value
                      else rows[coin].signedSize))
            && (coin in rows ==> d.rows[coin].source == rows[coin].source)
  {
    if positions != [] {
      var init, last := positions[..|positions| - 1], positions[|positions| - 1];
      DiffPositionsExact(rows, fills, init, baseline, since, coin);
      if last.coin == coin {
        ListedIffCoin(init, coin);
      }
    }
  }

  lemma {:induction false} ListedSizeExists(positions: seq<Position>, coin: Coin)
    ensures ListedSize(positions, coin).Some? <==> exists p | p in positions :: p.coin == coin
    ensures DistinctCoins(positions) ==>
              forall p | p in positions && p.coin == coin :: ListedSize(positions, coin) == Some(p.signedSize)
  {
    if positions != [] {
      var init, last := positions[..|positions| - 1], positions[|positions| - 1];
      ListedSizeExists(init, coin);
      assert positions == init + [last];
    }
  }

  /** The snapshot lists the coin with this size, or lists it not at all and the size is zero. */
  ghost predicate ShowsSize(positions: seq<Position>, coin: Coin, size: real) {
    if exists p | p in positions :: p.coin == coin
    then exists p | p in positions :: p.coin == coin && p.signedSize == size
    else size == 0.0
  }

  lemma ShowsSizeExactly(positions: seq<Position>, coin: Coin, size: real)
    requires DistinctCoins(positions)
    ensures ShowsSize(positions, coin, size) <==> SizeOrZero(positions, coin) == size
  {
    ListedSizeExists(positions, coin);
  }

  /** The projected size of a coin has no explanation when the snapshot shows another one and no fill of
      the coin lies in the window. */
  ghost predicate PositionUnexplained(
    rows: map<Coin, PositionRow>, fills: set<FillFact>, positions: seq<Position>, baseline: bool, since: nat,
    coin: Coin)
  {
    && !baseline
    && coin in rows
    && !ShowsSize(positions, coin, rows[coin].signedSize)
    && forall f | f in fills && f.coin == coin :: f.timeMs < since
  }

  lemma PositionsExactAt(book: Book, previous: Option<ReconciliationRow>, snapshot: AccountSnapshot, coin: Coin)
    requires DistinctCoins(snapshot.positions)
    ensures var d := Compare(book, previous, snapshot);
            var unexplained := PositionUnexplained(
              book.positions, book.fills, snapshot.positions, IsBaseline(previous), WindowStart(previous), coin);
            && (coin in d.unexplainedPositions <==> unexplained)
            && (coin in d.positions <==> coin in book.positions || coin in CoinsOf(snapshot.positions))
            && (unexplained ==> d.positions[coin] == book.positions[coin])
            && (coin in d.positions && !unexplained ==>
                  d.positions[coin].signedSize == SizeOrZero(snapshot.positions, coin))
            && (coin in book.positions ==> d.positions[coin].source == book.positions[coin].source)
  {
    var baseline, since := IsBaseline(previous), WindowStart(previous);
    DiffPositionsExact(book.positions, book.fills, snapshot.positions, baseline, since, coin);
    ListedIffCoin(snapshot.positions, coin);
    if coin in book.positions {
      ShowsSizeExactly(snapshot.positions, coin, book.positions[coin].signedSize);
    }
  }

  /** With distinct coins the two position loops compute exactly the declarative difference: the
      unexplained coins are the projected ones of which the snapshot shows another size (zero if absent)
      without a fill in the window; they keep their row, and all other coins agree with the
      snapshot. */
  lemma PositionsExact(book: Book, previous: Option<ReconciliationRow>, snapshot: AccountSnapshot)
    requires DistinctCoins(snapshot.positions)
    ensures var d := Compare(book, previous, snapshot);
            && (forall c :: c in d.unexplainedPositions <==> PositionUnexplained(
                 book.positions, book.fills, snapshot.positions, IsBaseline(previous), WindowStart(previous), c))
            && (forall c :: c in d.positions <==>
                  c in book.positions || exists p | p in snapshot.positions :: p.coin == c)
            && (forall c | c in d.unexplainedPositions :: c in book.positions && d.positions[c] == book.positions[c])
            && (forall c | c in d.positions && c !in d.unexplainedPositions ::
                  ShowsSize(snapshot.positions, c, d.positions[c].signedSize))
            && (forall c | c in book.positions :: d.positions[c].source == book.positions[c].source)
  {
    forall c
      ensures var d := Compare(book, previous, snapshot);
              var unexplained := PositionUnexplained(
                book.positions, book.fills, snapshot.positions, IsBaseline(previous), WindowStart(previous), c);
              && (c in d.unexplainedPositions <==> unexplained)
              && (c in d.positions <==> c in book.positions || c in CoinsOf(snapshot.positions))
              && (unexplained ==> d.positions[c] == book.positions[c])
              && (c in d.positions && !unexplained ==> ShowsSize(snapshot.positions, c, d.positions[c].signedSize))
              && (c in book.positions ==> d.positions[c].source == book.positions[c].source)
    {
      PositionsExactAt(book, previous, snapshot, c);
      ShowsSizeExactly(snapshot.positions, c, SizeOrZero(snapshot.positions, c));
    }
  }

  /** Facts, projections and positions of other coins never change whether a coin is unexplained. */
  lemma OtherCoinsExplainNothing(
    book: Book, other: Book, previous: Option<ReconciliationRow>, snapshot: AccountSnapshot, shown: AccountSnapshot,
    coin: Coin)
    requires DistinctCoins(snapshot.positions) && DistinctCoins(shown.positions)
    requires Lookup(book.positions, coin) == Lookup(other.positions, coin)
    requires forall p: Position | p.coin == coin :: p in snapshot.positions <==> p in shown.positions
    requires forall f: FillFact | f.coin == coin :: f in book.fills <==> f in other.fills
    ensures coin in Compare(book, previous, snapshot).unexplainedPositions
            <==> coin in Compare(other, previous, shown).unexplainedPositions
  {
    PositionsExactAt(book, previous, snapshot, coin);
    PositionsExactAt(other, previous, shown, coin);
  }

  /** Every projected order was imported with the baseline or has a recorded update. */
  ghost predicate Provenance(book: Book) {
    forall oid | oid in book.orders :: book.orders[oid].source.FromBaseline? || HasUpdate(book.updates, oid, 0)
  }

  lemma ProvenanceKept(book: Book, previous: Option<ReconciliationRow>, snapshot: AccountSnapshot)
    requires Provenance(book)
    ensures Provenance(UpdatedBook(book, Compare(book, previous, snapshot), snapshot))
  {
    var baseline, since := IsBaseline(previous), WindowStart(previous);
    var after := UpdatedBook(book, Compare(book, previous, snapshot), snapshot);
    forall oid | oid in after.orders
      ensures after.orders[oid].source.FromBaseline? || HasUpdate(after.updates, oid, 0)
    {
      DiffOrdersExact(book.orders, book.updates, snapshot.openOrders, baseline, since, oid);
      if oid !in book.orders && !baseline {
        var u :| u in book.updates && u.oid == oid && u.timeMs >= since;
        assert HasUpdate(after.updates, oid, 0);
      }
    }
  }

  // ---------- Repeating a snapshot ----------

  lemma RepeatedOrder(
    book: Book, previous: Option<ReconciliationRow>, snapshot: AccountSnapshot, again: AccountSnapshot, oid: Oid)
    requires again.openOrders == snapshot.openOrders && WindowStart(previous) <= snapshot.observedAt
    ensures var first := Compare(book, previous, snapshot);
            var second := Compare(
              UpdatedBook(book, first, snapshot), Some(NextRow(previous, first, snapshot)), again);
            && (oid in second.unexplainedOrders <==> oid in first.unexplainedOrders)
            && (oid in second.orders <==> oid in first.orders)
            && (oid in first.orders ==> second.orders[oid] == first.orders[oid])
  {
    var first := Compare(book, previous, snapshot);
    var row, after := NextRow(previous, first, snapshot), UpdatedBook(book, first, snapshot);
    DiffOrdersExact(
      book.orders, book.updates, snapshot.openOrders, IsBaseline(previous), WindowStart(previous), oid);
    DiffOrdersExact(after.orders, after.updates, again.openOrders, false, WindowStart(Some(row)), oid);
  }

  lemma RepeatedPosition(
    book: Book, previous: Option<ReconciliationRow>, snapshot: AccountSnapshot, again: AccountSnapshot, coin: Coin)
    requires DistinctCoins(snapshot.positions)
    requires again.positions == snapshot.positions && WindowStart(previous) <= snapshot.observedAt
    ensures var first := Compare(book, previous, snapshot);
            var second := Compare(
              UpdatedBook(book, first, snapshot), Some(NextRow(previous, first, snapshot)), again);
            && (coin in second.unexplainedPositions <==> coin in first.unexplainedPositions)
            && (coin in second.positions <==> coin in first.positions)
            && (coin in first.positions ==> second.positions[coin] == first.positions[coin])
  {
    var first := Compare(book, previous, snapshot);
    var row, after := NextRow(previous, first, snapshot), UpdatedBook(book, first, snapshot);
    PositionsExactAt(book, previous, snapshot, coin);
    PositionsExactAt(after, Some(row), again, coin);
    ShowsSizeExactly(snapshot.positions, coin, SizeOrZero(snapshot.positions, coin));
    if coin in book.positions {
      ShowsSizeExactly(snapshot.positions, coin, book.positions[coin].signedSize);
    }
  }

  /** Recording the same positions and orders again, with no new facts in between, finds the same
      unexplained orders and positions and leaves the projections as they are: a discrepancy never
      clears by itself. */
  lemma RepeatedSnapshotIsStable(
    book: Book, previous: Option<ReconciliationRow>, snapshot: AccountSnapshot, again: AccountSnapshot)
    requires DistinctCoins(snapshot.positions)
    requires again.positions == snapshot.positions && again.openOrders == snapshot.openOrders
    requires WindowStart(previous) <= snapshot.observedAt
    ensures var first := Compare(book, previous, snapshot);
            var row := NextRow(previous, first, snapshot);
            var second := Compare(UpdatedBook(book, first, snapshot), Some(row), again);
            && second.orders == first.orders
            && second.positions == first.positions
            && second.unexplainedPositions == first.unexplainedPositions
            && (forall oid :: oid in second.unexplainedOrders <==> oid in first.unexplainedOrders)
  {
    var first := Compare(book, previous, snapshot);
    var row := NextRow(previous, first, snapshot);
    var second := Compare(UpdatedBook(book, first, snapshot), Some(row), again);
    forall oid
      ensures oid in second.unexplainedOrders <==> oid in first.unexplainedOrders
      ensures oid in second.orders <==> oid in first.orders
      ensures oid in first.orders ==> second.orders[oid] == first.orders[oid]
    {
      RepeatedOrder(book, previous, snapshot, again, oid);
    }
    forall c
      ensures c in second.unexplainedPositions <==> c in first.unexplainedPositions
      ensures c in second.positions <==> c in first.positions
      ensures c in first.positions ==> second.positions[c] == first.positions[c]
    {
      RepeatedPosition(book, previous, snapshot, again, c);
    }
  }

  // ---------- The mode machine ----------

  /** Normal, ready and without a reason code are the same thing; only close-only has a streak. */
  predicate RowConsistent(row: ReconciliationRow) {
    && (row.mode.Normal? <==> row.ready)
    && (row.ready <==> row.reasonCode.None?)
    && (row.cleanStreak > 0 ==> row.mode.CloseOnly?)
  }

  lemma NextRowConsistent(previous: Option<ReconciliationRow>, diff: Diff, snapshot: AccountSnapshot)
    requires previous.Some? ==> RowConsistent(previous.value)
    ensures RowConsistent(NextRow(previous, diff, snapshot))
  {
  }

  /** The baseline suppresses every unexplained order and position. */
  lemma BaselineExplainsEverything(book: Book, previous: Option<ReconciliationRow>, snapshot: AccountSnapshot)
    requires IsBaseline(previous)
    ensures var d := Compare(book, previous, snapshot);
            d.unexplainedOrders == [] && d.unexplainedPositions == {}
  {
    NoneUnexplained(book.orders, book.updates, snapshot.openOrders, WindowStart(previous));
    NonePositionUnexplained(book.positions, book.fills, snapshot.positions, WindowStart(previous));
  }

  lemma {:induction false} NoneUnexplained(
    rows: map<Oid, OrderRow>, updates: set<OrderUpdate>, orders: seq<OpenOrder>, since: nat)
    ensures DiffOrders(rows, updates, orders, true, since).unexplained == []
  {
    if orders != [] {
      NoneUnexplained(rows, updates, orders[..|orders| - 1], since);
    }
  }

  lemma {:induction false} NonePositionUnexplained(
    rows: map<Coin, PositionRow>, fills: set<FillFact>, positions: seq<Position>, since: nat)
    ensures DiffPositions(rows, fills, positions, true, since).unexplained == {}
  {
    if positions != [] {
      NonePositionUnexplained(rows, fills, positions[..|positions| - 1], since);
    }
  }

  /** One poll is all that is tolerated: a snapshot taken while new entries are halted ends the halt,
      in normal mode or in close-only. */
  lemma HaltLastsOnePoll(book: Book, previous: ReconciliationRow, snapshot: AccountSnapshot)
    requires previous.mode.HaltNewEntries?
    ensures var d := Compare(book, Some(previous), snapshot);
            var row := NextRow(Some(previous), d, snapshot);
            && !row.mode.HaltNewEntries?
            && (row.mode.Normal? <==> !Discrepancy(d, snapshot))
  {
    if IsBaseline(Some(previous)) {
      BaselineExplainsEverything(book, Some(previous), snapshot);
    }
  }

  /** The mode after a snapshot. Close-only stays, an unprotected position leads to it at once, and any
      other discrepancy on the second snapshot in a row; a clean snapshot outside close-only leads to
      normal mode. */
  lemma ModeAfterSnapshot(book: Book, previous: Option<ReconciliationRow>, snapshot: AccountSnapshot)
    ensures var d := Compare(book, previous, snapshot);
            var row := NextRow(previous, d, snapshot);
            var dirty := Discrepancy(d, snapshot);
            var closed := previous.Some? && previous.value.mode.CloseOnly?;
            var halted := previous.Some? && previous.value.mode.HaltNewEntries?;
            && (row.mode.CloseOnly? <==> closed || Unprotected(snapshot) || (halted && dirty))
            && (row.mode.HaltNewEntries? <==> !closed && !halted && dirty && !Unprotected(snapshot))
            && (row.mode.Normal? <==> !closed && !dirty)
  {
    if IsBaseline(previous) {
      BaselineExplainsEverything(book, previous, snapshot);
    }
  }

  /** The reason that an operator has to acknowledge: an uncovered position above all; in close-only the
      reason stays; on the second snapshot with a difference it tells an order from a mere position
      change. */
  lemma ReasonAfterSnapshot(book: Book, previous: Option<ReconciliationRow>, snapshot: AccountSnapshot)
    ensures var d := Compare(book, previous, snapshot);
            var reason := NextRow(previous, d, snapshot).reasonCode;
            var covered := forall row | row in snapshot.coverage :: row.covered;
            var closed := previous.Some? && previous.value.mode.CloseOnly?;
            var halted := previous.Some? && previous.value.mode.HaltNewEntries?;
            && (!covered ==> reason == Some("unprotected_position"))
            && (covered && closed ==> reason == previous.value.reasonCode)
            && (!closed ==>
                  && (reason == Some("unprotected_position") <==> !covered)
                  && (reason == Some("unknown_exchange_order") <==>
                      covered && halted && exists oid :: oid in d.unexplainedOrders)
                  && (reason == Some("unexplained_position_change") <==>
                      covered && halted && d.unexplainedOrders == [] && exists coin :: coin in d.unexplainedPositions)
                  && (reason == Some("reconciliation_discrepancy_pending") <==>
                      && covered && !halted
                      && ((exists oid :: oid in d.unexplainedOrders) || exists coin :: coin in d.unexplainedPositions))
                  && (reason == None <==>
                      && covered
                      && (forall oid :: oid !in d.unexplainedOrders) && forall coin :: coin !in d.unexplainedPositions))
  {
    var d := Compare(book, previous, snapshot);
    if IsBaseline(previous) {
      BaselineExplainsEverything(book, previous, snapshot);
    }
    assert d.unexplainedOrders != [] ==> d.unexplainedOrders[0] in d.unexplainedOrders;
    assert Unprotected(snapshot) <==> exists row | row in snapshot.coverage :: !row.covered;
    assert |"unprotected_position"| == 20 && |"unknown_exchange_order"| == 22;
    assert |"unexplained_position_change"| == 27 && |"reconciliation_discrepancy_pending"| == 34;
  }

  /** In normal mode after a snapshot, exactly if the account was not in close-only, every position is
      covered, every open order is projected or was updated in the window, and every projected position
      is as shown or has a fill of its coin in the window. The baseline needs no such explanation. */
  lemma NormalAfterSnapshotExactly(book: Book, previous: Option<ReconciliationRow>, snapshot: AccountSnapshot)
    requires DistinctCoins(snapshot.positions)
    ensures var row := NextRow(previous, Compare(book, previous, snapshot), snapshot);
            var baseline, since := IsBaseline(previous), WindowStart(previous);
            row.mode.Normal? <==>
            && !(previous.Some? && previous.value.mode.CloseOnly?)
            && (forall row | row in snapshot.coverage :: row.covered)
            && (forall o | o in snapshot.openOrders ::
                  !OrderUnexplained(book.orders, book.updates, o.oid, baseline, since))
            && (forall c :: !PositionUnexplained(
                  book.positions, book.fills, snapshot.positions, baseline, since, c))
  {
    var d := Compare(book, previous, snapshot);
    var baseline, since := IsBaseline(previous), WindowStart(previous);
    PositionsExact(book, previous, snapshot);
    forall oid
      ensures oid in d.unexplainedOrders <==>
              && (exists o | o in snapshot.openOrders :: o.oid == oid)
              && OrderUnexplained(book.orders, book.updates, oid, baseline, since)
    {
      DiffOrdersExact(book.orders, book.updates, snapshot.openOrders, baseline, since, oid);
    }
    assert d.unexplainedOrders != [] ==> d.unexplainedOrders[0] in d.unexplainedOrders;
    ModeAfterSnapshot(book, previous, snapshot);
  }
}
