/** Which open orders protect a position, and whether they cover all of it (src/mainnet_read.rs). */
module Coverage {
  import opened Wrappers
  import opened Orders

  type Coin = string

  datatype Position = Position(coin: Coin, signedSize: real, entryPrice: Option<real>)

  datatype OpenOrder = OpenOrder(
    coin: Coin,
    oid: Oid,
    side: string,
    size: real,
    isTrigger: bool,
    reduceOnly: bool,
    triggerPrice: Option<real>)

  datatype ProtectionCoverage = ProtectionCoverage(
    coin: Coin,
    requiredSize: real,
    coveredSize: real,
    stopOrderCount: nat,
    covered: bool,
    reasonCode: Option<string>)

  function Abs(x: real): real { if x >= 0.0 then x else -x }

  predicate IsStopForPosition(position: Position, order: OpenOrder, reference: real) {
    && order.triggerPrice.Some?
    && order.coin == position.coin
    && order.reduceOnly
    && order.isTrigger
    && (if position.signedSize >= 0.0
        then order.side == "A" && order.triggerPrice.value < reference
        else order.side == "B" && order.triggerPrice.value > reference)
  }

  function Reference(position: Position, mids: map<Coin, real>): Option<real> {
    if position.coin in mids then Some(mids[position.coin]) else position.entryPrice
  }

  function EligibleOrders(position: Position, orders: seq<OpenOrder>, reference: Option<real>): seq<OpenOrder> {
    if reference.None? || orders == [] then []
    else
      var init := EligibleOrders(position, orders[..|orders| - 1], reference);
      var last := orders[|orders| - 1];
      if IsStopForPosition(position, last, reference.value) then init + [last] else init
  }

  function TotalSize(orders: seq<OpenOrder>): real {
    if orders == [] then 0.0 else TotalSize(orders[..|orders| - 1]) + orders[|orders| - 1].size
  }

  function CoverageOf(position: Position, orders: seq<OpenOrder>, mids: map<Coin, real>): ProtectionCoverage {
    var required := Abs(position.signedSize);
    var reference := Reference(position, mids);
    var eligible := EligibleOrders(position, orders, reference);
    var coveredSize := TotalSize(eligible);
    var covered := coveredSize >= required;
    ProtectionCoverage(
      position.coin, required, coveredSize, |eligible|, covered,
      if covered then None
      else if reference.None? then Some("missing_protection_reference_price")
      else Some("insufficient_reduce_only_stop_coverage"))
  }

  /** One row for each position that is not flat. */
  function EvaluateProtectionCoverage(
    positions: seq<Position>, orders: seq<OpenOrder>, mids: map<Coin, real>): seq<ProtectionCoverage>
  {
    if positions == [] then []
    else
      var init := EvaluateProtectionCoverage(positions[..|positions| - 1], orders, mids);
      var last := positions[|positions| - 1];
      if last.signedSize == 0.0 then init else init + [CoverageOf(last, orders, mids)]
  }

  ghost predicate AllCovered(coverage: seq<ProtectionCoverage>) {
    forall k | 0 <= k < |coverage| :: coverage[k].covered
  }

  /** Open stops on the loss side of the reference price add up to at least the position. */
  ghost predicate FullyProtected(position: Position, orders: seq<OpenOrder>, mids: map<Coin, real>) {
    StopSize(position, orders, Reference(position, mids)) >= Abs(position.signedSize)
  }

  /** What one order contributes to the protection of a position. */
  function Contribution(position: Position, order: OpenOrder, reference: Option<real>): real {
    if reference.Some? && IsStopForPosition(position, order, reference.value) then order.size else 0.0
  }

  function StopSize(position: Position, orders: seq<OpenOrder>, reference: Option<real>): real {
    if orders == [] then 0.0
    else StopSize(position, orders[..|orders| - 1], reference)
         + Contribution(position, orders[|orders| - 1], reference)
  }

  lemma {:induction false} CoveredSizeIsStopSize(position: Position, orders: seq<OpenOrder>, reference: Option<real>)
    ensures TotalSize(EligibleOrders(position, orders, reference)) == StopSize(position, orders, reference)
  {
    if orders != [] {
      CoveredSizeIsStopSize(position, orders[..|orders| - 1], reference);
      var init := EligibleOrders(position, orders[..|orders| - 1], reference);
      if reference.Some? {
        var last := orders[|orders| - 1];
        assert (init + [last])[..|init|] == init;
      }
    }
  }

  /** What a coverage row says: how much of the position the stops close, and why that is too little. */
  lemma CoverageRowMeaning(position: Position, orders: seq<OpenOrder>, mids: map<Coin, real>)
    ensures var row := CoverageOf(position, orders, mids);
            && row.coin == position.coin
            && row.coveredSize == StopSize(position, orders, Reference(position, mids))
            && (row.covered <==> FullyProtected(position, orders, mids))
            && (row.reasonCode.None? <==> row.covered)
            && (row.reasonCode == Some("insufficient_reduce_only_stop_coverage") <==>
                  !row.covered && (position.coin in mids || position.entryPrice.Some?))
            && (row.reasonCode == Some("missing_protection_reference_price") <==>
                  position.signedSize != 0.0 && position.coin !in mids && position.entryPrice.None?)
  {
    CoveredSizeIsStopSize(position, orders, Reference(position, mids));
    assert "missing_protection_reference_price"[0] != "insufficient_reduce_only_stop_coverage"[0];
  }

  /** All rows are covered exactly when every position that is not flat is fully protected. */
  lemma {:induction false} CoverageIsComplete(positions: seq<Position>, orders: seq<OpenOrder>, mids: map<Coin, real>)
    ensures AllCovered(EvaluateProtectionCoverage(positions, orders, mids)) <==>
            forall p | p in positions && p.signedSize != 0.0 :: FullyProtected(p, orders, mids)
  {
    if positions != [] {
      var init, last := positions[..|positions| - 1], positions[|positions| - 1];
      CoverageIsComplete(init, orders, mids);
      CoveredSizeIsStopSize(last, orders, Reference(last, mids));
      var rows := EvaluateProtectionCoverage(init, orders, mids);
      assert positions == init + [last];
      if last.signedSize != 0.0 {
        var all := rows + [CoverageOf(last, orders, mids)];
        assert AllCovered(all) <==> AllCovered(rows) && CoverageOf(last, orders, mids).covered by {
          assert forall k | 0 <= k < |rows| :: all[k] == rows[k];
          assert all[|rows|] == CoverageOf(last, orders, mids);
        }
      }
    }
  }

  lemma {:induction false} StopSizeWithout(position: Position, orders: seq<OpenOrder>, k: nat, reference: Option<real>)
    requires k < |orders|
    ensures StopSize(position, orders, reference)
            == StopSize(position, orders[..k] + orders[k + 1..], reference)
               + Contribution(position, orders[k], reference)
  {
    var rest := orders[..k] + orders[k + 1..];
    if k == |orders| - 1 {
      assert rest == orders[..k];
    } else {
      var init := orders[..|orders| - 1];
      StopSizeWithout(position, init, k, reference);
      assert rest[..|rest| - 1] == init[..k] + init[k + 1..];
    }
  }

  lemma {:induction false} StopSizeNonNegative(position: Position, orders: seq<OpenOrder>, reference: Option<real>)
    requires forall o | o in orders :: o.size >= 0.0
    ensures StopSize(position, orders, reference) >= 0.0
  {
    if orders != [] {
      StopSizeNonNegative(position, orders[..|orders| - 1], reference);
    }
  }

  /** Takes one occurrence of an order out of a list. */
  lemma TakeOut(orders: seq<OpenOrder>, order: OpenOrder) returns (k: nat, rest: seq<OpenOrder>)
    requires order in multiset(orders)
    ensures k < |orders| && orders[k] == order && rest == orders[..k] + orders[k + 1..]
    ensures multiset(orders) == multiset(rest) + multiset{order}
  {
    k :| k < |orders| && orders[k] == order;
    rest := orders[..k] + orders[k + 1..];
    assert orders == orders[..k] + [order] + orders[k + 1..];
  }

  /** Taking the last order out of a smaller list and out of a larger one leaves a smaller and a larger
      one. */
  lemma BothWithout(fewer: seq<OpenOrder>, more: seq<OpenOrder>) returns (k: nat, rest: seq<OpenOrder>)
    requires fewer != [] && multiset(fewer) <= multiset(more)
    ensures var init, last := fewer[..|fewer| - 1], fewer[|fewer| - 1];
            && k < |more| && more[k] == last && rest == more[..k] + more[k + 1..]
            && multiset(init) <= multiset(rest)
            && (multiset(fewer) == multiset(more) ==> multiset(init) == multiset(rest))
    ensures forall o | o in rest :: o in more
  {
    var init, last := fewer[..|fewer| - 1], fewer[|fewer| - 1];
    assert fewer == init + [last];
    k, rest := TakeOut(more, last);
    assert multiset(init) == multiset(fewer) - multiset{last};
    assert multiset(rest) == multiset(more) - multiset{last};
  }

  /** Coverage depends on which orders are open, not on their order, and further orders never
      lower it. */
  lemma {:induction false} StopSizeMonotone(
    position: Position, fewer: seq<OpenOrder>, more: seq<OpenOrder>, reference: Option<real>)
    requires multiset(fewer) <= multiset(more)
    ensures multiset(fewer) == multiset(more) ==>
              StopSize(position, fewer, reference) == StopSize(position, more, reference)
    ensures (forall o | o in more :: o.size >= 0.0) ==>
              StopSize(position, fewer, reference) <= StopSize(position, more, reference)
  {
    if fewer == [] {
      if forall o | o in more :: o.size >= 0.0 {
        StopSizeNonNegative(position, more, reference);
      }
      assert more != [] ==> more[0] in multiset(more);
    } else {
      var k, rest := BothWithout(fewer, more);
      StopSizeWithout(position, more, k, reference);
      StopSizeMonotone(position, fewer[..|fewer| - 1], rest, reference);
    }
  }

  lemma {:induction false} EligibleWithout(
    position: Position, orders: seq<OpenOrder>, k: nat, reference: Option<real>)
    requires k < |orders|
    ensures |EligibleOrders(position, orders, reference)|
            == |EligibleOrders(position, orders[..k] + orders[k + 1..], reference)|
               + if reference.Some? && IsStopForPosition(position, orders[k], reference.value) then 1 else 0
  {
    var rest := orders[..k] + orders[k + 1..];
    if k == |orders| - 1 {
      assert rest == orders[..k];
    } else {
      var init := orders[..|orders| - 1];
      EligibleWithout(position, init, k, reference);
      assert rest[..|rest| - 1] == init[..k] + init[k + 1..];
    }
  }

  /** What an open order adds to the row of a position, wherever it is listed: its size, if it is a
      reduce-only trigger on the coin of the position, on the side that closes it, and triggers on the
      loss side of the mid price, or of the entry price where there is no mid; otherwise nothing. Without
      orders there is no cover. */
  lemma OrderCountsExactly(position: Position, orders: seq<OpenOrder>, k: nat, mids: map<Coin, real>)
    requires k < |orders|
    ensures CoverageOf(position, [], mids).coveredSize == 0.0 && CoverageOf(position, [], mids).stopOrderCount == 0
    ensures var order, long := orders[k], position.signedSize >= 0.0;
            var stops := && order.coin == position.coin
                         && order.reduceOnly && order.isTrigger && order.triggerPrice.Some?
                         && order.side == (if long then "A" else "B");
            var reference := if position.coin in mids then Some(mids[position.coin]) else position.entryPrice;
            var loses := && reference.Some? && order.triggerPrice.Some?
                         && (long ==> order.triggerPrice.value < reference.value)
                         && (!long ==> order.triggerPrice.value > reference.value);
            var row := CoverageOf(position, orders, mids);
            var rest := CoverageOf(position, orders[..k] + orders[k + 1..], mids);
            if stops && loses
            then row.coveredSize == rest.coveredSize + order.size && row.stopOrderCount == rest.stopOrderCount + 1
            else row == rest
  {
    var reference, rest := Reference(position, mids), orders[..k] + orders[k + 1..];
    CoveredSizeIsStopSize(position, orders, reference);
    CoveredSizeIsStopSize(position, rest, reference);
    StopSizeWithout(position, orders, k, reference);
    EligibleWithout(position, orders, k, reference);
  }

  /** A reduce-only trigger on the coin of the position is open on its closing side, and triggers on the
      loss side of the mid price, or else of the entry price. */
  ghost predicate HasOwnStop(position: Position, orders: seq<OpenOrder>, mids: map<Coin, real>) {
    exists o | o in orders && o.coin == position.coin && o.reduceOnly && o.isTrigger && o.triggerPrice.Some? ::
      (position.coin in mids || position.entryPrice.Some?)
      && var reference := if position.coin in mids then mids[position.coin] else position.entryPrice.value;
         if position.signedSize > 0.0 then o.side == "A" && o.triggerPrice.value < reference
         else o.side == "B" && o.triggerPrice.value > reference
  }

  /** Orders of other coins alone never protect a position. */
  lemma ProtectionNeedsAStop(position: Position, orders: seq<OpenOrder>, mids: map<Coin, real>)
    requires position.signedSize != 0.0 && FullyProtected(position, orders, mids)
    ensures HasOwnStop(position, orders, mids)
  {
    var order := SomeStop(position, orders, Reference(position, mids));
  }

  lemma {:induction false} SomeStop(position: Position, orders: seq<OpenOrder>, reference: Option<real>)
      returns (order: OpenOrder)
    requires StopSize(position, orders, reference) > 0.0
    ensures order in orders && reference.Some? && IsStopForPosition(position, order, reference.value)
  {
    order := orders[|orders| - 1];
    if Contribution(position, order, reference) <= 0.0 {
      order := SomeStop(position, orders[..|orders| - 1], reference);
    }
  }

  /** Orders for other coins, orders that can open a position and orders without a trigger never change
      the row of a position. */
  lemma ForeignOrdersNeverCount(position: Position, orders: seq<OpenOrder>, k: nat, mids: map<Coin, real>)
    requires k < |orders|
    requires orders[k].coin != position.coin || !orders[k].reduceOnly || !orders[k].isTrigger
    ensures CoverageOf(position, orders, mids) == CoverageOf(position, orders[..k] + orders[k + 1..], mids)
  {
    OrderCountsExactly(position, orders, k, mids);
  }

  /** A trigger on the profit side of the reference price, or at it, never counts. */
  lemma ProfitSideNeverCounts(position: Position, order: OpenOrder, before: seq<OpenOrder>, reference: real)
    requires order.triggerPrice.Some?
    requires position.signedSize > 0.0 ==> order.triggerPrice.value >= reference
    requires position.signedSize < 0.0 ==> order.triggerPrice.value <= reference
    requires position.signedSize != 0.0
    ensures StopSize(position, before + [order], Some(reference)) == StopSize(position, before, Some(reference))
  {
    assert (before + [order])[..|before|] == before;
  }
}
