/** What the order ledger of a protected execution holds. */
module ProtectionLedger {
  import opened Wrappers
  import opened Domain
  import opened Orders
  import opened Database

  function TargetName(k: nat): string { StableName(TargetRole(k)) }

  ghost predicate NoTargets(ledger: Ledger) {
    forall k: nat | k < 256 :: TargetName(k) !in ledger
  }

  /** The row of one target. */
  function TargetOrder(intent: TradeIntent, size: real, k: nat): LiveOrder
    requires k < |intent.exit.takeProfit|
  {
    ProtectionOrder(intent.intentId, TargetRole(k), TargetSize(size, intent.exit.takeProfit[k].positionPct))
  }

  /** The rows of the first n targets, on top of a ledger. */
  ghost predicate HoldsTargets(before: Ledger, after: Ledger, intent: TradeIntent, size: real, n: nat)
    requires n <= |intent.exit.takeProfit|
  {
    && (forall k: nat | k < n :: TargetName(k) in after
          && after[TargetName(k)] == TargetOrder(intent, size, k))
    && (forall name | name in before :: name in after && after[name] == before[name])
    && (forall name | name in after :: name in before || exists k: nat :: k < n && name == TargetName(k))
  }

  lemma InsertNext(ledger: Ledger, before: Ledger, intent: TradeIntent, size: real, n: nat)
    requires 0 < n <= |intent.exit.takeProfit|
    requires InsertTargets(ledger, intent, size, n - 1) == Some(before) && TargetName(n - 1) !in before
    ensures InsertTargets(ledger, intent, size, n)
        == Some(before[TargetName(n - 1) := TargetOrder(intent, size, n - 1)])
  {
  }

  /** Up to 256 targets each gets its own row. */
  lemma {:induction false} TargetsFit(ledger: Ledger, intent: TradeIntent, size: real, n: nat) returns (after: Ledger)
    requires NoTargets(ledger) && n <= |intent.exit.takeProfit| && n <= 256
    ensures InsertTargets(ledger, intent, size, n) == Some(after)
    ensures HoldsTargets(ledger, after, intent, size, n)
  {
    if n == 0 {
      after := ledger;
    } else {
      var before := TargetsFit(ledger, intent, size, n - 1);
      NextRoleIsFree(ledger, before, intent, size, n);
      InsertNext(ledger, before, intent, size, n);
      OneMoreTarget(ledger, before, intent, size, n);
      after := before[TargetName(n - 1) := TargetOrder(intent, size, n - 1)];
    }
  }

  /** The next one finds the role of the first one taken. */
  lemma NextTargetIsRefused(ledger: Ledger, intent: TradeIntent, size: real)
    requires NoTargets(ledger) && |intent.exit.takeProfit| > 256
    ensures InsertTargets(ledger, intent, size, 257).None?
  {
    var full := TargetsFit(ledger, intent, size, 256);
    assert TargetName(256) == TargetName(0) && TargetName(0) in full;
  }

  lemma {:induction false} TargetsStayRefused(ledger: Ledger, intent: TradeIntent, size: real, n: nat, m: nat)
    requires n <= m <= |intent.exit.takeProfit|
    requires InsertTargets(ledger, intent, size, n).None?
    ensures InsertTargets(ledger, intent, size, m).None?
  {
    if n < m {
      TargetsStayRefused(ledger, intent, size, n, m - 1);
    }
  }

  lemma TargetsFitExactly(ledger: Ledger, intent: TradeIntent, size: real, n: nat)
    requires NoTargets(ledger) && n <= |intent.exit.takeProfit|
    ensures var inserted := InsertTargets(ledger, intent, size, n);
            && (inserted.Some? <==> n <= 256)
            && (inserted.Some? ==> HoldsTargets(ledger, inserted.value, intent, size, n))
  {
    if n <= 256 {
      var after := TargetsFit(ledger, intent, size, n);
    } else {
      NextTargetIsRefused(ledger, intent, size);
      TargetsStayRefused(ledger, intent, size, 257, n);
    }
  }

  lemma NextRoleIsFree(ledger: Ledger, before: Ledger, intent: TradeIntent, size: real, n: nat)
    requires 0 < n <= 256 && n <= |intent.exit.takeProfit|
    requires NoTargets(ledger) && HoldsTargets(ledger, before, intent, size, n - 1)
    ensures TargetName(n - 1) !in before
  {
    TargetRolesDistinct(256);
    forall k: nat | k < n - 1 ensures TargetName(k) != TargetName(n - 1) {
      assert StableName(TargetRole(k)) != StableName(TargetRole(n - 1));
    }
  }

  lemma OneMoreTarget(ledger: Ledger, before: Ledger, intent: TradeIntent, size: real, n: nat)
    requires 0 < n <= |intent.exit.takeProfit|
    requires HoldsTargets(ledger, before, intent, size, n - 1)
    requires TargetName(n - 1) !in before
    ensures HoldsTargets(ledger, before[TargetName(n - 1) := TargetOrder(intent, size, n - 1)], intent, size, n)
  {
  }

  /** The ledger of a fully protected fill: the filled entry, one stop for the whole fill and one
      take-profit per target, in distinct roles. */
  ghost predicate ProtectedLedger(ledger: Ledger, intent: TradeIntent, entry: LiveOrder, size: real) {
    var targets := intent.exit.takeProfit;
    && |targets| <= 256
    && StableName(Entry) in ledger && ledger[StableName(Entry)] == entry
    && StableName(StopLoss) in ledger
    && ledger[StableName(StopLoss)] == ProtectionOrder(intent.intentId, StopLoss, size)
    && (forall k: nat | k < |targets| :: TargetName(k) in ledger
          && ledger[TargetName(k)] == TargetOrder(intent, size, k))
    && (forall name | name in ledger ::
          || name == StableName(Entry)
          || name == StableName(StopLoss)
          || exists k: nat :: k < |targets| && name == TargetName(k))
  }

  /** Protective orders can be recorded over a filled entry exactly for at most 256 targets, and then
      they are all there. */
  lemma InsertProtectionExact(ledger: Ledger, intent: TradeIntent, entry: LiveOrder, size: real)
    requires ledger == map[StableName(Entry) := entry]
    ensures InsertProtection(ledger, intent, size).Some? <==> |intent.exit.takeProfit| <= 256
    ensures InsertProtection(ledger, intent, size).Some? ==>
              && ProtectedLedger(InsertProtection(ledger, intent, size).value, intent, entry, size)
              && InsertProtection(ledger, intent, size).value != ledger
  {
    StableNameInjective(Entry, StopLoss);
    var withStop := ledger[StableName(StopLoss) := ProtectionOrder(intent.intentId, StopLoss, size)];
    forall k: nat | k < 256 ensures TargetName(k) !in withStop {
      StableNameInjective(Entry, TargetRole(k));
      StableNameInjective(StopLoss, TargetRole(k));
    }
    TargetsFitExactly(withStop, intent, size, |intent.exit.takeProfit|);
    if |intent.exit.takeProfit| <= 256 {
      var full := InsertTargets(withStop, intent, size, |intent.exit.takeProfit|).value;
      assert StableName(StopLoss) in withStop && StableName(Entry) in withStop;
      assert full[StableName(Entry)] == withStop[StableName(Entry)];
    }
  }

  function RequestedSize(ledger: Ledger, name: string): real {
    if name in ledger then ledger[name].requestedSize else 0.0
  }

  /** What the orders of the first n targets close together. */
  function TargetsRequested(ledger: Ledger, n: nat): real {
    if n == 0 then 0.0 else TargetsRequested(ledger, n - 1) + RequestedSize(ledger, TargetName(n - 1))
  }

  lemma {:induction false} TargetsRequestedIsTotal(ledger: Ledger, intent: TradeIntent, size: real, n: nat)
    requires n <= |intent.exit.takeProfit|
    requires forall k: nat | k < n :: TargetName(k) in ledger
               && ledger[TargetName(k)].requestedSize == TargetSize(size, intent.exit.takeProfit[k].positionPct)
    ensures TargetsRequested(ledger, n) == TargetSizeTotal(size, intent.exit.takeProfit[..n])
  {
    if n > 0 {
      TargetsRequestedIsTotal(ledger, intent, size, n - 1);
      assert intent.exit.takeProfit[..n][..n - 1] == intent.exit.takeProfit[..n - 1];
      assert TargetName(n - 1) in ledger;
    }
  }

  /** In the ledger of a protected fill the stop closes all of it, and so do the targets together. */
  lemma ProtectedLedgerClosesTheFill(ledger: Ledger, intent: TradeIntent, entry: LiveOrder, size: real)
    requires ProtectedLedger(ledger, intent, entry, size)
    requires PercentTotal(intent.exit.takeProfit) == 100
    ensures "entry" in ledger && ledger["entry"] == entry
    ensures "stop_loss" in ledger
    ensures ledger["stop_loss"] == LiveOrder(Cloid(intent.intentId, "stop_loss"), None, OpenVerified, size, 0.0, None)
    ensures TargetsRequested(ledger, |intent.exit.takeProfit|) == size
  {
    var targets := intent.exit.takeProfit;
    TargetsRequestedIsTotal(ledger, intent, size, |targets|);
    assert targets[..|targets|] == targets;
    TargetsCloseEverything(size, targets);
  }
}
