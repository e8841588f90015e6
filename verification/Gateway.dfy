/** The exchange gateway: order sizing, acceptance, confirmed fills and verified protection
    (src/live_gateway.rs). What the exchange answers is a parameter of each operation. */
module Gateway {
  import opened Wrappers
  import opened Domain
  import opened Orders
  import opened Coverage

  /** An order as the exchange describes it when asked by its id. */
  datatype ExchangeOrder = ExchangeOrder(
    oid: Oid,
    coin: Coin,
    side: string,
    size: real,
    isTrigger: bool,
    reduceOnly: bool,
    triggerPrice: real,
    cloid: Option<Cloid>)

  /** An order to send; its size is counted in lots, the smallest size units of the asset. */
  datatype TriggerOrder = TriggerOrder(
    asset: string, isBuy: bool, reduceOnly: bool, lots: int, tpsl: string, cloid: Cloid)

  datatype OrderResponse =
    | Success
    | WaitingForFill
    | WaitingForTrigger
    | Resting(oid: Oid)
    | FilledResponse(fill: Option<ConfirmedFill>)
    | ErrorResponse(error: string)

  datatype ExchangeResponse = Accepted(statuses: Option<seq<OrderResponse>>) | Refused(error: string)

  /** One trade of the account; the sizes and prices of a malformed trade do not parse. */
  datatype UserFill = UserFill(oid: Oid, size: Option<real>, price: Option<real>)

  /** A size in lots of an asset with this many size decimals: each decimal makes lots ten times
      smaller. */
  function InLots(size: real, decimals: nat): real
    decreases decimals
  {
    if decimals == 0 then size else InLots(10.0 * size, decimals - 1)
  }

  /** Rounds towards zero. */
  function Truncate(lots: real): int {
    if lots >= 0.0 then lots.Floor else -((-lots).Floor)
  }

  /** The lots that are sent for a size, unless none is left of it. */
  function RoundSize(decimals: Option<nat>, size: real): Result<int, GatewayFailure> {
    if decimals.None? then Err(Definite("asset is missing from exchange metadata"))
    else
      var lots := Truncate(InLots(size, decimals.value));
      if lots <= 0 then Err(Definite("order size rounds to zero at exchange precision")) else Ok(lots)
  }

  function Statuses(response: ExchangeResponse): Result<seq<OrderResponse>, GatewayFailure> {
    match response
    case Refused(error) => Err(Definite(error))
    case Accepted(None) => Err(OutcomeUnknown("exchange response omitted order statuses"))
    case Accepted(Some(statuses)) => Ok(statuses)
  }

  predicate Waiting(status: OrderResponse) {
    status.WaitingForTrigger? || status.Resting?
  }

  function FirstError(statuses: seq<OrderResponse>): Option<string> {
    if statuses == [] then None
    else if statuses[0].ErrorResponse? then Some(statuses[0].error)
    else FirstError(statuses[1..])
  }

  function RequireAllAccepted(response: ExchangeResponse): Result<(), GatewayFailure> {
    match Statuses(response)
    case Err(failure) => Err(failure)
    case Ok(statuses) =>
      if EachWaits(statuses) then Ok(())
      else if FirstError(statuses).Some? then Err(Definite(FirstError(statuses).value))
      else Err(OutcomeUnknown("protection response was not fully accepted"))
  }

  /** Every status that came back says that an order is waiting; there may be none at all. */
  ghost predicate AllWaiting(response: ExchangeResponse) {
    && response.Accepted? && response.statuses.Some?
    && forall s | s in response.statuses.value :: s.WaitingForTrigger? || s.Resting?
  }

  predicate EachWaits(statuses: seq<OrderResponse>) {
    forall s | s in statuses :: Waiting(s)
  }

  /** The exchange refused the request, or one of its orders. */
  ghost predicate SomeRejected(response: ExchangeResponse) {
    response.Refused? || (response.statuses.Some? && exists s | s in response.statuses.value :: s.ErrorResponse?)
  }

  lemma {:induction false} FirstErrorExists(statuses: seq<OrderResponse>)
    ensures FirstError(statuses).Some? <==> exists s | s in statuses :: s.ErrorResponse?
  {
    if statuses != [] && !statuses[0].ErrorResponse? {
      FirstErrorExists(statuses[1..]);
      assert statuses == [statuses[0]] + statuses[1..];
    }
  }

  lemma AllAcceptedExactly(response: ExchangeResponse)
    ensures RequireAllAccepted(response).Ok? <==> AllWaiting(response)
    ensures RequireAllAccepted(response).Err? && RequireAllAccepted(response).error.Definite? <==>
        SomeRejected(response)
  {
    if response.Accepted? && response.statuses.Some? {
      FirstErrorExists(response.statuses.value);
    }
  }

  /** The outcome of the immediate order that closes an unprotected entry. */
  function EmergencyCloseOutcome(response: ExchangeResponse): Result<ConfirmedFill, GatewayFailure> {
    match Statuses(response)
    case Err(failure) => Err(failure)
    case Ok(statuses) =>
      if |statuses| == 1 && statuses[0].FilledResponse? then
        (if statuses[0].fill.Some? then Ok(statuses[0].fill.value)
         else Err(OutcomeUnknown("exchange returned an invalid fill")))
      else if |statuses| == 1 && statuses[0].ErrorResponse? then Err(Definite(statuses[0].error))
      else Err(OutcomeUnknown("IOC response did not contain one confirmed fill"))
  }

  predicate IsVerifiedStop(intent: TradeIntent, fill: ConfirmedFill, order: ExchangeOrder) {
    && order.cloid == Some(DeterministicCloid(intent.intentId, StopLoss))
    && order.coin == intent.symbol
    && order.reduceOnly
    && order.isTrigger
    && order.side == (if intent.side.Long? then "A" else "B")
    && order.size >= fill.size
  }

  /** What one poll of the open orders returns: nothing if a request failed. */
  type Poll = Option<seq<Option<ExchangeOrder>>>

  /** The order is the stop sent for this very intent: a reduce-only trigger on its symbol with the client
      order id of its stop, which sells a long fill and buys back a short one, and closes all of it. */
  ghost predicate ClosesFill(intent: TradeIntent, fill: ConfirmedFill, order: ExchangeOrder) {
    && order.cloid.Some?
    && order.cloid.value.intentId == intent.intentId && order.cloid.value.roleName == "stop_loss"
    && order.coin == intent.symbol
    && order.reduceOnly && order.isTrigger
    && (intent.side == Long ==> order.side == "A")
    && (intent.side == Short ==> order.side == "B")
    && fill.size <= order.size
  }

  lemma VerifiedStopExactly(intent: TradeIntent, fill: ConfirmedFill, order: ExchangeOrder)
    ensures IsVerifiedStop(intent, fill, order) <==> ClosesFill(intent, fill, order)
  {
  }

  ghost predicate PollVerifies(intent: TradeIntent, fill: ConfirmedFill, poll: seq<Option<ExchangeOrder>>) {
    exists k :: 0 <= k < |poll| && poll[k].Some? && ClosesFill(intent, fill, poll[k].value)
  }

  /** Some poll shows the stop, and no request failed before it. */
  ghost predicate Verified(intent: TradeIntent, fill: ConfirmedFill, polls: seq<Poll>) {
    exists n :: 0 <= n < |polls| && polls[n].Some? && PollVerifies(intent, fill, polls[n].value)
                && forall m | 0 <= m < n :: polls[m].Some?
  }

  /** All polls could be read, and none shows the stop. */
  ghost predicate Refuted(intent: TradeIntent, fill: ConfirmedFill, polls: seq<Poll>) {
    forall n | 0 <= n < |polls| :: polls[n].Some? && !PollVerifies(intent, fill, polls[n].value)
  }

  /** The first poll that failed or showed the stop decides; five polls without either refute it. */
  method VerifyProtection(intent: TradeIntent, fill: ConfirmedFill, polls: seq<Poll>)
    returns (result: Result<(), GatewayFailure>)
    requires |polls| == 5
    ensures result.Ok? <==> Verified(intent, fill, polls)
    ensures result.Err? && result.error.Definite? <==> Refuted(intent, fill, polls)
  {
    forall order ensures IsVerifiedStop(intent, fill, order) <==> ClosesFill(intent, fill, order) {
      VerifiedStopExactly(intent, fill, order);
    }
    for n := 0 to 5
      invariant forall m | 0 <= m < n :: polls[m].Some? && !PollVerifies(intent, fill, polls[m].value)
    {
      if polls[n].None? {
        return Err(OutcomeUnknown("open orders could not be read"));
      }
      var open := polls[n].value;
      for k := 0 to |open|
        invariant forall j | 0 <= j < k :: open[j].None? || !ClosesFill(intent, fill, open[j].value)
      {
        if open[k].Some? && IsVerifiedStop(intent, fill, open[k].value) {
          assert PollVerifies(intent, fill, polls[n].value);
          return Ok(());
        }
      }
    }
    return Err(Definite("authoritative open orders do not provide full stop-loss coverage"));
  }

  /** Protection is verified by nothing but the stop sent for the intent: not by orders without a client
      order id, not by those sent for other intents, and not by the targets or the entry of its own. */
  lemma OnlyTheOwnStopVerifies(
    intent: TradeIntent, fill: ConfirmedFill, polls: seq<Poll>, sent: ExchangeOrder -> Option<(IntentId, OrderRole)>)
    requires forall n, k | 0 <= n < |polls| && polls[n].Some? && 0 <= k < |polls[n].value| && polls[n].value[k].Some? ::
               var order := polls[n].value[k].value;
               match sent(order)
               case None => order.cloid.None?
               case Some((id, role)) =>
                 order.cloid == Some(DeterministicCloid(id, role)) && (id != intent.intentId || role != StopLoss)
    ensures !Verified(intent, fill, polls)
  {
    forall n, k | 0 <= n < |polls| && polls[n].Some? && 0 <= k < |polls[n].value| && polls[n].value[k].Some?
      ensures !ClosesFill(intent, fill, polls[n].value[k].value)
    {
      var order := polls[n].value[k].value;
      if sent(order).Some? {
        StableNameInjective(sent(order).value.1, StopLoss);
      }
    }
  }

  /** The reduce-only orders that protect a fill: the stop first, then one per target. */
  function ProtectiveOrder(intent: TradeIntent, lots: int, tpsl: string, role: OrderRole): TriggerOrder {
    TriggerOrder(intent.symbol, intent.side.Short?, true, lots, tpsl, DeterministicCloid(intent.intentId, role))
  }

  function LegSize(intent: TradeIntent, fill: ConfirmedFill, k: nat): real
    requires k < |intent.exit.takeProfit|
  {
    TargetSize(fill.size, intent.exit.takeProfit[k].positionPct)
  }

  /** Stop and targets all have at least one lot. */
  ghost predicate Sized(intent: TradeIntent, fill: ConfirmedFill, decimals: Option<nat>) {
    && RoundSize(decimals, fill.size).Ok?
    && forall k | 0 <= k < |intent.exit.takeProfit| :: RoundSize(decimals, LegSize(intent, fill, k)).Ok?
  }

  ghost predicate IsProtection(
    intent: TradeIntent, fill: ConfirmedFill, decimals: Option<nat>, orders: seq<TriggerOrder>)
  {
    && |orders| == 1 + |intent.exit.takeProfit|
    && RoundSize(decimals, fill.size).Ok?
    && orders[0] == ProtectiveOrder(intent, RoundSize(decimals, fill.size).value, "sl", StopLoss)
    && forall k {:trigger LegSize(intent, fill, k)} | 0 <= k < |intent.exit.takeProfit| ::
         && RoundSize(decimals, LegSize(intent, fill, k)).Ok?
         && orders[k + 1] == ProtectiveOrder(
              intent, RoundSize(decimals, LegSize(intent, fill, k)).value, "tp", TargetRole(k))
  }

  /** Whatever can be sized can be sent. */
  lemma SizedCanBeSent(intent: TradeIntent, fill: ConfirmedFill, decimals: Option<nat>)
      returns (orders: seq<TriggerOrder>)
    requires Sized(intent, fill, decimals)
    ensures IsProtection(intent, fill, decimals, orders)
  {
    var total := RoundSize(decimals, fill.size).value;
    var n := |intent.exit.takeProfit|;
    orders := [ProtectiveOrder(intent, total, "sl", StopLoss)] + seq(n, k requires 0 <= k < n =>
      ProtectiveOrder(intent, RoundSize(decimals, LegSize(intent, fill, k)).value, "tp", TargetRole(k)));
  }

  /** Builds the protective orders; one size that truncates to nothing refuses all of them. */
  method ProtectiveOrders(intent: TradeIntent, fill: ConfirmedFill, decimals: Option<nat>)
    returns (result: Result<seq<TriggerOrder>, GatewayFailure>)
    ensures result.Ok? <==> Sized(intent, fill, decimals)
    ensures result.Ok? ==> IsProtection(intent, fill, decimals, result.value)
    ensures result.Err? ==> result.error.Definite?
  {
    var total := RoundSize(decimals, fill.size);
    if total.Err? {
      return Err(total.error);
    }
    var orders := [ProtectiveOrder(intent, total.value, "sl", StopLoss)];
    for i := 0 to |intent.exit.takeProfit|
      invariant |orders| == i + 1
      invariant orders[0] == ProtectiveOrder(intent, total.value, "sl", StopLoss)
      invariant forall k {:trigger LegSize(intent, fill, k)} | 0 <= k < i ::
        && RoundSize(decimals, LegSize(intent, fill, k)).Ok?
        && orders[k + 1] == ProtectiveOrder(
             intent, RoundSize(decimals, LegSize(intent, fill, k)).value, "tp", TargetRole(k))
    {
      var leg := RoundSize(decimals, LegSize(intent, fill, i));
      if leg.Err? {
        return Err(leg.error);
      }
      orders := orders + [ProtectiveOrder(intent, leg.value, "tp", TargetRole(i))];
    }
    return Ok(orders);
  }

  /** Every order was sized, the exchange accepted all it lists, and its open orders then show the
      stop. */
  ghost predicate Established(
    intent: TradeIntent, fill: ConfirmedFill, decimals: Option<nat>, response: Option<ExchangeResponse>,
    polls: seq<Poll>)
  {
    && Sized(intent, fill, decimals)
    && response.Some? && AllWaiting(response.value)
    && Verified(intent, fill, polls)
  }

  /** Protection stands only if it is established, and then with the statuses that the exchange listed.
      It failed for certain only if a size truncates to nothing, the exchange rejected an order, or five
      polls show no stop; a request without an answer settles nothing. */
  method EstablishProtection(
    intent: TradeIntent, fill: ConfirmedFill, decimals: Option<nat>, response: Option<ExchangeResponse>,
    polls: seq<Poll>)
    returns (result: Result<seq<OrderResponse>, GatewayFailure>)
    requires |polls| == 5
    ensures result.Ok? <==> Established(intent, fill, decimals, response, polls)
    ensures result.Ok? ==> EachWaits(result.value) && response == Some(Accepted(Some(result.value)))
    ensures result.Err? && result.error.Definite? <==>
            || !Sized(intent, fill, decimals)
            || (response.Some? && SomeRejected(response.value))
            || (response.Some? && AllWaiting(response.value) && Refuted(intent, fill, polls))
  {
    var orders := ProtectiveOrders(intent, fill, decimals);
    if orders.Err? {
      return Err(orders.error);
    }
    if response.None? {
      return Err(OutcomeUnknown("no response"));
    }
    AllAcceptedExactly(response.value);
    var accepted := RequireAllAccepted(response.value);
    if accepted.Err? {
      return Err(accepted.error);
    }
    var verified := VerifyProtection(intent, fill, polls);
    if verified.Err? {
      return Err(verified.error);
    }
    return Ok(response.value.statuses.value);
  }

  /** Only the stop is looked for among the open orders: a response that leaves out any number of its
      last statuses establishes protection all the same, down to one that lists none. */
  lemma TargetsAreNeverVerified(
    intent: TradeIntent, fill: ConfirmedFill, decimals: Option<nat>, statuses: seq<OrderResponse>, polls: seq<Poll>,
    n: nat)
    requires Established(intent, fill, decimals, Some(Accepted(Some(statuses))), polls) && n <= |statuses|
    ensures Established(intent, fill, decimals, Some(Accepted(Some(statuses[..n]))), polls)
  {
    assert forall s | s in statuses[..n] :: s in statuses;
  }

  /** The order has a status of its own, and it is waiting. Statuses are listed in the order of the
      request. */
  predicate IsTaken(statuses: seq<OrderResponse>, k: nat) {
    k < |statuses| && Waiting(statuses[k])
  }

  ghost predicate AllTaken(orders: seq<TriggerOrder>, statuses: seq<OrderResponse>) {
    forall k: nat | k < |orders| :: IsTaken(statuses, k)
  }

  /** Of accepted protective orders exactly those were taken that have a status. All of them were,
      exactly if the response lists one more status than there are targets (or even more). */
  lemma OrdersTakenExactly(
    intent: TradeIntent, fill: ConfirmedFill, decimals: Option<nat>, orders: seq<TriggerOrder>,
    statuses: seq<OrderResponse>)
    requires IsProtection(intent, fill, decimals, orders) && EachWaits(statuses)
    ensures forall k: nat | k < |orders| :: IsTaken(statuses, k) <==> k < |statuses|
    ensures AllTaken(orders, statuses) <==> |statuses| >= |intent.exit.takeProfit| + 1
    ensures |statuses| <= |orders| ==>
              (AllTaken(orders, statuses) <==> |statuses| == |intent.exit.takeProfit| + 1)
  {
    assert AllTaken(orders, statuses) ==> IsTaken(statuses, |orders| - 1);
  }

  // ---------- Arithmetic ----------

  lemma ScaledOrder(a: real, b: real, factor: real)
    requires factor > 0.0
    ensures a * factor <= b * factor <==> a <= b
  {
    assert (b - a) * factor == b * factor - a * factor;
    if a > b {
      assert (a - b) * factor > 0.0;
    } else {
      assert (b - a) * factor >= 0.0;
    }
  }

  lemma ScaledSum(factor: real, a: real, b: real)
    ensures factor * (a + b) == factor * a + factor * b
  {
  }

  // ---------- Truncation ----------

  function Power(base: nat, exponent: nat): nat {
    if exponent == 0 then 1 else base * Power(base, exponent - 1)
  }

  /** With this many decimals a unit has a power of ten lots. */
  lemma {:induction false} InLotsExactly(size: real, decimals: nat)
    ensures InLots(size, decimals) == size * Power(10, decimals) as real
    decreases decimals
  {
    if decimals > 0 {
      InLotsExactly(10.0 * size, decimals - 1);
      TenfoldFactor(size, Power(10, decimals - 1));
    }
  }

  lemma TenfoldFactor(size: real, power: nat)
    ensures (10.0 * size) * power as real == size * (10 * power) as real
  {
  }

  lemma TruncateExactly(x: real, lots: int)
    ensures Truncate(x) > 0 && Truncate(x) == lots <==> 1 <= lots && lots as real <= x < lots as real + 1.0
    ensures Truncate(x) > 0 <==> x >= 1.0
  {
  }

  /** A size is sent as the whole lots that it contains, and is refused exactly if the asset is unknown or
      the size contains no lot. */
  lemma RoundSizeExactly(decimals: Option<nat>, size: real, lots: int)
    ensures RoundSize(decimals, size) == Ok(lots) <==>
            && decimals.Some?
            && 1 <= lots && lots as real <= InLots(size, decimals.value) < lots as real + 1.0
    ensures RoundSize(decimals, size).Ok? <==> decimals.Some? && 1.0 <= InLots(size, decimals.value)
    ensures RoundSize(decimals, size).Err? ==> RoundSize(decimals, size).error.Definite?
  {
    if decimals.Some? {
      TruncateExactly(InLots(size, decimals.value), lots);
    }
  }

  /** A size of a whole number of lots is sent in full; any other is sent short, so the stop it gets
      is smaller than the fill and its protection is never verified. */
  lemma TruncationIsIdentityOnLots(lots: real)
    requires lots >= 0.0
    ensures 0.0 <= Truncate(lots) as real <= lots < Truncate(lots) as real + 1.0
    ensures Truncate(lots) as real >= lots <==> lots == lots.Floor as real
  {
  }

  /** The lots sent for all take-profit legs of a fill. */
  function LegLots(fillLots: real, targets: seq<TakeProfitTarget>): int {
    if targets == [] then 0
    else LegLots(fillLots, targets[..|targets| - 1])
         + Truncate(TargetSize(fillLots, targets[|targets| - 1].positionPct))
  }

  lemma {:induction false} LegLotsBound(fillLots: real, targets: seq<TakeProfitTarget>)
    requires fillLots >= 0.0
    ensures LegLots(fillLots, targets) as real <= TargetSizeTotal(fillLots, targets)
    ensures TargetSizeTotal(fillLots, targets) <= LegLots(fillLots, targets) as real + |targets| as real
    ensures targets != [] ==>
              TargetSizeTotal(fillLots, targets) < LegLots(fillLots, targets) as real + |targets| as real
  {
    if targets != [] {
      var last := TargetSize(fillLots, targets[|targets| - 1].positionPct);
      LegLotsBound(fillLots, targets[..|targets| - 1]);
      assert last >= 0.0;
    }
  }

  /** For any percentages totalling 100 the truncated legs never exceed the truncated stop, and fall
      short of it by less than one lot per leg. */
  lemma LegsNeverOverAllocate(fillLots: real, targets: seq<TakeProfitTarget>)
    requires fillLots >= 0.0
    requires PercentTotal(targets) == 100
    ensures LegLots(fillLots, targets) <= Truncate(fillLots) < LegLots(fillLots, targets) + |targets|
  {
    TargetsCloseEverything(fillLots, targets);
    LegLotsBound(fillLots, targets);
  }

  lemma {:induction false} TargetSizeInLots(size: real, pct: Percent, decimals: nat)
    ensures InLots(TargetSize(size, pct), decimals) == TargetSize(InLots(size, decimals), pct)
    decreases decimals
  {
    if decimals > 0 {
      assert 10.0 * TargetSize(size, pct) == TargetSize(10.0 * size, pct);
      TargetSizeInLots(10.0 * size, pct, decimals - 1);
    }
  }

  lemma {:induction false} InLotsKeepsSign(size: real, decimals: nat)
    ensures InLots(size, decimals) >= 0.0 <==> size >= 0.0
    decreases decimals
  {
    if decimals > 0 {
      InLotsKeepsSign(10.0 * size, decimals - 1);
    }
  }

  function TotalLots(orders: seq<TriggerOrder>): int {
    if orders == [] then 0 else TotalLots(orders[..|orders| - 1]) + orders[|orders| - 1].lots
  }

  /** The take-profit orders of a fill together hold the lots computed from the fill in lots. */
  lemma {:induction false} SentLegLots(
    size: real, decimals: nat, legs: seq<TriggerOrder>, targets: seq<TakeProfitTarget>)
    requires |legs| == |targets|
    requires forall k | 0 <= k < |legs| ::
               RoundSize(Some(decimals), TargetSize(size, targets[k].positionPct)) == Ok(legs[k].lots)
    ensures TotalLots(legs) == LegLots(InLots(size, decimals), targets)
  {
    if legs != [] {
      SentLegLots(size, decimals, legs[..|legs| - 1], targets[..|targets| - 1]);
      var pct := targets[|targets| - 1].positionPct;
      assert RoundSize(Some(decimals), TargetSize(size, pct)) == Ok(legs[|legs| - 1].lots);
      TargetSizeInLots(size, pct, decimals);
    }
  }

  /** The protective orders that are sent for a validated intent: the legs never exceed the stop, and
      fall short of it by less than one lot each. */
  lemma SentProtectionFits(intent: TradeIntent, fill: ConfirmedFill, decimals: Option<nat>, orders: seq<TriggerOrder>)
    requires IsProtection(intent, fill, decimals, orders)
    requires PercentTotal(intent.exit.takeProfit) == 100
    ensures TotalLots(orders[1..]) <= orders[0].lots < TotalLots(orders[1..]) + |intent.exit.takeProfit|
  {
    LegsHaveLots(intent, fill, decimals, orders);
    InLotsKeepsSign(fill.size, decimals.value);
    LegsNeverOverAllocate(InLots(fill.size, decimals.value), intent.exit.takeProfit);
  }

  lemma HalfIsSent(lots: real)
    requires Truncate(lots) > 0
    ensures 2.0 * Truncate(lots) as real >= lots
  {
  }

  lemma {:induction false} HalfOfLegsIsSent(fillLots: real, targets: seq<TakeProfitTarget>)
    requires forall t | t in targets :: Truncate(TargetSize(fillLots, t.positionPct)) > 0
    ensures 2.0 * LegLots(fillLots, targets) as real >= TargetSizeTotal(fillLots, targets)
  {
    if targets != [] {
      var init, last := targets[..|targets| - 1], targets[|targets| - 1];
      assert last in targets && forall t | t in init :: t in targets;
      HalfOfLegsIsSent(fillLots, init);
      HalfIsSent(TargetSize(fillLots, last.positionPct));
    }
  }

  lemma LegsHaveLots(intent: TradeIntent, fill: ConfirmedFill, decimals: Option<nat>, orders: seq<TriggerOrder>)
    requires IsProtection(intent, fill, decimals, orders)
    ensures forall t | t in intent.exit.takeProfit ::
              Truncate(TargetSize(InLots(fill.size, decimals.value), t.positionPct)) > 0
    ensures TotalLots(orders[1..]) == LegLots(InLots(fill.size, decimals.value), intent.exit.takeProfit)
  {
    var targets, legs := intent.exit.takeProfit, orders[1..];
    forall k | 0 <= k < |legs|
      ensures RoundSize(Some(decimals.value), TargetSize(fill.size, targets[k].positionPct)) == Ok(legs[k].lots)
      ensures Truncate(TargetSize(InLots(fill.size, decimals.value), targets[k].positionPct)) > 0
    {
      assert legs[k] == orders[k + 1];
      assert LegSize(intent, fill, k) == TargetSize(fill.size, targets[k].positionPct);
      TargetSizeInLots(fill.size, targets[k].positionPct, decimals.value);
    }
    SentLegLots(fill.size, decimals.value, legs, targets);
  }

  lemma LargeTotal(fillLots: real, targets: seq<TakeProfitTarget>)
    requires fillLots > 0.0 && PercentTotal(targets) >= 0x1_0000
    ensures TargetSizeTotal(fillLots, targets) > 2.0 * fillLots
  {
    TargetSizesAddUp(fillLots, targets);
    LargeTotalExceeds(fillLots, PercentTotal(targets));
  }

  lemma LargeTotalExceeds(fillLots: real, total: nat)
    requires fillLots > 0.0 && total >= 0x1_0000
    ensures fillLots * total as real / 100.0 > 2.0 * fillLots
  {
    ScaledOrder(0x1_0000 as real, total as real, fillLots);
  }

  /** When the percentages wrapped in validation, the legs that are sent exceed the stop. */
  lemma WrappedTotalOverAllocates(
    intent: TradeIntent, fill: ConfirmedFill, decimals: Option<nat>, orders: seq<TriggerOrder>)
    requires IsProtection(intent, fill, decimals, orders)
    requires PercentTotal(intent.exit.takeProfit) >= 0x1_0000
    ensures TotalLots(orders[1..]) > orders[0].lots
  {
    var fillLots, targets := InLots(fill.size, decimals.value), intent.exit.takeProfit;
    LegsHaveLots(intent, fill, decimals, orders);
    HalfOfLegsIsSent(fillLots, targets);
    LargeTotal(fillLots, targets);
    assert orders[0].lots == Truncate(fillLots);
  }

  // ---------- Which intents can be protected ----------

  lemma {:induction false} ZeroStaysZero(decimals: nat)
    ensures InLots(0.0, decimals) == 0.0
    decreases decimals
  {
    if decimals > 0 {
      ZeroStaysZero(decimals - 1);
    }
  }

  predicate LegsPositive(intent: TradeIntent) {
    forall t | t in intent.exit.takeProfit :: t.positionPct > 0
  }

  /** Every target of an intent whose protection can be sent has a positive percentage. */
  lemma ProtectionHasPositiveLegs(
    intent: TradeIntent, fill: ConfirmedFill, decimals: Option<nat>, orders: seq<TriggerOrder>)
    requires IsProtection(intent, fill, decimals, orders)
    ensures LegsPositive(intent)
  {
    forall t | t in intent.exit.takeProfit ensures t.positionPct > 0 {
      var k :| 0 <= k < |intent.exit.takeProfit| && intent.exit.takeProfit[k] == t;
      assert RoundSize(decimals, LegSize(intent, fill, k)).Ok?;
      if t.positionPct == 0 {
        assert LegSize(intent, fill, k) == 0.0;
        ZeroStaysZero(decimals.value);
      }
    }
  }

  lemma {:induction false} PositiveTotal(targets: seq<TakeProfitTarget>)
    requires forall t | t in targets :: t.positionPct > 0
    ensures PercentTotal(targets) >= |targets|
  {
    if targets != [] {
      var init, last := targets[..|targets| - 1], targets[|targets| - 1];
      assert forall t | t in init :: t in targets;
      PositiveTotal(init);
      assert last in targets;
    }
  }

  // ---------- What is sent can be verified ----------

  lemma {:induction false} InLotsKeepsOrder(a: real, b: real, decimals: nat)
    ensures InLots(a, decimals) >= InLots(b, decimals) <==> a >= b
    decreases decimals
  {
    if decimals > 0 {
      InLotsKeepsOrder(10.0 * a, 10.0 * b, decimals - 1);
    }
  }

  /** How the exchange shows a resting order of this size. */
  function Shown(order: TriggerOrder, oid: Oid, size: real, triggerPrice: real): ExchangeOrder {
    ExchangeOrder(
      oid, order.asset, if order.isBuy then "B" else "A", size, true, order.reduceOnly, triggerPrice, Some(order.cloid))
  }

  /** The stop that is sent passes the protection check, when the exchange shows it as it was sent,
      exactly if the fill is a whole number of lots; of any other fill the stop is sent short, and its
      protection is never verified. */
  lemma SentStopIsVerified(
    intent: TradeIntent, fill: ConfirmedFill, decimals: Option<nat>, orders: seq<TriggerOrder>,
    oid: Oid, size: real, triggerPrice: real)
    requires IsProtection(intent, fill, decimals, orders)
    requires InLots(size, decimals.value) == orders[0].lots as real
    ensures IsVerifiedStop(intent, fill, Shown(orders[0], oid, size, triggerPrice)) <==>
            InLots(fill.size, decimals.value) == InLots(fill.size, decimals.value).Floor as real
  {
    InLotsKeepsOrder(size, fill.size, decimals.value);
    TruncationIsIdentityOnLots(InLots(fill.size, decimals.value));
  }

  // ---------- What is verified is what is counted ----------

  /** How the snapshot service records an open order. */
  function SnapshotOrder(order: ExchangeOrder): OpenOrder {
    OpenOrder(order.coin, order.oid, order.side, order.size, order.isTrigger, order.reduceOnly,
              if order.isTrigger then Some(order.triggerPrice) else None)
  }

  /** The position that a confirmed entry leaves open. */
  function FilledPosition(intent: TradeIntent, fill: ConfirmedFill, entryPrice: Option<real>): Position {
    Position(intent.symbol, if intent.side.Long? then fill.size else -fill.size, entryPrice)
  }

  /** If an open order passes the gateway's protection check and its trigger lies on the loss side
      of the mid, the snapshot service counts the filled position as covered, whatever other orders
      of non-negative size are open. */
  lemma VerifiedMeansCovered(
    intent: TradeIntent, fill: ConfirmedFill, stop: ExchangeOrder, orders: seq<OpenOrder>, mids: map<Coin, real>,
    entryPrice: Option<real>)
    requires fill.size > 0.0
    requires IsVerifiedStop(intent, fill, stop)
    requires SnapshotOrder(stop) in orders
    requires forall o | o in orders :: o.size >= 0.0
    requires intent.symbol in mids
    requires if intent.side.Long? then stop.triggerPrice < mids[intent.symbol]
        else stop.triggerPrice > mids[intent.symbol]
    ensures CoverageOf(FilledPosition(intent, fill, entryPrice), orders, mids).covered
  {
    var position := FilledPosition(intent, fill, entryPrice);
    var reference := Reference(position, mids);
    var order := SnapshotOrder(stop);
    assert multiset([order]) <= multiset(orders) by {
      assert order in multiset(orders);
    }
    StopSizeMonotone(position, [order], orders, reference);
    assert [order][..0] == [];
    assert StopSize(position, [order], reference) == order.size;
    CoveredSizeIsStopSize(position, orders, reference);
  }

  // ---------- Emergency close ----------

  /** Closes a fill again: the size is truncated to lots, and one immediate order is sent. What comes
      back is the fill that the exchange reports. */
  function EmergencyClose(fill: ConfirmedFill, decimals: Option<nat>, response: Option<ExchangeResponse>):
    Result<ConfirmedFill, GatewayFailure>
  {
    match RoundSize(decimals, fill.size)
    case Err(failure) => Err(failure)
    case Ok(_) =>
      if response.None? then Err(OutcomeUnknown("no response")) else EmergencyCloseOutcome(response.value)
  }

  /** The close succeeds exactly when the size leaves a lot to send and the exchange reports one readable
      fill, of whatever size. It failed for certain exactly when nothing could be sent or the exchange
      said so. */
  lemma EmergencyCloseExactly(fill: ConfirmedFill, decimals: Option<nat>, response: Option<ExchangeResponse>)
    ensures var result := EmergencyClose(fill, decimals, response);
            && (forall reported :: result == Ok(reported) <==>
                  && RoundSize(decimals, fill.size).Ok?
                  && response == Some(Accepted(Some([FilledResponse(Some(reported))]))))
            && (result.Err? && result.error.Definite? <==>
                  || RoundSize(decimals, fill.size).Err?
                  || (response.Some? && response.value.Refused?)
                  || (exists error :: response == Some(Accepted(Some([ErrorResponse(error)])))))
  {
    if response.Some? && response.value.Accepted? && response.value.statuses.Some? {
      var statuses := response.value.statuses.value;
      if |statuses| == 1 {
        assert statuses == [statuses[0]];
      }
    }
  }

  /** What is left of a fill after a reduce-only close of it filled this much. */
  function LeftOpen(fill: ConfirmedFill, reported: ConfirmedFill): real {
    if reported.size >= fill.size then 0.0 else fill.size - reported.size
  }

  /** A close that is filled as it was sent leaves nothing open exactly if the fill is a whole number of
      lots; otherwise less than one lot. */
  lemma CloseFilledAsSent(fill: ConfirmedFill, decimals: Option<nat>, reported: ConfirmedFill)
    requires RoundSize(decimals, fill.size).Ok?
    requires InLots(reported.size, decimals.value) == RoundSize(decimals, fill.size).value as real
    ensures LeftOpen(fill, reported) == 0.0 <==>
            InLots(fill.size, decimals.value) == InLots(fill.size, decimals.value).Floor as real
    ensures InLots(fill.size, decimals.value) < InLots(reported.size, decimals.value) + 1.0
  {
    InLotsKeepsOrder(reported.size, fill.size, decimals.value);
    TruncationIsIdentityOnLots(InLots(fill.size, decimals.value));
  }
}
