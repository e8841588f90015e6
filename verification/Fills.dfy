/** The confirmed fill of an immediate order, aggregated from the trades of the account
    (src/live_gateway.rs). */
module Fills {
  import opened Wrappers
  import opened Orders
  import opened Gateway

  predicate Readable(fill: UserFill) {
    fill.size.Some? && fill.price.Some?
  }

  /** Every trade of the order parses. */
  ghost predicate AllReadable(fills: seq<UserFill>, oid: Oid) {
    forall k | 0 <= k < |fills| && fills[k].oid == oid :: Readable(fills[k])
  }

  /** What one trade adds to the filled size of the order. */
  function SizeOf(fill: UserFill, oid: Oid): real {
    if fill.oid == oid && Readable(fill) then fill.size.value else 0.0
  }

  function QuoteOf(fill: UserFill, oid: Oid): real {
    if fill.oid == oid && Readable(fill) then fill.size.value * fill.price.value else 0.0
  }

  function FilledSize(fills: seq<UserFill>, oid: Oid): real {
    if fills == [] then 0.0 else FilledSize(fills[..|fills| - 1], oid) + SizeOf(fills[|fills| - 1], oid)
  }

  function FilledQuote(fills: seq<UserFill>, oid: Oid): real {
    if fills == [] then 0.0 else FilledQuote(fills[..|fills| - 1], oid) + QuoteOf(fills[|fills| - 1], oid)
  }

  /** Adds up the trades of one order among all trades of the account. */
  method Aggregate(fills: seq<UserFill>, oid: Oid) returns (result: Result<Option<ConfirmedFill>, GatewayFailure>)
    ensures result.Err? <==> !AllReadable(fills, oid)
    ensures result.Err? ==> result.error.OutcomeUnknown?
    ensures result.Ok? ==> (result.value.None? <==> FilledSize(fills, oid) == 0.0)
    ensures result.Ok? && result.value.Some? ==>
              var confirmed := result.value.value;
              && confirmed.exchangeOid == oid
              && confirmed.size == FilledSize(fills, oid)
              && confirmed.averagePrice * confirmed.size == FilledQuote(fills, oid)
  {
    var size, quote := 0.0, 0.0;
    for i := 0 to |fills|
      invariant AllReadable(fills[..i], oid)
      invariant size == FilledSize(fills[..i], oid) && quote == FilledQuote(fills[..i], oid)
    {
      assert fills[..i + 1][..i] == fills[..i];
      if fills[i].oid == oid {
        if !Readable(fills[i]) {
          return Err(OutcomeUnknown("invalid authoritative fill"));
        }
        size := size + fills[i].size.value;
        quote := quote + fills[i].size.value * fills[i].price.value;
      }
    }
    assert fills[..|fills|] == fills;
    if size == 0.0 {
      return Ok(None);
    }
    assert (quote / size) * size == quote;
    return Ok(Some(ConfirmedFill(oid, size, quote / size)));
  }

  /** The first attempt whose trades are readable and add up to something decides. */
  ghost predicate Settles(attempts: seq<Option<seq<UserFill>>>, n: nat, oid: Oid)
    requires n < |attempts|
  {
    && (forall m | 0 <= m <= n :: attempts[m].Some? && AllReadable(attempts[m].value, oid))
    && (forall m | 0 <= m < n :: FilledSize(attempts[m].value, oid) == 0.0)
    && FilledSize(attempts[n].value, oid) != 0.0
  }

  predicate EndedWithoutFill(orderStatus: string) {
    orderStatus == "canceled" || orderStatus == "rejected" || orderStatus == "marginCanceled"
  }

  method QueryConfirmedFill(order: Option<(Oid, string)>, attempts: seq<Option<seq<UserFill>>>)
    returns (result: Result<ConfirmedFill, GatewayFailure>)
    requires |attempts| == 5
    ensures result.Ok? <==> order.Some? && exists n :: 0 <= n < 5 && Settles(attempts, n, order.value.0)
    ensures result.Ok? ==> ConfirmsFill(order, attempts, result.value)
    ensures result.Err? && result.error.Definite? <==>
            && order.Some? && order.value.1 in {"canceled", "rejected", "marginCanceled"}
            && ShowsNoFill(order.value.0, attempts)
  {
    if order.None? {
      return Err(OutcomeUnknown("orderStatus did not return the IOC order"));
    }
    var oid := order.value.0;
    for n := 0 to 5
      invariant forall m | 0 <= m < n ::
                  && attempts[m].Some?
                  && AllReadable(attempts[m].value, oid)
                  && FilledSize(attempts[m].value, oid) == 0.0
    {
      if attempts[n].None? {
        return Err(OutcomeUnknown("fills could not be read"));
      }
      var aggregated := Aggregate(attempts[n].value, oid);
      if aggregated.Err? {
        return Err(aggregated.error);
      }
      if aggregated.value.Some? {
        assert ConfirmsAt(attempts, n, oid, aggregated.value.value);
        return Ok(aggregated.value.value);
      }
    }
    if EndedWithoutFill(order.value.1) {
      return Err(Definite("IOC ended with no fill"));
    }
    return Err(OutcomeUnknown("authoritative fills did not expose the IOC result"));
  }

  /** Whether the exchange took the entry; its fill is read separately. */
  function SubmissionAccepted(response: ExchangeResponse): Result<(), GatewayFailure> {
    match Statuses(response)
    case Err(failure) => Err(failure)
    case Ok(statuses) =>
      if |statuses| == 1 && (statuses[0].FilledResponse? || statuses[0].WaitingForFill?) then Ok(())
      else if |statuses| == 1 && statuses[0].ErrorResponse? then Err(Definite(statuses[0].error))
      else Err(OutcomeUnknown("IOC submission response was ambiguous"))
  }

  /** A position of the account as the exchange reports it; a malformed size does not parse. */
  datatype UserPosition = UserPosition(coin: string, size: Option<real>)

  predicate OpenIn(positions: seq<UserPosition>, symbol: string) {
    exists p | p in positions :: p.coin == symbol && p.size.Some? && p.size.value != 0.0
  }

  /** The exchange said itself that it did not take the order. */
  ghost predicate Declined(response: ExchangeResponse) {
    response.Refused? || (exists error :: response == Accepted(Some([ErrorResponse(error)])))
  }

  ghost predicate Taken(response: ExchangeResponse) {
    || response == Accepted(Some([WaitingForFill]))
    || (exists fill :: response == Accepted(Some([FilledResponse(fill)])))
  }

  lemma SubmissionAcceptedExactly(response: ExchangeResponse)
    ensures SubmissionAccepted(response).Ok? <==> Taken(response)
    ensures SubmissionAccepted(response).Err? && SubmissionAccepted(response).error.Definite? <==> Declined(response)
  {
    if response.Accepted? && response.statuses.Some? && |response.statuses.value| == 1 {
      assert response.statuses.value == [response.statuses.value[0]];
    }
  }

  /** The symbol was flat, the exchange took the order, and one of five readings settles its fill. */
  ghost predicate EntryFills(
    symbol: string, positions: Option<seq<UserPosition>>, response: Option<ExchangeResponse>,
    order: Option<(Oid, string)>, attempts: seq<Option<seq<UserFill>>>)
    requires |attempts| == 5
  {
    && positions.Some?
    && (forall p | p in positions.value && p.coin == symbol :: p.size.None? || p.size.value == 0.0)
    && response.Some? && Taken(response.value)
    && order.Some? && exists n :: 0 <= n < 5 && Settles(attempts, n, order.value.0)
  }

  /** Five readings show nothing of the order. */
  ghost predicate ShowsNoFill(oid: Oid, attempts: seq<Option<seq<UserFill>>>)
    requires |attempts| == 5
  {
    forall n | 0 <= n < 5 ::
      attempts[n].Some? && AllReadable(attempts[n].value, oid) && FilledSize(attempts[n].value, oid) == 0.0
  }

  /** The symbol was occupied before, the exchange declined, or the order is known to have ended without
      any fill. */
  ghost predicate EntryRefused(
    symbol: string, positions: Option<seq<UserPosition>>, response: Option<ExchangeResponse>,
    order: Option<(Oid, string)>, attempts: seq<Option<seq<UserFill>>>)
    requires |attempts| == 5
  {
    && positions.Some?
    && (|| (exists p | p in positions.value && p.size.Some? :: p.coin == symbol && p.size.value != 0.0)
        || (response.Some? && Declined(response.value))
        || (&& response.Some? && Taken(response.value)
            && order.Some? && order.value.1 in {"canceled", "rejected", "marginCanceled"}
            && ShowsNoFill(order.value.0, attempts)))
  }

  /** The fill is what the deciding reading adds up to. */
  ghost predicate ConfirmsAt(attempts: seq<Option<seq<UserFill>>>, n: nat, oid: Oid, fill: ConfirmedFill)
    requires n < |attempts|
  {
    && Settles(attempts, n, oid)
    && fill.exchangeOid == oid
    && fill.size == FilledSize(attempts[n].value, oid)
    && fill.averagePrice * fill.size == FilledQuote(attempts[n].value, oid)
  }

  ghost predicate ConfirmsFill(order: Option<(Oid, string)>, attempts: seq<Option<seq<UserFill>>>, fill: ConfirmedFill)
    requires |attempts| == 5
  {
    order.Some? && exists n :: 0 <= n < 5 && ConfirmsAt(attempts, n, order.value.0, fill)
  }

  lemma OneReadingSettles(attempts: seq<Option<seq<UserFill>>>, m: nat, n: nat, oid: Oid)
    requires m < |attempts| && n < |attempts| && Settles(attempts, m, oid) && Settles(attempts, n, oid)
    ensures m == n
  {
  }

  /** The readings confirm at most one fill. */
  lemma ConfirmsOneFill(
    order: Option<(Oid, string)>, attempts: seq<Option<seq<UserFill>>>, a: ConfirmedFill, b: ConfirmedFill)
    requires |attempts| == 5 && ConfirmsFill(order, attempts, a) && ConfirmsFill(order, attempts, b)
    ensures a == b
  {
    var oid := order.value.0;
    var m :| 0 <= m < 5 && ConfirmsAt(attempts, m, oid, a);
    var n :| 0 <= n < 5 && ConfirmsAt(attempts, n, oid, b);
    OneReadingSettles(attempts, m, n, oid);
    SameReading(attempts, n, oid, a, b);
  }

  lemma SameReading(attempts: seq<Option<seq<UserFill>>>, n: nat, oid: Oid, a: ConfirmedFill, b: ConfirmedFill)
    requires n < |attempts| && ConfirmsAt(attempts, n, oid, a) && ConfirmsAt(attempts, n, oid, b)
    ensures a == b
  {
    SameFactor(a.averagePrice, a.size, b.averagePrice, b.size, FilledQuote(attempts[n].value, oid));
  }

  lemma SameFactor(a: real, size: real, b: real, sameSize: real, product: real)
    requires size == sameSize && size != 0.0 && a * size == product && b * sameSize == product
    ensures a == b
  {
    assert (a - b) * size == 0.0;
  }

  /** Submits an entry: a request that could not be read back is unknown. A definite failure means that
      no fill was ever seen. */
  method SubmitEntry(
    symbol: string, positions: Option<seq<UserPosition>>, response: Option<ExchangeResponse>,
    order: Option<(Oid, string)>, attempts: seq<Option<seq<UserFill>>>)
    returns (result: Result<ConfirmedFill, GatewayFailure>)
    requires |attempts| == 5
    ensures result.Ok? <==> EntryFills(symbol, positions, response, order, attempts)
    ensures result.Ok? ==> ConfirmsFill(order, attempts, result.value)
    ensures result.Err? && result.error.Definite? <==> EntryRefused(symbol, positions, response, order, attempts)
  {
    if positions.None? {
      return Err(OutcomeUnknown("user state could not be read"));
    }
    if OpenIn(positions.value, symbol) {
      return Err(Definite("pre-submit risk rejected an existing symbol position"));
    }
    if response.None? {
      return Err(OutcomeUnknown("no response"));
    }
    SubmissionAcceptedExactly(response.value);
    var accepted := SubmissionAccepted(response.value);
    if accepted.Err? {
      return Err(accepted.error);
    }
    result := QueryConfirmedFill(order, attempts);
  }

  /** A quote between the bounds on the price, times the size. */
  ghost predicate Within(low: real, size: real, quote: real, high: real) {
    low * size <= quote <= high * size
  }

  /** One more trade within the bounds keeps the total within them. */
  lemma BoundStep(total: real, quote: real, size: real, low: real, price: real, high: real)
    requires Within(low, total, quote, high)
    requires size > 0.0 && low <= price <= high
    ensures Within(low, total + size, quote + size * price, high)
  {
    ScaledOrder(low, price, size);
    ScaledOrder(price, high, size);
    ScaledSum(low, total, size);
    ScaledSum(high, total, size);
  }

  lemma {:induction false} QuoteBounds(fills: seq<UserFill>, oid: Oid, low: real, high: real)
    requires AllReadable(fills, oid)
    requires forall k | 0 <= k < |fills| && fills[k].oid == oid ::
               fills[k].size.value > 0.0 && low <= fills[k].price.value <= high
    ensures FilledSize(fills, oid) >= 0.0
    ensures Within(low, FilledSize(fills, oid), FilledQuote(fills, oid), high)
  {
    if fills != [] {
      var init, last := fills[..|fills| - 1], fills[|fills| - 1];
      QuoteBounds(init, oid, low, high);
      if last.oid == oid {
        BoundStep(FilledSize(init, oid), FilledQuote(init, oid), last.size.value, low, last.price.value, high);
      }
    }
  }

  /** The fill is the size of the trades, with an average that times the size is their quote. */
  ghost predicate Averages(confirmed: ConfirmedFill, size: real, quote: real) {
    confirmed.size == size && confirmed.averagePrice * confirmed.size == quote
  }

  lemma BetweenBounds(low: real, confirmed: ConfirmedFill, high: real, size: real, quote: real)
    requires size > 0.0 && Averages(confirmed, size, quote) && Within(low, size, quote, high)
    ensures low <= confirmed.averagePrice <= high
  {
    ScaledOrder(low, confirmed.averagePrice, confirmed.size);
    ScaledOrder(confirmed.averagePrice, high, confirmed.size);
  }

  /** With positive trade sizes the average price lies between any bounds on the prices of the trades
      of the order, whatever other orders traded. */
  lemma AverageIsBetweenPrices(fills: seq<UserFill>, oid: Oid, confirmed: ConfirmedFill, low: real, high: real)
    requires AllReadable(fills, oid)
    requires forall k | 0 <= k < |fills| && fills[k].oid == oid ::
               fills[k].size.value > 0.0 && low <= fills[k].price.value <= high
    requires FilledSize(fills, oid) != 0.0
    requires Averages(confirmed, FilledSize(fills, oid), FilledQuote(fills, oid))
    ensures low <= confirmed.averagePrice <= high
  {
    QuoteBounds(fills, oid, low, high);
    BetweenBounds(low, confirmed, high, FilledSize(fills, oid), FilledQuote(fills, oid));
  }
}
