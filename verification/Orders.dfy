/** Order roles, client order ids and the records of a live execution (src/live_execution.rs). */
module Orders {
  import opened Wrappers
  import opened Domain

  type Oid = nat

  datatype OrderRole = Entry | StopLoss | TakeProfit(index: Percent) | EmergencyClose

  /** Decimal digits of a number, without leading zeros. */
  function Digits(n: nat): string {
    if n < 10 then [DigitChar(n)] else Digits(n / 10) + [DigitChar(n % 10)]
  }

  function DigitChar(d: nat): char
    requires d < 10
  {
    "0123456789"[d]
  }

  function DigitValue(c: char): nat {
    if '0' <= c <= '9' then c as nat - '0' as nat else 0
  }

  /** Reads decimal digits back. */
  function Value(digits: string): nat {
    if digits == "" then 0
    else 10 * Value(digits[..|digits| - 1]) + DigitValue(digits[|digits| - 1])
  }

  lemma {:induction false} DigitsRoundTrip(n: nat)
    ensures Digits(n) != "" && Value(Digits(n)) == n
  {
    assert forall d: nat | d < 10 :: DigitValue(DigitChar(d)) == d;
    if n < 10 {
      assert Digits(n)[..0] == "";
    } else {
      DigitsRoundTrip(n / 10);
      assert Digits(n)[..|Digits(n)| - 1] == Digits(n / 10);
    }
  }

  function StableName(role: OrderRole): string {
    match role
    case Entry => "entry"
    case StopLoss => "stop_loss"
    case TakeProfit(index) => "take_profit_" + Digits(index)
    case EmergencyClose => "emergency_close"
  }

  /** The index of a target is cast to eight bits. */
  function TargetRole(k: nat): OrderRole {
    TakeProfit(k % 256)
  }

  lemma TargetNameShape(role: OrderRole)
    ensures StableName(role) != ""
    ensures StableName(role)[0] == 't' <==> role.TakeProfit?
    ensures role.TakeProfit? ==> Value(StableName(role)[|"take_profit_"|..]) == role.index
  {
    if role.TakeProfit? {
      DigitsRoundTrip(role.index);
      assert StableName(role)[|"take_profit_"|..] == Digits(role.index);
    }
  }

  /** Different roles have different names. */
  lemma StableNameInjective(a: OrderRole, b: OrderRole)
    ensures StableName(a) == StableName(b) <==> a == b
  {
    TargetNameShape(a);
    TargetNameShape(b);
    assert |"entry"| == 5 && |"stop_loss"| == 9 && |"emergency_close"| == 15;
  }

  /** The roles of the first n targets are pairwise distinct exactly up to 256 targets. */
  lemma TargetRolesDistinct(n: nat)
    ensures (forall i: nat, j: nat | i < j < n :: StableName(TargetRole(i)) != StableName(TargetRole(j)))
            <==> n <= 256
  {
    if n <= 256 {
      forall i: nat, j: nat | i < j < n ensures StableName(TargetRole(i)) != StableName(TargetRole(j)) {
        StableNameInjective(TargetRole(i), TargetRole(j));
      }
    } else {
      assert StableName(TargetRole(0)) == StableName(TargetRole(256));
    }
  }

  /** A client order id, represented by what is hashed into it. */
  datatype Cloid = Cloid(intentId: IntentId, roleName: string)

  function DeterministicCloid(id: IntentId, role: OrderRole): Cloid {
    Cloid(id, StableName(role))
  }

  datatype LiveStatus =
    | Pending
    | EntrySubmitting
    | EntryUnknown
    | EntryFilled
    | Protecting
    | Protected
    | EmergencyClosing
    | Closed
    | Failed
    | ReconciliationRequired

  datatype LiveExecution = LiveExecution(
    account: Account,
    entryCloid: Cloid,
    status: LiveStatus,
    attempt: nat,
    createdAt: Time)

  datatype LiveOrderStatus = Filled | OpenVerified

  datatype LiveOrder = LiveOrder(
    cloid: Cloid,
    exchangeOid: Option<Oid>,
    status: LiveOrderStatus,
    requestedSize: real,
    filledSize: real,
    averageFillPrice: Option<real>)

  /** The orders of one intent by role name. */
  type Ledger = map<string, LiveOrder>

  datatype ConfirmedFill = ConfirmedFill(exchangeOid: Oid, size: real, averagePrice: real)

  datatype GatewayFailure = Definite(error: string) | OutcomeUnknown(error: string)

  /** The share of the fill that one take-profit target closes. */
  function TargetSize(size: real, pct: Percent): real {
    size * pct as real / 100.0
  }

  function TargetSizeTotal(size: real, targets: seq<TakeProfitTarget>): real {
    if targets == [] then 0.0
    else TargetSizeTotal(size, targets[..|targets| - 1]) + TargetSize(size, targets[|targets| - 1].positionPct)
  }

  /** Together the targets close exactly their percentage total of the fill. */
  lemma {:induction false} TargetSizesAddUp(size: real, targets: seq<TakeProfitTarget>)
    ensures TargetSizeTotal(size, targets) == size * PercentTotal(targets) as real / 100.0
  {
    if targets != [] {
      var init, last := targets[..|targets| - 1], targets[|targets| - 1].positionPct;
      TargetSizesAddUp(size, init);
      assert size * (PercentTotal(init) + last) as real == size * PercentTotal(init) as real + size * last as real;
    }
  }

  lemma TargetsCloseEverything(size: real, targets: seq<TakeProfitTarget>)
    requires PercentTotal(targets) == 100
    ensures TargetSizeTotal(size, targets) == size
  {
    TargetSizesAddUp(size, targets);
  }
}
