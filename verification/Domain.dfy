/** Trade intents: their contents, the checks made before admission and their lifecycle
    (src/domain/trade_intent.rs). */
module Domain {
  import opened Wrappers

  type IntentId = nat
  type Account = string
  /** Milliseconds since the epoch. */
  type Time = int
  type U32 = n: nat | n < 0x1_0000_0000
  type Percent = n: nat | n < 256

  const SCHEMA_VERSION: nat := 1

  datatype Side = Long | Short

  datatype EntryPolicy = EntryPolicy(maxSlippageBps: U32)

  datatype TakeProfitTarget = TakeProfitTarget(price: real, positionPct: Percent)

  datatype ExitPolicy = ExitPolicy(stopLossPrice: real, takeProfit: seq<TakeProfitTarget>)

  datatype TradeIntent = TradeIntent(
    schemaVersion: nat,
    intentId: IntentId,
    strategyId: string,
    strategyVersion: string,
    strategyInstanceId: string,
    signalId: string,
    accountId: string,
    symbol: string,
    side: Side,
    referencePrice: real,
    maxNotionalUsd: real,
    maxRiskUsd: real,
    entry: EntryPolicy,
    exit: ExitPolicy,
    createdAt: Time,
    expiresAt: Time)

  datatype TradeIntentStatus =
    | Received
    | AwaitingConfirmation
    | RiskRejected
    | ShadowAccepted
    | Approved
    | Submitting
    | Executing
    | Completed
    | CancelPending
    | Canceled
    | Failed
  {
    predicate CanTransitionTo(next: TradeIntentStatus) {
      match this
      case Received => next in {RiskRejected, AwaitingConfirmation, ShadowAccepted, Approved, Canceled}
      case AwaitingConfirmation => next in {RiskRejected, ShadowAccepted, Approved, Canceled}
      case ShadowAccepted => next == Canceled
      case Approved => next in {Submitting, Canceled, Failed}
      case Submitting => next in {Executing, Failed, CancelPending}
      case Executing => next in {Completed, Failed, CancelPending}
      case CancelPending => next in {Canceled, Completed, Failed}
      case _ => false
    }
  }

  function Stage(status: TradeIntentStatus): nat {
    match status
    case Received => 0
    case AwaitingConfirmation => 1
    case ShadowAccepted => 2
    case Approved => 2
    case Submitting => 3
    case Executing => 4
    case CancelPending => 5
    case _ => 6
  }

  /** The lifecycle never returns to an earlier stage, and ends exactly in rejected, completed, canceled
      and failed intents. */
  lemma LifecycleMovesForward(status: TradeIntentStatus, next: TradeIntentStatus)
    ensures status.CanTransitionTo(next) ==> Stage(status) < Stage(next)
    ensures (forall any :: !status.CanTransitionTo(any)) <==>
            status.RiskRejected? || status.Completed? || status.Canceled? || status.Failed?
  {
    assert status.Received? || status.AwaitingConfirmation? || status.ShadowAccepted? ==>
        status.CanTransitionTo(Canceled);
    assert status.Approved? || status.Submitting? || status.Executing? || status.CancelPending? ==>
        status.CanTransitionTo(Failed);
  }

  /** The lifecycle read backwards: from where each status is reached. */
  lemma StatusesAreReachedFrom(status: TradeIntentStatus, next: TradeIntentStatus)
    ensures status.CanTransitionTo(next) <==>
            match next
            case Received => false
            case AwaitingConfirmation => status.Received?
            case RiskRejected => status.Received? || status.AwaitingConfirmation?
            case ShadowAccepted => status.Received? || status.AwaitingConfirmation?
            case Approved => status.Received? || status.AwaitingConfirmation?
            case Submitting => status.Approved?
            case Executing => status.Submitting?
            case Completed => status.Executing? || status.CancelPending?
            case CancelPending => status.Submitting? || status.Executing?
            case Canceled =>
              || status.Received? || status.AwaitingConfirmation? || status.ShadowAccepted? || status.Approved?
              || status.CancelPending?
            case Failed => status.Approved? || status.Submitting? || status.Executing? || status.CancelPending?
  {
  }

  datatype ValidationError =
    | UnsupportedSchemaVersion
    | InvalidStrategyId
    | MissingStrategyVersion
    | InvalidStrategyInstanceId
    | InvalidSignalId
    | InvalidAccountId
    | InvalidSymbol
    | InvalidNotional
    | InvalidReferencePrice
    | InvalidRisk
    | InvalidSlippage
    | InvalidStopLoss
    | InvalidTakeProfit
    | InvalidExitDirection
    | InvalidValidityWindow
    | Expired

  predicate IsUpper(c: char) { 'A' <= c <= 'Z' }
  predicate IsDigit(c: char) { '0' <= c <= '9' }
  predicate IsAlphanumeric(c: char) { IsUpper(c) || IsDigit(c) || 'a' <= c <= 'z' }

  predicate ValidIdentifier(value: string, maxLen: nat) {
    && 0 < |value| <= maxLen
    && forall i | 0 <= i < |value| :: IsAlphanumeric(value[i]) || value[i] in "-_.:"
  }

  predicate ValidSymbol(symbol: string) {
    && 0 < |symbol| <= 32
    && forall i | 0 <= i < |symbol| :: IsUpper(symbol[i]) || IsDigit(symbol[i]) || symbol[i] in ":-"
  }

  /** Whether only white space is left of the text. */
  predicate Blank(value: string) {
    forall i | 0 <= i < |value| :: value[i] in " \t\n\r"
  }

  function PercentTotal(targets: seq<TakeProfitTarget>): nat {
    if targets == [] then 0
    else PercentTotal(targets[..|targets| - 1]) + targets[|targets| - 1].positionPct
  }

  /** The total as the 16-bit sum of the release build computes it: it wraps. */
  function WrappedPercentTotal(targets: seq<TakeProfitTarget>): nat {
    PercentTotal(targets) % 0x1_0000
  }

  /** Stop and targets lie on the right sides of a positive reference price. */
  predicate ValidExitDirection(intent: TradeIntent) {
    match intent.side
    case Long =>
      && intent.exit.stopLossPrice < intent.referencePrice
      && forall t | t in intent.exit.takeProfit :: t.price > intent.referencePrice
    case Short =>
      && intent.exit.stopLossPrice > intent.referencePrice
      && forall t | t in intent.exit.takeProfit :: t.price < intent.referencePrice
  }

  /** The first check that fails, in the order in which they are made. */
  function Validate(intent: TradeIntent, now: Time): Option<ValidationError> {
    if intent.schemaVersion != SCHEMA_VERSION then Some(UnsupportedSchemaVersion)
    else if !ValidIdentifier(intent.strategyId, 64) then Some(InvalidStrategyId)
    else if Blank(intent.strategyVersion) || |intent.strategyVersion| > 64 then Some(MissingStrategyVersion)
    else if !ValidIdentifier(intent.strategyInstanceId, 128) then Some(InvalidStrategyInstanceId)
    else if !ValidIdentifier(intent.signalId, 128) then Some(InvalidSignalId)
    else if !ValidIdentifier(intent.accountId, 64) then Some(InvalidAccountId)
    else if !ValidSymbol(intent.symbol) then Some(InvalidSymbol)
    else if intent.maxNotionalUsd <= 0.0 then Some(InvalidNotional)
    else if intent.referencePrice <= 0.0 then Some(InvalidReferencePrice)
    else if intent.maxRiskUsd <= 0.0 || intent.maxRiskUsd > intent.maxNotionalUsd then Some(InvalidRisk)
    else if !(1 <= intent.entry.maxSlippageBps <= 500) then Some(InvalidSlippage)
    else if intent.exit.stopLossPrice <= 0.0 then Some(InvalidStopLoss)
    else if
      || intent.exit.takeProfit == []
      || (exists t | t in intent.exit.takeProfit :: t.price <= 0.0)
      || WrappedPercentTotal(intent.exit.takeProfit) != 100
    then Some(InvalidTakeProfit)
    else if !ValidExitDirection(intent) then Some(InvalidExitDirection)
    else if intent.createdAt > now + 30_000 || intent.expiresAt <= intent.createdAt then Some(InvalidValidityWindow)
    else if intent.expiresAt <= now then Some(Expired)
    else None
  }

  /** Letters, digits and a few marks, by their codes. */
  ghost predicate IdentifierChar(c: char) {
    var code := c as int;
    || 48 <= code <= 57 || 65 <= code <= 90 || 97 <= code <= 122
    || code == 45 || code == 46 || code == 58 || code == 95
  }

  ghost predicate SymbolChar(c: char) {
    var code := c as int;
    48 <= code <= 57 || 65 <= code <= 90 || code == 45 || code == 58
  }

  ghost predicate IsIdentifier(value: string, longest: nat) {
    value != "" && |value| < longest + 1 && forall c | c in value :: IdentifierChar(c)
  }

  /** What the error denies. */
  ghost predicate IsRight(error: ValidationError, intent: TradeIntent, now: Time) {
    var stop, reference, targets := intent.exit.stopLossPrice, intent.referencePrice, intent.exit.takeProfit;
    match error
    case UnsupportedSchemaVersion => intent.schemaVersion == 1
    case InvalidStrategyId => IsIdentifier(intent.strategyId, 64)
    case MissingStrategyVersion =>
      && |intent.strategyVersion| < 65
      && exists c | c in intent.strategyVersion :: c != ' ' && c != '\t' && c != '\n' && c != '\r'
    case InvalidStrategyInstanceId => IsIdentifier(intent.strategyInstanceId, 128)
    case InvalidSignalId => IsIdentifier(intent.signalId, 128)
    case InvalidAccountId => IsIdentifier(intent.accountId, 64)
    case InvalidSymbol => intent.symbol != "" && |intent.symbol| < 33 && forall c | c in intent.symbol :: SymbolChar(c)
    case InvalidNotional => 0.0 < intent.maxNotionalUsd
    case InvalidReferencePrice => 0.0 < reference
    case InvalidRisk => 0.0 < intent.maxRiskUsd <= intent.maxNotionalUsd
    case InvalidSlippage => 0 < intent.entry.maxSlippageBps < 501
    case InvalidStopLoss => 0.0 < stop
    case InvalidTakeProfit =>
      targets != [] && (forall t | t in targets :: 0.0 < t.price) && PercentTotal(targets) % 65_536 == 100
    case InvalidExitDirection =>
      && (intent.side == Long ==> stop < reference && forall t | t in targets :: reference < t.price)
      && (intent.side == Short ==> reference < stop && forall t | t in targets :: t.price < reference)
    case InvalidValidityWindow => intent.createdAt - now <= 30_000 && intent.createdAt < intent.expiresAt
    case Expired => now < intent.expiresAt
  }

  /** The place of a check in the order in which they are made. */
  function CheckNumber(error: ValidationError): nat {
    match error
    case UnsupportedSchemaVersion => 0
    case InvalidStrategyId => 1
    case MissingStrategyVersion => 2
    case InvalidStrategyInstanceId => 3
    case InvalidSignalId => 4
    case InvalidAccountId => 5
    case InvalidSymbol => 6
    case InvalidNotional => 7
    case InvalidReferencePrice => 8
    case InvalidRisk => 9
    case InvalidSlippage => 10
    case InvalidStopLoss => 11
    case InvalidTakeProfit => 12
    case InvalidExitDirection => 13
    case InvalidValidityWindow => 14
    case Expired => 15
  }

  lemma IdentifierExactly(value: string, longest: nat)
    ensures ValidIdentifier(value, longest) <==> IsIdentifier(value, longest)
  {
    forall c: char ensures IsAlphanumeric(c) || c in "-_.:" <==> IdentifierChar(c) {
      assert c in "-_.:" <==> c == '-' || c == '_' || c == '.' || c == ':';
    }
    assert forall i | 0 <= i < |value| :: value[i] in value;
  }

  lemma SymbolExactly(symbol: string)
    ensures ValidSymbol(symbol) <==> symbol != "" && |symbol| < 33 && forall c | c in symbol :: SymbolChar(c)
  {
    forall c: char ensures IsUpper(c) || IsDigit(c) || c in ":-" <==> SymbolChar(c) {
      assert c in ":-" <==> c == ':' || c == '-';
    }
    assert forall i | 0 <= i < |symbol| :: symbol[i] in symbol;
  }

  lemma BlankExactly(value: string)
    ensures Blank(value) <==> forall c | c in value :: c == ' ' || c == '\t' || c == '\n' || c == '\r'
  {
    assert forall c: char :: c in " \t\n\r" <==> c == ' ' || c == '\t' || c == '\n' || c == '\r';
    assert forall i | 0 <= i < |value| :: value[i] in value;
  }

  lemma TextChecks(intent: TradeIntent, now: Time)
    ensures ValidIdentifier(intent.strategyId, 64) <==> IsRight(InvalidStrategyId, intent, now)
    ensures Blank(intent.strategyVersion) || |intent.strategyVersion| > 64 <==>
            !IsRight(MissingStrategyVersion, intent, now)
    ensures ValidIdentifier(intent.strategyInstanceId, 128) <==> IsRight(InvalidStrategyInstanceId, intent, now)
    ensures ValidIdentifier(intent.signalId, 128) <==> IsRight(InvalidSignalId, intent, now)
    ensures ValidIdentifier(intent.accountId, 64) <==> IsRight(InvalidAccountId, intent, now)
    ensures ValidSymbol(intent.symbol) <==> IsRight(InvalidSymbol, intent, now)
  {
    IdentifierExactly(intent.strategyId, 64);
    IdentifierExactly(intent.strategyInstanceId, 128);
    IdentifierExactly(intent.signalId, 128);
    IdentifierExactly(intent.accountId, 64);
    SymbolExactly(intent.symbol);
    BlankExactly(intent.strategyVersion);
  }

  lemma ExitChecks(intent: TradeIntent, now: Time)
    ensures || intent.exit.takeProfit == []
            || (exists t | t in intent.exit.takeProfit :: t.price <= 0.0)
            || WrappedPercentTotal(intent.exit.takeProfit) != 100
            <==> !IsRight(InvalidTakeProfit, intent, now)
    ensures ValidExitDirection(intent) <==> IsRight(InvalidExitDirection, intent, now)
  {
  }

  lemma FirstFailure(intent: TradeIntent, now: Time, error: ValidationError)
    ensures var result := Validate(intent, now);
            && (result == Some(error) ==> !IsRight(error, intent, now))
            && (result.None? || CheckNumber(error) < CheckNumber(result.value) ==> IsRight(error, intent, now))
  {
    TextChecks(intent, now);
    ExitChecks(intent, now);
  }

  /** Validation passes exactly the intents of which everything is right, and otherwise names the first of
      the checks that fails. */
  lemma ValidationIsExact(intent: TradeIntent, now: Time)
    ensures Validate(intent, now).None? <==> forall error :: IsRight(error, intent, now)
    ensures forall error :: Validate(intent, now) == Some(error) <==>
              && !IsRight(error, intent, now)
              && forall earlier | CheckNumber(earlier) < CheckNumber(error) :: IsRight(earlier, intent, now)
  {
    var result := Validate(intent, now);
    forall error
      ensures result == Some(error) ==> !IsRight(error, intent, now)
      ensures result.None? || CheckNumber(error) < CheckNumber(result.value) ==> IsRight(error, intent, now)
      ensures result.Some? && CheckNumber(error) == CheckNumber(result.value) ==> error == result.value
    {
      FirstFailure(intent, now, error);
    }
  }

  /** What admission control divides by is nonzero. */
  predicate Sizable(intent: TradeIntent) {
    intent.referencePrice > 0.0 && intent.exit.stopLossPrice != intent.referencePrice
  }

  lemma {:induction false} PercentTotalBound(targets: seq<TakeProfitTarget>)
    ensures PercentTotal(targets) <= 255 * |targets|
  {
    if targets != [] {
      PercentTotalBound(targets[..|targets| - 1]);
    }
  }

  /** The percentages of a validated intent total 100 exactly when their true sum fits in sixteen bits. */
  lemma ValidatedPercentTotal(intent: TradeIntent, now: Time)
    requires Validate(intent, now).None?
    ensures PercentTotal(intent.exit.takeProfit) == 100 <==> PercentTotal(intent.exit.takeProfit) < 0x1_0000
  {
  }

  /** Up to 257 targets it always fits. */
  lemma FewTargetsTotal100(intent: TradeIntent, now: Time)
    requires Validate(intent, now).None? && |intent.exit.takeProfit| <= 257
    ensures PercentTotal(intent.exit.takeProfit) == 100
  {
    PercentTotalBound(intent.exit.takeProfit);
    ValidatedPercentTotal(intent, now);
  }

  /** A total of 65636 percent, spread over 258 targets. */
  function ManyTargets(n: nat): seq<TakeProfitTarget> {
    if n == 0 then [] else ManyTargets(n - 1) + [TakeProfitTarget(110.0, if n <= 257 then 255 else 101)]
  }

  lemma {:induction false} ManyTargetsTotal(n: nat)
    requires n <= 257
    ensures |ManyTargets(n)| == n && PercentTotal(ManyTargets(n)) == 255 * n
    ensures forall t | t in ManyTargets(n) :: t.price == 110.0
  {
    if n > 0 {
      ManyTargetsTotal(n - 1);
      assert ManyTargets(n)[..n - 1] == ManyTargets(n - 1);
    }
  }

  /** A long intent on one symbol, for a minute: stop five percent below the reference price. */
  function SampleIntent(targets: seq<TakeProfitTarget>): TradeIntent {
    TradeIntent(
      SCHEMA_VERSION, 1, "s", "1", "i", "n", "main", "BTC", Long, 100.0, 100.0, 10.0, EntryPolicy(20),
      ExitPolicy(95.0, targets), 0, 60_000)
  }

  lemma SampleIsValid(targets: seq<TakeProfitTarget>)
    requires targets != [] && (forall t | t in targets :: t.price == 110.0) && WrappedPercentTotal(targets) == 100
    ensures Validate(SampleIntent(targets), 0).None?
  {
    assert !Blank("1") by {
      assert "1"[0] == '1';
    }
  }

  /** From 258 targets on the sum can wrap: an intent passes validation although its targets add up to
      656 times the position. */
  lemma ManyTargetsPassValidation()
    ensures Validate(SampleIntent(ManyTargets(258)), 0).None?
    ensures |ManyTargets(258)| == 258 && PercentTotal(ManyTargets(258)) == 65636
  {
    ManyTargetsTotal(257);
    assert ManyTargets(258)[..257] == ManyTargets(257);
    SampleIsValid(ManyTargets(258));
  }
}
