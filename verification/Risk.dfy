/** Admission control: the order notional is sized from the policy and the stop distance
    (src/risk.rs). */
module Risk {
  import opened Wrappers
  import opened Domain

  datatype RiskLimits = RiskLimits(
    minOrderNotionalUsd: real,
    maxOrderNotionalUsd: real,
    maxOrderRiskUsd: real,
    maxSlippageBps: U32,
    maxStopDistanceBps: U32)

  datatype RiskPolicy = RiskPolicy(
    version: string,
    allowedAccounts: set<string>,
    allowUnregisteredStrategies: bool,
    defaultLimits: RiskLimits,
    strategyLimits: map<string, RiskLimits>)

  datatype RiskDecisionStatus = Approved | Rejected

  datatype RiskReasonCode =
    | AccountNotAllowed
    | StrategyNotRegistered
    | SlippageLimitExceeded
    | StopDistanceExceeded
    | BelowMinimumNotional

  datatype RiskDecision = RiskDecision(
    status: RiskDecisionStatus,
    policyVersion: string,
    reasonCodes: seq<RiskReasonCode>,
    approvedNotionalUsd: Option<real>,
    estimatedStopRiskUsd: Option<real>,
    stopDistanceBps: Option<real>)

  predicate ValidLimits(limits: RiskLimits) {
    && 0.0 < limits.minOrderNotionalUsd <= limits.maxOrderNotionalUsd
    && 0.0 < limits.maxOrderRiskUsd
    && 0 < limits.maxSlippageBps
    && 0 < limits.maxStopDistanceBps
  }

  predicate ValidPolicy(policy: RiskPolicy) {
    && !Blank(policy.version)
    && policy.allowedAccounts != {}
    && ValidLimits(policy.defaultLimits)
    && forall s | s in policy.strategyLimits :: ValidLimits(policy.strategyLimits[s])
  }

  function LimitsFor(policy: RiskPolicy, strategyId: string): Option<RiskLimits> {
    if strategyId in policy.strategyLimits then Some(policy.strategyLimits[strategyId])
    else if policy.allowUnregisteredStrategies then Some(policy.defaultLimits)
    else None
  }

  function Min(a: real, b: real): real { if a <= b then a else b }
  function Abs(a: real): real { if a >= 0.0 then a else -a }

  /** Stop distance as a fraction of the reference price. */
  function StopFraction(intent: TradeIntent): (f: real)
    requires Sizable(intent)
    ensures f > 0.0
  {
    var distance := Abs(intent.referencePrice - intent.exit.stopLossPrice);
    PositiveQuotient(distance, intent.referencePrice);
    distance / intent.referencePrice
  }

  lemma PositiveQuotient(a: real, b: real)
    requires a > 0.0 && b > 0.0
    ensures a / b > 0.0
  {
    assert (a / b) * b == a;
  }

  function RejectedDecision(policy: RiskPolicy, reason: RiskReasonCode, bps: Option<real>): RiskDecision {
    RiskDecision(Rejected, policy.version, [reason], None, None, bps)
  }

  /** The ceilings of the intent, of the policy and of the risk at the stop, whichever is lowest. */
  function SizedNotional(limits: RiskLimits, maxNotional: real, maxRisk: real, stopFraction: real): real
    requires stopFraction > 0.0
  {
    Min(Min(maxNotional, limits.maxOrderNotionalUsd), Min(maxRisk, limits.maxOrderRiskUsd) / stopFraction)
  }

  /** What an order loses at its stop. */
  function StopRisk(notional: real, stopFraction: real): real {
    notional * stopFraction
  }

  function EvaluateAdmission(policy: RiskPolicy, intent: TradeIntent): RiskDecision
    requires Sizable(intent)
  {
    if intent.accountId !in policy.allowedAccounts then
      RejectedDecision(policy, AccountNotAllowed, None)
    else if LimitsFor(policy, intent.strategyId).None? then
      RejectedDecision(policy, StrategyNotRegistered, None)
    else
      var limits := LimitsFor(policy, intent.strategyId).value;
      if intent.entry.maxSlippageBps > limits.maxSlippageBps then
        RejectedDecision(policy, SlippageLimitExceeded, None)
      else
        var fraction := StopFraction(intent);
        var bps := fraction * 10_000.0;
        if bps > limits.maxStopDistanceBps as real then
          RejectedDecision(policy, StopDistanceExceeded, Some(bps))
        else
          var notional := SizedNotional(limits, intent.maxNotionalUsd, intent.maxRiskUsd, fraction);
          if notional < limits.minOrderNotionalUsd then
            RejectedDecision(policy, BelowMinimumNotional, Some(bps))
          else
            RiskDecision(RiskDecisionStatus.Approved, policy.version, [],
                         Some(notional), Some(StopRisk(notional, fraction)), Some(bps))
  }

  /** Validation makes both divisions of admission control safe. */
  lemma ValidatedIsSizable(intent: TradeIntent, now: Time)
    requires Validate(intent, now).None?
    ensures Sizable(intent)
  {
  }

  // ---------- What admission control promises ----------

  /** The limits in force for a strategy: its own if it is registered, otherwise the default ones. */
  ghost function LimitsInForce(policy: RiskPolicy, intent: TradeIntent): RiskLimits {
    var own := policy.strategyLimits;
    if intent.strategyId in own then own[intent.strategyId] else policy.defaultLimits
  }

  /** How far the stop lies from the reference price, on either side. */
  ghost function StopDistance(intent: TradeIntent): real {
    var stop, reference := intent.exit.stopLossPrice, intent.referencePrice;
    if stop < reference then reference - stop else stop - reference
  }

  /** The account and the strategy are admitted. */
  ghost predicate Registered(policy: RiskPolicy, intent: TradeIntent) {
    && intent.accountId in policy.allowedAccounts
    && (intent.strategyId in policy.strategyLimits || policy.allowUnregisteredStrategies)
  }

  /** The checks that do not depend on an amount. */
  ghost predicate PassesScreen(policy: RiskPolicy, intent: TradeIntent) {
    var limits := LimitsInForce(policy, intent);
    && Registered(policy, intent)
    && intent.entry.maxSlippageBps <= limits.maxSlippageBps
    && StopDistance(intent) * 10_000.0 <= limits.maxStopDistanceBps as real * intent.referencePrice
  }

  /** An order of this notional respects both ceilings of the intent and both of the policy. At its stop
      it loses the distance for each unit that it buys at the reference price. */
  ghost predicate Feasible(limits: RiskLimits, intent: TradeIntent, notional: real) {
    && notional <= intent.maxNotionalUsd
    && notional <= limits.maxOrderNotionalUsd
    && notional * StopDistance(intent) <= intent.maxRiskUsd * intent.referencePrice
    && notional * StopDistance(intent) <= limits.maxOrderRiskUsd * intent.referencePrice
  }

  lemma FractionOfPrice(intent: TradeIntent)
    requires Sizable(intent)
    ensures StopFraction(intent) * intent.referencePrice == StopDistance(intent) > 0.0
  {
  }

  /** A bound on the fraction is a bound on the distance. */
  lemma ScaledBound(x: real, fraction: real, cap: real, price: real, distance: real)
    requires price > 0.0 && fraction * price == distance
    ensures x * fraction <= cap <==> x * distance <= cap * price
  {
    assert x * distance == (x * fraction) * price;
    if x * fraction <= cap {
      assert (cap - x * fraction) * price >= 0.0;
    } else {
      assert (x * fraction - cap) * price > 0.0;
    }
  }

  lemma QuotientBound(n: real, cap: real, f: real)
    requires f > 0.0
    ensures n <= cap / f <==> n * f <= cap
  {
    var q := cap / f;
    assert q * f == cap;
    if n <= q {
      assert (q - n) * f >= 0.0;
    } else {
      assert (n - q) * f > 0.0;
    }
  }

  lemma MinBound(x: real, a: real, b: real)
    ensures x <= Min(a, b) <==> x <= a && x <= b
  {
  }

  /** Feasible amounts are exactly those up to the amount admission computes. */
  lemma FeasibleUpTo(limits: RiskLimits, intent: TradeIntent, n: real)
    requires Sizable(intent)
    ensures Feasible(limits, intent, n) <==>
            n <= SizedNotional(limits, intent.maxNotionalUsd, intent.maxRiskUsd, StopFraction(intent))
  {
    var f, price, distance := StopFraction(intent), intent.referencePrice, StopDistance(intent);
    var cap := Min(intent.maxRiskUsd, limits.maxOrderRiskUsd);
    FractionOfPrice(intent);
    ScaledBound(n, f, intent.maxRiskUsd, price, distance);
    ScaledBound(n, f, limits.maxOrderRiskUsd, price, distance);
    QuotientBound(n, cap, f);
    MinBound(n * f, intent.maxRiskUsd, limits.maxOrderRiskUsd);
    MinBound(n, Min(intent.maxNotionalUsd, limits.maxOrderNotionalUsd), cap / f);
  }

  /** What admission does with the checks of the screen, in their order. */
  lemma ScreenDecides(policy: RiskPolicy, intent: TradeIntent)
    requires Sizable(intent)
    ensures var limits := LimitsInForce(policy, intent);
            var notional := SizedNotional(limits, intent.maxNotionalUsd, intent.maxRiskUsd, StopFraction(intent));
            var d := EvaluateAdmission(policy, intent);
            && (Registered(policy, intent) ==> LimitsFor(policy, intent.strategyId) == Some(limits))
            && (d.status.Approved? <==> PassesScreen(policy, intent) && limits.minOrderNotionalUsd <= notional)
            && (d.status.Approved? ==> d.approvedNotionalUsd == Some(notional) && d.reasonCodes == [])
            && (d.status.Rejected? ==>
                  d.approvedNotionalUsd.None? && d.estimatedStopRiskUsd.None? && |d.reasonCodes| == 1)
            && d.policyVersion == policy.version
  {
    FractionOfPrice(intent);
    ScaledBound(10_000.0, StopFraction(intent), LimitsInForce(policy, intent).maxStopDistanceBps as real,
                intent.referencePrice, StopDistance(intent));
  }

  /** Admission approves exactly the screened intents that have a feasible amount at or above the
      minimum, and then it approves the largest one. */
  lemma AdmissionIsOptimal(policy: RiskPolicy, intent: TradeIntent)
    requires Sizable(intent)
    ensures var d := EvaluateAdmission(policy, intent);
            var limits := LimitsInForce(policy, intent);
            && (d.status.Approved? <==>
                && PassesScreen(policy, intent)
                && exists n :: limits.minOrderNotionalUsd <= n && Feasible(limits, intent, n))
            && (d.status.Approved? ==>
                && d.approvedNotionalUsd.Some?
                && var best := d.approvedNotionalUsd.value;
                   && Feasible(limits, intent, best)
                   && limits.minOrderNotionalUsd <= best
                   && (forall n :: Feasible(limits, intent, n) ==> n <= best))
            && (d.status.Rejected? ==>
                  d.approvedNotionalUsd.None? && d.estimatedStopRiskUsd.None? && |d.reasonCodes| == 1)
            && d.policyVersion == policy.version
  {
    ScreenDecides(policy, intent);
    var limits := LimitsInForce(policy, intent);
    var best := SizedNotional(limits, intent.maxNotionalUsd, intent.maxRiskUsd, StopFraction(intent));
    forall n ensures Feasible(limits, intent, n) <==> n <= best {
      FeasibleUpTo(limits, intent, n);
    }
    assert Feasible(limits, intent, best);
  }

  /** The risk stated with an approval is what the approved notional loses at the stop, and the stated
      basis points are the distance in relation to the reference price. The risk respects both
      ceilings. */
  lemma StatedRiskIsExact(policy: RiskPolicy, intent: TradeIntent)
    requires Sizable(intent) && EvaluateAdmission(policy, intent).status.Approved?
    ensures var d := EvaluateAdmission(policy, intent);
            && d.approvedNotionalUsd.Some? && d.estimatedStopRiskUsd.Some? && d.stopDistanceBps.Some?
            && d.estimatedStopRiskUsd.value * intent.referencePrice
               == d.approvedNotionalUsd.value * StopDistance(intent)
            && d.stopDistanceBps.value * intent.referencePrice == 10_000.0 * StopDistance(intent)
            && d.estimatedStopRiskUsd.value <= intent.maxRiskUsd
            && d.estimatedStopRiskUsd.value <= LimitsInForce(policy, intent).maxOrderRiskUsd
  {
    var limits, f := LimitsInForce(policy, intent), StopFraction(intent);
    var notional := SizedNotional(limits, intent.maxNotionalUsd, intent.maxRiskUsd, f);
    ScreenDecides(policy, intent);
    FractionOfPrice(intent);
    FeasibleUpTo(limits, intent, notional);
    ScaledBound(notional, f, intent.maxRiskUsd, intent.referencePrice, StopDistance(intent));
    ScaledBound(notional, f, limits.maxOrderRiskUsd, intent.referencePrice, StopDistance(intent));
  }

  /** A rejection names the first check that fails: account, strategy, slippage, stop distance, and at
      last that no amount at or above the minimum is feasible. */
  lemma RejectionNamesItsCause(policy: RiskPolicy, intent: TradeIntent)
    requires Sizable(intent) && EvaluateAdmission(policy, intent).status.Rejected?
    ensures var cause := EvaluateAdmission(policy, intent).reasonCodes[0];
            var limits := LimitsInForce(policy, intent);
            var slips := intent.entry.maxSlippageBps > limits.maxSlippageBps;
            && (cause.AccountNotAllowed? <==> intent.accountId !in policy.allowedAccounts)
            && (cause.StrategyNotRegistered? <==>
                intent.accountId in policy.allowedAccounts && !Registered(policy, intent))
            && (cause.SlippageLimitExceeded? <==> Registered(policy, intent) && slips)
            && (cause.StopDistanceExceeded? <==>
                Registered(policy, intent) && !slips && !PassesScreen(policy, intent))
            && (cause.BelowMinimumNotional? <==>
                && PassesScreen(policy, intent)
                && forall n :: Feasible(limits, intent, n) ==> n < limits.minOrderNotionalUsd)
  {
    AdmissionIsOptimal(policy, intent);
    FractionOfPrice(intent);
    ScaledBound(10_000.0, StopFraction(intent), LimitsInForce(policy, intent).maxStopDistanceBps as real,
                intent.referencePrice, StopDistance(intent));
  }

  // ---------- What a valid policy is for ----------

  /** A policy with these limits for everyone on one account. */
  function OpenPolicy(limits: RiskLimits): RiskPolicy {
    RiskPolicy("1", {"main"}, true, limits, map[])
  }

  /** One unit of an asset at price one, with the minimal notional and a stop at this distance. */
  function SmallIntent(limits: RiskLimits, distance: real): TradeIntent {
    var one := [TakeProfitTarget(110.0, 100)];
    SampleIntent(one).(referencePrice := 1.0, maxNotionalUsd := limits.minOrderNotionalUsd,
                       maxRiskUsd := limits.minOrderNotionalUsd, entry := EntryPolicy(1),
                       exit := ExitPolicy(1.0 - distance, one))
  }

  lemma SmallIntentIsValid(limits: RiskLimits, distance: real)
    requires 0.0 < limits.minOrderNotionalUsd && 0.0 < distance < 1.0
    ensures Validate(SmallIntent(limits, distance), 0).None?
  {
    var one := [TakeProfitTarget(110.0, 100)];
    assert one[..0] == [];
    assert PercentTotal(one) == 100;
    SampleIsValid(one);
  }

  lemma SmallIntentIsApproved(limits: RiskLimits, distance: real)
    requires ValidLimits(limits) && 0.0 < distance <= 0.0001
    requires limits.minOrderNotionalUsd * distance <= limits.maxOrderRiskUsd
    ensures EvaluateAdmission(OpenPolicy(limits), SmallIntent(limits, distance)).status.Approved?
  {
    var policy, intent, n := OpenPolicy(limits), SmallIntent(limits, distance), limits.minOrderNotionalUsd;
    assert StopDistance(intent) == distance;
    var rest := 1.0 - distance;
    assert n * rest >= 0.0 && n * distance == n - n * rest;
    assert Feasible(limits, intent, n);
    AdmissionIsOptimal(policy, intent);
  }

  lemma ApprovalNeedsValidLimits(limits: RiskLimits, intent: TradeIntent, now: Time)
    requires 0.0 < limits.minOrderNotionalUsd && Validate(intent, now).None?
    requires EvaluateAdmission(OpenPolicy(limits), intent).status.Approved?
    ensures ValidLimits(limits)
  {
    AdmissionIsOptimal(OpenPolicy(limits), intent);
    FractionOfPrice(intent);
    var n := EvaluateAdmission(OpenPolicy(limits), intent).approvedNotionalUsd.value;
    assert n * StopDistance(intent) > 0.0;
    assert limits.maxOrderRiskUsd <= 0.0 ==> limits.maxOrderRiskUsd * intent.referencePrice <= 0.0;
  }

  /** Limits are valid exactly if the minimum is positive and some valid intent would be approved: the
      checks of a policy exclude nothing else than limits that refuse everything. */
  lemma ValidLimitsExactly(limits: RiskLimits)
    ensures ValidLimits(limits) <==>
            && 0.0 < limits.minOrderNotionalUsd
            && exists intent, now :: Validate(intent, now).None?
                 && EvaluateAdmission(OpenPolicy(limits), intent).status.Approved?
  {
    if ValidLimits(limits) {
      var share := limits.maxOrderRiskUsd / limits.minOrderNotionalUsd;
      PositiveQuotient(limits.maxOrderRiskUsd, limits.minOrderNotionalUsd);
      var distance := Min(0.0001, share);
      QuotientBound(distance, limits.maxOrderRiskUsd, limits.minOrderNotionalUsd);
      SmallIntentIsValid(limits, distance);
      SmallIntentIsApproved(limits, distance);
    }
    if 0.0 < limits.minOrderNotionalUsd
       && exists intent, now :: Validate(intent, now).None?
            && EvaluateAdmission(OpenPolicy(limits), intent).status.Approved? {
      var intent, now :| Validate(intent, now).None?
        && EvaluateAdmission(OpenPolicy(limits), intent).status.Approved?;
      ApprovalNeedsValidLimits(limits, intent, now);
    }
  }

  /** A policy is valid exactly if it names a version and an account, and neither its default limits nor
      those of a strategy refuse everything. */
  lemma ValidPolicyExactly(policy: RiskPolicy)
    ensures ValidPolicy(policy) <==>
            && (exists c | c in policy.version :: c != ' ' && c != '\t' && c != '\n' && c != '\r')
            && (exists account :: account in policy.allowedAccounts)
            && forall limits | limits in {policy.defaultLimits} + policy.strategyLimits.Values :: ValidLimits(limits)
  {
    BlankExactly(policy.version);
    assert forall s | s in policy.strategyLimits :: policy.strategyLimits[s] in policy.strategyLimits.Values;
  }
}
