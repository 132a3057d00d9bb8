/** The risk and decision engines: stop, target, size and limits of a candidate, and the choice among
    candidates. */
module RiskEngine {
  import opened Arithmetic
  import opened Market
  import opened Rounding

  datatype Strength = Strong | Moderate | Weak

  datatype Evaluation = Evaluation(strategyName: string, valid: bool, direction: Direction, strength: Strength)

  datatype RiskConfig = RiskConfig(
    riskPerTradePercent: real,
    stopLossAtrMultiplier: real,
    targetAtrMultiplier: real,
    maxDailyLoss: real,
    maxTradesPerDay: int,
    maxConcurrentPositions: int,
    maxCapitalExposurePercent: real)
  {
    /** The validated ranges of the configuration. */
    predicate Valid() {
      && 0.1 <= riskPerTradePercent <= 5.0
      && 0.5 <= stopLossAtrMultiplier <= 5.0
      && 0.5 <= targetAtrMultiplier <= 10.0
      && 0.0 <= maxDailyLoss <= 1_000_000.0
      && 1 <= maxTradesPerDay <= 50
      && 1 <= maxConcurrentPositions <= 20
      && 1.0 <= maxCapitalExposurePercent <= 100.0
    }

    /** What one trade may lose at its stop. */
    function RiskBudget(capital: real): real { capital * (riskPerTradePercent / 100.0) }

    /** What all positions together may cost. */
    function ExposureLimit(capital: real): real { capital * (maxCapitalExposurePercent / 100.0) }

    /** The distance from the entry that every accepted stop exceeds: half the risk per unit of exposure. */
    function StopFloor(entry: real): real
      requires Valid()
    {
      entry * riskPerTradePercent / (2.0 * maxCapitalExposurePercent)
    }
  }

  datatype CapitalState = CapitalState(
    totalCapital: real,
    capitalDeployed: real,
    realizedLossToday: real,
    tradesTakenToday: int,
    openPositions: int)

  datatype RejectionReason =
    | DailyLossLimitExceeded
    | MaxTradesPerDayReached
    | CapitalExposureExceeded
    | MaxConcurrentPositionsReached
    | PositionSizeTooSmall

  datatype RiskAssessment = RiskAssessment(
    positionSize: int,
    stopLoss: real,
    target: real,
    rewardRiskRatio: real,
    capitalRequired: real,
    rejectionReasons: seq<RejectionReason>)
  {
    predicate RiskOk() { |rejectionReasons| == 0 }
  }

  function StopLoss(entry: real, atr: real, multiplier: real, direction: Direction): real {
    match direction
    case Long => entry - atr * multiplier
    case Short => entry + atr * multiplier
    case NoDirection => entry
  }

  function Target(entry: real, atr: real, multiplier: real, direction: Direction): real {
    match direction
    case Long => entry + atr * multiplier
    case Short => entry - atr * multiplier
    case NoDirection => entry
  }

  function PositionSize(capital: real, config: RiskConfig, stopDistance: real): int {
    if stopDistance <= 0.0 then 0 else (config.RiskBudget(capital) / stopDistance).Floor
  }

  function RewardRiskRatio(stopDistance: real, targetDistance: real): real {
    if stopDistance <= 0.0 then 0.0 else RoundTo(targetDistance / stopDistance, UNITS)
  }

  /** The reason for each check that does not hold, in their fixed order. */
  function Reasons(lossOk: bool, tradesOk: bool, exposureOk: bool, positionsOk: bool, sizeOk: bool)
    : seq<RejectionReason>
  {
    (if lossOk then [] else [DailyLossLimitExceeded])
    + (if tradesOk then [] else [MaxTradesPerDayReached])
    + (if exposureOk then [] else [CapitalExposureExceeded])
    + (if positionsOk then [] else [MaxConcurrentPositionsReached])
    + (if sizeOk then [] else [PositionSizeTooSmall])
  }

  function Assess(direction: Direction, entry: real, atr: real, config: RiskConfig, capital: CapitalState)
    : RiskAssessment
  {
    var stopLoss := StopLoss(entry, atr, config.stopLossAtrMultiplier, direction);
    var target := Target(entry, atr, config.targetAtrMultiplier, direction);
    var stopDistance := Abs(entry - stopLoss);
    var size := PositionSize(capital.totalCapital, config, stopDistance);
    var required := size as real * entry;
    RiskAssessment(
      size, stopLoss, target, RewardRiskRatio(stopDistance, Abs(target - entry)), required,
      Reasons(capital.realizedLossToday < config.maxDailyLoss,
              capital.tradesTakenToday < config.maxTradesPerDay,
              capital.capitalDeployed + required <= config.ExposureLimit(capital.totalCapital),
              capital.openPositions < config.maxConcurrentPositions,
              direction == NoDirection || size >= 1))
  }

  /** Stop and target on opposite sides of the entry, the stop on the losing side. */
  predicate Straddles(direction: Direction, entry: real, stopLoss: real, target: real) {
    match direction
    case Long => stopLoss < entry < target
    case Short => target < entry < stopLoss
    case NoDirection => false
  }

  lemma FloorQuotient(budget: real, distance: real)
    requires distance > 0.0
    ensures (budget / distance).Floor as real * distance <= budget
  {
    var q := budget / distance;
    assert q.Floor as real <= q;
    assert q * distance == budget;
    MulMonotone(q.Floor as real, q, distance);
  }

  /** A tradable size, stop and target straddling the entry, and a stop hit that costs at most the budget. */
  predicate SoundTrade(direction: Direction, entry: real, a: RiskAssessment, budget: real) {
    && a.positionSize >= 1
    && Straddles(direction, entry, a.stopLoss, a.target)
    && a.positionSize as real * Abs(entry - a.stopLoss) <= budget
  }

  /** The largest number of units whose stops together cost no more than the budget. */
  predicate LargestWithin(size: int, distance: real, budget: real) {
    size as real * distance <= budget < (size + 1) as real * distance
  }

  lemma FloorIsLargest(budget: real, distance: real)
    requires distance > 0.0
    ensures LargestWithin((budget / distance).Floor, distance, budget)
  {
    var q := budget / distance;
    var n := q.Floor;
    FloorQuotient(budget, distance);
    Divided(budget, distance);
    assert q < (n + 1) as real;
    Below(q, (n + 1) as real, distance, budget);
  }

  lemma Below(q: real, n: real, distance: real, budget: real)
    requires q < n && distance > 0.0 && q * distance == budget
    ensures budget < n * distance
  {
    MulStrict(q, n, distance);
  }

  /** Where an assessment puts the stop and the target. */
  predicate PricedBy(direction: Direction, entry: real, atr: real, config: RiskConfig, a: RiskAssessment) {
    var risk, reward := atr * config.stopLossAtrMultiplier, atr * config.targetAtrMultiplier;
    match direction
    case Long => entry - a.stopLoss == risk && a.target - entry == reward
    case Short => a.stopLoss - entry == risk && entry - a.target == reward
    case NoDirection => a.stopLoss == entry == a.target
  }

  /** How an assessment sizes the trade. */
  predicate SizedBy(entry: real, config: RiskConfig, capital: CapitalState, a: RiskAssessment) {
    var distance := Abs(entry - a.stopLoss);
    && (if distance == 0.0 then a.positionSize == 0 && a.rewardRiskRatio == 0.0
        else
          && LargestWithin(a.positionSize, distance, capital.totalCapital * (config.riskPerTradePercent / 100.0))
          && a.rewardRiskRatio == RoundTo(Abs(a.target - entry) / distance, 10000.0))
    && a.capitalRequired == a.positionSize as real * entry
  }

  /** Which reasons an assessment gives against a trade. */
  predicate RejectedBy(direction: Direction, config: RiskConfig, capital: CapitalState, a: RiskAssessment) {
    && (DailyLossLimitExceeded in a.rejectionReasons <==> capital.realizedLossToday >= config.maxDailyLoss)
    && (MaxTradesPerDayReached in a.rejectionReasons <==> capital.tradesTakenToday >= config.maxTradesPerDay)
    && (CapitalExposureExceeded in a.rejectionReasons <==>
          capital.capitalDeployed + a.capitalRequired
          > capital.totalCapital * (config.maxCapitalExposurePercent / 100.0))
    && (MaxConcurrentPositionsReached in a.rejectionReasons <==>
          capital.openPositions >= config.maxConcurrentPositions)
    && (PositionSizeTooSmall in a.rejectionReasons <==> direction != NoDirection && a.positionSize < 1)
    && (a.RiskOk() <==> forall reason :: reason !in a.rejectionReasons)
  }

  /** The whole assessment: stop and target at their multiples of the volatility, the largest size within the risk
      budget, and each reason for a rejection exactly when its limit is reached. */
  lemma AssessmentInFull(direction: Direction, entry: real, atr: real, config: RiskConfig, capital: CapitalState)
    ensures var a := Assess(direction, entry, atr, config, capital);
            && PricedBy(direction, entry, atr, config, a)
            && SizedBy(entry, config, capital, a)
            && RejectedBy(direction, config, capital, a)
  {
    AssessmentPriced(direction, entry, atr, config, capital);
    AssessmentSized(direction, entry, atr, config, capital);
    AssessmentRejected(direction, entry, atr, config, capital);
  }

  lemma AssessmentPriced(direction: Direction, entry: real, atr: real, config: RiskConfig, capital: CapitalState)
    ensures PricedBy(direction, entry, atr, config, Assess(direction, entry, atr, config, capital))
  {
  }

  lemma AssessmentSized(direction: Direction, entry: real, atr: real, config: RiskConfig, capital: CapitalState)
    ensures SizedBy(entry, config, capital, Assess(direction, entry, atr, config, capital))
  {
    var a := Assess(direction, entry, atr, config, capital);
    var distance := Abs(entry - a.stopLoss);
    assert a.positionSize == PositionSize(capital.totalCapital, config, distance);
    assert a.rewardRiskRatio == RewardRiskRatio(distance, Abs(a.target - entry));
    assert a.capitalRequired == a.positionSize as real * entry;
    hide Assess, LargestWithin, RoundTo;
    if distance != 0.0 { FloorIsLargest(config.RiskBudget(capital.totalCapital), distance); }
  }

  lemma AssessmentRejected(direction: Direction, entry: real, atr: real, config: RiskConfig, capital: CapitalState)
    ensures RejectedBy(direction, config, capital, Assess(direction, entry, atr, config, capital))
  {
    var a := Assess(direction, entry, atr, config, capital);
    ReasonsAre(capital.realizedLossToday < config.maxDailyLoss, capital.tradesTakenToday < config.maxTradesPerDay,
               capital.capitalDeployed + a.capitalRequired <= config.ExposureLimit(capital.totalCapital),
               capital.openPositions < config.maxConcurrentPositions, direction == NoDirection || a.positionSize >= 1);
    hide Reasons, StopLoss, Target, PositionSize, RewardRiskRatio;
  }

  lemma ReasonsAre(lossOk: bool, tradesOk: bool, exposureOk: bool, positionsOk: bool, sizeOk: bool)
    ensures var reasons := Reasons(lossOk, tradesOk, exposureOk, positionsOk, sizeOk);
            && (DailyLossLimitExceeded in reasons <==> !lossOk)
            && (MaxTradesPerDayReached in reasons <==> !tradesOk)
            && (CapitalExposureExceeded in reasons <==> !exposureOk)
            && (MaxConcurrentPositionsReached in reasons <==> !positionsOk)
            && (PositionSizeTooSmall in reasons <==> !sizeOk)
            && (|reasons| == 0 <==> forall reason :: reason !in reasons)
  {
    var reasons := Reasons(lossOk, tradesOk, exposureOk, positionsOk, sizeOk);
    if reasons != [] { assert reasons[0] in reasons; }
  }

  /** An assessment without rejection reasons describes a sound trade, and the daily limits held. */
  lemma AssessmentIsSound(direction: Direction, entry: real, atr: real, config: RiskConfig, capital: CapitalState)
    requires config.Valid() && atr >= 0.0 && direction != NoDirection
    requires Assess(direction, entry, atr, config, capital).RiskOk()
    ensures SoundTrade(direction, entry, Assess(direction, entry, atr, config, capital),
                       config.RiskBudget(capital.totalCapital))
    ensures capital.realizedLossToday < config.maxDailyLoss
    ensures capital.tradesTakenToday < config.maxTradesPerDay
  {
    var a := Assess(direction, entry, atr, config, capital);
    var distance := Abs(entry - a.stopLoss);
    assert distance > 0.0;
    if atr > 0.0 {
      MulPositive(atr, config.stopLossAtrMultiplier);
      MulPositive(atr, config.targetAtrMultiplier);
    }
    FloorQuotient(config.RiskBudget(capital.totalCapital), distance);
  }

  /** A whole number of at least one that a quotient was rounded down to is more than half of the quotient. */
  lemma FloorIsMoreThanHalf(budget: real, distance: real)
    requires distance > 0.0 && (budget / distance).Floor >= 1
    ensures 2.0 * ((budget / distance).Floor as real * distance) > budget
  {
    var q := budget / distance;
    assert q * distance == budget;
    assert 2.0 * q.Floor as real > q;
    MulPositive(2.0 * q.Floor as real - q, distance);
  }

  /** A size that keeps the exposure and uses more than half of the risk budget leaves the stop some distance. */
  lemma ExposureKeepsDistance(size: real, distance: real, entry: real, capital: real, risk: real, exposure: real)
    requires size > 0.0 && risk > 0.0 && exposure > 0.0
    requires 2.0 * (size * distance) > capital * risk && size * entry <= capital * exposure
    ensures 2.0 * (distance * exposure) > entry * risk
  {
    MulPositive(2.0 * (size * distance) - capital * risk, exposure);
    MulMonotone(size * entry, capital * exposure, risk);
    assert capital * exposure * risk == capital * risk * exposure;
    assert 2.0 * (distance * exposure) * size == 2.0 * (size * distance) * exposure;
    assert entry * risk * size == size * entry * risk;
    CancelFactor(2.0 * (distance * exposure), entry * risk, size);
  }

  /** The size of an accepted assessment: the risk budget over the stop distance, within the exposure limit. */
  lemma AcceptedSize(direction: Direction, entry: real, atr: real, config: RiskConfig, capital: CapitalState)
    requires direction != NoDirection && capital.capitalDeployed >= 0.0
    requires Assess(direction, entry, atr, config, capital).RiskOk()
    ensures var a := Assess(direction, entry, atr, config, capital);
            var distance := Abs(entry - a.stopLoss);
            && distance > 0.0 && a.positionSize >= 1
            && a.positionSize == (config.RiskBudget(capital.totalCapital) / distance).Floor
            && a.positionSize as real * entry <= config.ExposureLimit(capital.totalCapital)
  {
    var a := Assess(direction, entry, atr, config, capital);
    assert a.positionSize == PositionSize(capital.totalCapital, config, Abs(entry - a.stopLoss));
    hide RiskConfig.RiskBudget, RiskConfig.ExposureLimit, StopLoss, Target;
  }

  /** The exposure gate refuses stops close to the entry: the size that would use the risk budget costs too much. */
  lemma StopKeepsDistance(direction: Direction, entry: real, atr: real, config: RiskConfig, capital: CapitalState)
    requires config.Valid() && direction != NoDirection && capital.capitalDeployed >= 0.0
    requires Assess(direction, entry, atr, config, capital).RiskOk()
    ensures Abs(entry - Assess(direction, entry, atr, config, capital).stopLoss) > config.StopFloor(entry)
  {
    AcceptedSize(direction, entry, atr, config, capital);
    hide Assess, RiskConfig.StopFloor, Abs;
    var a := Assess(direction, entry, atr, config, capital);
    var distance := Abs(entry - a.stopLoss);
    FloorIsMoreThanHalf(config.RiskBudget(capital.totalCapital), distance);
    ExposureKeepsDistance(a.positionSize as real, distance, entry, capital.totalCapital,
                          config.riskPerTradePercent / 100.0, config.maxCapitalExposurePercent / 100.0);
    StopFloorIs(config, entry, distance);
  }

  lemma StopFloorIs(config: RiskConfig, entry: real, distance: real)
    requires config.Valid()
    requires 2.0 * (distance * (config.maxCapitalExposurePercent / 100.0))
             > entry * (config.riskPerTradePercent / 100.0)
    ensures distance > config.StopFloor(entry)
  {
    var floor, x := config.StopFloor(entry), 2.0 * config.maxCapitalExposurePercent;
    assert floor * x == entry * config.riskPerTradePercent;
    assert distance * x > floor * x;
    CancelFactor(distance, floor, x);
  }

  /** Every valid configuration keeps the stop away by more than one part in two thousand of the price. */
  lemma StopFloorOfPrice(config: RiskConfig, entry: real)
    requires config.Valid() && entry >= 0.0
    ensures config.StopFloor(entry) >= 0.0005 * entry
  {
    var floor, x := config.StopFloor(entry), 2.0 * config.maxCapitalExposurePercent;
    assert floor * x == entry * config.riskPerTradePercent;
    MulMonotone(0.1, config.riskPerTradePercent, entry);
    QuotientAtLeast(floor, x, 0.1 * entry);
  }

  lemma QuotientAtLeast(quotient: real, x: real, bound: real)
    requires 0.0 < x <= 200.0 && 0.0 <= bound <= quotient * x
    ensures 200.0 * quotient >= bound
  {
    CancelFactorWeakly(0.0, quotient, x);
    MulMonotone(x, 200.0, quotient);
  }

  // ---------------------------------------------------------------- decision engine

  datatype Candidate = Candidate(evaluation: Evaluation, assessment: RiskAssessment)
  {
    predicate Qualifies() { evaluation.valid && assessment.RiskOk() }
  }

  function Rank(strength: Strength): int {
    match strength
    case Weak => 0
    case Moderate => 1
    case Strong => 2
  }

  /** Strictly stronger, or equally strong with a strictly better ratio. */
  predicate Beats(a: Candidate, b: Candidate) {
    || Rank(a.evaluation.strength) > Rank(b.evaluation.strength)
    || (Rank(a.evaluation.strength) == Rank(b.evaluation.strength)
        && a.assessment.rewardRiskRatio > b.assessment.rewardRiskRatio)
  }

  /** The index of the first qualifying candidate that no qualifying candidate beats. */
  function SelectBest(candidates: seq<Candidate>): (best: Option<nat>)
    ensures best.None? <==> forall i :: 0 <= i < |candidates| ==> !candidates[i].Qualifies()
    ensures best.Some? ==>
              && best.value < |candidates|
              && candidates[best.value].Qualifies()
              && (forall i :: 0 <= i < |candidates| && candidates[i].Qualifies() ==>
                    !Beats(candidates[i], candidates[best.value]))
              && (forall i :: 0 <= i < best.value && candidates[i].Qualifies() ==>
                    Beats(candidates[best.value], candidates[i]))
  {
    if candidates == [] then None
    else
      var n := |candidates| - 1;
      var last := candidates[n];
      match SelectBest(candidates[..n])
      case None => if last.Qualifies() then Some(n) else None
      case Some(b) => if last.Qualifies() && Beats(last, candidates[b]) then Some(n) else Some(b)
  }

  datatype Recommendation = NoRecommendation | Recommended(best: Candidate, canTrade: bool)
  {
    /** The entry gate: recommended, with a direction and at least one unit. */
    predicate Actionable() {
      Recommended? && canTrade && best.evaluation.direction != NoDirection && best.assessment.positionSize >= 1
    }
  }

  /** Nothing without a qualifying candidate; otherwise the first of the unbeaten qualifying ones. */
  function Recommend(candidates: seq<Candidate>, canTrade: bool): (r: Recommendation)
    ensures r.Recommended? <==> exists c :: c in candidates && c.Qualifies()
    ensures r.Recommended? ==>
              && r.best in candidates && r.best.Qualifies() && r.canTrade == canTrade
              && (forall c :: c in candidates && c.Qualifies() ==> !Beats(c, r.best))
  {
    match SelectBest(candidates)
    case None => NoRecommendation
    case Some(b) => Recommended(candidates[b], canTrade)
  }

  /** The recommendation takes strength before ratio: a moderate one is recommended only when nothing strong
      qualifies, a weak one only when nothing else does, and among equals none has a better ratio. */
  lemma RecommendsStrength(candidates: seq<Candidate>, canTrade: bool)
    ensures var r := Recommend(candidates, canTrade);
            r.Recommended? ==>
              forall c :: c in candidates && c.Qualifies() ==>
                && (c.evaluation.strength == Strong ==> r.best.evaluation.strength == Strong)
                && (c.evaluation.strength == Moderate ==> r.best.evaluation.strength != Weak)
                && (c.evaluation.strength == r.best.evaluation.strength ==>
                      c.assessment.rewardRiskRatio <= r.best.assessment.rewardRiskRatio)
  {
    hide Candidate.Qualifies, Recommend;
    var r := Recommend(candidates, canTrade);
    if r.Recommended? { assert forall c :: c in candidates && c.Qualifies() ==> !Beats(c, r.best); }
  }
}
