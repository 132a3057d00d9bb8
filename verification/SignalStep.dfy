/** The signal engine as a function of the events it observes.

    SignalService.dfy proves the service, its filter and its trade tracker against these functions. */
module SignalStep {
  import opened Arithmetic
  import opened Market
  import opened Rounding
  import opened RiskEngine
  import opened PaperModels
  import opened Events
  import opened Sorting
  import opened Sums

  // ---------------------------------------------------------------- guardian score

  datatype GuardianScore = GuardianScore(score: real, strength: Strength, rewardRiskRatio: real)

  function RewardToRisk(entry: real, stopLoss: real, target: real): real {
    var risk := Abs(entry - stopLoss);
    if risk == 0.0 then 0.0 else RoundTo(Abs(target - entry) / risk, UNITS)
  }

  function BaseScore(strength: Strength): real {
    match strength
    case Strong => 70.0
    case Moderate => 55.0
    case Weak => 35.0
  }

  function ScoreOf(strength: Strength, ratio: real): real {
    RoundTo(MinReal(BaseScore(strength) + MinReal(ratio / 3.0, 1.0) * 30.0, 100.0), 100.0)
  }

  function Guardian(strength: Strength, entry: real, stopLoss: real, target: real): GuardianScore {
    var ratio := RewardToRisk(entry, stopLoss, target);
    GuardianScore(ScoreOf(strength, ratio), strength, ratio)
  }

  // ---------------------------------------------------------------- filter

  /** The engine's own settings and the trading hours of the application; the cooldown is in microseconds, clock
      times are in minutes after midnight. */
  datatype SignalConfig = SignalConfig(
    confidenceThreshold: real,
    cooldown: int,
    maxSignalsPerDay: int,
    summaryTime: int,
    marketOpen: int,
    marketClose: int)
  {
    predicate Valid() {
      0.0 <= confidenceThreshold <= 100.0 && 0 <= cooldown && 0 < maxSignalsPerDay && 0 <= summaryTime < 1440
    }
  }

  datatype SessionPhase = PreMarket | OpenMarket | ClosedMarket

  function ClassifySession(config: SignalConfig, t: Time): SessionPhase {
    if ClockOf(t) < config.marketOpen then PreMarket
    else if ClockOf(t) <= config.marketClose then OpenMarket
    else ClosedMarket
  }

  datatype Decision = Allowed | OutsideHours | BelowThreshold | InCooldown | DailyLimitReached

  datatype Filter = Filter(lastSignalAt: map<string, Time>, signalsToday: nat, currentDay: Option<int>)
  {
    function RollDay(now: Time): Filter {
      if currentDay == Some(DateOf(now)) then this else this.(currentDay := Some(DateOf(now)), signalsToday := 0)
    }

    /** The verdict on a signal; the day rolls over before any check. */
    function ShouldEmit(config: SignalConfig, strategyName: string, score: real, now: Time): Decision {
      if ClassifySession(config, now) != OpenMarket then OutsideHours
      else if score < config.confidenceThreshold then BelowThreshold
      else if strategyName in lastSignalAt && now - lastSignalAt[strategyName] < config.cooldown then InCooldown
      else if RollDay(now).signalsToday >= config.maxSignalsPerDay then DailyLimitReached
      else Allowed
    }

    function Recorded(strategyName: string, now: Time): Filter {
      var rolled := RollDay(now);
      rolled.(lastSignalAt := rolled.lastSignalAt[strategyName := now], signalsToday := rolled.signalsToday + 1)
    }
  }

  // ---------------------------------------------------------------- dummy trades

  datatype ExitReason = TargetExit | StopLossExit | EndOfDayExit

  datatype TradeStatus = TradeOpen | TradeClosed

  datatype DummyTrade = DummyTrade(
    tradeId: nat,
    strategyName: string,
    direction: Direction,
    guardian: GuardianScore,
    entryPrice: real,
    stopLoss: real,
    target: real,
    quantity: int,
    openedAt: Time,
    status: TradeStatus,
    exitPrice: Option<real>,
    closedAt: Option<Time>,
    pnl: Option<Money>,
    rMultiple: Option<real>,
    duration: Option<int>,
    exitReason: Option<ExitReason>)

  function NewTrade(id: nat, order: Order, guardian: GuardianScore, now: Time): DummyTrade {
    DummyTrade(id, order.strategyName, order.direction, guardian, order.FillPrice(), order.stopLoss, order.target,
               order.filledQuantity, now, TradeOpen, None, None, None, None, None, None)
  }

  /** The exit price a realized pnl implies. */
  function InferExitPrice(direction: Direction, entry: real, realized: Money, quantity: int): real {
    if quantity == 0 then entry
    else
      var perUnit := Amount(realized) / quantity as real;
      if direction == Short then entry - perUnit else entry + perUnit
  }

  function Tolerance(entry: real, target: real): real {
    var share := Abs(target - entry) * 0.02;
    if share < 0.01 then 0.01 else share
  }

  function InferExitReason(entry: real, stopLoss: real, target: real, exitPrice: real): ExitReason {
    var tolerance := Tolerance(entry, target);
    if Abs(exitPrice - target) <= tolerance then TargetExit
    else if Abs(exitPrice - stopLoss) <= tolerance then StopLossExit
    else EndOfDayExit
  }

  /** The pnl per unit of risk, before it is rounded to four decimals. */
  function RMultipleOf(entry: real, stopLoss: real, quantity: int, pnl: Money): real {
    var risk := Abs(entry - stopLoss);
    var perUnit := if quantity == 0 then 0.0 else Amount(pnl) / quantity as real;
    if risk > 0.0 then perUnit / risk else 0.0
  }

  function ClosedTrade(trade: DummyTrade, exitPrice: real, closedAt: Time, pnl: Money): DummyTrade {
    trade.(status := TradeClosed,
           exitPrice := Some(exitPrice),
           closedAt := Some(closedAt),
           pnl := Some(pnl),
           rMultiple := Some(RoundTo(RMultipleOf(trade.entryPrice, trade.stopLoss, trade.quantity, pnl), UNITS)),
           duration := Some(closedAt - trade.openedAt),
           exitReason := Some(InferExitReason(trade.entryPrice, trade.stopLoss, trade.target, exitPrice)))
  }

  // ---------------------------------------------------------------- daily report

  datatype DailyReport = DailyReport(
    date: int,
    totalSignals: nat,
    buyCe: nat,
    buyPe: nat,
    winning: nat,
    losing: nat,
    winRate: real,
    netPoints: real,
    averagePnl: real,
    averageRewardRisk: real,
    best: Option<DummyTrade>,
    worst: Option<DummyTrade>,
    highestScore: real,
    averageHold: real,
    marketBias: Direction)

  predicate IsClosedTrade(t: DummyTrade) { t.status == TradeClosed }

  function ClosingTime(t: DummyTrade): real {
    if t.closedAt.Some? then t.closedAt.value as real else t.openedAt as real
  }

  function ClosingOn(date: int): DummyTrade -> bool {
    (t: DummyTrade) => t.closedAt.Some? && DateOf(t.closedAt.value) == date
  }

  /** The closed trades of a date, in the order they were closed. */
  function ClosedOn(trades: seq<DummyTrade>, date: int): seq<DummyTrade> {
    Select(ClosingOn(date), SortBy(ClosingTime, Select(IsClosedTrade, trades)))
  }

  function PnlOrZero(t: DummyTrade): Money { if t.pnl.Some? then t.pnl.value else 0 }
  function DurationOrZero(t: DummyTrade): int { if t.duration.Some? then t.duration.value else 0 }

  function NetOf(trades: seq<DummyTrade>): Money { SumOf(PnlOrZero, trades) }

  function RatioTotal(trades: seq<DummyTrade>): real {
    if trades == [] then 0.0
    else RatioTotal(trades[..|trades| - 1]) + trades[|trades| - 1].guardian.rewardRiskRatio
  }

  /** The first of the trades that earned most. */
  function Best(trades: seq<DummyTrade>): Option<DummyTrade> {
    if trades == [] then None
    else
      var n := |trades| - 1;
      var best := Best(trades[..n]);
      if best.None? || PnlOrZero(trades[n]) > PnlOrZero(best.value) then Some(trades[n]) else best
  }

  /** The first of the trades that earned least. */
  function Worst(trades: seq<DummyTrade>): Option<DummyTrade> {
    if trades == [] then None
    else
      var n := |trades| - 1;
      var worst := Worst(trades[..n]);
      if worst.None? || PnlOrZero(trades[n]) < PnlOrZero(worst.value) then Some(trades[n]) else worst
  }

  function HighestScore(trades: seq<DummyTrade>): real {
    if trades == [] then 0.0
    else if |trades| == 1 then trades[0].guardian.score
    else MaxReal(HighestScore(trades[..|trades| - 1]), trades[|trades| - 1].guardian.score)
  }

  /** A mean rounded to two decimals, or zero of nothing. */
  function MeanOrZero(total: real, count: nat): real {
    if count == 0 then 0.0 else RoundTo(total / count as real, 100.0)
  }

  /** The share of the winners in percent, rounded to two decimals. */
  function WinRate(trades: seq<DummyTrade>): real {
    if trades == [] then 0.0
    else RoundTo(|Select(IsWinner, trades)| as real / |trades| as real * 100.0, 100.0)
  }

  predicate IsWinner(t: DummyTrade) { PnlOrZero(t) > 0 }
  predicate IsLoser(t: DummyTrade) { PnlOrZero(t) <= 0 }
  predicate IsLong(t: DummyTrade) { t.direction == Long }
  predicate IsShort(t: DummyTrade) { t.direction == Short }
  predicate HasDuration(t: DummyTrade) { t.duration.Some? }

  /** The report of the trades of a date; the average hold time is in seconds. */
  function ReportOf(trades: seq<DummyTrade>, date: int, bias: Direction): DailyReport {
    DailyReport(
      date, |trades|, |Select(IsLong, trades)|, |Select(IsShort, trades)|,
      |Select(IsWinner, trades)|, |Select(IsLoser, trades)|, WinRate(trades),
      RoundTo(Amount(NetOf(trades)), 100.0), MeanOrZero(Amount(NetOf(trades)), |trades|),
      if trades == [] then 0.0 else RoundTo(RatioTotal(trades) / |trades| as real, UNITS),
      Best(trades), Worst(trades), HighestScore(trades),
      MeanOrZero(SumOf(DurationOrZero, trades) as real / 1_000_000.0, |Select(HasDuration, trades)|), bias)
  }

  function BuildReport(all: seq<DummyTrade>, date: int, bias: Direction): DailyReport {
    ReportOf(ClosedOn(all, date), date, bias)
  }

  // ---------------------------------------------------------------- the service

  /** The calls on the notification sink, in order. */
  datatype Notification =
    | SignalSent(trade: DummyTrade)
    | TargetHit(trade: DummyTrade)
    | StopLossHit(trade: DummyTrade)
    | NoTradeSent(at: Time)
    | DailySummarySent(at: Time, report: DailyReport)

  /** What the dashboard polls: the session phase, the last evaluation's direction and the last signal sent. */
  datatype CurrentState = CurrentState(
    marketStatus: Option<SessionPhase>,
    marketBias: Direction,
    latest: Option<DummyTrade>)

  datatype Signals = Signals(
    lastEvaluation: map<string, Evaluation>,
    pending: map<string, nat>,
    tradeOf: map<nat, nat>,
    lastNoTradeAt: Option<Time>,
    reportDate: Option<int>,
    latestCandleAt: Option<Time>,
    openSeenOn: Option<int>,
    filter: Filter,
    trades: seq<DummyTrade>,
    outbox: seq<Notification>,
    current: CurrentState)
  {
    /** Every trade id the service holds names a trade of the tracker. */
    predicate NoDangling() {
      && (forall s :: s in pending ==> pending[s] < |trades|)
      && (forall p :: p in tradeOf ==> tradeOf[p] < |trades|)
    }

    function Send(n: Notification): Signals { this.(outbox := outbox + [n]) }

    /** The candle's own instant when one was seen, the wall clock otherwise. */
    function Now(at: Time): Time { if latestCandleAt.Some? then latestCandleAt.value else at }
  }

  function NoSignals(): Signals {
    Signals(map[], map[], map[], None, None, None, None, Filter(map[], 0, None), [], [],
            CurrentState(None, NoDirection, None))
  }

  function OnMarketData(config: SignalConfig, s: Signals, candle: Candle): Signals {
    var t := candle.timestamp;
    var status := ClassifySession(config, t);
    var seen := s.(latestCandleAt := Some(t),
                   openSeenOn := if status == OpenMarket then Some(DateOf(t)) else s.openSeenOn,
                   current := s.current.(marketStatus := Some(status)));
    if && ClockOf(t) >= config.summaryTime
       && seen.openSeenOn == Some(DateOf(t))
       && seen.reportDate != Some(DateOf(t))
    then seen.(reportDate := Some(DateOf(t)))
             .Send(DailySummarySent(t, BuildReport(s.trades, DateOf(t), s.current.marketBias)))
    else seen
  }

  function OnSignalGenerated(s: Signals, e: Evaluation): Signals {
    s.(lastEvaluation := s.lastEvaluation[e.strategyName := e],
       current := s.current.(marketBias := e.direction))
  }

  function NotifyNoTrade(config: SignalConfig, s: Signals, now: Time, decision: Decision): Signals {
    if decision == BelowThreshold && (s.lastNoTradeAt.None? || now - s.lastNoTradeAt.value >= config.cooldown)
    then s.(lastNoTradeAt := Some(now)).Send(NoTradeSent(now))
    else s
  }

  function OnOrderFilled(config: SignalConfig, s: Signals, order: Order, at: Time): Signals {
    if order.strategyName !in s.lastEvaluation then s
    else
      var guardian := Guardian(s.lastEvaluation[order.strategyName].strength,
                               order.FillPrice(), order.stopLoss, order.target);
      var now := s.Now(at);
      var decision := s.filter.ShouldEmit(config, order.strategyName, guardian.score, now);
      if decision != Allowed then
        NotifyNoTrade(config, s.(filter := s.filter.RollDay(now)), now, decision)
      else
        var trade := NewTrade(|s.trades|, order, guardian, now);
        s.(trades := s.trades + [trade],
           pending := s.pending[order.strategyName := trade.tradeId],
           filter := s.filter.Recorded(order.strategyName, now),
           current := s.current.(latest := Some(trade)))
         .Send(SignalSent(trade))
  }

  function ExitNotice(trade: DummyTrade): seq<Notification> {
    if trade.exitReason == Some(TargetExit) then [TargetHit(trade)]
    else if trade.exitReason == Some(StopLossExit) then [StopLossHit(trade)]
    else []
  }

  function CloseOf(s: Signals, tradeId: nat, p: Position, at: Time): DummyTrade
    requires tradeId < |s.trades|
  {
    var trade := s.trades[tradeId];
    ClosedTrade(trade, InferExitPrice(p.direction, trade.entryPrice, p.realizedPnl, p.initialQuantity),
                s.Now(at), p.realizedPnl)
  }

  function OnPositionUpdated(s: Signals, p: Position, at: Time): Signals
    requires s.NoDangling()
  {
    if p.status == Open && p.strategyName in s.pending then
      s.(pending := s.pending - {p.strategyName}, tradeOf := s.tradeOf[p.positionId := s.pending[p.strategyName]])
    else if p.status != Closed || p.positionId !in s.tradeOf then s
    else
      var id := s.tradeOf[p.positionId];
      var closed := CloseOf(s, id, p, at);
      s.(tradeOf := s.tradeOf - {p.positionId},
         trades := s.trades[id := closed],
         outbox := s.outbox + ExitNotice(closed))
  }

  /** The service reacts to four kinds of event and ignores the others. */
  function OnEvent(config: SignalConfig, s: Signals, e: Event): (r: Signals)
    requires s.NoDangling()
    ensures r.NoDangling()
    ensures |s.trades| <= |r.trades| && s.outbox <= r.outbox
  {
    match e
    case SignalGenerated(evaluation) => OnSignalGenerated(s, evaluation)
    case OrderFilled(order, at) => OnOrderFilled(config, s, order, at)
    case PositionUpdated(position, at) => OnPositionUpdated(s, position, at)
    case MarketDataReceived(candle) => OnMarketData(config, s, candle)
    case _ => s
  }

  /** The service's state after observing a log of events from the start. */
  function Observe(config: SignalConfig, log: seq<Event>): (s: Signals)
    ensures s.NoDangling()
  {
    if log == [] then NoSignals()
    else OnEvent(config, Observe(config, log[..|log| - 1]), log[|log| - 1])
  }

  lemma ObserveNext(config: SignalConfig, log: seq<Event>, e: Event)
    ensures Observe(config, log + [e]) == OnEvent(config, Observe(config, log), e)
  {
  }

  /** The score never leaves the range its model requires, so building it never raises. */
  lemma ScoreInRange(strength: Strength, entry: real, stopLoss: real, target: real)
    ensures 0.0 <= Guardian(strength, entry, stopLoss, target).score <= 100.0
    ensures Guardian(strength, entry, stopLoss, target).rewardRiskRatio >= 0.0
  {
    var risk := Abs(entry - stopLoss);
    if risk > 0.0 {
      DivideMonotone(0.0, Abs(target - entry), risk);
      RoundToMonotone(0.0, Abs(target - entry) / risk, UNITS);
      RoundWhole(0);
    }
    var ratio := RewardToRisk(entry, stopLoss, target);
    var raw := MinReal(BaseScore(strength) + MinReal(ratio / 3.0, 1.0) * 30.0, 100.0);
    RoundToMonotone(0.0, raw, 100.0);
    RoundToMonotone(raw, 100.0, 100.0);
    RoundWhole(0);
    RoundWhole(10000);
  }

  /** A stronger evaluation and a better reward for the risk never lower the score, and a ratio of three or more
      earns the full bonus. */
  lemma ScoreMonotone(weaker: Strength, stronger: Strength, low: real, high: real)
    requires Rank(weaker) <= Rank(stronger) && low <= high
    ensures ScoreOf(weaker, low) <= ScoreOf(stronger, high)
    ensures low >= 3.0 ==> ScoreOf(weaker, low) == BaseScore(weaker) + 30.0
  {
    DivideMonotone(low, high, 3.0);
    var lower := MinReal(BaseScore(weaker) + MinReal(low / 3.0, 1.0) * 30.0, 100.0);
    var higher := MinReal(BaseScore(stronger) + MinReal(high / 3.0, 1.0) * 30.0, 100.0);
    RoundToMonotone(lower, higher, 100.0);
    if low >= 3.0 {
      var cents := match weaker case Strong => 10000 case Moderate => 8500 case Weak => 6500;
      assert lower * 100.0 == cents as real;
      RoundWhole(cents);
    }
  }

  /** The score spelled out: 70, 55 or 35 points for the strength and ten more for each unit of reward per risk up to
      three, in hundredths. */
  lemma ScoreIs(strength: Strength, ratio: real)
    ensures var base := match strength case Strong => 70.0 case Moderate => 55.0 case Weak => 35.0;
            ScoreOf(strength, ratio) == RoundTo(base + 10.0 * (if ratio < 3.0 then ratio else 3.0), 100.0)
  {
  }

  /** The ratio the score is built on: the reward per unit of risk in ten-thousandths, and zero without any risk. */
  lemma GuardianIs(strength: Strength, entry: real, stopLoss: real, target: real)
    ensures var g := Guardian(strength, entry, stopLoss, target);
            && g.strength == strength && g.score == ScoreOf(strength, g.rewardRiskRatio)
            && g.rewardRiskRatio
               == if entry == stopLoss then 0.0 else RoundTo(Abs(target - entry) / Abs(entry - stopLoss), 10000.0)
  {
    hide RoundTo, ScoreOf;
  }

  /** What an exit price is taken for: the target within the larger of a cent and two percent of the way to it, else
      the stop within the same distance, else the end of the day. */
  lemma ReasonIs(entry: real, stopLoss: real, target: real, exitPrice: real)
    ensures var near := (level: real) =>
              100.0 * Abs(exitPrice - level) <= 1.0 || 50.0 * Abs(exitPrice - level) <= Abs(target - entry);
            InferExitReason(entry, stopLoss, target, exitPrice)
            == if near(target) then TargetExit else if near(stopLoss) then StopLossExit else EndOfDayExit
  {
  }
}
