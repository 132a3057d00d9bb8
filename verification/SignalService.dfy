/** The signal engine's objects: filter, trade tracker and the service that drives them. */
module SignalServices {
  import opened Market
  import opened Rounding
  import opened RiskEngine
  import opened PaperModels
  import opened Events
  import opened SignalStep

  class SignalFilter {
    const config: SignalConfig
    var lastSignalAt: map<string, Time>
    var signalsToday: nat
    var currentDay: Option<int>

    constructor (config: SignalConfig)
      ensures this.config == config && View() == NoSignals().filter
    {
      this.config := config;
      lastSignalAt, signalsToday, currentDay := map[], 0, None;
    }

    function View(): Filter
      reads this
    {
      Filter(lastSignalAt, signalsToday, currentDay)
    }

    method RollDayIfNeeded(now: Time)
      modifies this
      ensures View() == old(View()).RollDay(now)
    {
      var today := DateOf(now);
      if currentDay != Some(today) {
        currentDay := Some(today);
        signalsToday := 0;
      }
    }

    method ShouldEmit(strategyName: string, score: real, now: Time) returns (decision: Decision)
      modifies this
      ensures decision == old(View()).ShouldEmit(config, strategyName, score, now)
      ensures View() == old(View()).RollDay(now)
    {
      RollDayIfNeeded(now);
      if ClassifySession(config, now) != OpenMarket { return OutsideHours; }
      if score < config.confidenceThreshold { return BelowThreshold; }
      if strategyName in lastSignalAt {
        if now - lastSignalAt[strategyName] < config.cooldown { return InCooldown; }
      }
      if signalsToday >= config.maxSignalsPerDay { return DailyLimitReached; }
      return Allowed;
    }

    method RecordEmitted(strategyName: string, now: Time)
      modifies this
      ensures View() == old(View()).Recorded(strategyName, now)
    {
      RollDayIfNeeded(now);
      lastSignalAt := lastSignalAt[strategyName := now];
      signalsToday := signalsToday + 1;
    }
  }

  class DummyTradeTracker {
    var trades: seq<DummyTrade>

    constructor ()
      ensures trades == []
    {
      trades := [];
    }

    method OpenTrade(order: Order, guardian: GuardianScore, now: Time) returns (trade: DummyTrade)
      modifies this
      ensures trade == NewTrade(|old(trades)|, order, guardian, now)
      ensures trades == old(trades) + [trade]
    {
      trade := NewTrade(|trades|, order, guardian, now);
      trades := trades + [trade];
    }

    /** None is the KeyError of an unknown trade id. */
    method CloseTrade(tradeId: nat, exitPrice: real, closedAt: Time, pnl: Money) returns (closed: Option<DummyTrade>)
      modifies this
      ensures tradeId >= |old(trades)| ==> closed == None && trades == old(trades)
      ensures tradeId < |old(trades)| ==>
                && closed == Some(ClosedTrade(old(trades)[tradeId], exitPrice, closedAt, pnl))
                && trades == old(trades)[tradeId := closed.value]
    {
      if tradeId >= |trades| { return None; }
      var trade := ClosedTrade(trades[tradeId], exitPrice, closedAt, pnl);
      trades := trades[tradeId := trade];
      closed := Some(trade);
    }
  }

  class SignalService {
    const config: SignalConfig
    const filter: SignalFilter
    const tracker: DummyTradeTracker
    var lastEvaluation: map<string, Evaluation>
    var pending: map<string, nat>
    var tradeOf: map<nat, nat>
    var lastNoTradeAt: Option<Time>
    var reportDate: Option<int>
    var latestCandleAt: Option<Time>
    var openSeenOn: Option<int>
    /** The calls made on the notification sink. */
    var outbox: seq<Notification>
    var current: CurrentState

    constructor (config: SignalConfig)
      ensures this.config == config && fresh(filter) && fresh(tracker)
      ensures Valid() && View() == NoSignals()
    {
      this.config := config;
      filter := new SignalFilter(config);
      tracker := new DummyTradeTracker();
      lastEvaluation, pending, tradeOf := map[], map[], map[];
      lastNoTradeAt, reportDate, latestCandleAt, openSeenOn := None, None, None, None;
      outbox := [];
      current := CurrentState(None, NoDirection, None);
    }

    function View(): Signals
      reads this, filter, tracker
    {
      Signals(lastEvaluation, pending, tradeOf, lastNoTradeAt, reportDate, latestCandleAt, openSeenOn,
              filter.View(), tracker.trades, outbox, current)
    }

    ghost predicate Valid()
      reads this, filter, tracker
    {
      filter.config == config && View().NoDangling()
    }

    method OnMarketData(candle: Candle)
      requires Valid()
      modifies this
      ensures Valid() && View() == SignalStep.OnMarketData(config, old(View()), candle)
    {
      hide BuildReport, ClockOf;
      var date := DateOf(candle.timestamp);
      latestCandleAt := Some(candle.timestamp);
      var status := ClassifySession(config, candle.timestamp);
      current := current.(marketStatus := Some(status));
      if status == OpenMarket { openSeenOn := Some(date); }
      if ClockOf(candle.timestamp) >= config.summaryTime && openSeenOn == Some(date) && reportDate != Some(date) {
        reportDate := Some(date);
        var report := BuildReport(tracker.trades, date, current.marketBias);
        outbox := outbox + [DailySummarySent(candle.timestamp, report)];
      }
    }

    method OnSignalGenerated(evaluation: Evaluation)
      requires Valid()
      modifies this
      ensures Valid() && View() == SignalStep.OnSignalGenerated(old(View()), evaluation)
    {
      lastEvaluation := lastEvaluation[evaluation.strategyName := evaluation];
      current := current.(marketBias := evaluation.direction);
    }

    method MaybeNotifyNoTrade(now: Time, decision: Decision)
      requires Valid()
      modifies this
      ensures Valid() && View() == NotifyNoTrade(config, old(View()), now, decision)
    {
      if decision != BelowThreshold { return; }
      if lastNoTradeAt.Some? && now - lastNoTradeAt.value < config.cooldown { return; }
      lastNoTradeAt := Some(now);
      outbox := outbox + [NoTradeSent(now)];
    }

    method OnOrderFilled(order: Order, at: Time)
      requires Valid()
      modifies this, filter, tracker
      ensures Valid() && View() == SignalStep.OnOrderFilled(config, old(View()), order, at)
    {
      hide Guardian, Filter.ShouldEmit, DateOf;
      if order.strategyName !in lastEvaluation { return; }
      var guardian := Guardian(lastEvaluation[order.strategyName].strength,
                               order.FillPrice(), order.stopLoss, order.target);
      var now := if latestCandleAt.Some? then latestCandleAt.value else at;
      var decision := filter.ShouldEmit(order.strategyName, guardian.score, now);
      if decision != Allowed {
        MaybeNotifyNoTrade(now, decision);
        return;
      }
      var trade := tracker.OpenTrade(order, guardian, now);
      pending := pending[order.strategyName := trade.tradeId];
      current := current.(latest := Some(trade));
      outbox := outbox + [SignalSent(trade)];
      filter.RecordEmitted(order.strategyName, now);
    }

    method OnPositionUpdated(p: Position, at: Time)
      requires Valid()
      modifies this, tracker
      ensures Valid() && View() == SignalStep.OnPositionUpdated(old(View()), p, at)
    {
      if p.status == Open && p.strategyName in pending {
        tradeOf := tradeOf[p.positionId := pending[p.strategyName]];
        pending := pending - {p.strategyName};
        return;
      }
      if p.status != Closed || p.positionId !in tradeOf { return; }
      var tradeId := tradeOf[p.positionId];
      tradeOf := tradeOf - {p.positionId};
      var trade := tracker.trades[tradeId];
      var exitPrice := InferExitPrice(p.direction, trade.entryPrice, p.realizedPnl, p.initialQuantity);
      var now := if latestCandleAt.Some? then latestCandleAt.value else at;
      var closed := tracker.CloseTrade(tradeId, exitPrice, now, p.realizedPnl);
      if closed.value.exitReason == Some(TargetExit) {
        outbox := outbox + [TargetHit(closed.value)];
      } else if closed.value.exitReason == Some(StopLossExit) {
        outbox := outbox + [StopLossHit(closed.value)];
      }
    }

    /** The subscriptions of the service. */
    method Handle(e: Event)
      requires Valid()
      modifies this, filter, tracker
      ensures Valid() && View() == OnEvent(config, old(View()), e)
    {
      match e
      case SignalGenerated(evaluation) => OnSignalGenerated(evaluation);
      case OrderFilled(order, at) => OnOrderFilled(order, at);
      case PositionUpdated(p, at) => OnPositionUpdated(p, at);
      case MarketDataReceived(candle) => OnMarketData(candle);
      case _ =>
    }
  }
}
