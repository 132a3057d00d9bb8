/** The event processor: the objects of the runtime, stepped one candle at a time. */
module EventProcessors {
  import opened Arithmetic
  import opened Market
  import opened Rounding
  import opened RiskEngine
  import opened PaperModels
  import opened Events
  import opened TradingStep
  import opened Ledger
  import opened SignalStep
  import opened SignalServices
  import opened EventBuses
  import opened PaperTrading

  /** Entering a position, field by field. */
  lemma EnterIs(c: Core, best: Candidate, price: real, now: Time, filled: Order, next: Core)
    requires filled == PaperFill(EntryOrder(c, best, price))
    requires next.orders == c.orders + [filled]
    requires next.positions
             == c.positions + [NewPosition(|c.positions|, filled.strategyName, filled.direction, filled.FillPrice(),
                                           filled.filledQuantity)]
    requires next.book == c.book
    requires next.proc
             == c.proc.(openId := Some(|c.positions|), stopLoss := best.assessment.stopLoss,
                        target := best.assessment.target, tradesTakenToday := c.proc.tradesTakenToday + 1)
    requires next.log
             == c.log + [OrderSubmitted(EntryOrder(c, best, price))] + [OrderFilled(filled, now)]
                + [PositionUpdated(next.positions[|c.positions|], now)]
    ensures next == Enter(c, best, price, now)
  {
  }

  lemma NothingApproved()
    ensures ApprovalEvents([]) == []
  {
  }

  lemma ApprovedNext(candidates: seq<Candidate>, next: Candidate)
    ensures ApprovalEvents(candidates + [next])
            == ApprovalEvents(candidates)
               + if next.assessment.RiskOk() then [RiskApproved(next.assessment)] else []
  {
    assert (candidates + [next])[..|candidates|] == candidates;
  }

  class EventProcessor {
    const env: Env
    const bus: EventBus
    const orderManager: OrderManager
    const positionManager: PositionManager
    const portfolioManager: PortfolioManager
    var openId: Option<nat>
    var stopLoss: real
    var target: real
    var lastTradeClosedAt: Option<Time>
    var currentDate: Option<int>
    var tradesTakenToday: nat
    var realizedLossToday: Money

    /** Wires a fresh runtime with the signal service subscribed from the start. */
    constructor (env: Env, config: SignalConfig)
      ensures this.env == env && bus.signals.config == config && bus.health.processedCandles == 0
      ensures Valid() && View() == Initial(env)
      ensures fresh(Objects())
    {
      hide Balanced, EventBus.Valid;
      var eventBus := new EventBus(config);
      var positions := new PositionManager(eventBus);
      this.env := env;
      bus := eventBus;
      positionManager := positions;
      portfolioManager := new PortfolioManager(env.initialCapital, positions, eventBus);
      orderManager := new OrderManager(eventBus);
      openId, stopLoss, target, lastTradeClosedAt := None, 0.0, 0.0, None;
      currentDate, tradesTakenToday, realizedLossToday := None, 0, 0;
      RunBalanced(env, []);
    }

    ghost function Objects(): set<object> {
      {this, orderManager, positionManager, portfolioManager} + bus.Objects()
    }

    function ProcessorView(): Processor
      reads this
    {
      Processor(openId, stopLoss, target, lastTradeClosedAt, currentDate, tradesTakenToday, realizedLossToday)
    }

    ghost function View(): Core
      reads this, orderManager, positionManager, portfolioManager, bus
    {
      Core(orderManager.orders, positionManager.positions, portfolioManager.View(), ProcessorView(), bus.log)
    }

    /** One bus, one set of managers, and the ledger invariant that keeps every manager call from raising. */
    ghost predicate Valid()
      reads Objects()
    {
      && Wired() && bus.Valid() && Balanced(env, View())
    }

    ghost predicate Wired()
    {
      && orderManager.bus == bus && positionManager.bus == bus && portfolioManager.bus == bus
      && portfolioManager.positionManager == positionManager
    }

    method ProcessCandle(candle: Candle, history: seq<Candle>)
      requires Valid()
      modifies Objects()
      ensures Valid()
      ensures bus.health.processedCandles == old(bus.health.processedCandles)
      ensures View() == Step(env, old(View()), candle, history)
    {
      hide EventProcessor.Valid, EventProcessor.View, EventProcessor.Objects, Receive, Exit, Entry, Mark;
      ReceiveCandle(candle);
      if |history| <= env.warmup { return; }
      CheckOpenPosition(candle, history);
      EnterIfFlat(candle, history);
      MarkIfOpen(candle, history);
      SnapshotPortfolio();
    }

    /** The snapshot that ends a candle. */
    method SnapshotPortfolio()
      requires Valid()
      modifies Objects()
      ensures Valid()
      ensures bus.health.processedCandles == old(bus.health.processedCandles)
      ensures View() == TakeSnapshot(old(View()))
    {
      hide EventBus.Valid, Balanced;
      SnapshotKeepsBooks(env, View());
      var _ := portfolioManager.Snapshot();
    }

    /** The day roll-over and the market data event. */
    method ReceiveCandle(candle: Candle)
      requires Valid()
      modifies Objects()
      ensures Valid()
      ensures bus.health.processedCandles == old(bus.health.processedCandles)
      ensures View() == Receive(old(View()), candle)
    {
      hide Balanced, EventBus.Valid;
      ReceiveBalanced(env, View(), candle);
      RollDay(DateOf(candle.timestamp));
      bus.Publish(MarketDataReceived(candle));
    }

    method RollDay(date: int)
      modifies this`currentDate, this`tradesTakenToday, this`realizedLossToday
      ensures ProcessorView()
              == if old(currentDate) == Some(date) then old(ProcessorView())
                 else old(ProcessorView()).(currentDate := Some(date), tradesTakenToday := 0, realizedLossToday := 0)
    {
      if currentDate != Some(date) {
        currentDate := Some(date);
        tradesTakenToday := 0;
        realizedLossToday := 0;
      }
    }

    /** The exit check of a candle, when a position is open. */
    method CheckOpenPosition(candle: Candle, history: seq<Candle>)
      requires Valid()
      modifies Objects()
      ensures Valid()
      ensures bus.health.processedCandles == old(bus.health.processedCandles)
      ensures View() == Exit(env, old(View()), candle, history)
    {
      if openId.Some? {
        ghost var c := View();
        ExitBalanced(env, c, candle, env.wallClock(|history|));
        CheckExit(candle, env.wallClock(|history|));
        assert View() == TradingStep.CheckExit(c, candle, env.wallClock(|history|));
      }
    }

    method CheckExit(candle: Candle, now: Time)
      requires Valid() && openId.Some?
      modifies Objects()
      ensures Wired() && bus.Valid()
      ensures bus.health.processedCandles == old(bus.health.processedCandles)
      ensures View() == TradingStep.CheckExit(old(View()), candle, now)
    {
      ghost var c := View();
      OpenIsLive(env, c);
      OpenQuantityPositive(env, c);
      hide Balanced, Exited, ExitPrice, EventBus.Valid;
      var p := positionManager.positions[openId.value];
      var exitPrice := BreachedPrice(p.direction, candle);
      if exitPrice.Some? { Close(p, exitPrice.value, candle, now); }
    }

    /** The price at which a candle takes a position of some direction out; the stop is checked first. */
    method BreachedPrice(direction: Direction, candle: Candle) returns (exitPrice: Option<real>)
      ensures exitPrice == ExitPrice(direction, stopLoss, target, candle)
    {
      var stopLossBreached, targetBreached;
      if direction == Short {
        stopLossBreached := candle.high >= stopLoss;
        targetBreached := candle.low <= target;
      } else {
        stopLossBreached := candle.low <= stopLoss;
        targetBreached := candle.high >= target;
      }
      exitPrice := None;
      if stopLossBreached {
        exitPrice := Some(stopLoss);
      } else if targetBreached {
        exitPrice := Some(target);
      } else if ClockOf(candle.timestamp) >= MARKET_CLOSE {
        exitPrice := Some(candle.close);
      }
    }

    /** Leaves the whole position at a price and books what that realized. */
    method Close(p: Position, price: real, candle: Candle, now: Time)
      requires Wired() && bus.Valid() && openId.Some? && openId.value < |positionManager.positions|
      requires p == positionManager.positions[openId.value] && p.status == Open && p.quantity >= 1
      requires p.positionId == openId.value
      modifies Objects()
      ensures Wired() && bus.Valid()
      ensures bus.health.processedCandles == old(bus.health.processedCandles)
      ensures var c := old(View());
              var closed := Exited(p, p.quantity, price);
              var realized := closed.realizedPnl - p.realizedPnl;
              View() == c.(positions := c.positions[p.positionId := closed],
                           book := c.book.Record(realized),
                           proc := c.proc.(openId := None,
                                           lastTradeClosedAt := Some(candle.timestamp),
                                           realizedLossToday := c.proc.realizedLossToday + Max(0, -realized)))
                         .Publish(PositionUpdated(closed, now))
    {
      hide EventBus.Valid, Exited;
      var closed := positionManager.Exit(p.positionId, p.quantity, price, now);
      BookExit(closed.value.realizedPnl - p.realizedPnl, candle.timestamp);
    }

    method BookExit(realized: Money, at: Time)
      modifies this, portfolioManager
      ensures portfolioManager.View() == old(portfolioManager.View()).Record(realized)
      ensures var proc := old(ProcessorView());
              ProcessorView() == proc.(openId := None, lastTradeClosedAt := Some(at),
                                       realizedLossToday := proc.realizedLossToday + Max(0, -realized))
    {
      portfolioManager.RecordCashChange(realized);
      realizedLossToday := realizedLossToday + Max(0, -realized);
      lastTradeClosedAt := Some(at);
      openId := None;
    }

    /** The entry evaluation of a candle, when no position is open. */
    method EnterIfFlat(candle: Candle, history: seq<Candle>)
      requires Valid() && history != []
      modifies Objects()
      ensures Valid()
      ensures bus.health.processedCandles == old(bus.health.processedCandles)
      ensures View() == Entry(env, old(View()), candle, history)
    {
      if openId.None? {
        EntryBalanced(env, View(), candle, history);
        EvaluateEntry(candle, history);
      }
    }

    method EvaluateEntry(candle: Candle, history: seq<Candle>)
      requires Wired() && bus.Valid() && history != []
      modifies Objects()
      ensures Wired() && bus.Valid()
      ensures bus.health.processedCandles == old(bus.health.processedCandles)
      ensures View() == TradingStep.EvaluateEntry(env, old(View()), candle, history)
    {
      hide Assess, EventBus.Valid, SignalEvents, ApprovalEvents, Recommend, Enter;
      ghost var c := View();
      var price := history[|history| - 1].close;
      var reading := env.pipeline(candle, history, lastTradeClosedAt);
      AnnounceEvaluations(reading.evaluations);
      var capital := CapitalState(Amount(env.initialCapital), 0.0, Amount(realizedLossToday), tradesTakenToday, 0);
      var candidates := AssessCandidates(reading, price, capital);
      assert View() == Announce(env, c, candle, history);
      var recommendation := Recommend(candidates, reading.canTrade);
      if recommendation.Actionable() {
        EnterPosition(recommendation.best, price, env.wallClock(|history|));
      }
    }

    method AnnounceEvaluations(evaluations: seq<Evaluation>)
      requires Wired() && bus.Valid()
      modifies bus.Objects()
      ensures bus.Valid() && bus.log == old(bus.log) + SignalEvents(evaluations)
      ensures bus.health.processedCandles == old(bus.health.processedCandles)
    {
      hide EventBus.Valid, EventBus.Objects;
      for i := 0 to |evaluations|
        invariant bus.Valid() && bus.log == old(bus.log) + SignalEvents(evaluations)[..i]
        invariant bus.health.processedCandles == old(bus.health.processedCandles)
      {
        bus.Publish(SignalGenerated(evaluations[i]));
      }
    }

    /** Assesses every evaluation, publishing the approved ones on the way. */
    method AssessCandidates(reading: Reading, price: real, capital: CapitalState) returns (candidates: seq<Candidate>)
      requires Wired() && bus.Valid()
      modifies bus.Objects()
      ensures candidates == Candidates(env, reading.evaluations, price, reading.atr, capital)
      ensures bus.Valid() && bus.log == old(bus.log) + ApprovalEvents(candidates)
      ensures bus.health.processedCandles == old(bus.health.processedCandles)
    {
      hide Assess, EventBus.Valid, EventBus.Objects, ApprovalEvents;
      candidates := [];
      NothingApproved();
      ghost var all := Candidates(env, reading.evaluations, price, reading.atr, capital);
      for i := 0 to |reading.evaluations|
        invariant candidates == all[..i]
        invariant bus.Valid() && bus.log == old(bus.log) + ApprovalEvents(candidates)
        invariant bus.health.processedCandles == old(bus.health.processedCandles)
      {
        var evaluation := reading.evaluations[i];
        var assessment := Assess(evaluation.direction, price, reading.atr, env.risk, capital);
        AnnounceIfApproved(assessment);
        ApprovedNext(candidates, Candidate(evaluation, assessment));
        candidates := candidates + [Candidate(evaluation, assessment)];
      }
    }

    method AnnounceIfApproved(assessment: RiskAssessment)
      requires bus.Valid()
      modifies bus.Objects()
      ensures bus.Valid() && bus.log == old(bus.log) + if assessment.RiskOk() then [RiskApproved(assessment)] else []
      ensures bus.health.processedCandles == old(bus.health.processedCandles)
    {
      hide EventBus.Valid, EventBus.Objects;
      if assessment.RiskOk() { bus.Publish(RiskApproved(assessment)); }
    }

    /** Order, validation, submission to the paper broker, and the position of the fill. */
    method EnterPosition(best: Candidate, price: real, now: Time)
      requires Wired() && bus.Valid() && best.assessment.positionSize >= 1
      modifies Objects()
      ensures Wired() && bus.Valid()
      ensures bus.health.processedCandles == old(bus.health.processedCandles)
      ensures View() == Enter(old(View()), best, price, now)
    {
      hide EventBus.Valid, EventProcessor.View, PaperFill, NewOrder, NewPosition, Order.FillPrice, Enter;
      ghost var c := View();
      var filled := PlaceOrder(best, price, now);
      OpenFrom(filled, now);
      Track(best.assessment);
      EnterIs(c, best, price, now, filled, View());
    }

    /** The bracket of the position just opened, and one more trade today. */
    method Track(a: RiskAssessment)
      requires bus.Valid()
      modifies this`stopLoss, this`target, this`tradesTakenToday
      ensures bus.Valid()
      ensures View() == old(View()).(proc := old(View()).proc.(stopLoss := a.stopLoss, target := a.target,
                                     tradesTakenToday := old(View()).proc.tradesTakenToday + 1))
    {
      hide SignalService.Valid;
      stopLoss, target := a.stopLoss, a.target;
      tradesTakenToday := tradesTakenToday + 1;
    }

    /** The position of a filled order becomes the tracked one. */
    method OpenFrom(filled: Order, now: Time)
      requires Wired() && bus.Valid() && filled.filledQuantity >= 1
      modifies this`openId, positionManager, bus.Objects()
      ensures bus.Valid()
      ensures bus.health.processedCandles == old(bus.health.processedCandles)
      ensures var c := old(View());
              var p := NewPosition(|c.positions|, filled.strategyName, filled.direction, filled.FillPrice(),
                                   filled.filledQuantity);
              View() == c.(positions := c.positions + [p], proc := c.proc.(openId := Some(|c.positions|)),
                           log := c.log + [PositionUpdated(p, now)])
    {
      hide EventBus.Valid, Order.FillPrice;
      var position := positionManager.OpenPosition(filled.strategyName, filled.direction, filled.FillPrice(),
                                                   filled.filledQuantity, now);
      openId := Some(position.value.positionId);
    }

    /** An order from creation to its fill; none of the steps can be refused. */
    method PlaceOrder(best: Candidate, price: real, now: Time) returns (filled: Order)
      requires Wired() && bus.Valid() && best.assessment.positionSize >= 1
      modifies orderManager, bus.Objects()
      ensures bus.Valid()
      ensures bus.health.processedCandles == old(bus.health.processedCandles)
      ensures var c := old(View());
              var submitted := EntryOrder(c, best, price);
              && filled == PaperFill(submitted) && filled.filledQuantity >= 1
              && View() == c.(orders := c.orders + [filled],
                              log := c.log + [OrderSubmitted(submitted)] + [OrderFilled(filled, now)])
    {
      hide EventBus.Valid;
      var a := best.assessment;
      var created := orderManager.CreateOrder(OrderName(best.evaluation.strategyName), best.evaluation.direction,
                                              price, a.positionSize, a.stopLoss, a.target);
      var orderId := created.value.orderId;
      var validated := orderManager.Validate(orderId);
      assert validated.Success?;
      var submitted := orderManager.Submit(orderId, PaperFill, now);
      filled := submitted.value;
    }

    /** The valuation of the position that is open at the end of a candle. */
    method MarkIfOpen(candle: Candle, history: seq<Candle>)
      requires Valid()
      modifies Objects()
      ensures Valid()
      ensures bus.health.processedCandles == old(bus.health.processedCandles)
      ensures View() == Mark(env, old(View()), candle, history)
    {
      if openId.Some? {
        OpenIsLive(env, View());
        MarkBalanced(env, View(), candle.close, env.wallClock(|history|));
        hide Balanced, EventBus.Valid;
        MarkPosition(candle.close, env.wallClock(|history|));
      }
    }

    method MarkPosition(price: real, now: Time)
      requires Wired() && bus.Valid() && openId.Some? && openId.value < |positionManager.positions|
      requires positionManager.positions[openId.value].status == Open
      modifies positionManager, bus.Objects()
      ensures bus.Valid()
      ensures bus.health.processedCandles == old(bus.health.processedCandles)
      ensures View() == MarkOpen(old(View()), price, now)
    {
      hide Marked, EventBus.Valid;
      var marked := positionManager.UpdateUnrealizedPnl(openId.value, price, now);
      assert marked.Success?;
    }
  }
}
