/** One candle through the event processor, as a function on the trading state.

    The classes in PaperTrading.dfy and EventProcessor.dfy are proved to compute exactly this function;
    what the runtime promises is then proved about it. */
module TradingStep {
  import opened Arithmetic
  import opened Market
  import opened Rounding
  import opened RiskEngine
  import opened PaperModels
  import opened Events

  /** What the indicator, context, condition and strategy packages report for a candle. */
  datatype Reading = Reading(atr: real, evaluations: seq<Evaluation>, canTrade: bool)

  /** The fixed surroundings of a run: configuration, the analysis pipeline as an arbitrary function of the
      candle, the history and the last exit, and the wall clock at each candle. */
  datatype Env = Env(
    risk: RiskConfig,
    initialCapital: Money,
    warmup: nat,
    pipeline: (Candle, seq<Candle>, Option<Time>) -> Reading,
    wallClock: nat -> Time)

  /** The fields of the event processor itself. */
  datatype Processor = Processor(
    openId: Option<nat>,
    stopLoss: real,
    target: real,
    lastTradeClosedAt: Option<Time>,
    currentDate: Option<int>,
    tradesTakenToday: nat,
    realizedLossToday: Money)

  datatype Core = Core(
    orders: seq<Order>,
    positions: seq<Position>,
    book: Book,
    proc: Processor,
    log: seq<Event>)
  {
    function Publish(e: Event): Core { this.(log := log + [e]) }

    function HasOpen(): bool { proc.openId.Some? }

    predicate OpenIdInRange() { proc.openId.Some? ==> proc.openId.value < |positions| }

    function OpenPosition(): Position
      requires HasOpen() && OpenIdInRange()
    {
      positions[proc.openId.value]
    }
  }

  function InitialProcessor(): Processor { Processor(None, 0.0, 0.0, None, None, 0, 0) }

  function Initial(env: Env): Core {
    Core([], [], Book(env.initialCapital, env.initialCapital, 0, env.initialCapital), InitialProcessor(), [])
  }

  // ---------------------------------------------------------------- the ten steps of a candle

  function Receive(c: Core, candle: Candle): Core {
    var date := DateOf(candle.timestamp);
    var proc := if c.proc.currentDate == Some(date) then c.proc
                else c.proc.(currentDate := Some(date), tradesTakenToday := 0, realizedLossToday := 0);
    c.(proc := proc).Publish(MarketDataReceived(candle))
  }

  /** Stop before target before end of day; the direction decides which side of the candle breaches. */
  function ExitPrice(direction: Direction, stopLoss: real, target: real, candle: Candle): Option<real> {
    if (if direction == Short then candle.high >= stopLoss else candle.low <= stopLoss) then Some(stopLoss)
    else if (if direction == Short then candle.low <= target else candle.high >= target) then Some(target)
    else if ClockOf(candle.timestamp) >= MARKET_CLOSE then Some(candle.close)
    else None
  }

  function CheckExit(c: Core, candle: Candle, now: Time): Core
    requires c.HasOpen() && c.OpenIdInRange()
  {
    var p := c.OpenPosition();
    match ExitPrice(p.direction, c.proc.stopLoss, c.proc.target, candle)
    case None => c
    case Some(price) =>
      var closed := Exited(p, p.quantity, price);
      var realized := closed.realizedPnl - p.realizedPnl;
      c.(positions := c.positions[c.proc.openId.value := closed],
         book := c.book.Record(realized),
         proc := c.proc.(openId := None,
                         lastTradeClosedAt := Some(candle.timestamp),
                         realizedLossToday := c.proc.realizedLossToday + Max(0, -realized)))
       .Publish(PositionUpdated(closed, now))
  }

  function SignalEvents(evaluations: seq<Evaluation>): seq<Event> {
    seq(|evaluations|, i requires 0 <= i < |evaluations| => SignalGenerated(evaluations[i]))
  }

  function ApprovalEvents(candidates: seq<Candidate>): seq<Event> {
    if candidates == [] then []
    else
      var n := |candidates| - 1;
      ApprovalEvents(candidates[..n])
      + (if candidates[n].assessment.RiskOk() then [RiskApproved(candidates[n].assessment)] else [])
  }

  function Capital(env: Env, c: Core): CapitalState {
    CapitalState(Amount(env.initialCapital), 0.0, Amount(c.proc.realizedLossToday), c.proc.tradesTakenToday, 0)
  }

  function Candidates(env: Env, evaluations: seq<Evaluation>, price: real, atr: real, capital: CapitalState)
    : seq<Candidate>
  {
    seq(|evaluations|, i requires 0 <= i < |evaluations| =>
      Candidate(evaluations[i], Assess(evaluations[i].direction, price, atr, env.risk, capital)))
  }

  function OrderName(strategyName: string): string { if strategyName == "" then "unknown" else strategyName }

  /** The submitted order of a recommendation. */
  function EntryOrder(c: Core, best: Candidate, price: real): Order {
    var a := best.assessment;
    NewOrder(|c.orders|, OrderName(best.evaluation.strategyName), best.evaluation.direction,
             price, a.positionSize, a.stopLoss, a.target).(status := Submitted)
  }

  /** The order of a recommendation, its paper fill and the position opened from the fill. */
  function Enter(c: Core, best: Candidate, price: real, now: Time): Core {
    var a := best.assessment;
    var submitted := EntryOrder(c, best, price);
    var filled := PaperFill(submitted);
    var p := NewPosition(|c.positions|, filled.strategyName, filled.direction, filled.FillPrice(),
                         filled.filledQuantity);
    c.(orders := c.orders + [filled],
       positions := c.positions + [p],
       proc := c.proc.(openId := Some(|c.positions|), stopLoss := a.stopLoss, target := a.target,
                       tradesTakenToday := c.proc.tradesTakenToday + 1))
     .Publish(OrderSubmitted(submitted))
     .Publish(OrderFilled(filled, now))
     .Publish(PositionUpdated(p, now))
  }

  /** What the decision engine recommends for a candle. */
  function Decide(env: Env, c: Core, candle: Candle, history: seq<Candle>): Recommendation
    requires history != []
  {
    var r := env.pipeline(candle, history, c.proc.lastTradeClosedAt);
    Recommend(Candidates(env, r.evaluations, history[|history| - 1].close, r.atr, Capital(env, c)), r.canTrade)
  }

  /** Publishing the evaluations and the approved risk assessments of a candle. */
  function Announce(env: Env, c: Core, candle: Candle, history: seq<Candle>): Core
    requires history != []
  {
    var r := env.pipeline(candle, history, c.proc.lastTradeClosedAt);
    var candidates := Candidates(env, r.evaluations, history[|history| - 1].close, r.atr, Capital(env, c));
    c.(log := c.log + SignalEvents(r.evaluations) + ApprovalEvents(candidates))
  }

  function EvaluateEntry(env: Env, c: Core, candle: Candle, history: seq<Candle>): Core
    requires history != []
  {
    var announced := Announce(env, c, candle, history);
    var decision := Decide(env, c, candle, history);
    if decision.Actionable() then
      Enter(announced, decision.best, history[|history| - 1].close, env.wallClock(|history|))
    else announced
  }

  function MarkOpen(c: Core, price: real, now: Time): Core
    requires c.HasOpen() && c.OpenIdInRange()
  {
    var p := Marked(c.OpenPosition(), price);
    c.(positions := c.positions[c.proc.openId.value := p]).Publish(PositionUpdated(p, now))
  }

  function TakeSnapshot(c: Core): Core {
    c.(book := c.book.Snapped(c.positions)).Publish(PortfolioUpdated(c.book.Snapshot(c.positions)))
  }

  function Exit(env: Env, c: Core, candle: Candle, history: seq<Candle>): (r: Core)
    requires c.OpenIdInRange()
    ensures r.OpenIdInRange()
  {
    if c.HasOpen() then CheckExit(c, candle, env.wallClock(|history|)) else c
  }

  function Entry(env: Env, c: Core, candle: Candle, history: seq<Candle>): (r: Core)
    requires c.OpenIdInRange() && history != []
    ensures r.OpenIdInRange()
  {
    if c.HasOpen() then c else EvaluateEntry(env, c, candle, history)
  }

  function Mark(env: Env, c: Core, candle: Candle, history: seq<Candle>): (r: Core)
    requires c.OpenIdInRange()
    ensures r.OpenIdInRange()
  {
    if c.HasOpen() then MarkOpen(c, candle.close, env.wallClock(|history|)) else c
  }

  function Step(env: Env, c: Core, candle: Candle, history: seq<Candle>): (r: Core)
    requires c.OpenIdInRange()
    ensures r.OpenIdInRange()
  {
    var received := Receive(c, candle);
    if |history| <= env.warmup then received
    else
      var exited := Exit(env, received, candle, history);
      var entered := Entry(env, exited, candle, history);
      TakeSnapshot(Mark(env, entered, candle, history))
  }

  /** The state after a whole candle stream; the history handed to each step is the stream so far. */
  function Run(env: Env, candles: seq<Candle>): (r: Core)
    ensures r.OpenIdInRange()
  {
    if candles == [] then Initial(env)
    else
      var n := |candles| - 1;
      Step(env, Run(env, candles[..n]), candles[n], candles)
  }
}
