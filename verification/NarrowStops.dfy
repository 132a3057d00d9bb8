/** One run that shows why the announcement of a stop needs a price: near 4, a sound environment trades a bracket so
    narrow that its stop exit reaches the operator as a target hit. */
module NarrowStops {
  import opened Arithmetic
  import opened Market
  import opened Rounding
  import opened RiskEngine
  import opened PaperModels
  import opened Events
  import opened TradingStep
  import opened Ledger
  import opened Volatility
  import opened Bracket
  import opened SignalStep
  import opened Correlation
  import opened ExitReasons
  import opened Exits

  /** Ten o'clock. */
  const TEN: Time := 36_000_000_000

  function Flat(): Candle { Candle(TEN, 4.0, 4.004, 3.996, 4.0, 1) }

  function Drop(): Candle { Candle(TEN, 4.0, 4.0, 3.99, 4.0, 1) }

  function Flats(n: nat): seq<Candle> { seq(n, _ => Flat()) }

  function Candles(): seq<Candle> { Flats(14) + [Drop()] }

  function Setup(): Evaluation { Evaluation("breakout", true, Long, Strong) }

  /** The indicator as it is, and one strategy that sees one setup. */
  function ReadingOf(history: seq<Candle>): Reading {
    Reading(if |history| >= ATR_PERIOD then Atr(history, ATR_PERIOD) else 0.0,
            if |history| == 14 then [Setup()] else [], true)
  }

  function Surroundings(): Env {
    Env(RiskConfig(0.1, 0.5, 0.5, 10000.0, 5, 1, 100.0), 10_000_000, 13,
        (candle, history, closedAt) => ReadingOf(history), _ => TEN)
  }

  function Settings(): SignalConfig { SignalConfig(65.0, 0, 5, 931, 555, 930) }

  /** The state after a number of flat candles of the warm-up. */
  function Warm(n: nat): Core {
    var book := Book(10_000_000, 10_000_000, 0, 10_000_000);
    Core([], [], book, InitialProcessor().(currentDate := if n == 0 then None else Some(0)),
         seq(n, _ => MarketDataReceived(Flat())))
  }

  lemma {:induction false} WarmUp(n: nat)
    requires n <= 13
    ensures Run(Surroundings(), Flats(n)) == Warm(n)
  {
    if n > 0 {
      WarmUp(n - 1);
      assert Flats(n)[..n - 1] == Flats(n - 1);
      assert Warm(n).log == Warm(n - 1).log + [MarketDataReceived(Flat())];
    }
  }

  lemma FlatAtr()
    ensures Atr(Flats(14), ATR_PERIOD) == 0.008
  {
    assert RangesWithin(Flats(14), 0.008, 0.008);
    AtrWithinRanges(Flats(14), ATR_PERIOD, 0.008, 0.008);
    assert RoundTo(0.008, UNITS) == 0.008;
  }

  function Accepted(): RiskAssessment {
    Assess(Long, 4.0, 0.008, Surroundings().risk, CapitalState(1000.0, 0.0, 0.0, 0, 0))
  }

  lemma PipelineAt14()
    ensures Surroundings().pipeline(Flat(), Flats(14), None) == Reading(0.008, [Setup()], true)
  {
    FlatAtr();
    hide Atr;
  }

  lemma CandidateAt14()
    ensures Capital(Surroundings(), Warm(14)) == CapitalState(1000.0, 0.0, 0.0, 0, 0)
    ensures Candidates(Surroundings(), [Setup()], 4.0, 0.008, CapitalState(1000.0, 0.0, 0.0, 0, 0))
            == [Candidate(Setup(), Accepted())]
    ensures Accepted().RiskOk() && Accepted().positionSize == 250
    ensures Warm(14).proc.lastTradeClosedAt == None && Flats(14)[13].close == 4.0 && |Flats(14)| == 14
  {
    NarrowStopIsMisreported();
    hide Assess;
  }

  /** The fourteenth candle enters. */
  lemma EntryDecided()
    ensures Decide(Surroundings(), Warm(14), Flat(), Flats(14))
            == Recommended(Candidate(Setup(), Accepted()), true)
    ensures Decide(Surroundings(), Warm(14), Flat(), Flats(14)).Actionable()
  {
    PipelineAt14();
    CandidateAt14();
    hide Surroundings, Warm, Flats, Accepted, Candidates, Capital, Flat;
    assert SelectBest([Candidate(Setup(), Accepted())]).Some?;
  }

  function Entered(): Core {
    Enter(Announce(Surroundings(), Warm(14), Flat(), Flats(14)), Candidate(Setup(), Accepted()), 4.0, TEN)
  }

  /** A candle that enters from a flat state. */
  lemma EnteringStep(env: Env, c: Core, candle: Candle, history: seq<Candle>)
    requires !c.HasOpen() && |history| > env.warmup
    requires EvaluateEntry(env, Receive(c, candle), candle, history).HasOpen()
    requires EvaluateEntry(env, Receive(c, candle), candle, history).OpenIdInRange()
    ensures Step(env, c, candle, history)
            == TakeSnapshot(MarkOpen(EvaluateEntry(env, Receive(c, candle), candle, history), candle.close,
                                     env.wallClock(|history|)))
  {
    hide EvaluateEntry, MarkOpen, TakeSnapshot;
  }

  lemma Received()
    ensures Receive(Warm(13), Flat()) == Warm(14)
  {
    assert Warm(14).log == Warm(13).log + [MarketDataReceived(Flat())];
  }

  lemma Evaluated()
    ensures EvaluateEntry(Surroundings(), Warm(14), Flat(), Flats(14)) == Entered()
    ensures Entered().HasOpen() && Entered().OpenIdInRange()
  {
    EntryDecided();
    hide Decide, Announce, Accepted;
  }

  lemma Facts()
    ensures |Flats(14)| == 14 && Flats(14)[..13] == Flats(13) && Flats(14)[13] == Flat() && Flat().close == 4.0
    ensures Surroundings().warmup == 13 && Surroundings().wallClock(14) == TEN
    ensures !Warm(13).HasOpen() && Warm(13).OpenIdInRange()
  {
  }

  lemma RunNext(env: Env, candles: seq<Candle>)
    requires candles != []
    ensures var n := |candles| - 1;
            Run(env, candles) == Step(env, Run(env, candles[..n]), candles[n], candles)
  {
  }

  /** The warm-up ends with an entry. */
  lemma Enters()
    ensures Run(Surroundings(), Flats(14)) == TakeSnapshot(MarkOpen(Entered(), 4.0, TEN))
  {
    hide *;
    Facts();
    WarmUp(13);
    Received();
    Evaluated();
    RunNext(Surroundings(), Flats(14));
    EnteringStep(Surroundings(), Warm(13), Flat(), Flats(14));
  }

  // ---------------------------------------------------------------- what the service sees

  lemma {:induction false} ObserveWarm(n: nat)
    ensures var s := Observe(Settings(), Warm(n).log);
            && s.lastEvaluation == map[] && s.filter == NoSignals().filter && s.trades == []
            && s.latestCandleAt == (if n == 0 then None else Some(TEN))
  {
    if n > 0 {
      ObserveWarm(n - 1);
      assert Warm(n).log == Warm(n - 1).log + [MarketDataReceived(Flat())];
      ObserveNext(Settings(), Warm(n - 1).log, MarketDataReceived(Flat()));
    }
  }

  /** A filled order of the evaluated strategy, at ten o'clock, is reported. */
  lemma FillIsReported(s: Signals, order: Order)
    requires s.lastEvaluation == map["breakout" := Setup()] && s.filter == NoSignals().filter
    requires s.latestCandleAt == Some(TEN)
    requires order.strategyName == "breakout" && order.FillPrice() == 4.0
    requires order.stopLoss == 3.996 && order.target == 4.004
    ensures |OnOrderFilled(Settings(), s, order, TEN).trades| == |s.trades| + 1
  {
    var guardian := Guardian(Strong, 4.0, 3.996, 4.004);
    assert RewardToRisk(4.0, 3.996, 4.004) == 1.0 by {
      assert Abs(4.004 - 4.0) / Abs(4.0 - 3.996) == 1.0;
      assert RoundTo(1.0, UNITS) == 1.0;
    }
    assert guardian.score == 80.0 by {
      assert MinReal(70.0 + MinReal(1.0 / 3.0, 1.0) * 30.0, 100.0) == 80.0;
      RoundWhole(8000);
    }
  }

  lemma {:induction false} TradesGrow(config: SignalConfig, log: seq<Event>, more: seq<Event>)
    ensures |Observe(config, log).trades| <= |Observe(config, log + more).trades|
  {
    hide OnEvent;
    if more == [] {
      assert log + more == log;
    } else {
      var n := |more| - 1;
      TradesGrow(config, log, more[..n]);
      assert log + more == (log + more[..n]) + [more[n]];
      ObserveNext(config, log + more[..n], more[n]);
    }
  }

  /** The events of the entry, up to the fill. */
  function UpToFill(): seq<Event> {
    Warm(14).log + [SignalGenerated(Setup())] + [RiskApproved(Accepted())]
  }

  lemma AnnouncedLog()
    ensures Announce(Surroundings(), Warm(14), Flat(), Flats(14)).log == UpToFill()
  {
    PipelineAt14();
    CandidateAt14();
    hide Surroundings, Warm, Flats, Accepted, Candidates, Capital, Flat;
    var candidates := [Candidate(Setup(), Accepted())];
    assert SignalEvents([Setup()]) == [SignalGenerated(Setup())];
    assert candidates[..0] == [] && ApprovalEvents([]) == [];
    assert ApprovalEvents(candidates) == [RiskApproved(Accepted())];
  }

  lemma EvaluationIsSeen()
    ensures var s := Observe(Settings(), UpToFill());
            && s.lastEvaluation == map["breakout" := Setup()] && s.filter == NoSignals().filter
            && s.latestCandleAt == Some(TEN)
  {
    ObserveWarm(14);
    hide Observe, Warm, Accepted;
    ObserveNext(Settings(), Warm(14).log, SignalGenerated(Setup()));
    ObserveNext(Settings(), Warm(14).log + [SignalGenerated(Setup())], RiskApproved(Accepted()));
  }

  /** The order, the position and the tracked bracket of the entry. */
  lemma EntryIs()
    ensures |Entered().orders| == 1 && |Entered().positions| == 1
    ensures Entered().proc.openId == Some(0) && Entered().positions[0].direction == Long
    ensures Entered().proc.stopLoss == 3.996 && Entered().proc.target == 4.004
    ensures var order := Entered().orders[0];
            && order.strategyName == "breakout" && order.FillPrice() == 4.0 && order.requestedPrice == 4.0
            && order.stopLoss == 3.996 && order.target == 4.004
            && order.direction == Long && order.requestedQuantity == 250
  {
    NarrowStopIsMisreported();
    hide Assess, SignalEvents, ApprovalEvents, Candidates;
  }

  lemma EntryLog(c: Core, best: Candidate, price: real, now: Time)
    ensures var next := Enter(c, best, price, now);
            next.log == c.log + [OrderSubmitted(EntryOrder(c, best, price))]
                        + [OrderFilled(next.orders[|c.orders|], now)]
                        + [PositionUpdated(next.positions[|c.positions|], now)]
  {
  }

  lemma EntryIsReported()
    ensures |Observe(Settings(), Entered().log).trades| >= 1
  {
    AnnouncedLog();
    EvaluationIsSeen();
    EntryIs();
    var c, best := Announce(Surroundings(), Warm(14), Flat(), Flats(14)), Candidate(Setup(), Accepted());
    assert c.orders == [] && c.positions == [];
    EntryLog(c, best, 4.0, TEN);
    hide *;
    EnteredIs();
    var order, p := Entered().orders[0], Entered().positions[0];
    ReportedFrom(UpToFill(), EntryOrder(c, best, 4.0), order, p);
  }

  lemma EnteredIs()
    ensures Entered()
            == Enter(Announce(Surroundings(), Warm(14), Flat(), Flats(14)), Candidate(Setup(), Accepted()), 4.0, TEN)
  {
  }

  lemma ReportedFrom(log: seq<Event>, submitted: Order, order: Order, p: Position)
    requires var s := Observe(Settings(), log);
             && s.lastEvaluation == map["breakout" := Setup()] && s.filter == NoSignals().filter
             && s.latestCandleAt == Some(TEN)
    requires order.strategyName == "breakout" && order.FillPrice() == 4.0
    requires order.stopLoss == 3.996 && order.target == 4.004
    ensures |Observe(Settings(), log + [OrderSubmitted(submitted)] + [OrderFilled(order, TEN)]
                                 + [PositionUpdated(p, TEN)]).trades| >= 1
  {
    var s := Observe(Settings(), log);
    FillIsReported(s, order);
    hide Observe, OnOrderFilled, Order.FillPrice;
    ObserveNext(Settings(), log, OrderSubmitted(submitted));
    ObserveNext(Settings(), log + [OrderSubmitted(submitted)], OrderFilled(order, TEN));
    TradesGrow(Settings(), log + [OrderSubmitted(submitted)] + [OrderFilled(order, TEN)], [PositionUpdated(p, TEN)]);
  }

  // ---------------------------------------------------------------- the exit

  /** A candle without evaluations opens nothing. */
  lemma QuietStep(env: Env, c: Core, candle: Candle, history: seq<Candle>)
    requires c.OpenIdInRange() && |history| > env.warmup
    requires forall closedAt :: env.pipeline(candle, history, closedAt).evaluations == []
    ensures |Step(env, c, candle, history).positions| == |c.positions|
    ensures Step(env, c, candle, history).orders == c.orders
    ensures c.log <= Step(env, c, candle, history).log
  {
    var received := Receive(c, candle);
    var exited := Exit(env, received, candle, history);
    hide SignedPnl, ExitPrice, Exited;
    var entered := Entry(env, exited, candle, history);
    assert !exited.HasOpen() ==> !Decide(env, exited, candle, history).Recommended?;
    assert |entered.positions| == |exited.positions| && entered.orders == c.orders;
  }

  lemma Marking(c: Core)
    requires c.HasOpen() && c.OpenIdInRange()
    ensures var next := TakeSnapshot(MarkOpen(c, 4.0, TEN));
            && |next.positions| == |c.positions| && next.proc == c.proc && next.orders == c.orders
            && c.log <= next.log && next.OpenIdInRange()
            && next.OpenPosition().direction == c.OpenPosition().direction
  {
    hide SignedPnl;
  }

  /** The one order of the run and the position that is open after it. */
  predicate Holding(c: Core) {
    && |c.orders| == 1 && |c.positions| == 1 && c.proc.openId == Some(0) && c.positions[0].direction == Long
    && c.proc.stopLoss == 3.996 && c.proc.target == 4.004
    && c.orders[0].stopLoss == 3.996 && c.orders[0].target == 4.004
    && c.orders[0].requestedPrice == 4.0 && c.orders[0].direction == Long && c.orders[0].requestedQuantity == 250
  }

  lemma LongerLog(config: SignalConfig, log: seq<Event>, longer: seq<Event>)
    requires log <= longer
    ensures |Observe(config, log).trades| <= |Observe(config, longer).trades|
  {
    hide Observe;
    TradesGrow(config, log, longer[|log|..]);
    assert longer == log + longer[|log|..];
  }

  lemma AfterEntry()
    ensures var c := Run(Surroundings(), Flats(14)); Holding(c) && |Observe(Settings(), c.log).trades| >= 1
  {
    EntryIs();
    Marking(Entered());
    hide Observe, Run, Entered, MarkOpen, TakeSnapshot;
    Enters();
    EntryIsReported();
    LongerLog(Settings(), Entered().log, Run(Surroundings(), Flats(14)).log);
  }

  lemma CandlesAre()
    ensures Candles()[..14] == Flats(14) && Candles()[14] == Drop() && |Candles()| == 15
    ensures forall closedAt :: Surroundings().pipeline(Drop(), Candles(), closedAt).evaluations == []
    ensures |Candles()| > Surroundings().warmup
  {
    hide Atr;
  }

  lemma DropExits(c: Core)
    requires Holding(c)
    ensures c.OpenIdInRange() && ExitAt(Surroundings(), c, Drop(), Candles(), 0) == Some(3.996)
  {
    CandlesAre();
    hide Candles;
  }

  /** The drop takes the position out at its stop and opens nothing. */
  lemma AfterDrop()
    ensures var c := Run(Surroundings(), Candles());
            && |c.positions| == 1 && c.orders == Run(Surroundings(), Flats(14)).orders
            && |Observe(Settings(), c.log).trades| >= 1
    ensures Holding(Run(Surroundings(), Flats(14)))
    ensures ExitOfPosition(Surroundings(), Candles(), 0) == Some(3.996)
  {
    hide Observe, Run, Step, Candles, Surroundings, Holding, ExitAt;
    AfterEntry();
    CandlesAre();
    var c := Run(Surroundings(), Flats(14));
    DropExits(c);
    assert |c.positions| == 1 by { HoldingOne(c); }
    RunNext(Surroundings(), Candles());
    QuietStep(Surroundings(), c, Drop(), Candles());
    LongerLog(Settings(), c.log, Run(Surroundings(), Candles()).log);
  }

  lemma HoldingOne(c: Core)
    requires Holding(c)
    ensures |c.positions| == 1
  {
  }

  lemma SoundSurroundings()
    ensures SoundEnv(Surroundings()) && AllWellFormed(Candles()) && Settings().Valid()
  {
    hide Atr;
  }

  /** With one position and a trade, that trade reports it. */
  lemma OneReport(c: Core, s: Signals, owner: seq<nat>)
    requires Mirrors(c, s, owner) && |c.positions| == 1 && |s.trades| >= 1
    ensures |s.trades| == 1 && owner == [0] && Reports(s.trades[0], c.orders[0], c.positions[0])
  {
    hide Reports;
    if |owner| >= 2 { Apart(owner, 0, 1); }
  }

  lemma Apart(owner: seq<nat>, t: nat, u: nat)
    requires t < u < |owner| && forall i, j :: 0 <= i < j < |owner| ==> owner[i] < owner[j]
    ensures owner[t] < owner[u]
  {
  }

  /** Sound surroundings, valid settings and genuine candles; the one position leaves at its stop, and the one exit
      message about it says that the target was hit. */
  lemma StopIsAnnouncedAsTarget()
    ensures SoundEnv(Surroundings()) && AllWellFormed(Candles()) && Settings().Valid()
    ensures var c := Run(Surroundings(), Candles());
            var s := Observe(Settings(), c.log);
            && |c.orders| == |c.positions| == 1 && |s.trades| == 1
            && Reports(s.trades[0], c.orders[0], c.positions[0])
            && ExitOfPosition(Surroundings(), Candles(), 0) == Some(c.orders[0].stopLoss)
            && AnnouncedOnce(s, 0, false)
  {
    hide *;
    SoundSurroundings();
    AfterDrop();
    RunBalanced(Surroundings(), Candles());
    RunExitsAreAnnounced(Settings(), Surroundings(), Candles());
    NarrowIsTold(Run(Surroundings(), Flats(14)));
    OneOrder(Surroundings(), Run(Surroundings(), Candles()));
    var c := Run(Surroundings(), Candles());
    TheOneExit(Surroundings(), Candles(), c, Observe(Settings(), c.log));
  }

  lemma OneOrder(env: Env, c: Core)
    requires Balanced(env, c) && |c.positions| == 1
    ensures |c.orders| == 1
  {
  }

  /** In a run of one position and a trade, the trade reports it, and a stop that is not told as one is told as a
      target. */
  lemma TheOneExit(env: Env, candles: seq<Candle>, c: Core, s: Signals)
    requires AllExitsAnnounced(env, candles, c, s) && |c.orders| == |c.positions| == 1 && |s.trades| >= 1
    requires c.orders[0].requestedQuantity >= 1 && !ToldAsStop(c.orders[0])
    requires ExitOfPosition(env, candles, 0) == Some(c.orders[0].stopLoss)
    ensures |s.trades| == 1 && Reports(s.trades[0], c.orders[0], c.positions[0]) && AnnouncedOnce(s, 0, false)
  {
    var owner :| Mirrors(c, s, owner) && EachLeavesRightly(env, candles, c, s, owner);
    hide Mirrors, ExitOfPosition, AnnouncedOnce, ToldAsStop, Told, Unannounced, Reports;
    OneReport(c, s, owner);
    assert LeavesRightly(s, 0, c.orders[0], ExitOfPosition(env, candles, owner[0]));
  }

  /** The bracket of that order is too narrow for its stop. */
  lemma NarrowIsTold(c: Core)
    requires Holding(c)
    ensures |c.orders| == 1 && c.orders[0].requestedQuantity >= 1
    ensures !ToldAsStop(c.orders[0]) && c.orders[0].stopLoss == 3.996
  {
    InferenceInvertsPnl(Long, 4.0, 3.996, 250);
  }
}
