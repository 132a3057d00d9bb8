/** Every trade ends between its stop and its target, and no trade loses more than the risk budget. */
module Bracket {
  import opened Arithmetic
  import opened Market
  import opened Rounding
  import opened RiskEngine
  import opened PaperModels
  import opened TradingStep
  import opened Ledger
  import opened Volatility

  /** A valid configuration, and a pipeline that reports the Average True Range of its history; a warm-up too short
      for it would raise. */
  ghost predicate SoundEnv(env: Env) {
    && env.risk.Valid()
    && env.warmup + 1 >= ATR_PERIOD
    && forall candle, history, closedAt :: |history| >= ATR_PERIOD ==>
         env.pipeline(candle, history, closedAt).atr == Atr(history, ATR_PERIOD)
  }

  function PnlAt(order: Order, price: real): Money {
    SignedPnl(order.direction, order.requestedPrice, price, order.requestedQuantity)
  }

  function RiskUnits(env: Env): Money { ToMoney(env.risk.RiskBudget(Amount(env.initialCapital))) }

  /** The stop on the losing side, not too close to the entry, and within the risk budget. */
  ghost predicate Placed(env: Env, order: Order) {
    && env.risk.Valid()
    && Abs(order.requestedPrice - order.stopLoss) > env.risk.StopFloor(order.requestedPrice)
    && Straddles(order.direction, order.requestedPrice, order.stopLoss, order.target)
    && -RiskUnits(env) <= PnlAt(order, order.stopLoss)
  }

  predicate WithinBracket(order: Order, pnl: Money) {
    PnlAt(order, order.stopLoss) <= pnl <= PnlAt(order, order.target)
  }

  ghost predicate Bracketed(env: Env, c: Core) {
    && |c.orders| == |c.positions|
    && forall k: nat :: k < |c.positions| ==>
         && Placed(env, c.orders[k])
         && (IsClosed(c.positions[k]) ==> WithinBracket(c.orders[k], c.positions[k].realizedPnl))
  }

  /** A price strictly between the stop and the target of an order. */
  predicate Inside(order: Order, price: real) {
    if order.direction == Short then order.target < price < order.stopLoss
    else order.stopLoss < price < order.target
  }

  lemma StopGain(direction: Direction, entry: real, stopLoss: real, quantity: int)
    requires if direction == Short then entry < stopLoss else stopLoss < entry
    ensures Gain(direction, entry, stopLoss, quantity) == -(quantity as real * Abs(entry - stopLoss))
  {
    var distance, q := Abs(entry - stopLoss), quantity as real;
    if direction == Short {
      assert (stopLoss - entry) * q == q * distance;
    } else {
      NegatedProduct(distance, q);
      assert stopLoss - entry == -distance;
    }
  }

  lemma NegatedProduct(a: real, b: real)
    ensures (-a) * b == -(b * a)
  {
  }

  lemma StopPnlWithinBudget(env: Env, order: Order)
    requires order.requestedQuantity >= 1 && env.risk.Valid()
    requires Abs(order.requestedPrice - order.stopLoss) > env.risk.StopFloor(order.requestedPrice)
    requires Straddles(order.direction, order.requestedPrice, order.stopLoss, order.target)
    requires order.requestedQuantity as real * Abs(order.requestedPrice - order.stopLoss)
             <= env.risk.RiskBudget(Amount(env.initialCapital))
    ensures Placed(env, order)
  {
    StopGain(order.direction, order.requestedPrice, order.stopLoss, order.requestedQuantity);
    hide Gain, ToMoney, Abs, RiskConfig.StopFloor, RiskConfig.RiskBudget, RiskConfig.Valid;
    var loss := order.requestedQuantity as real * Abs(order.requestedPrice - order.stopLoss);
    var budget := env.risk.RiskBudget(Amount(env.initialCapital));
    LossWithin(Gain(order.direction, order.requestedPrice, order.stopLoss, order.requestedQuantity), loss, budget);
  }

  lemma LossWithin(gain: real, loss: real, budget: real)
    requires gain == -loss && loss <= budget
    ensures -ToMoney(budget) <= ToMoney(gain)
  {
    ToMoneyMonotone(loss, budget);
    ToMoneyOdd(loss);
  }

  /** Between stop and target, the pnl is between the stop pnl and the target pnl. */
  lemma PnlWithinBracket(order: Order, price: real)
    requires order.requestedQuantity >= 1
    requires order.stopLoss <= price <= order.target || order.target <= price <= order.stopLoss
    requires Straddles(order.direction, order.requestedPrice, order.stopLoss, order.target)
    ensures WithinBracket(order, PnlAt(order, price))
  {
    if order.direction == Short {
      PnlMonotone(Short, order.requestedPrice, order.target, price, order.requestedQuantity);
      PnlMonotone(Short, order.requestedPrice, price, order.stopLoss, order.requestedQuantity);
    } else {
      PnlMonotone(Long, order.requestedPrice, order.stopLoss, price, order.requestedQuantity);
      PnlMonotone(Long, order.requestedPrice, price, order.target, order.requestedQuantity);
    }
  }

  /** An exit is at a price inside the bracket; a position that stays open has its close strictly inside. */
  lemma ExitWithinBracket(env: Env, c: Core, candle: Candle, now: Time)
    requires Balanced(env, c) && Bracketed(env, c) && c.HasOpen() && WellFormed(candle)
    ensures var next := CheckExit(c, candle, now);
            && Bracketed(env, next)
            && OpenInside(next, candle.close)
            && c.proc.realizedLossToday <= next.proc.realizedLossToday
            && next.proc.realizedLossToday <= c.proc.realizedLossToday + Max(0, RiskUnits(env))
  {
    var k := c.proc.openId.value;
    var p := c.OpenPosition();
    var order := c.orders[k];
    assert OpenedBy(order, p, k) && Live(p) && Placed(env, order);
    var exit := ExitPrice(p.direction, c.proc.stopLoss, c.proc.target, candle);
    if exit.Some? {
      PnlWithinBracket(order, exit.value);
      assert Exited(p, p.quantity, exit.value).realizedPnl == PnlAt(order, exit.value);
    }
  }

  /** An actionable decision carries an assessment of the decided direction at the close price. */
  lemma DecisionIsAssessed(env: Env, c: Core, candle: Candle, history: seq<Candle>)
    requires history != [] && Decide(env, c, candle, history).Actionable()
    ensures var best := Decide(env, c, candle, history).best;
            var atr := env.pipeline(candle, history, c.proc.lastTradeClosedAt).atr;
            && best.Qualifies()
            && best.assessment
               == Assess(best.evaluation.direction, history[|history| - 1].close, atr, env.risk, Capital(env, c))
  {
  }

  /** What an actionable decision guarantees about the trade it starts. */
  predicate SoundEntry(env: Env, best: Candidate, price: real) {
    && env.risk.Valid()
    && Abs(price - best.assessment.stopLoss) > env.risk.StopFloor(price)
    && SoundTrade(best.evaluation.direction, price, best.assessment, env.risk.RiskBudget(Amount(env.initialCapital)))
  }

  lemma DecisionIsSound(env: Env, c: Core, candle: Candle, history: seq<Candle>)
    requires SoundEnv(env) && AllWellFormed(history) && |history| > env.warmup
    requires Decide(env, c, candle, history).Actionable()
    ensures SoundEntry(env, Decide(env, c, candle, history).best, history[|history| - 1].close)
    ensures Amount(c.proc.realizedLossToday) < env.risk.maxDailyLoss
    ensures c.proc.tradesTakenToday < env.risk.maxTradesPerDay
  {
    var best := Decide(env, c, candle, history).best;
    DecisionIsAssessed(env, c, candle, history);
    var atr := env.pipeline(candle, history, c.proc.lastTradeClosedAt).atr;
    AtrNonNegative(history, ATR_PERIOD);
    hide Atr, Decide, Assess, RiskConfig.StopFloor;
    AssessmentIsSound(best.evaluation.direction, history[|history| - 1].close, atr, env.risk, Capital(env, c));
    StopKeepsDistance(best.evaluation.direction, history[|history| - 1].close, atr, env.risk, Capital(env, c));
  }

  lemma EntryPlaced(env: Env, c: Core, candle: Candle, history: seq<Candle>)
    requires SoundEnv(env) && AllWellFormed(history) && Bracketed(env, c) && !c.HasOpen()
    requires |history| > env.warmup && history[|history| - 1] == candle
    ensures var next := EvaluateEntry(env, c, candle, history);
            && Bracketed(env, next)
            && OpenInside(next, candle.close)
            && (next.HasOpen() ==>
                  && Amount(c.proc.realizedLossToday) < env.risk.maxDailyLoss
                  && c.proc.tradesTakenToday < env.risk.maxTradesPerDay)
  {
    var decision := Decide(env, c, candle, history);
    if decision.Actionable() {
      DecisionIsSound(env, c, candle, history);
      EntryPlacedFrom(env, Announce(env, c, candle, history), decision.best, candle.close, env.wallClock(|history|));
    }
  }

  /** Entering on a sound assessment keeps the bracket. */
  lemma EntryPlacedFrom(env: Env, c: Core, best: Candidate, price: real, now: Time)
    requires Bracketed(env, c) && SoundEntry(env, best, price)
    ensures var next := Enter(c, best, price, now);
            Bracketed(env, next) && next.HasOpen() && Inside(next.orders[next.proc.openId.value], price)
  {
    StopPnlWithinBudget(env, Enter(c, best, price, now).orders[|c.orders|]);
  }

  lemma MarkBracketed(env: Env, c: Core, price: real, now: Time)
    requires Balanced(env, c) && Bracketed(env, c) && c.HasOpen()
    ensures Bracketed(env, MarkOpen(c, price, now))
  {
  }

  lemma ReceiveBracketed(env: Env, c: Core, candle: Candle)
    requires Bracketed(env, c)
    ensures Bracketed(env, Receive(c, candle))
  {
  }

  /** The open position's order has a price strictly inside its bracket. */
  predicate OpenInside(c: Core, price: real) {
    c.HasOpen() ==> c.proc.openId.value < |c.orders| && Inside(c.orders[c.proc.openId.value], price)
  }

  lemma StepBracketed(env: Env, c: Core, candle: Candle, history: seq<Candle>)
    requires SoundEnv(env) && Balanced(env, c) && Bracketed(env, c) && AllWellFormed(history)
    requires history != [] && history[|history| - 1] == candle
    ensures Bracketed(env, Step(env, c, candle, history))
    ensures |history| > env.warmup ==> OpenInside(Step(env, c, candle, history), candle.close)
  {
    ReceiveBracketed(env, c, candle);
    ReceiveBalanced(env, c, candle);
    hide Balanced, Bracketed, Inside, Receive, CheckExit, EvaluateEntry;
    var now := env.wallClock(|history|);
    var received := Receive(c, candle);
    if |history| > env.warmup {
      if received.HasOpen() {
        ExitBalanced(env, received, candle, now);
        ExitWithinBracket(env, received, candle, now);
      }
      var exited := Exit(env, received, candle, history);
      if !exited.HasOpen() {
        EntryBalanced(env, exited, candle, history);
        EntryPlaced(env, exited, candle, history);
      }
      var entered := Entry(env, exited, candle, history);
      if entered.HasOpen() { MarkBracketed(env, entered, candle.close, now); }
      SnapshotBracketed(env, Mark(env, entered, candle, history));
    }
  }

  lemma SnapshotBracketed(env: Env, c: Core)
    requires Bracketed(env, c)
    ensures Bracketed(env, TakeSnapshot(c))
  {
  }

  /** For both directions and every stream of genuine candles: each realized pnl lies between the stop pnl and
      the target pnl of its order, no stop costs more than the risk budget, and a position that survives a
      candle has that candle's close strictly between its stop and its target. */
  lemma {:induction false} RunBracketed(env: Env, candles: seq<Candle>)
    requires SoundEnv(env) && AllWellFormed(candles)
    ensures Bracketed(env, Run(env, candles))
    ensures |candles| > env.warmup ==> OpenInside(Run(env, candles), candles[|candles| - 1].close)
  {
    if candles != [] {
      var n := |candles| - 1;
      RunBracketed(env, candles[..n]);
      RunBalanced(env, candles[..n]);
      StepBracketed(env, Run(env, candles[..n]), candles[n], candles);
      StepBalanced(env, Run(env, candles[..n]), candles[n], candles);
    }
  }

  // ---------------------------------------------------------------- which exit, which entry

  /** The candle's range reached a level of the bracket. */
  predicate Reached(direction: Direction, candle: Candle, stopLoss: real, target: real, level: real) {
    || (level == stopLoss && if direction == Short then candle.high >= level else candle.low <= level)
    || (level == target && if direction == Short then candle.low <= level else candle.high >= level)
  }

  /** When a candle reaches several levels the exit is booked at the one that pays least; a candle that reaches
      none closes the position exactly from the market close on. */
  lemma ExitIsConservative(order: Order, candle: Candle, level: real)
    requires order.requestedQuantity >= 1
    requires Straddles(order.direction, order.requestedPrice, order.stopLoss, order.target)
    ensures var exit := ExitPrice(order.direction, order.stopLoss, order.target, candle);
            && (Reached(order.direction, candle, order.stopLoss, order.target, level) ==>
                  exit.Some? && PnlAt(order, exit.value) <= PnlAt(order, level))
            && ((!Reached(order.direction, candle, order.stopLoss, order.target, order.stopLoss)
                 && !Reached(order.direction, candle, order.stopLoss, order.target, order.target)) ==>
                  exit == if ClockOf(candle.timestamp) >= 15 * 60 + 30 then Some(candle.close) else None)
  {
    PnlWithinBracket(order, order.stopLoss);
  }

  predicate ClosedUpTo(positions: seq<Position>, n: nat) {
    n <= |positions| && forall k: nat :: k < n ==> IsClosed(positions[k])
  }

  /** No position is carried through a candle at or after the market close, half past three: what is open afterwards
      was opened by that candle. */
  lemma FlatThroughClose(env: Env, candles: seq<Candle>)
    requires |candles| > env.warmup && ClockOf(candles[|candles| - 1].timestamp) >= 15 * 60 + 30
    ensures ClosedUpTo(Run(env, candles).positions, |Run(env, candles[..|candles| - 1]).positions|)
  {
    hide Balanced, Step, ClockOf;
    var n := |candles| - 1;
    var before := Run(env, candles[..n]);
    RunBalanced(env, candles[..n]);
    StepFlattens(env, before, candles[n], candles);
    assert Run(env, candles) == Step(env, before, candles[n], candles);
  }

  lemma StepFlattens(env: Env, c: Core, candle: Candle, history: seq<Candle>)
    requires Balanced(env, c) && |history| > env.warmup && ClockOf(candle.timestamp) >= MARKET_CLOSE
    ensures ClosedUpTo(Step(env, c, candle, history).positions, |c.positions|)
  {
    OpenOrSettled(env, c);
    hide Balanced;
    var received := Receive(c, candle);
    ExitFlattens(env, received, candle, history);
    var exited := Exit(env, received, candle, history);
    hide ClockOf, Exit, Receive;
    EntryKeepsPositions(env, exited, candle, history);
  }

  lemma ExitFlattens(env: Env, c: Core, candle: Candle, history: seq<Candle>)
    requires c.OpenIdInRange() && ClockOf(candle.timestamp) >= MARKET_CLOSE
    requires forall k: nat :: k < |c.positions| && c.proc.openId != Some(k) ==> IsClosed(c.positions[k])
    ensures var next := Exit(env, c, candle, history);
            !next.HasOpen() && |next.positions| == |c.positions| && ClosedUpTo(next.positions, |c.positions|)
  {
    hide ClockOf, SignedPnl;
  }

  lemma EntryKeepsPositions(env: Env, c: Core, candle: Candle, history: seq<Candle>)
    requires !c.HasOpen() && history != []
    ensures var next := Mark(env, Entry(env, c, candle, history), candle, history);
            && |c.positions| <= |next.positions|
            && forall k: nat :: k < |c.positions| ==> next.positions[k] == c.positions[k]
  {
    hide Decide, Marked;
  }

  lemma OpenOrSettled(env: Env, c: Core)
    requires Balanced(env, c)
    ensures forall k: nat :: k < |c.positions| && c.proc.openId != Some(k) ==> IsClosed(c.positions[k])
    ensures c.HasOpen() ==> Live(c.OpenPosition())
  {
  }

  /** What the engines make of the i-th evaluation of a candle: the capital they are shown is the initial one, with the
      loss and the entries of the day, nothing deployed and nothing open. */
  function Offer(env: Env, c: Core, candle: Candle, history: seq<Candle>, i: nat): Candidate
    requires history != [] && i < |env.pipeline(candle, history, c.proc.lastTradeClosedAt).evaluations|
  {
    var r := env.pipeline(candle, history, c.proc.lastTradeClosedAt);
    var capital := CapitalState(Amount(env.initialCapital), 0.0, Amount(c.proc.realizedLossToday),
                                c.proc.tradesTakenToday, 0);
    Candidate(r.evaluations[i],
              Assess(r.evaluations[i].direction, history[|history| - 1].close, r.atr, env.risk, capital))
  }

  /** The i-th evaluation qualifies, no qualifying one beats it, and it beats every earlier qualifying one. */
  ghost predicate Best(env: Env, c: Core, candle: Candle, history: seq<Candle>, i: nat)
    requires history != []
  {
    var evaluations := env.pipeline(candle, history, c.proc.lastTradeClosedAt).evaluations;
    && i < |evaluations| && Offer(env, c, candle, history, i).Qualifies()
    && forall j: nat :: j < |evaluations| && Offer(env, c, candle, history, j).Qualifies() ==>
         && !Beats(Offer(env, c, candle, history, j), Offer(env, c, candle, history, i))
         && (j < i ==> Beats(Offer(env, c, candle, history, i), Offer(env, c, candle, history, j)))
  }

  /** The order that an offer leads to, with its position. */
  predicate EntersOn(c: Core, next: Core, offer: Candidate, price: real) {
    && |next.orders| == |c.orders| + 1 && |next.positions| == |c.positions| + 1
    && var order, p := next.orders[|c.orders|], next.positions[|c.positions|];
    && order.strategyName == (if offer.evaluation.strategyName == "" then "unknown" else offer.evaluation.strategyName)
    && order.direction == p.direction == offer.evaluation.direction
    && order.requestedPrice == p.averageEntryPrice == price
    && order.stopLoss == offer.assessment.stopLoss && order.target == offer.assessment.target
    && order.requestedQuantity == p.initialQuantity == p.quantity == offer.assessment.positionSize
    && p.status == Open && p.realizedPnl == p.unrealizedPnl == 0
  }

  /** A flat candle opens a position exactly when trading is permitted and its best evaluation has a direction; the
      order and the position are that evaluation's, at the close price. */
  lemma EntryTakesBest(env: Env, c: Core, candle: Candle, history: seq<Candle>)
    requires history != [] && !c.HasOpen()
    ensures var next := EvaluateEntry(env, c, candle, history);
            && (next.HasOpen() <==>
                  && env.pipeline(candle, history, c.proc.lastTradeClosedAt).canTrade
                  && exists i: nat :: Best(env, c, candle, history, i)
                       && Offer(env, c, candle, history, i).evaluation.direction != NoDirection)
            && (forall i: nat :: next.HasOpen() && Best(env, c, candle, history, i) ==>
                  EntersOn(c, next, Offer(env, c, candle, history, i), history[|history| - 1].close))
            && (!next.HasOpen() ==> next.orders == c.orders && next.positions == c.positions)
  {
    var decision := Decide(env, c, candle, history);
    DecisionIsBest(env, c, candle, history);
    if decision.Recommended? && decision.best.evaluation.direction != NoDirection {
      QualifyingIsSized(env, c, candle, history);
    }
    hide Decide, Best, Offer, Announce;
  }

  /** Over a run: a candle after the warm-up that leaves no position open once exits are taken opens one exactly when
      trading is permitted and its best evaluation has a direction; any other candle opens none. */
  lemma RunEnters(env: Env, candles: seq<Candle>)
    requires candles != []
    ensures var n := |candles| - 1;
            var before, next := Run(env, candles[..n]), Run(env, candles);
            var c := Exit(env, Receive(before, candles[n]), candles[n], candles);
            if |candles| <= env.warmup || c.HasOpen() then |next.positions| == |before.positions|
            else
              && (|next.positions| == |before.positions| + 1 || next.positions == c.positions)
              && (|next.positions| == |before.positions| + 1 <==> next.HasOpen())
              && (next.HasOpen() <==>
                    && env.pipeline(candles[n], candles, c.proc.lastTradeClosedAt).canTrade
                    && exists i: nat :: Best(env, c, candles[n], candles, i)
                         && Offer(env, c, candles[n], candles, i).evaluation.direction != NoDirection)
  {
    var n := |candles| - 1;
    var before := Run(env, candles[..n]);
    assert Run(env, candles) == Step(env, before, candles[n], candles);
    hide Run, Best, Offer;
    if |candles| > env.warmup {
      var c := Exit(env, Receive(before, candles[n]), candles[n], candles);
      ExitKeepsCount(env, before, candles[n], candles);
      if !c.HasOpen() {
        EntryTakesBest(env, c, candles[n], candles);
        EntryGrows(env, c, candles[n], candles);
      }
      hide Exit, EvaluateEntry, Receive, Marked;
    }
  }

  lemma ExitKeepsCount(env: Env, c: Core, candle: Candle, history: seq<Candle>)
    requires c.OpenIdInRange()
    ensures |Exit(env, Receive(c, candle), candle, history).positions| == |c.positions|
  {
  }

  lemma EntryGrows(env: Env, c: Core, candle: Candle, history: seq<Candle>)
    requires history != [] && !c.HasOpen()
    ensures var next := EvaluateEntry(env, c, candle, history);
            |next.positions| == if next.HasOpen() then |c.positions| + 1 else |c.positions|
  {
    hide Decide;
  }

  /** The decision is the best offer, and there is no other. */
  lemma DecisionIsBest(env: Env, c: Core, candle: Candle, history: seq<Candle>)
    requires history != []
    ensures var r := env.pipeline(candle, history, c.proc.lastTradeClosedAt);
            var decision := Decide(env, c, candle, history);
            && (decision.Recommended? <==> exists i: nat :: Best(env, c, candle, history, i))
            && (decision.Recommended? ==> decision.canTrade == r.canTrade)
            && forall i: nat :: Best(env, c, candle, history, i) ==> decision.best == Offer(env, c, candle, history, i)
  {
    var r := env.pipeline(candle, history, c.proc.lastTradeClosedAt);
    var candidates := Candidates(env, r.evaluations, history[|history| - 1].close, r.atr, Capital(env, c));
    assert forall i :: 0 <= i < |candidates| ==> candidates[i] == Offer(env, c, candle, history, i);
    var best := SelectBest(candidates);
    if best.Some? { assert Best(env, c, candle, history, best.value); }
    hide Assess, SelectBest;
    forall i: nat | Best(env, c, candle, history, i) ensures best == Some(i) {
      assert candidates[i].Qualifies();
    }
  }

  lemma QualifyingIsSized(env: Env, c: Core, candle: Candle, history: seq<Candle>)
    requires history != []
    requires var d := Decide(env, c, candle, history); d.Recommended? && d.best.evaluation.direction != NoDirection
    ensures Decide(env, c, candle, history).best.assessment.positionSize >= 1
  {
  }
}
