/** Conservation: over every candle stream and every pipeline, the trading state keeps its books. */
module Ledger {
  import opened Market
  import opened Rounding
  import opened RiskEngine
  import opened PaperModels
  import opened TradingStep

  /** The position the k-th order opened. */
  predicate OpenedBy(order: Order, p: Position, k: nat) {
    && order.orderId == k && p.positionId == k
    && order.status == Filled && order.Valid() && order.filledQuantity == order.requestedQuantity
    && order.averageFillPrice == Some(order.requestedPrice)
    && p.Valid()
    && p.strategyName == order.strategyName && p.direction == order.direction && p.direction != NoDirection
    && p.averageEntryPrice == order.requestedPrice == order.FillPrice()
    && p.initialQuantity == order.requestedQuantity
  }

  predicate Live(p: Position) { p.status == Open && p.quantity == p.initialQuantity && p.realizedPnl == 0 }

  predicate Settled(p: Position) { p.status == Closed && p.quantity == 0 && p.unrealizedPnl == 0 }

  /** Every order is filled and opened exactly one position; only the tracked position is live; cash moved by
      exactly what was realized. */
  ghost predicate Balanced(env: Env, c: Core) {
    && c.OpenIdInRange()
    && |c.orders| == |c.positions|
    && (forall k: nat :: k < |c.positions| ==> OpenedBy(c.orders[k], c.positions[k], k))
    && (forall k: nat :: k < |c.positions| ==>
          if c.proc.openId == Some(k) then Live(c.positions[k]) else Settled(c.positions[k]))
    && (c.HasOpen() ==>
          && c.proc.stopLoss == c.orders[c.proc.openId.value].stopLoss
          && c.proc.target == c.orders[c.proc.openId.value].target)
    && c.book.cash == env.initialCapital + Total(RealizedOf, c.positions)
    && c.book.dailyPnl == Total(RealizedOf, c.positions)
    && c.book.availableMargin == env.initialCapital
  }

  /** The live position, if any, is valued at a price. */
  predicate MarkedAt(c: Core, price: real)
    requires c.OpenIdInRange()
  {
    c.HasOpen() ==>
      var p := c.OpenPosition();
      p.unrealizedPnl == SignedPnl(p.direction, p.averageEntryPrice, price, p.initialQuantity)
  }

  lemma OpenIsLive(env: Env, c: Core)
    requires Balanced(env, c) && c.HasOpen()
    ensures c.OpenPosition().positionId == c.proc.openId.value && Live(c.OpenPosition())
  {
  }

  lemma OpenQuantityPositive(env: Env, c: Core)
    requires Balanced(env, c) && c.HasOpen()
    ensures c.OpenPosition().quantity >= 1
  {
  }

  lemma ExitBalanced(env: Env, c: Core, candle: Candle, now: Time)
    requires Balanced(env, c) && c.HasOpen()
    ensures Balanced(env, CheckExit(c, candle, now))
  {
    hide Total;
    var p := c.OpenPosition();
    var exit := ExitPrice(p.direction, c.proc.stopLoss, c.proc.target, candle);
    if exit.Some? {
      TotalUpdate(RealizedOf, c.positions, c.proc.openId.value, Exited(p, p.quantity, exit.value));
    }
  }

  lemma EnterBalanced(env: Env, c: Core, best: Candidate, price: real, now: Time)
    requires Balanced(env, c) && !c.HasOpen()
    requires best.assessment.positionSize >= 1 && best.evaluation.direction != NoDirection
    ensures Balanced(env, Enter(c, best, price, now))
  {
    hide Total;
    var next := Enter(c, best, price, now);
    TotalAppend(RealizedOf, c.positions, next.positions[|c.positions|]);
    assert OpenedBy(next.orders[|c.orders|], next.positions[|c.positions|], |c.positions|);
    hide OpenedBy;
  }

  lemma EntryBalanced(env: Env, c: Core, candle: Candle, history: seq<Candle>)
    requires Balanced(env, c) && !c.HasOpen() && history != []
    ensures Balanced(env, EvaluateEntry(env, c, candle, history))
  {
    var announced := Announce(env, c, candle, history);
    assert Balanced(env, announced);
    hide Balanced, Enter, Announce, Recommend;
    var decision := Decide(env, c, candle, history);
    if decision.Actionable() {
      EnterBalanced(env, announced, decision.best, history[|history| - 1].close, env.wallClock(|history|));
    }
  }

  lemma MarkBalanced(env: Env, c: Core, price: real, now: Time)
    requires Balanced(env, c) && c.HasOpen()
    ensures Balanced(env, MarkOpen(c, price, now))
    ensures MarkedAt(MarkOpen(c, price, now), price)
  {
    hide Total;
    TotalUpdate(RealizedOf, c.positions, c.proc.openId.value, Marked(c.OpenPosition(), price));
  }

  lemma ReceiveBalanced(env: Env, c: Core, candle: Candle)
    requires Balanced(env, c)
    ensures Balanced(env, Receive(c, candle)) && Receive(c, candle).HasOpen() == c.HasOpen()
  {
  }

  lemma SnapshotBalanced(env: Env, c: Core, price: real)
    requires Balanced(env, c) && MarkedAt(c, price)
    ensures Balanced(env, TakeSnapshot(c)) && MarkedAt(TakeSnapshot(c), price)
  {
  }

  lemma SnapshotKeepsBooks(env: Env, c: Core)
    requires Balanced(env, c)
    ensures Balanced(env, TakeSnapshot(c))
  {
  }

  lemma StepBalanced(env: Env, c: Core, candle: Candle, history: seq<Candle>)
    requires Balanced(env, c)
    ensures Balanced(env, Step(env, c, candle, history))
    ensures |history| > env.warmup ==> MarkedAt(Step(env, c, candle, history), candle.close)
  {
    hide Balanced, MarkedAt, Receive, CheckExit, EvaluateEntry, MarkOpen, TakeSnapshot;
    var now := env.wallClock(|history|);
    var received := Receive(c, candle);
    ReceiveBalanced(env, c, candle);
    if |history| > env.warmup {
      if received.HasOpen() { ExitBalanced(env, received, candle, now); }
      var exited := Exit(env, received, candle, history);
      if !exited.HasOpen() { EntryBalanced(env, exited, candle, history); }
      var entered := Entry(env, exited, candle, history);
      if entered.HasOpen() { MarkBalanced(env, entered, candle.close, now); }
      var marked := Mark(env, entered, candle, history);
      NoneMarked(marked, candle.close);
      SnapshotBalanced(env, marked, candle.close);
    }
  }

  lemma NoneMarked(c: Core, price: real)
    requires c.OpenIdInRange()
    ensures !c.HasOpen() ==> MarkedAt(c, price)
  {
  }

  /** The ledger invariant, at the boundary of every candle of every stream. */
  lemma {:induction false} RunBalanced(env: Env, candles: seq<Candle>)
    ensures Balanced(env, Run(env, candles))
    ensures |candles| <= env.warmup ==> Run(env, candles).positions == []
    ensures |candles| > env.warmup ==> MarkedAt(Run(env, candles), candles[|candles| - 1].close)
  {
    if candles != [] {
      var n := |candles| - 1;
      RunBalanced(env, candles[..n]);
      StepBalanced(env, Run(env, candles[..n]), candles[n], candles);
    }
  }

  /** What the open position would gain if it were closed at a price. */
  function OpenPnl(c: Core, price: real): Money
    requires c.OpenIdInRange()
  {
    if c.HasOpen() then
      var p := c.OpenPosition();
      SignedPnl(p.direction, p.averageEntryPrice, price, p.initialQuantity)
    else 0
  }

  /** After the warm-up every candle ends with a snapshot whose equity is the initial capital plus everything
      realized plus the open position valued at the last close, listing at most that one position as open. */
  lemma EquityIsConserved(env: Env, candles: seq<Candle>)
    requires |candles| > env.warmup
    ensures var c := Run(env, candles);
            && c.log != [] && c.log[|c.log| - 1].PortfolioUpdated?
            && var last := c.log[|c.log| - 1].portfolio;
            && last.cash == env.initialCapital + Total(RealizedOf, c.positions)
            && last.totalEquity == last.cash + OpenPnl(c, candles[|candles| - 1].close)
            && last.dailyPnl == last.cash - env.initialCapital && last.availableMargin == env.initialCapital
            && last.openPositionIds == (if c.HasOpen() then [c.proc.openId.value] else [])
            && (forall k: nat :: k in last.closedPositionIds <==> k < |c.positions| && IsClosed(c.positions[k]))
            && |last.openPositionIds| + |last.closedPositionIds| == |c.positions|
  {
    RunBalanced(env, candles);
    hide Receive, Exit, Entry, Mark;
    var c := Run(env, candles);
    BooksOfBalanced(env, c, candles[|candles| - 1].close);
    IdsAre(IsClosed, c.positions);
  }

  /** The listed ids are those of the positions that meet the condition. */
  lemma {:induction false} IdsAre(cond: Position -> bool, positions: seq<Position>)
    requires forall k: nat :: k < |positions| ==> positions[k].positionId == k
    ensures forall k: nat :: k in IdsWhere(cond, positions) <==> k < |positions| && cond(positions[k])
  {
    if positions != [] { IdsAre(cond, positions[..|positions| - 1]); }
  }

  /** In a balanced state the views and the unrealized total come from the tracked position alone. */
  lemma BooksOfBalanced(env: Env, c: Core, price: real)
    requires Balanced(env, c) && MarkedAt(c, price)
    ensures Total(UnrealizedOf, c.positions) == OpenPnl(c, price)
    ensures IdsWhere(IsOpen, c.positions) == (if c.HasOpen() then [c.proc.openId.value] else [])
    ensures |IdsWhere(IsOpen, c.positions)| + |IdsWhere(IsClosed, c.positions)| == |c.positions|
  {
    TotalOfOne(UnrealizedOf, c.positions, c.proc.openId);
    IdsOfOne(c.positions, c.proc.openId);
    IdsPartition(c.positions);
  }

  lemma {:induction false} IdsOfOne(positions: seq<Position>, k: Option<nat>)
    requires k.Some? ==> k.value < |positions|
    requires forall i: nat :: i < |positions| ==>
               positions[i].positionId == i && (IsOpen(positions[i]) <==> k == Some(i))
    ensures IdsWhere(IsOpen, positions) == if k.Some? then [k.value] else []
  {
    if positions != [] {
      var n := |positions| - 1;
      IdsOfOne(positions[..n], if k == Some(n) then None else k);
    }
  }

  lemma {:induction false} IdsPartition(positions: seq<Position>)
    ensures |IdsWhere(IsOpen, positions)| + |IdsWhere(IsClosed, positions)| == |positions|
  {
    if positions != [] { IdsPartition(positions[..|positions| - 1]); }
  }

  /** The daily figure is never reset by the runtime: it stays the whole run's realized profit. */
  lemma DailyPnlIsCumulative(env: Env, candles: seq<Candle>)
    ensures var c := Run(env, candles);
            c.book.dailyPnl == c.book.cash - env.initialCapital == Total(RealizedOf, c.positions)
  {
    RunBalanced(env, candles);
  }
}
