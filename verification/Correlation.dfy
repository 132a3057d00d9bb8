/** Signal correlation: the dummy trades mirror the positions of the run, one to one and in order. */
module Correlation {
  import opened Market
  import opened RiskEngine
  import opened PaperModels
  import opened Events
  import opened TradingStep
  import opened Ledger
  import opened SignalStep

  /** The exit reason the tracker infers from what a position realized. */
  function InferredReason(order: Order, p: Position): ExitReason {
    InferExitReason(p.averageEntryPrice, order.stopLoss, order.target,
                    InferExitPrice(p.direction, p.averageEntryPrice, p.realizedPnl, p.initialQuantity))
  }

  /** A dummy trade reports a position: same trade, and closed with its realized pnl once it is closed. */
  predicate Reports(trade: DummyTrade, order: Order, p: Position) {
    && trade.strategyName == p.strategyName
    && trade.direction == p.direction
    && trade.entryPrice == p.averageEntryPrice
    && trade.quantity == p.initialQuantity
    && trade.stopLoss == order.stopLoss && trade.target == order.target
    && trade.status == (if IsClosed(p) then TradeClosed else TradeOpen)
    && trade.pnl == (if IsClosed(p) then Some(p.realizedPnl) else None)
    && trade.exitReason == (if IsClosed(p) then Some(InferredReason(order, p)) else None)
  }

  /** The t-th dummy trade reports the position owner[t]; no position has two trades; only the open position is
      waiting for its close, under exactly its own trade. */
  ghost predicate Mirrors(c: Core, s: Signals, owner: seq<nat>) {
    && |c.orders| == |c.positions|
    && |owner| == |s.trades|
    && (forall t :: 0 <= t < |owner| ==> owner[t] < |c.positions|)
    && (forall t, u :: 0 <= t < u < |owner| ==> owner[t] < owner[u])
    && (forall t :: 0 <= t < |owner| ==> Reports(s.trades[t], c.orders[owner[t]], c.positions[owner[t]]))
    && (forall p :: p in s.tradeOf ==>
          c.proc.openId == Some(p) && s.tradeOf[p] < |owner| && owner[s.tradeOf[p]] == p)
    && (forall t: nat :: t < |owner| && c.proc.openId == Some(owner[t]) ==>
          owner[t] in s.tradeOf && s.tradeOf[owner[t]] == t)
  }

  /** The invariant at a candle boundary. */
  ghost predicate Correlated(config: SignalConfig, c: Core) {
    var s := Observe(config, c.log);
    s.pending == map[] && exists owner :: Mirrors(c, s, owner)
  }

  lemma Establish(config: SignalConfig, c: Core, s: Signals, owner: seq<nat>)
    requires s == Observe(config, c.log) && s.pending == map[] && Mirrors(c, s, owner)
    ensures Correlated(config, c)
  {
  }

  /** Two service states that agree on trades and correlation maps. */
  predicate SameTrades(s: Signals, r: Signals) {
    s.trades == r.trades && s.pending == r.pending && s.tradeOf == r.tradeOf
  }

  lemma {:induction false} AnnouncementsKeepTrades(config: SignalConfig, log: seq<Event>, more: seq<Event>)
    requires forall i :: 0 <= i < |more| ==> more[i].SignalGenerated? || more[i].RiskApproved?
    ensures SameTrades(Observe(config, log), Observe(config, log + more))
  {
    hide Observe;
    if more == [] {
      assert log + more == log;
    } else {
      var n := |more| - 1;
      AnnouncementsKeepTrades(config, log, more[..n]);
      assert log + more == (log + more[..n]) + [more[n]];
      ObserveNext(config, log + more[..n], more[n]);
    }
  }

  lemma {:induction false} ApprovalsAreApprovals(candidates: seq<Candidate>)
    ensures forall e :: e in ApprovalEvents(candidates) ==> e.RiskApproved?
  {
    if candidates != [] { ApprovalsAreApprovals(candidates[..|candidates| - 1]); }
  }

  lemma AnnounceCorrelated(config: SignalConfig, env: Env, c: Core, candle: Candle, history: seq<Candle>)
    requires Correlated(config, c) && history != []
    ensures Correlated(config, Announce(env, c, candle, history))
  {
    var r := env.pipeline(candle, history, c.proc.lastTradeClosedAt);
    var candidates := Candidates(env, r.evaluations, history[|history| - 1].close, r.atr, Capital(env, c));
    var more := SignalEvents(r.evaluations) + ApprovalEvents(candidates);
    ApprovalsAreApprovals(candidates);
    AnnouncementsKeepTrades(config, c.log, more);
    var next := Announce(env, c, candle, history);
    assert next.log == c.log + more;
    var owner :| Mirrors(c, Observe(config, c.log), owner);
    assert Mirrors(next, Observe(config, next.log), owner);
  }

  lemma ReceiveCorrelated(config: SignalConfig, c: Core, candle: Candle)
    requires Correlated(config, c)
    ensures Correlated(config, Receive(c, candle))
  {
    hide Observe, BuildReport, ClassifySession, DateOf, ClockOf, Reports;
    var owner :| Mirrors(c, Observe(config, c.log), owner);
    ObserveNext(config, c.log, MarketDataReceived(candle));
    assert Mirrors(Receive(c, candle), Observe(config, Receive(c, candle).log), owner);
  }

  lemma SnapshotCorrelated(config: SignalConfig, c: Core)
    requires Correlated(config, c)
    ensures Correlated(config, TakeSnapshot(c))
  {
    hide Observe;
    var owner :| Mirrors(c, Observe(config, c.log), owner);
    ObserveNext(config, c.log, PortfolioUpdated(c.book.Snapshot(c.positions)));
    assert Mirrors(TakeSnapshot(c), Observe(config, TakeSnapshot(c).log), owner);
  }

  lemma MarkedIsSame(p: Position, price: real)
    ensures Marked(p, price) == p.(unrealizedPnl := Marked(p, price).unrealizedPnl)
  {
  }

  lemma MarkCorrelated(config: SignalConfig, c: Core, price: real, now: Time)
    requires Correlated(config, c) && c.HasOpen() && c.OpenIdInRange() && Live(c.OpenPosition())
    ensures Correlated(config, MarkOpen(c, price, now))
  {
    hide Observe, Marked;
    MarkedIsSame(c.OpenPosition(), price);
    var owner :| Mirrors(c, Observe(config, c.log), owner);
    var next := MarkOpen(c, price, now);
    ObserveNext(config, c.log, PositionUpdated(Marked(c.OpenPosition(), price), now));
    assert Mirrors(next, Observe(config, next.log), owner);
  }

  /** Closing the open position closes its trade and no other. */
  lemma ExitCorrelated(config: SignalConfig, c: Core, candle: Candle, now: Time)
    requires Correlated(config, c) && c.HasOpen() && c.OpenIdInRange()
    requires c.OpenPosition().positionId == c.proc.openId.value && Live(c.OpenPosition())
    ensures Correlated(config, CheckExit(c, candle, now))
  {
    hide Observe;
    var p := c.OpenPosition();
    var exit := ExitPrice(p.direction, c.proc.stopLoss, c.proc.target, candle);
    if exit.Some? {
      var s := Observe(config, c.log);
      var owner :| Mirrors(c, s, owner);
      var next := CheckExit(c, candle, now);
      var closed := Exited(p, p.quantity, exit.value);
      ObserveNext(config, c.log, PositionUpdated(closed, now));
      assert s == Observe(config, c.log) && s.pending == map[];
      CloseMirrors(c, s, owner, exit.value, candle, now);
      assert next.log == c.log + [PositionUpdated(closed, now)];
      Establish(config, next, OnPositionUpdated(s, closed, now), owner);
    }
  }

  lemma CloseMirrors(c: Core, s: Signals, owner: seq<nat>, price: real, candle: Candle, now: Time)
    requires c.HasOpen() && c.OpenIdInRange() && s.NoDangling() && s.pending == map[] && Mirrors(c, s, owner)
    requires var p := c.OpenPosition();
             && p.positionId == c.proc.openId.value && Live(p)
             && ExitPrice(p.direction, c.proc.stopLoss, c.proc.target, candle) == Some(price)
    ensures var p := c.OpenPosition();
            var r := OnPositionUpdated(s, Exited(p, p.quantity, price), now);
            r.pending == map[] && Mirrors(CheckExit(c, candle, now), r, owner)
  {
  }

  /** The service after a fill: unchanged trades, or one new trade pending under the order's strategy. */
  ghost predicate OpensAtMostOne(s: Signals, filled: Signals, order: Order) {
    || SameTrades(s, filled)
    || exists guardian, now ::
         && filled.trades == s.trades + [NewTrade(|s.trades|, order, guardian, now)]
         && filled.pending == s.pending[order.strategyName := |s.trades|]
         && filled.tradeOf == s.tradeOf
  }

  /** A filled order either opens one trade, pending under the order's strategy, or none. */
  lemma FillShape(config: SignalConfig, s: Signals, order: Order, at: Time)
    ensures OpensAtMostOne(s, OnOrderFilled(config, s, order, at), order)
  {
  }

  /** The position opened right after a fill takes over the pending trade of the fill, if there is one. */
  lemma OpenMirrors(c: Core, s: Signals, owner: seq<nat>, best: Candidate, price: real, now: Time, filled: Signals)
    returns (grown: seq<nat>)
    requires s.pending == map[] && Mirrors(c, s, owner) && !c.HasOpen()
    requires OpensAtMostOne(s, filled, Enter(c, best, price, now).orders[|c.orders|])
    requires filled.NoDangling()
    ensures var next := Enter(c, best, price, now);
            var r := OnPositionUpdated(filled, next.positions[|c.positions|], now);
            r.pending == map[] && Mirrors(next, r, grown)
  {
    var next := Enter(c, best, price, now);
    var r := OnPositionUpdated(filled, next.positions[|c.positions|], now);
    if SameTrades(s, filled) {
      grown := owner;
    } else {
      grown := owner + [|c.positions|];
      assert r.pending == map[];
      assert r.trades == filled.trades && r.tradeOf == s.tradeOf[|c.positions| := |s.trades|];
      assert Reports(r.trades[|s.trades|], next.orders[|c.positions|], next.positions[|c.positions|]);
    }
  }

  /** What the service makes of the three events of an entry. */
  lemma ObserveEntry(config: SignalConfig, log: seq<Event>, submitted: Order, filled: Order, p: Position, now: Time)
    ensures Observe(config, log + [OrderSubmitted(submitted)] + [OrderFilled(filled, now)] + [PositionUpdated(p, now)])
            == OnPositionUpdated(OnEvent(config, Observe(config, log), OrderFilled(filled, now)), p, now)
  {
    hide Observe, OnOrderFilled, OnPositionUpdated;
    ObserveNext(config, log, OrderSubmitted(submitted));
    ObserveNext(config, log + [OrderSubmitted(submitted)], OrderFilled(filled, now));
    ObserveNext(config, log + [OrderSubmitted(submitted)] + [OrderFilled(filled, now)], PositionUpdated(p, now));
  }

  lemma EnterCorrelated(config: SignalConfig, c: Core, best: Candidate, price: real, now: Time)
    requires Correlated(config, c) && !c.HasOpen()
    ensures Correlated(config, Enter(c, best, price, now))
  {
    hide Observe;
    var s := Observe(config, c.log);
    var owner :| Mirrors(c, s, owner);
    var next := Enter(c, best, price, now);
    var order, p := next.orders[|c.orders|], next.positions[|c.positions|];
    var filled := OnEvent(config, s, OrderFilled(order, now));
    FillShape(config, s, order, now);
    var grown := OpenMirrors(c, s, owner, best, price, now, filled);
    var submitted := order.(status := Submitted, filledQuantity := 0, averageFillPrice := None);
    ObserveEntry(config, c.log, submitted, order, p, now);
    Establish(config, next, OnPositionUpdated(filled, p, now), grown);
  }

  lemma StepCorrelated(config: SignalConfig, env: Env, c: Core, candle: Candle, history: seq<Candle>)
    requires Balanced(env, c) && Correlated(config, c)
    ensures Correlated(config, Step(env, c, candle, history))
  {
    ReceiveCorrelated(config, c, candle);
    ReceiveBalanced(env, c, candle);
    hide Balanced, Correlated, Receive, CheckExit, EvaluateEntry, MarkOpen, TakeSnapshot;
    var now := env.wallClock(|history|);
    var received := Receive(c, candle);
    if |history| > env.warmup {
      if received.HasOpen() {
        OpenIsLive(env, received);
        ExitBalanced(env, received, candle, now);
        ExitCorrelated(config, received, candle, now);
      }
      var exited := Exit(env, received, candle, history);
      if !exited.HasOpen() {
        EntryBalanced(env, exited, candle, history);
        EntryCorrelated(config, env, exited, candle, history);
      }
      var entered := Entry(env, exited, candle, history);
      if entered.HasOpen() {
        OpenIsLive(env, entered);
        MarkCorrelated(config, entered, candle.close, now);
      }
      SnapshotCorrelated(config, Mark(env, entered, candle, history));
    }
  }

  lemma EntryCorrelated(config: SignalConfig, env: Env, c: Core, candle: Candle, history: seq<Candle>)
    requires Balanced(env, c) && Correlated(config, c) && !c.HasOpen() && history != []
    ensures Correlated(config, EvaluateEntry(env, c, candle, history))
  {
    AnnounceCorrelated(config, env, c, candle, history);
    var decision := Decide(env, c, candle, history);
    if decision.Actionable() {
      EnterCorrelated(config, Announce(env, c, candle, history), decision.best,
                      history[|history| - 1].close, env.wallClock(|history|));
    }
  }

  /** With the service subscribed from the start, at the boundary of every candle of every stream: nothing is
      pending, every dummy trade reports its own position, closed exactly when that position is, and only the
      open position is still awaited. */
  lemma {:induction false} RunCorrelated(config: SignalConfig, env: Env, candles: seq<Candle>)
    ensures Correlated(config, Run(env, candles))
  {
    if candles == [] {
      assert Mirrors(Initial(env), NoSignals(), []);
    } else {
      var n := |candles| - 1;
      RunCorrelated(config, env, candles[..n]);
      RunBalanced(env, candles[..n]);
      StepCorrelated(config, env, Run(env, candles[..n]), candles[n], candles);
    }
  }

  /** A consequence a reader of the tracker can check: at most one dummy trade is open, and only while a
      position is. */
  lemma AtMostOneOpenTrade(config: SignalConfig, env: Env, candles: seq<Candle>, t: nat, u: nat)
    requires var s := Observe(config, Run(env, candles).log);
             t < |s.trades| && u < |s.trades| && s.trades[t].status == TradeOpen && s.trades[u].status == TradeOpen
    ensures t == u && Run(env, candles).HasOpen()
  {
    hide Observe, Run;
    RunCorrelated(config, env, candles);
    RunBalanced(env, candles);
    var c := Run(env, candles);
    var owner :| Mirrors(c, Observe(config, c.log), owner);
    assert c.proc.openId == Some(owner[t]) && c.proc.openId == Some(owner[u]);
  }
}
