/** Every exit of a run reaches the operator: where each position left, and what was said about it. */
module Exits {
  import opened Arithmetic
  import opened Market
  import opened Rounding
  import opened RiskEngine
  import opened PaperModels
  import opened TradingStep
  import opened Ledger
  import opened Bracket
  import opened SignalStep
  import opened Correlation
  import opened Notifications
  import opened ExitReasons

  // ---------------------------------------------------------------- where a position left

  /** The price at which a candle takes a position out, if it does. */
  function ExitAt(env: Env, c: Core, candle: Candle, history: seq<Candle>, k: nat): Option<real>
    requires c.OpenIdInRange()
  {
    if |history| > env.warmup && c.proc.openId == Some(k) then
      ExitPrice(c.OpenPosition().direction, c.proc.stopLoss, c.proc.target, candle)
    else None
  }

  /** The price at which a run took a position out. */
  function ExitOfPosition(env: Env, candles: seq<Candle>, k: nat): Option<real> {
    if candles == [] then None
    else
      var n := |candles| - 1;
      var last := ExitAt(env, Run(env, candles[..n]), candles[n], candles, k);
      if last.Some? then last else ExitOfPosition(env, candles[..n], k)
  }

  /** A position after a candle: taken out at a price, or unchanged but for its valuation. */
  predicate Follows(p: Position, q: Position, exit: Option<real>) {
    if exit.Some? then q == Exited(p, p.quantity, exit.value) else q == p.(unrealizedPnl := q.unrealizedPnl)
  }

  lemma ExitFollows(env: Env, c: Core, candle: Candle, history: seq<Candle>, k: nat)
    requires c.OpenIdInRange() && |history| > env.warmup
    ensures var next := Exit(env, c, candle, history);
            && |next.positions| == |c.positions|
            && (k < |c.positions| ==>
                  Follows(c.positions[k], next.positions[k], ExitAt(env, c, candle, history, k)))
  {
    hide Exited, ExitPrice;
  }

  /** What comes after the exit check leaves a position alone but for its valuation, and closes no new one. */
  lemma RestFollows(env: Env, c: Core, candle: Candle, history: seq<Candle>, k: nat)
    requires c.OpenIdInRange() && |history| > env.warmup
    ensures var next := TakeSnapshot(Mark(env, Entry(env, c, candle, history), candle, history));
            && |c.positions| <= |next.positions|
            && (k < |c.positions| ==> Follows(c.positions[k], next.positions[k], None))
            && (|c.positions| <= k < |next.positions| ==> !IsClosed(next.positions[k]))
  {
    hide Decide, SignedPnl, Exited;
  }

  /** One candle, on one position. */
  lemma StepFollows(env: Env, c: Core, candle: Candle, history: seq<Candle>, k: nat)
    requires c.OpenIdInRange()
    ensures var next := Step(env, c, candle, history);
            && |c.positions| <= |next.positions|
            && (k < |c.positions| ==>
                  var exit := ExitAt(env, c, candle, history, k);
                  Follows(if exit.Some? then Exited(c.positions[k], c.positions[k].quantity, exit.value)
                          else c.positions[k], next.positions[k], None))
            && (|c.positions| <= k < |next.positions| ==> !IsClosed(next.positions[k]))
  {
    hide Exit, Entry, Mark, TakeSnapshot, Exited, ExitPrice;
    if |history| > env.warmup {
      var received := Receive(c, candle);
      ExitFollows(env, received, candle, history, k);
      RestFollows(env, Exit(env, received, candle, history), candle, history, k);
    }
  }

  /** A position of a run and the price it left at: closed exactly when there is one, with the pnl of that price. */
  predicate LeftAt(p: Position, exit: Option<real>) {
    if exit.Some? then
      IsClosed(p) && p.realizedPnl == SignedPnl(p.direction, p.averageEntryPrice, exit.value, p.initialQuantity)
    else !IsClosed(p)
  }

  lemma StepLeft(env: Env, c: Core, candle: Candle, history: seq<Candle>, k: nat, before: Option<real>)
    requires Balanced(env, c) && k < |c.positions| && LeftAt(c.positions[k], before)
    ensures k < |Step(env, c, candle, history).positions|
    ensures var exit := ExitAt(env, c, candle, history, k);
            LeftAt(Step(env, c, candle, history).positions[k], if exit.Some? then exit else before)
  {
    StepFollows(env, c, candle, history, k);
    hide Step, ExitPrice, SignedPnl;
    var exit := ExitAt(env, c, candle, history, k);
    if exit.Some? { OpenIsLive(env, c); }
  }

  lemma StepNew(env: Env, c: Core, candle: Candle, history: seq<Candle>, k: nat)
    requires Balanced(env, c) && k >= |c.positions|
    ensures ExitAt(env, c, candle, history, k) == None
    ensures var next := Step(env, c, candle, history); k < |next.positions| ==> LeftAt(next.positions[k], None)
  {
    StepFollows(env, c, candle, history, k);
    hide Step;
  }

  /** Every position of a run left exactly where the candles took it out, with the pnl of that price. */
  lemma {:induction false} RunExit(env: Env, candles: seq<Candle>, k: nat)
    ensures var exit := ExitOfPosition(env, candles, k);
            if k < |Run(env, candles).positions| then LeftAt(Run(env, candles).positions[k], exit) else exit == None
  {
    hide Step, ExitAt, LeftAt;
    if candles != [] {
      var n := |candles| - 1;
      RunExit(env, candles[..n], k);
      RunBalanced(env, candles[..n]);
      var c := Run(env, candles[..n]);
      if k < |c.positions| {
        StepLeft(env, c, candles[n], candles, k, ExitOfPosition(env, candles[..n], k));
      } else {
        StepNew(env, c, candles[n], candles, k);
      }
    }
  }

  // ---------------------------------------------------------------- the last exit

  /** A position that is closed afterwards and was not before. */
  predicate Closes(before: seq<Position>, after: seq<Position>, k: nat) {
    && k < |after| && IsClosed(after[k])
    && !(k < |before| && IsClosed(before[k]))
  }

  ghost predicate SomeCloses(before: seq<Position>, after: seq<Position>) {
    exists k: nat :: Closes(before, after, k)
  }

  /** Closed positions are neither dropped nor reopened. */
  predicate StayClosed(before: seq<Position>, after: seq<Position>) {
    |before| <= |after| && forall k: nat :: k < |before| && IsClosed(before[k]) ==> IsClosed(after[k])
  }

  /** The exit check closes the tracked position or nothing, and remembers the candle it closed over. */
  lemma ExitRemembered(env: Env, c: Core, candle: Candle, history: seq<Candle>)
    requires Balanced(env, c)
    ensures var next := Exit(env, c, candle, history);
            && StayClosed(c.positions, next.positions) && |next.positions| == |c.positions|
            && next.proc.lastTradeClosedAt
               == if SomeCloses(c.positions, next.positions) then Some(candle.timestamp) else c.proc.lastTradeClosedAt
  {
    hide Total, SignedPnl, ExitPrice;
    var next := Exit(env, c, candle, history);
    if c.HasOpen() && next.positions != c.positions {
      assert Closes(c.positions, next.positions, c.proc.openId.value);
    }
  }

  /** What follows the exit check closes nothing and leaves the memory of the last exit alone. */
  lemma RestRemembered(env: Env, c: Core, candle: Candle, history: seq<Candle>)
    requires c.OpenIdInRange() && |history| > env.warmup
    ensures var next := TakeSnapshot(Mark(env, Entry(env, c, candle, history), candle, history));
            && next.proc.lastTradeClosedAt == c.proc.lastTradeClosedAt
            && |c.positions| <= |next.positions|
            && forall k: nat :: k < |next.positions| ==>
                 (IsClosed(next.positions[k]) <==> k < |c.positions| && IsClosed(c.positions[k]))
  {
    hide Decide, SignedPnl;
  }

  lemma StepRemembered(env: Env, c: Core, candle: Candle, history: seq<Candle>)
    requires Balanced(env, c)
    ensures var next := Step(env, c, candle, history);
            && StayClosed(c.positions, next.positions)
            && next.proc.lastTradeClosedAt
               == if SomeCloses(c.positions, next.positions) then Some(candle.timestamp) else c.proc.lastTradeClosedAt
  {
    var received := Receive(c, candle);
    ReceiveBalanced(env, c, candle);
    hide Balanced, Exit, Entry, Mark, TakeSnapshot;
    if |history| > env.warmup {
      ExitRemembered(env, received, candle, history);
      var exited := Exit(env, received, candle, history);
      RestRemembered(env, exited, candle, history);
      SameClosings(c.positions, exited.positions, Step(env, c, candle, history).positions);
    }
  }

  lemma SameClosings(before: seq<Position>, between: seq<Position>, after: seq<Position>)
    requires |between| <= |after|
    requires forall k: nat :: k < |after| ==> (IsClosed(after[k]) <==> k < |between| && IsClosed(between[k]))
    ensures SomeCloses(before, between) <==> SomeCloses(before, after)
  {
    if SomeCloses(before, between) {
      var k: nat :| Closes(before, between, k);
      assert Closes(before, after, k);
    }
    if SomeCloses(before, after) {
      var k: nat :| Closes(before, after, k);
      assert Closes(before, between, k);
    }
  }

  /** Over the i-th candle some position of the run became closed. */
  ghost predicate ClosesOver(env: Env, candles: seq<Candle>, i: nat)
    requires i < |candles|
  {
    SomeCloses(Run(env, candles[..i]).positions, Run(env, candles[..i + 1]).positions)
  }

  /** The last candle over which a position became closed has this timestamp; none has when there is none. */
  ghost predicate LastCloseAt(env: Env, candles: seq<Candle>, at: Option<Time>) {
    if at.Some? then
      exists i: nat :: && i < |candles| && ClosesOver(env, candles, i) && candles[i].timestamp == at.value
                       && forall j: nat :: i < j < |candles| ==> !ClosesOver(env, candles, j)
    else forall i: nat :: i < |candles| ==> !ClosesOver(env, candles, i)
  }

  lemma CloseOverPrefix(env: Env, candles: seq<Candle>, n: nat, i: nat)
    requires i < n <= |candles|
    ensures ClosesOver(env, candles[..n], i) <==> ClosesOver(env, candles, i)
  {
    hide Run, SomeCloses;
    assert candles[..n][..i] == candles[..i] && candles[..n][..i + 1] == candles[..i + 1];
  }

  lemma LastCloseNext(env: Env, candles: seq<Candle>, before: Option<Time>)
    requires candles != [] && LastCloseAt(env, candles[..|candles| - 1], before)
    ensures var n := |candles| - 1;
            LastCloseAt(env, candles, if ClosesOver(env, candles, n) then Some(candles[n].timestamp) else before)
  {
    hide ClosesOver, Run;
    var n := |candles| - 1;
    forall i: nat | i < n ensures ClosesOver(env, candles[..n], i) <==> ClosesOver(env, candles, i) {
      CloseOverPrefix(env, candles, n, i);
    }
    if !ClosesOver(env, candles, n) && before.Some? {
      var i: nat :| && i < n && ClosesOver(env, candles[..n], i) && candles[..n][i].timestamp == before.value
                    && forall j: nat :: i < j < n ==> !ClosesOver(env, candles[..n], j);
      assert ClosesOver(env, candles, i) && candles[i].timestamp == before.value;
    }
  }

  /** What the next decision is told about the last exit: the timestamp of the last candle over which a position of
      the run became closed, and nothing exactly as long as no position is closed. */
  lemma {:induction false} RunRemembersLastExit(env: Env, candles: seq<Candle>)
    ensures var c := Run(env, candles);
            && LastCloseAt(env, candles, c.proc.lastTradeClosedAt)
            && (c.proc.lastTradeClosedAt.None? <==> forall k: nat :: k < |c.positions| ==> !IsClosed(c.positions[k]))
  {
    if candles != [] {
      var n := |candles| - 1;
      RunRemembersLastExit(env, candles[..n]);
      RunBalanced(env, candles[..n]);
      StepRemembered(env, Run(env, candles[..n]), candles[n], candles);
      assert candles[..n + 1] == candles;
      LastCloseNext(env, candles, Run(env, candles[..n]).proc.lastTradeClosedAt);
      NoneClosed(Run(env, candles[..n]).positions, Run(env, candles).positions);
      hide Step, Balanced, SomeCloses, LastCloseAt;
    }
  }

  lemma NoneClosed(before: seq<Position>, after: seq<Position>)
    requires StayClosed(before, after)
    ensures (forall k: nat :: k < |after| ==> !IsClosed(after[k])) <==>
              !SomeCloses(before, after) && forall k: nat :: k < |before| ==> !IsClosed(before[k])
  {
    forall k: nat | k < |after| && IsClosed(after[k]) && !SomeCloses(before, after)
      ensures k < |before| && IsClosed(before[k])
    {
      assert !Closes(before, after, k);
    }
  }

  // ---------------------------------------------------------------- what was said about it

  /** The one exit message about a trade: of the right kind, carrying the trade as it ended. */
  ghost predicate AnnouncedOnce(s: Signals, t: nat, atStop: bool)
    requires t < |s.trades|
  {
    var notice := if atStop then StopLossHit(s.trades[t]) else TargetHit(s.trades[t]);
    exists i :: && 0 <= i < |s.outbox| && s.outbox[i] == notice
                && forall j :: 0 <= j < |s.outbox| && ExitOf(s.outbox[j]).Some? && j != i ==>
                     ExitOf(s.outbox[j]).value.tradeId != t
  }

  /** A closed trade whose reason is a stop or a target has been announced once. */
  lemma ClosedIsAnnounced(config: SignalConfig, s: Signals, t: nat)
    requires Agrees(config, s) && ExitsAreComplete(s) && t < |s.trades| && s.trades[t].status == TradeClosed
    requires s.trades[t].exitReason in {Some(StopLossExit), Some(TargetExit)}
    ensures AnnouncedOnce(s, t, s.trades[t].exitReason == Some(StopLossExit))
  {
    AgreesIds(config, s);
    hide Awaited, AllAnnounced, NoTradesSpaced;
    var notice := ExitNotice(s.trades[t])[0];
    var i :| 0 <= i < |s.outbox| && s.outbox[i] == notice;
    assert ExitOf(s.outbox[i]).value.tradeId == t;
  }

  /** No exit message about a trade. */
  ghost predicate Unannounced(s: Signals, t: nat) {
    forall j :: 0 <= j < |s.outbox| && ExitOf(s.outbox[j]).Some? ==> ExitOf(s.outbox[j]).value.tradeId != t
  }

  /** The three fates of a trade exclude each other. */
  lemma OneFate(config: SignalConfig, s: Signals, t: nat)
    requires Agrees(config, s) && t < |s.trades|
    ensures !(AnnouncedOnce(s, t, true) && AnnouncedOnce(s, t, false))
    ensures Unannounced(s, t) ==> !AnnouncedOnce(s, t, true) && !AnnouncedOnce(s, t, false)
  {
    AgreesIds(config, s);
    hide Agrees;
    assert s.trades[t].tradeId == t;
  }

  /** A trade that is open, or closed for neither a stop nor a target, has no exit message. */
  lemma OthersAreUnannounced(config: SignalConfig, s: Signals, t: nat)
    requires Agrees(config, s) && ExitsAreComplete(s) && t < |s.trades|
    requires s.trades[t].status == TradeOpen || ExitNotice(s.trades[t]) == []
    ensures Unannounced(s, t)
  {
    hide Awaited, AllAnnounced, NoTradesSpaced;
    forall j | 0 <= j < |s.outbox| && ExitOf(s.outbox[j]).Some? ensures ExitOf(s.outbox[j]).value.tradeId != t {
      assert ExitNotice(ExitOf(s.outbox[j]).value) == [s.outbox[j]];
    }
  }

  /** What the tracker takes an exit of an order at a price for: a function of the order and the price alone. */
  function Told(order: Order, price: real): ExitReason
    requires order.requestedQuantity >= 1
  {
    InferExitReason(order.requestedPrice, order.stopLoss, order.target,
                    Inferred(order.direction, order.requestedPrice, price, order.requestedQuantity))
  }

  /** The price inferred for a stop exit is out of the tolerance around the target. */
  predicate ToldAsStop(order: Order)
    requires order.requestedQuantity >= 1
  {
    Abs(Inferred(order.direction, order.requestedPrice, order.stopLoss, order.requestedQuantity) - order.target)
    > Tolerance(order.requestedPrice, order.target)
  }

  /** What the tracker and the operator learn about a reported position and the price it left at: exactly one message
      of the kind the exit is taken for, none when it is taken for the end of the day; a target exit always as one,
      a stop exit as one exactly when its order says so. */
  ghost predicate LeavesRightly(s: Signals, t: nat, order: Order, exit: Option<real>)
    requires t < |s.trades| && order.requestedQuantity >= 1
  {
    && (s.trades[t].status == TradeClosed <==> exit.Some?)
    && (exit.None? ==> Unannounced(s, t))
    && (exit.Some? ==>
          && s.trades[t].pnl
             == Some(SignedPnl(order.direction, order.requestedPrice, exit.value, order.requestedQuantity))
          && (AnnouncedOnce(s, t, true) <==> Told(order, exit.value) == StopLossExit)
          && (AnnouncedOnce(s, t, false) <==> Told(order, exit.value) == TargetExit)
          && (Unannounced(s, t) <==> Told(order, exit.value) == EndOfDayExit))
    && (exit == Some(order.target) ==> AnnouncedOnce(s, t, false))
    && (exit == Some(order.stopLoss) ==>
          (AnnouncedOnce(s, t, true) <==> ToldAsStop(order)) && (AnnouncedOnce(s, t, false) <==> !ToldAsStop(order)))
  }

  /** What a stop and a target exit are taken for. */
  lemma ToldAtBracket(order: Order)
    requires order.requestedQuantity >= 1
    ensures Told(order, order.target) == TargetExit
    ensures Told(order, order.stopLoss) == if ToldAsStop(order) then StopLossExit else TargetExit
  {
    TargetIsReported(order.direction, order.requestedPrice, order.stopLoss, order.target, order.requestedQuantity);
    StopIsReportedIff(order.direction, order.requestedPrice, order.stopLoss, order.target, order.requestedQuantity);
    hide Inferred, Tolerance;
  }

  /** The fate of a closed trade follows its exit reason. */
  lemma FateOfClosed(config: SignalConfig, s: Signals, t: nat)
    requires Agrees(config, s) && ExitsAreComplete(s) && t < |s.trades| && s.trades[t].status == TradeClosed
    requires s.trades[t].exitReason.Some?
    ensures AnnouncedOnce(s, t, true) <==> s.trades[t].exitReason == Some(StopLossExit)
    ensures AnnouncedOnce(s, t, false) <==> s.trades[t].exitReason == Some(TargetExit)
    ensures Unannounced(s, t) <==> s.trades[t].exitReason == Some(EndOfDayExit)
  {
    hide Agrees, ExitsAreComplete, AnnouncedOnce, Unannounced;
    OneFate(config, s, t);
    match s.trades[t].exitReason.value
    case EndOfDayExit => OthersAreUnannounced(config, s, t);
    case StopLossExit => ClosedIsAnnounced(config, s, t);
    case TargetExit => ClosedIsAnnounced(config, s, t);
  }

  /** One reported position, given what holds at the boundary of a candle. */
  lemma ReportIsRight(config: SignalConfig, s: Signals, t: nat, order: Order, p: Position, k: nat, exit: Option<real>)
    requires Agrees(config, s) && ExitsAreComplete(s) && t < |s.trades|
    requires Reports(s.trades[t], order, p) && OpenedBy(order, p, k) && LeftAt(p, exit)
    ensures order.requestedQuantity >= 1 && LeavesRightly(s, t, order, exit)
  {
    hide Agrees, ExitsAreComplete, AnnouncedOnce, Unannounced, SignedPnl, InferExitPrice, InferExitReason, ToldAsStop;
    ToldAtBracket(order);
    if exit.Some? {
      assert InferredReason(order, p) == Told(order, exit.value);
      FateOfClosed(config, s, t);
    } else {
      OthersAreUnannounced(config, s, t);
    }
  }

  /** Each report is right, given which position each trade reports. */
  ghost predicate EachLeavesRightly(env: Env, candles: seq<Candle>, c: Core, s: Signals, owner: seq<nat>)
    requires Mirrors(c, s, owner)
  {
    forall t: nat :: t < |owner| ==>
      && c.orders[owner[t]].requestedQuantity >= 1
      && LeavesRightly(s, t, c.orders[owner[t]], ExitOfPosition(env, candles, owner[t]))
  }

  ghost predicate AllExitsAnnounced(env: Env, candles: seq<Candle>, c: Core, s: Signals) {
    exists owner :: Mirrors(c, s, owner) && EachLeavesRightly(env, candles, c, s, owner)
  }

  /** On every stream of candles, whatever the surroundings. */
  lemma RunExitsAreAnnounced(config: SignalConfig, env: Env, candles: seq<Candle>)
    ensures var c := Run(env, candles); AllExitsAnnounced(env, candles, c, Observe(config, c.log))
  {
    hide *;
    RunCorrelated(config, env, candles);
    RunBalanced(env, candles);
    MessagesAgree(config, Run(env, candles).log);
    ExitsAnnounced(config, env, candles, Run(env, candles));
  }

  lemma ExitsAnnounced(config: SignalConfig, env: Env, candles: seq<Candle>, c: Core)
    requires c == Run(env, candles) && Correlated(config, c) && Balanced(env, c)
    requires Agrees(config, Observe(config, c.log)) && ExitsAreComplete(Observe(config, c.log))
    ensures AllExitsAnnounced(env, candles, c, Observe(config, c.log))
  {
    var s := Observe(config, c.log);
    var owner :| Mirrors(c, s, owner);
    hide Run, Observe, Agrees, ExitsAreComplete, LeavesRightly, ExitOfPosition, Reports, OpenedBy;
    forall t: nat | t < |owner|
      ensures c.orders[owner[t]].requestedQuantity >= 1
      ensures LeavesRightly(s, t, c.orders[owner[t]], ExitOfPosition(env, candles, owner[t]))
    {
      var k := owner[t];
      RunExit(env, candles, k);
      ReportIsRight(config, s, t, c.orders[k], c.positions[k], k, ExitOfPosition(env, candles, k));
    }
    assert EachLeavesRightly(env, candles, c, s, owner);
  }

  /** A bracket wide enough for its stop not to be taken for its target, or a price at which every accepted bracket
      is that wide. */
  predicate Wide(order: Order)
    requires order.requestedQuantity >= 1
  {
    Abs(order.stopLoss - order.target) > 0.01 + HALF_UNIT / order.requestedQuantity as real
    || order.requestedPrice >= 20.1
  }

  /** Of the orders a sound environment places on genuine candles, the wide ones are told as stops and the ones
      narrower than 0.01, up to the rounding, as targets. */
  lemma RunStopsTold(env: Env, candles: seq<Candle>, k: nat)
    requires SoundEnv(env) && AllWellFormed(candles) && k < |Run(env, candles).orders|
    ensures var order := Run(env, candles).orders[k];
            && order.requestedQuantity >= 1
            && (Wide(order) ==> ToldAsStop(order))
            && (Abs(order.stopLoss - order.target) <= 0.01 - HALF_UNIT / order.requestedQuantity as real ==>
                  !ToldAsStop(order))
  {
    hide *;
    RunBalanced(env, candles);
    RunBracketed(env, candles);
    OrderIsPlaced(env, Run(env, candles), k);
    PlacedTold(env, Run(env, candles).orders[k]);
  }

  lemma OrderIsPlaced(env: Env, c: Core, k: nat)
    requires Balanced(env, c) && Bracketed(env, c) && k < |c.orders|
    ensures Placed(env, c.orders[k]) && c.orders[k].requestedQuantity >= 1
  {
    assert OpenedBy(c.orders[k], c.positions[k], k);
  }

  lemma PlacedTold(env: Env, order: Order)
    requires Placed(env, order) && order.requestedQuantity >= 1
    ensures Wide(order) ==> ToldAsStop(order)
    ensures Abs(order.stopLoss - order.target) <= 0.01 - HALF_UNIT / order.requestedQuantity as real ==>
              !ToldAsStop(order)
  {
    var quantity := order.requestedQuantity;
    InferenceInvertsPnl(order.direction, order.requestedPrice, order.stopLoss, quantity);
    assert HALF_UNIT / quantity as real <= HALF_UNIT;
    if order.requestedPrice >= 20.1 { StopFloorOfPrice(env.risk, order.requestedPrice); }
    hide RiskConfig.StopFloor, PnlAt, Inferred, Tolerance;
    StopIsReported(order.direction, order.requestedPrice, order.stopLoss, order.target, quantity);
    StopIsReportedIff(order.direction, order.requestedPrice, order.stopLoss, order.target, quantity);
  }
}
