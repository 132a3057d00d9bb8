/** The performance and health monitors: what they counted is what the run did. */
module Monitors {
  import opened Arithmetic
  import opened Market
  import opened Rounding
  import opened RiskEngine
  import opened PaperModels
  import opened Events
  import opened TradingStep
  import opened Ledger
  import opened Equity
  import opened Sums

  // ---------------------------------------------------------------- the handlers

  datatype Performance = Performance(
    submitted: nat,
    filled: nat,
    rejected: nat,
    cancelled: nat,
    wins: nat,
    losses: nat,
    latestDailyPnl: Money,
    maxDrawdown: Money)
  {
    function On(e: Event): Performance {
      match e
      case OrderSubmitted(_) => this.(submitted := submitted + 1)
      case OrderFilled(_, _) => this.(filled := filled + 1)
      case OrderRejected(_) => this.(rejected := rejected + 1)
      case OrderCancelled(_) => this.(cancelled := cancelled + 1)
      case PositionUpdated(p, _) =>
        if p.status != Closed then this
        else if p.realizedPnl > 0 then this.(wins := wins + 1)
        else if p.realizedPnl < 0 then this.(losses := losses + 1)
        else this
      case PortfolioUpdated(portfolio) =>
        this.(latestDailyPnl := portfolio.dailyPnl, maxDrawdown := Max(maxDrawdown, portfolio.Drawdown()))
      case _ => this
    }
  }

  datatype Health = Health(eventsPublished: nat, ordersGenerated: nat)
  {
    function Published(): Health { this.(eventsPublished := eventsPublished + 1) }

    function Generated(): Health { this.(ordersGenerated := ordersGenerated + 1) }

    function On(e: Event): Health { if e.OrderSubmitted? then Published().Generated() else Published() }
  }

  datatype EntryType = SignalEntry | RiskEntry | OrderEntry | ExecutionEntry | PositionEntry | PortfolioEntry

  datatype JournalEntry = JournalEntry(entryType: EntryType, source: Event)

  /** The journal's entry for an event; market data has none. */
  function Recorded(e: Event): seq<JournalEntry> {
    match KindOf(e)
    case MarketKind => []
    case SignalKind => [JournalEntry(SignalEntry, e)]
    case RiskKind => [JournalEntry(RiskEntry, e)]
    case FilledKind => [JournalEntry(ExecutionEntry, e)]
    case PartialKind => [JournalEntry(ExecutionEntry, e)]
    case PositionKind => [JournalEntry(PositionEntry, e)]
    case PortfolioKind => [JournalEntry(PortfolioEntry, e)]
    case _ => [JournalEntry(OrderEntry, e)]
  }

  function JournalAfter(log: seq<Event>): seq<JournalEntry> {
    if log == [] then [] else JournalAfter(log[..|log| - 1]) + Recorded(log[|log| - 1])
  }

  function NoPerformance(): Performance { Performance(0, 0, 0, 0, 0, 0, 0, 0) }

  function PerformanceAfter(log: seq<Event>): Performance {
    if log == [] then NoPerformance() else PerformanceAfter(log[..|log| - 1]).On(log[|log| - 1])
  }

  function HealthAfter(log: seq<Event>): Health {
    if log == [] then Health(0, 0) else HealthAfter(log[..|log| - 1]).On(log[|log| - 1])
  }

  lemma AfterNext(log: seq<Event>, e: Event)
    ensures PerformanceAfter(log + [e]) == PerformanceAfter(log).On(e)
    ensures HealthAfter(log + [e]) == HealthAfter(log).On(e)
    ensures Equities(log + [e])
            == if e.PortfolioUpdated? then Equities(log) + [e.portfolio.totalEquity] else Equities(log)
  {
  }

  lemma JournalNext(log: seq<Event>, e: Event)
    ensures JournalAfter(log + [e]) == JournalAfter(log) + Recorded(e)
  {
  }

  /** The equities of the snapshots in a log. */
  function Equities(log: seq<Event>): seq<Money> {
    if log == [] then []
    else
      var n := |log| - 1;
      if log[n].PortfolioUpdated? then Equities(log[..n]) + [log[n].portfolio.totalEquity] else Equities(log[..n])
  }

  // ---------------------------------------------------------------- what they amount to

  /** The equity curve of a run: the initial cash and every snapshot. */
  function Curve(env: Env, log: seq<Event>): seq<Money> { [env.initialCapital] + Equities(log) }

  predicate Counted(env: Env, c: Core) {
    var perf := PerformanceAfter(c.log);
    var health := HealthAfter(c.log);
    && perf.submitted == perf.filled == health.ordersGenerated == |c.orders|
    && perf.rejected == 0 && perf.cancelled == 0
    && perf.wins == Total(WinOf, c.positions)
    && perf.losses == Total(LossOf, c.positions)
    && health.eventsPublished == |c.log|
    && c.book.peakEquity == Peak(Curve(env, c.log))
    && perf.maxDrawdown == MaxDrawdown(Curve(env, c.log))
  }

  /** Events no monitor counts. */
  predicate Uncounted(e: Event) { e.MarketDataReceived? || e.SignalGenerated? || e.RiskApproved? }

  lemma {:induction false} UncountedEvents(log: seq<Event>, more: seq<Event>)
    requires forall i :: 0 <= i < |more| ==> Uncounted(more[i])
    ensures PerformanceAfter(log + more) == PerformanceAfter(log)
    ensures HealthAfter(log + more) == HealthAfter(log).(eventsPublished := HealthAfter(log).eventsPublished + |more|)
    ensures Equities(log + more) == Equities(log)
  {
    if more == [] {
      assert log + more == log;
    } else {
      var n := |more| - 1;
      UncountedEvents(log, more[..n]);
      assert log + more == (log + more[..n]) + [more[n]];
      AfterNext(log + more[..n], more[n]);
    }
  }

  lemma {:induction false} ApprovalsUncounted(candidates: seq<Candidate>)
    ensures forall i :: 0 <= i < |ApprovalEvents(candidates)| ==> Uncounted(ApprovalEvents(candidates)[i])
  {
    if candidates != [] { ApprovalsUncounted(candidates[..|candidates| - 1]); }
  }

  lemma AnnounceCounted(env: Env, c: Core, candle: Candle, history: seq<Candle>)
    requires Counted(env, c) && history != []
    ensures Counted(env, Announce(env, c, candle, history))
    ensures Equities(Announce(env, c, candle, history).log) == Equities(c.log)
  {
    hide PerformanceAfter, HealthAfter, Equities, Peak, MaxDrawdown, Total, Assess;
    var r := env.pipeline(candle, history, c.proc.lastTradeClosedAt);
    var candidates := Candidates(env, r.evaluations, history[|history| - 1].close, r.atr, Capital(env, c));
    ApprovalsUncounted(candidates);
    var more := SignalEvents(r.evaluations) + ApprovalEvents(candidates);
    UncountedEvents(c.log, more);
    assert Announce(env, c, candle, history).log == c.log + more;
  }

  lemma ExitCounted(env: Env, c: Core, candle: Candle, now: Time)
    requires Counted(env, c) && c.HasOpen() && c.OpenIdInRange() && Live(c.OpenPosition())
    ensures Counted(env, CheckExit(c, candle, now))
    ensures Equities(CheckExit(c, candle, now).log) == Equities(c.log)
  {
    hide PerformanceAfter, HealthAfter, Equities, Peak, MaxDrawdown, Total, SignedPnl;
    var p := c.OpenPosition();
    var exit := ExitPrice(p.direction, c.proc.stopLoss, c.proc.target, candle);
    if exit.Some? {
      var closed := Exited(p, p.quantity, exit.value);
      AfterNext(c.log, PositionUpdated(closed, now));
      TotalUpdate(WinOf, c.positions, c.proc.openId.value, closed);
      TotalUpdate(LossOf, c.positions, c.proc.openId.value, closed);
    }
  }

  /** What the monitors make of the three events of an entry. */
  lemma CountEntry(log: seq<Event>, submitted: Order, filled: Order, p: Position, now: Time)
    requires p.status == Open
    ensures var next := log + [OrderSubmitted(submitted)] + [OrderFilled(filled, now)] + [PositionUpdated(p, now)];
            var perf, health := PerformanceAfter(log), HealthAfter(log);
            && PerformanceAfter(next) == perf.(submitted := perf.submitted + 1, filled := perf.filled + 1)
            && HealthAfter(next) == Health(health.eventsPublished + 3, health.ordersGenerated + 1)
            && Equities(next) == Equities(log)
  {
    hide PerformanceAfter, HealthAfter, Equities;
    AfterNext(log, OrderSubmitted(submitted));
    AfterNext(log + [OrderSubmitted(submitted)], OrderFilled(filled, now));
    AfterNext(log + [OrderSubmitted(submitted)] + [OrderFilled(filled, now)], PositionUpdated(p, now));
  }

  lemma EnterCounted(env: Env, c: Core, best: Candidate, price: real, now: Time)
    requires Counted(env, c)
    ensures Counted(env, Enter(c, best, price, now))
    ensures Equities(Enter(c, best, price, now).log) == Equities(c.log)
  {
    hide PerformanceAfter, HealthAfter, Equities, Peak, MaxDrawdown, Total;
    var next := Enter(c, best, price, now);
    var order, p := next.orders[|c.orders|], next.positions[|c.positions|];
    var submitted := order.(status := Submitted, filledQuantity := 0, averageFillPrice := None);
    CountEntry(c.log, submitted, order, p, now);
    TotalAppend(WinOf, c.positions, p);
    TotalAppend(LossOf, c.positions, p);
  }

  lemma EntryCounted(env: Env, c: Core, candle: Candle, history: seq<Candle>)
    requires Counted(env, c) && history != []
    ensures Counted(env, EvaluateEntry(env, c, candle, history))
    ensures Equities(EvaluateEntry(env, c, candle, history).log) == Equities(c.log)
  {
    AnnounceCounted(env, c, candle, history);
    var decision := Decide(env, c, candle, history);
    if decision.Actionable() {
      EnterCounted(env, Announce(env, c, candle, history), decision.best,
                   history[|history| - 1].close, env.wallClock(|history|));
    }
  }

  lemma MarkCounted(env: Env, c: Core, price: real, now: Time)
    requires Counted(env, c) && c.HasOpen() && c.OpenIdInRange() && Live(c.OpenPosition())
    ensures Counted(env, MarkOpen(c, price, now))
    ensures Equities(MarkOpen(c, price, now).log) == Equities(c.log)
  {
    hide PerformanceAfter, HealthAfter, Equities, Peak, MaxDrawdown, Total;
    var p := Marked(c.OpenPosition(), price);
    AfterNext(c.log, PositionUpdated(p, now));
    TotalUpdate(WinOf, c.positions, c.proc.openId.value, p);
    TotalUpdate(LossOf, c.positions, c.proc.openId.value, p);
  }

  lemma SnapshotCounted(env: Env, c: Core)
    requires Counted(env, c)
    ensures Counted(env, TakeSnapshot(c))
    ensures |Equities(TakeSnapshot(c).log)| == |Equities(c.log)| + 1
  {
    var portfolio := c.book.Snapshot(c.positions);
    AfterNext(c.log, PortfolioUpdated(portfolio));
    var before, after := Curve(env, c.log), Curve(env, TakeSnapshot(c).log);
    assert after == before + [portfolio.totalEquity];
    assert after[..|before|] == before;
    MaxDrawdownIsLargestFall(before);
  }

  lemma StepCounted(env: Env, c: Core, candle: Candle, history: seq<Candle>)
    requires Balanced(env, c) && Counted(env, c)
    ensures Counted(env, Step(env, c, candle, history))
    ensures |Equities(Step(env, c, candle, history).log)|
            == |Equities(c.log)| + if |history| > env.warmup then 1 else 0
  {
    AfterNext(c.log, MarketDataReceived(candle));
    ReceiveBalanced(env, c, candle);
    assert Counted(env, Receive(c, candle));
    hide Balanced, Counted, CheckExit, EvaluateEntry, MarkOpen, TakeSnapshot;
    var now := env.wallClock(|history|);
    var received := Receive(c, candle);
    if |history| > env.warmup {
      if received.HasOpen() {
        OpenIsLive(env, received);
        ExitBalanced(env, received, candle, now);
        ExitCounted(env, received, candle, now);
      }
      var exited := Exit(env, received, candle, history);
      if !exited.HasOpen() {
        EntryBalanced(env, exited, candle, history);
        EntryCounted(env, exited, candle, history);
      }
      var entered := Entry(env, exited, candle, history);
      if entered.HasOpen() {
        OpenIsLive(env, entered);
        MarkCounted(env, entered, candle.close, now);
      }
      SnapshotCounted(env, Mark(env, entered, candle, history));
    }
  }

  /** At every candle boundary the counters are the run's own totals: submissions, fills and orders agree, each
      closed position is one win, one loss or flat, and the monitored drawdown is that of the equity curve. */
  lemma {:induction false} RunCounted(env: Env, candles: seq<Candle>)
    ensures Counted(env, Run(env, candles))
    ensures |Equities(Run(env, candles).log)| == if |candles| > env.warmup then |candles| - env.warmup else 0
  {
    if candles != [] {
      var n := |candles| - 1;
      RunCounted(env, candles[..n]);
      RunBalanced(env, candles[..n]);
      StepCounted(env, Run(env, candles[..n]), candles[n], candles);
    }
  }

  /** The monitored drawdown is the largest fall between two points of the run's equity curve, and as many orders
      were filled as positions were ever opened. */
  lemma MonitorsAreExact(env: Env, candles: seq<Candle>)
    ensures var c := Run(env, candles);
            var curve := Curve(env, c.log);
            var perf := PerformanceAfter(c.log);
            && (forall i, j :: 0 <= i <= j < |curve| ==> curve[i] - curve[j] <= perf.maxDrawdown)
            && (exists i, j :: FallsBy(curve, i, j, perf.maxDrawdown))
            && perf.submitted == perf.filled == |c.orders| == |c.positions|
            && (forall k :: 0 <= k < |c.orders| ==> c.orders[k].status == Filled)
            && |Equities(c.log)| == if |candles| > env.warmup then |candles| - env.warmup else 0
  {
    RunCounted(env, candles);
    RunBalanced(env, candles);
    MaxDrawdownIsLargestFall(Curve(env, Run(env, candles).log));
  }

  // ---------------------------------------------------------------- over any log

  predicate IsSubmission(e: Event) { e.OrderSubmitted? }
  predicate IsFill(e: Event) { e.OrderFilled? }
  predicate IsRejection(e: Event) { e.OrderRejected? }
  predicate IsCancellation(e: Event) { e.OrderCancelled? }
  predicate IsWin(e: Event) { e.PositionUpdated? && e.position.status == Closed && e.position.realizedPnl > 0 }
  predicate IsLoss(e: Event) { e.PositionUpdated? && e.position.status == Closed && e.position.realizedPnl < 0 }

  /** The last snapshot of a log. */
  function LastSnapshot(log: seq<Event>): Option<Portfolio> {
    if log == [] then None
    else
      var n := |log| - 1;
      if log[n].PortfolioUpdated? then Some(log[n].portfolio) else LastSnapshot(log[..n])
  }

  /** The monitors count the events of their kinds, whatever the log. */
  lemma {:induction false} MonitorsCountEvents(log: seq<Event>)
    ensures var perf, health := PerformanceAfter(log), HealthAfter(log);
            && perf.submitted == health.ordersGenerated == |Select(IsSubmission, log)|
            && perf.filled == |Select(IsFill, log)|
            && perf.rejected == |Select(IsRejection, log)| && perf.cancelled == |Select(IsCancellation, log)|
            && perf.wins == |Select(IsWin, log)| && perf.losses == |Select(IsLoss, log)|
            && health.eventsPublished == |log|
  {
    if log != [] { MonitorsCountEvents(log[..|log| - 1]); }
  }

  /** How far a snapshot is below its peak. */
  function Fall(portfolio: Portfolio): Money { portfolio.peakEquity - portfolio.totalEquity }

  /** The daily figure is that of the last snapshot, and the drawdown the largest fall of any. */
  lemma {:induction false} MonitorsReadSnapshots(log: seq<Event>)
    ensures var perf := PerformanceAfter(log);
            && perf.latestDailyPnl == (if LastSnapshot(log).Some? then LastSnapshot(log).value.dailyPnl else 0)
            && perf.maxDrawdown >= 0
            && (forall i :: 0 <= i < |log| && log[i].PortfolioUpdated? ==> Fall(log[i].portfolio) <= perf.maxDrawdown)
            && (perf.maxDrawdown > 0 ==>
                  exists i :: 0 <= i < |log| && log[i].PortfolioUpdated? && Fall(log[i].portfolio) == perf.maxDrawdown)
  {
    if log != [] {
      var n := |log| - 1;
      var front := log[..n];
      MonitorsReadSnapshots(front);
      SnapshotRead(PerformanceAfter(front), log[n]);
      assert forall i :: 0 <= i < n ==> front[i] == log[i];
      hide Fall, Performance.On;
      var before, after := PerformanceAfter(front).maxDrawdown, PerformanceAfter(log).maxDrawdown;
      if after > 0 && after == before {
        var i :| 0 <= i < n && front[i].PortfolioUpdated? && Fall(front[i].portfolio) == before;
        assert log[i].PortfolioUpdated?;
      } else {
        assert log[n].PortfolioUpdated? || after == before;
      }
    }
  }

  lemma SnapshotRead(before: Performance, e: Event)
    ensures var after := before.On(e);
            if e.PortfolioUpdated? then
              after.latestDailyPnl == e.portfolio.dailyPnl
              && after.maxDrawdown == Max(before.maxDrawdown, Max(0, Fall(e.portfolio)))
            else after.latestDailyPnl == before.latestDailyPnl && after.maxDrawdown == before.maxDrawdown
  {
  }

  predicate IsJournaled(e: Event) { !e.MarketDataReceived? }

  /** Under which heading an event is journaled. */
  predicate Heads(entryType: EntryType, e: Event) {
    match entryType
    case SignalEntry => e.SignalGenerated?
    case RiskEntry => e.RiskApproved?
    case OrderEntry => e.OrderSubmitted? || e.OrderCancelled? || e.OrderRejected?
    case ExecutionEntry => e.OrderFilled? || e.OrderPartiallyFilled?
    case PositionEntry => e.PositionUpdated?
    case PortfolioEntry => e.PortfolioUpdated?
  }

  /** The journal holds every event but market data, once, in order, each under its heading. */
  lemma {:induction false} JournalIsTheLog(log: seq<Event>)
    ensures var journal, told := JournalAfter(log), Select(IsJournaled, log);
            && |journal| == |told|
            && forall i :: 0 <= i < |journal| ==>
                 journal[i].source == told[i] && Heads(journal[i].entryType, journal[i].source)
  {
    if log != [] { JournalIsTheLog(log[..|log| - 1]); }
  }
}
