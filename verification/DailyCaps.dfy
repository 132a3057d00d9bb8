/** The daily limits hold over whole runs: entries per date and realized loss per date. */
module DailyCaps {
  import opened Arithmetic
  import opened Market
  import opened Rounding
  import opened PaperModels
  import opened TradingStep
  import opened Ledger
  import opened Bracket

  /** Candles of one date are never interrupted by candles of another; every date-ordered stream is like this. */
  predicate DatesContiguous(candles: seq<Candle>) {
    forall i, j, k :: 0 <= i < j < k < |candles| && DateOf(candles[i].timestamp) == DateOf(candles[k].timestamp)
      ==> DateOf(candles[j].timestamp) == DateOf(candles[i].timestamp)
  }

  /** How many positions the run opened while processing candles of a date. */
  function EntriesOn(env: Env, candles: seq<Candle>, date: int): int {
    if candles == [] then 0
    else
      var n := |candles| - 1;
      EntriesOn(env, candles[..n], date)
      + (if DateOf(candles[n].timestamp) == date
         then |Run(env, candles).positions| - |Run(env, candles[..n]).positions| else 0)
  }

  /** What the run realized as losses while processing candles of a date; each candle settles at most one trade,
      so its loss is the fall of cash over that candle. */
  function LossOn(env: Env, candles: seq<Candle>, date: int): Money {
    if candles == [] then 0
    else
      var n := |candles| - 1;
      LossOn(env, candles[..n], date)
      + (if DateOf(candles[n].timestamp) == date
         then Max(0, Run(env, candles[..n]).book.cash - Run(env, candles).book.cash) else 0)
  }

  /** The limits of the current date, and the room an open position leaves below them. */
  predicate WithinLimits(env: Env, c: Core) {
    && c.proc.tradesTakenToday <= env.risk.maxTradesPerDay
    && 0 <= c.proc.realizedLossToday
    && Amount(c.proc.realizedLossToday - Max(0, RiskUnits(env))) <= env.risk.maxDailyLoss
    && (c.HasOpen() ==> Amount(c.proc.realizedLossToday) <= env.risk.maxDailyLoss)
  }

  /** How much a state's counters moved since another. */
  predicate Moved(c: Core, next: Core) {
    && next.proc.currentDate == c.proc.currentDate
    && next.proc.tradesTakenToday - c.proc.tradesTakenToday == |next.positions| - |c.positions|
    && next.proc.realizedLossToday - c.proc.realizedLossToday == Max(0, c.book.cash - next.book.cash)
    && (|next.positions| == |c.positions| || next.book.cash == c.book.cash)
  }

  lemma ExitMoves(c: Core, candle: Candle, now: Time)
    requires c.HasOpen() && c.OpenIdInRange()
    ensures Moved(c, CheckExit(c, candle, now)) && |CheckExit(c, candle, now).positions| == |c.positions|
  {
  }

  lemma EntryMoves(env: Env, c: Core, candle: Candle, history: seq<Candle>)
    requires history != []
    ensures Moved(c, EvaluateEntry(env, c, candle, history))
    ensures EvaluateEntry(env, c, candle, history).book == c.book
  {
  }

  /** One candle moves the counters exactly as it opens and settles positions. */
  lemma StepCounts(env: Env, c: Core, candle: Candle, history: seq<Candle>)
    requires c.OpenIdInRange()
    ensures var next := Step(env, c, candle, history);
            var date := DateOf(candle.timestamp);
            var same := c.proc.currentDate == Some(date);
            && next.proc.currentDate == Some(date)
            && next.proc.tradesTakenToday
               == (if same then c.proc.tradesTakenToday else 0) + |next.positions| - |c.positions|
            && next.proc.realizedLossToday
               == (if same then c.proc.realizedLossToday else 0) + Max(0, c.book.cash - next.book.cash)
  {
    hide CheckExit, EvaluateEntry, DateOf;
    var received := Receive(c, candle);
    if |history| > env.warmup {
      if received.HasOpen() { ExitMoves(received, candle, env.wallClock(|history|)); }
      var exited := Exit(env, received, candle, history);
      if !exited.HasOpen() { EntryMoves(env, exited, candle, history); }
    }
  }

  lemma ReceiveWithinLimits(env: Env, c: Core, candle: Candle)
    requires env.risk.Valid() && WithinLimits(env, c)
    ensures WithinLimits(env, Receive(c, candle))
  {
  }

  lemma ExitWithinLimits(env: Env, c: Core, candle: Candle, now: Time)
    requires Balanced(env, c) && Bracketed(env, c) && c.HasOpen() && WellFormed(candle) && WithinLimits(env, c)
    ensures WithinLimits(env, CheckExit(c, candle, now))
    ensures Balanced(env, CheckExit(c, candle, now)) && Bracketed(env, CheckExit(c, candle, now))
  {
    hide Balanced, Bracketed, Exited;
    ExitBalanced(env, c, candle, now);
    ExitWithinBracket(env, c, candle, now);
  }

  lemma EntryWithinLimits(env: Env, c: Core, candle: Candle, history: seq<Candle>)
    requires SoundEnv(env) && AllWellFormed(history) && Bracketed(env, c) && !c.HasOpen() && WithinLimits(env, c)
    requires history != [] && history[|history| - 1] == candle
    ensures WithinLimits(env, EvaluateEntry(env, c, candle, history))
  {
  }

  lemma StepWithinLimits(env: Env, c: Core, candle: Candle, history: seq<Candle>)
    requires SoundEnv(env) && Balanced(env, c) && Bracketed(env, c) && AllWellFormed(history)
    requires history != [] && history[|history| - 1] == candle
    requires WithinLimits(env, c)
    ensures WithinLimits(env, Step(env, c, candle, history))
  {
    ReceiveWithinLimits(env, c, candle);
    ReceiveBalanced(env, c, candle);
    ReceiveBracketed(env, c, candle);
    hide Balanced, Bracketed, WithinLimits, Receive, CheckExit, EvaluateEntry, Mark, TakeSnapshot;
    var received := Receive(c, candle);
    if |history| > env.warmup {
      if received.HasOpen() { ExitWithinLimits(env, received, candle, env.wallClock(|history|)); }
      var exited := Exit(env, received, candle, history);
      if !exited.HasOpen() { EntryWithinLimits(env, exited, candle, history); }
      RestWithinLimits(env, Entry(env, exited, candle, history), candle, history);
    }
  }

  lemma RestWithinLimits(env: Env, c: Core, candle: Candle, history: seq<Candle>)
    requires c.OpenIdInRange() && WithinLimits(env, c)
    ensures WithinLimits(env, TakeSnapshot(Mark(env, c, candle, history)))
  {
  }

  lemma {:induction false} RunWithinLimits(env: Env, candles: seq<Candle>)
    requires SoundEnv(env) && AllWellFormed(candles)
    ensures WithinLimits(env, Run(env, candles))
  {
    if candles != [] {
      var n := |candles| - 1;
      RunWithinLimits(env, candles[..n]);
      RunBalanced(env, candles[..n]);
      RunBracketed(env, candles[..n]);
      StepWithinLimits(env, Run(env, candles[..n]), candles[n], candles);
    }
  }

  /** A date that does not occur has no entries and no losses. */
  lemma {:induction false} AbsentDate(env: Env, candles: seq<Candle>, date: int)
    requires forall i :: 0 <= i < |candles| ==> DateOf(candles[i].timestamp) != date
    ensures EntriesOn(env, candles, date) == 0 && LossOn(env, candles, date) == 0
  {
    if candles != [] { AbsentDate(env, candles[..|candles| - 1], date); }
  }

  /** The processor's counters are the run's own counts for the date of the last candle. */
  lemma {:induction false} CountersAreExact(env: Env, candles: seq<Candle>)
    requires DatesContiguous(candles) && candles != []
    ensures var date := DateOf(candles[|candles| - 1].timestamp);
            var proc := Run(env, candles).proc;
            && proc.currentDate == Some(date)
            && proc.tradesTakenToday == EntriesOn(env, candles, date)
            && proc.realizedLossToday == LossOn(env, candles, date)
  {
    hide Step, DateOf;
    var n := |candles| - 1;
    var date := DateOf(candles[n].timestamp);
    StepCounts(env, Run(env, candles[..n]), candles[n], candles);
    if n > 0 {
      assert DatesContiguous(candles[..n]);
      CountersAreExact(env, candles[..n]);
      if DateOf(candles[n - 1].timestamp) != date { AbsentDate(env, candles[..n], date); }
    }
  }

  /** For every date: at most the configured number of entries, and a realized loss that never exceeds the daily
      limit by more than the risk budget of one trade, positions carried overnight included. */
  lemma {:induction false} DailyCapsHold(env: Env, candles: seq<Candle>, date: int)
    requires SoundEnv(env) && AllWellFormed(candles) && DatesContiguous(candles)
    ensures EntriesOn(env, candles, date) <= env.risk.maxTradesPerDay
    ensures Amount(LossOn(env, candles, date) - Max(0, RiskUnits(env))) <= env.risk.maxDailyLoss
  {
    if candles != [] {
      var n := |candles| - 1;
      if DateOf(candles[n].timestamp) == date {
        CountersAreExact(env, candles);
        RunWithinLimits(env, candles);
      } else {
        DailyCapsHold(env, candles[..n], date);
      }
    }
  }
}
