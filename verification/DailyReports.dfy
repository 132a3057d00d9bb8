/** What a daily report adds up to, and the tracker's books against the account's. */
module DailyReports {
  import opened Arithmetic
  import opened Market
  import opened Rounding
  import opened PaperModels
  import opened TradingStep
  import opened Ledger
  import opened SignalStep
  import opened Correlation
  import opened Sorting
  import opened Sums

  // ---------------------------------------------------------------- one report

  function ClosedThen(date: int): DummyTrade -> bool {
    (t: DummyTrade) => t.status == TradeClosed && t.closedAt.Some? && DateOf(t.closedAt.value) == date
  }

  lemma ClosedThenIs(t: DummyTrade, date: int)
    ensures ClosedThen(date)(t) <==> IsClosedTrade(t) && ClosingOn(date)(t)
  {
  }

  lemma {:induction false} SelectTwice(trades: seq<DummyTrade>, date: int)
    ensures Select(ClosingOn(date), Select(IsClosedTrade, trades)) == Select(ClosedThen(date), trades)
  {
    if trades != [] {
      var n := |trades| - 1;
      SelectTwice(trades[..n], date);
      ClosedThenIs(trades[n], date);
      var before := Select(IsClosedTrade, trades[..n]);
      if IsClosedTrade(trades[n]) {
        assert (before + [trades[n]])[..|before|] == before;
      } else {
        assert before + [] == before;
        assert Select(ClosedThen(date), trades[..n]) + [] == Select(ClosedThen(date), trades[..n]);
      }
    }
  }

  /** The reported trades are the tracker's trades closed on that date, each once. */
  lemma ReportedTrades(all: seq<DummyTrade>, date: int)
    ensures |ClosedOn(all, date)| == |Select(ClosedThen(date), all)|
    ensures forall t :: t in ClosedOn(all, date) <==> t in all && ClosedThen(date)(t)
  {
    var closed := Select(IsClosedTrade, all);
    var on := ClosingOn(date);
    SortPermutes(ClosingTime, closed);
    SelectTwice(all, date);
    CountOfPermutation(on, SortBy(ClosingTime, closed), closed);
    SelectMembers(ClosedThen(date), all);
    SameMembers(on, SortBy(ClosingTime, closed), closed);
    hide SortBy, Select, ClosedThen, ClosingOn;
  }

  /** A permutation selects the same members. */
  lemma SameMembers(condition: DummyTrade -> bool, a: seq<DummyTrade>, b: seq<DummyTrade>)
    requires multiset(a) == multiset(b)
    ensures forall t :: t in Select(condition, a) <==> t in Select(condition, b)
  {
    SelectMembers(condition, a);
    SelectMembers(condition, b);
    assert forall t :: t in a <==> t in multiset(a);
    assert forall t :: t in b <==> t in multiset(b);
  }

  lemma {:induction false} Extremes(trades: seq<DummyTrade>)
    ensures trades == [] <==> Best(trades).None?
    ensures trades == [] <==> Worst(trades).None?
    ensures trades != [] ==>
              && Best(trades).value in trades && Worst(trades).value in trades
              && forall t :: t in trades ==>
                   PnlOrZero(Worst(trades).value) <= PnlOrZero(t) <= PnlOrZero(Best(trades).value)
  {
    if trades != [] {
      var n := |trades| - 1;
      Extremes(trades[..n]);
      assert trades == trades[..n] + [trades[n]];
    }
  }

  /** A share of a whole, in percent, rounded to two decimals. */
  lemma ShareWithin(part: nat, whole: nat)
    requires part <= whole && whole > 0
    ensures 0.0 <= RoundTo(part as real / whole as real * 100.0, 100.0) <= 100.0
  {
    var share := part as real / whole as real;
    DivideMonotone(0.0, part as real, whole as real);
    DivideMonotone(part as real, whole as real, whole as real);
    assert 0.0 <= share <= 1.0;
    RoundToMonotone(0.0, share * 100.0, 100.0);
    RoundToMonotone(share * 100.0, 100.0, 100.0);
    RoundWhole(0);
    RoundWhole(10000);
  }

  lemma WinRateWithin(trades: seq<DummyTrade>)
    ensures 0.0 <= WinRate(trades) <= 100.0
  {
    SelectSplits(IsWinner, IsLoser, trades);
    hide Select, RoundTo;
    if trades != [] { ShareWithin(|Select(IsWinner, trades)|, |trades|); }
  }

  /** The counts of a report over some trades. */
  lemma CountsAddUp(trades: seq<DummyTrade>, date: int, bias: Direction)
    requires forall t :: t in trades ==> t.direction != NoDirection
    ensures var r := ReportOf(trades, date, bias);
            && r.winning + r.losing == r.totalSignals == r.buyCe + r.buyPe == |trades|
            && 0.0 <= r.winRate <= 100.0 && r.best == Best(trades) && r.worst == Worst(trades)
  {
    SelectSplits(IsWinner, IsLoser, trades);
    SelectSplits(IsLong, IsShort, trades);
    WinRateWithin(trades);
    hide Select, Best, Worst, HighestScore, RatioTotal, SumOf, MeanOrZero, RoundTo, WinRate;
  }

  /** A report counts the tracker's trades closed on its date, each exactly once; winners and losers, and both
      directions, make up the total; the best and the worst trade bound what every one of them earned. */
  lemma ReportAddsUp(all: seq<DummyTrade>, date: int, bias: Direction)
    requires forall t :: t in all ==> t.direction != NoDirection
    ensures var r := BuildReport(all, date, bias);
            && r.totalSignals == |Select(ClosedThen(date), all)|
            && r.winning + r.losing == r.totalSignals == r.buyCe + r.buyPe
            && 0.0 <= r.winRate <= 100.0
            && (r.best.Some? <==> r.totalSignals > 0) && (r.worst.Some? <==> r.totalSignals > 0)
            && (r.totalSignals > 0 ==>
                  && r.best.value in all && r.worst.value in all
                  && forall t :: t in all && ClosedThen(date)(t) ==>
                       PnlOrZero(r.worst.value) <= PnlOrZero(t) <= PnlOrZero(r.best.value))
  {
    ReportedTrades(all, date);
    hide ClosedOn, ClosedThen, ReportOf, Select, Best, Worst, PnlOrZero;
    CountsAddUp(ClosedOn(all, date), date, bias);
    Extremes(ClosedOn(all, date));
  }

  /** The reported trades come in the order they were closed. */
  lemma ReportedInOrder(all: seq<DummyTrade>, date: int)
    ensures var trades := ClosedOn(all, date);
            forall i, j :: 0 <= i < j < |trades| ==> ClosesBefore(trades[i], trades[j])
  {
    SortOrders(ClosingTime, Select(IsClosedTrade, all));
    SelectOrdered(ClosingOn(date), SortBy(ClosingTime, Select(IsClosedTrade, all)));
    ReportedTrades(all, date);
    hide ClosedOn, ClosesBefore;
    var trades := ClosedOn(all, date);
    forall i, j | 0 <= i < j < |trades| ensures ClosesBefore(trades[i], trades[j]) {
      InOrder(trades[i], trades[j], date);
    }
  }

  /** Closed no later than another trade. */
  predicate ClosesBefore(t: DummyTrade, later: DummyTrade) {
    t.closedAt.Some? && later.closedAt.Some? && t.closedAt.value <= later.closedAt.value
  }

  lemma InOrder(t: DummyTrade, later: DummyTrade, date: int)
    requires ClosedThen(date)(t) && ClosedThen(date)(later) && ClosingTime(t) <= ClosingTime(later)
    ensures ClosesBefore(t, later)
  {
  }

  lemma {:induction false} SelectOrdered(condition: DummyTrade -> bool, trades: seq<DummyTrade>)
    requires OrderedBy(ClosingTime, trades)
    ensures OrderedBy(ClosingTime, Select(condition, trades))
  {
    if trades != [] {
      var n := |trades| - 1;
      var front := trades[..n];
      SelectOrdered(condition, front);
      SelectMembers(condition, front);
      var picked := Select(condition, front);
      forall i | 0 <= i < |picked| ensures ClosingTime(picked[i]) <= ClosingTime(trades[n]) {
        assert picked[i] in front;
        var k :| 0 <= k < n && front[k] == picked[i];
        assert trades[k] == picked[i];
      }
      if condition(trades[n]) { AppendOrders(ClosingTime, picked, trades[n]); }
    }
  }

  /** The best and the worst trade are the first ones that earned most and least. */
  lemma {:induction false} ExtremesAreFirst(trades: seq<DummyTrade>) returns (most: nat, least: nat)
    requires trades != []
    ensures most < |trades| && Best(trades) == Some(trades[most])
    ensures forall i :: 0 <= i < most ==> PnlOrZero(trades[i]) < PnlOrZero(trades[most])
    ensures least < |trades| && Worst(trades) == Some(trades[least])
    ensures forall i :: 0 <= i < least ==> PnlOrZero(trades[i]) > PnlOrZero(trades[least])
  {
    var n := |trades| - 1;
    Extremes(trades[..n]);
    if n == 0 {
      most, least := 0, 0;
    } else {
      most, least := ExtremesAreFirst(trades[..n]);
      if PnlOrZero(trades[n]) > PnlOrZero(trades[most]) { most := n; }
      if PnlOrZero(trades[n]) < PnlOrZero(trades[least]) { least := n; }
      assert forall i :: 0 <= i < n ==> trades[..n][i] == trades[i] && trades[..n][i] in trades[..n];
    }
  }

  lemma {:induction false} HighestIsReached(trades: seq<DummyTrade>)
    ensures trades == [] ==> HighestScore(trades) == 0.0
    ensures forall i :: 0 <= i < |trades| ==> trades[i].guardian.score <= HighestScore(trades)
    ensures trades != [] ==> exists i :: 0 <= i < |trades| && trades[i].guardian.score == HighestScore(trades)
  {
    if |trades| > 1 {
      var n := |trades| - 1;
      HighestIsReached(trades[..n]);
      var i :| 0 <= i < n && trades[..n][i].guardian.score == HighestScore(trades[..n]);
      assert trades[i].guardian.score == HighestScore(trades[..n]);
      assert forall j :: 0 <= j < n ==> trades[j] == trades[..n][j];
      assert HighestScore(trades) in {trades[i].guardian.score, trades[n].guardian.score};
    } else if |trades| == 1 {
      assert trades[0].guardian.score == HighestScore(trades);
    }
  }

  /** The counts of a report. */
  predicate Counts(r: DailyReport, trades: seq<DummyTrade>) {
    var n := |trades|;
    && r.totalSignals == n
    && r.buyCe == |set i: nat | i < n && trades[i].direction == Long|
    && r.buyPe == |set i: nat | i < n && trades[i].direction == Short|
    && r.winning == |set i: nat | i < n && trades[i].pnl.Some? && trades[i].pnl.value > 0|
  }

  /** Its totals and averages, in points, percent and seconds. */
  predicate Averages(r: DailyReport, trades: seq<DummyTrade>) {
    var n, net, held := |trades|, SumOf(PnlOrZero, trades), SumOf(DurationOrZero, trades);
    var timed := |set i: nat | i < n && trades[i].duration.Some?|;
    && r.netPoints == RoundTo(Amount(net), 100.0)
    && (if n == 0 then r.winRate == r.averagePnl == r.averageRewardRisk == 0.0
        else
          && r.winRate == RoundTo(100.0 * r.winning as real / n as real, 100.0)
          && r.averagePnl == RoundTo(Amount(net) / n as real, 100.0)
          && r.averageRewardRisk == RoundTo(RatioTotal(trades) / n as real, 10000.0))
    && r.averageHold == (if timed == 0 then 0.0 else RoundTo(held as real / 1_000_000.0 / timed as real, 100.0))
  }

  /** What the totals add up: the pnl and the duration of each trade that has one, and the ratio of each. */
  lemma TotalsAddUp(trades: seq<DummyTrade>, t: DummyTrade)
    ensures SumOf(PnlOrZero, trades + [t]) == SumOf(PnlOrZero, trades) + if t.pnl.Some? then t.pnl.value else 0
    ensures SumOf(DurationOrZero, trades + [t])
            == SumOf(DurationOrZero, trades) + if t.duration.Some? then t.duration.value else 0
    ensures RatioTotal(trades + [t]) == RatioTotal(trades) + t.guardian.rewardRiskRatio
    ensures SumOf(PnlOrZero, []) == SumOf(DurationOrZero, []) == 0 && RatioTotal([]) == 0.0
  {
    assert (trades + [t])[..|trades|] == trades;
    assert PnlOrZero(t) == if t.pnl.Some? then t.pnl.value else 0;
    assert DurationOrZero(t) == if t.duration.Some? then t.duration.value else 0;
  }

  predicate Highest(r: DailyReport, trades: seq<DummyTrade>) {
    if trades == [] then r.highestScore == 0.0
    else
      && (forall i :: 0 <= i < |trades| ==> trades[i].guardian.score <= r.highestScore)
      && (exists i :: 0 <= i < |trades| && trades[i].guardian.score == r.highestScore)
  }

  /** Every figure of a report, over the trades of its date. */
  lemma ReportFigures(all: seq<DummyTrade>, date: int, bias: Direction)
    ensures var r, trades := BuildReport(all, date, bias), ClosedOn(all, date);
            && r.date == date && r.marketBias == bias
            && Counts(r, trades) && Averages(r, trades) && Highest(r, trades)
  {
    hide ClosedOn, Counts, Averages, Highest, Select, HighestScore, RatioTotal, SumOf, RoundTo, Best, Worst, WinRate,
         MeanOrZero;
    CountsOf(ClosedOn(all, date), date, bias);
    AveragesOf(ClosedOn(all, date), date, bias);
    HighestOf(ClosedOn(all, date), date, bias);
  }

  lemma HighestOf(trades: seq<DummyTrade>, date: int, bias: Direction)
    ensures Highest(ReportOf(trades, date, bias), trades)
  {
    HighestIsReached(trades);
    hide Select, HighestScore, RatioTotal, SumOf, RoundTo, Best, Worst, WinRate, MeanOrZero;
  }

  lemma CountsOf(trades: seq<DummyTrade>, date: int, bias: Direction)
    ensures Counts(ReportOf(trades, date, bias), trades)
  {
    LongsAre(trades);
    ShortsAre(trades);
    WinnersAre(trades);
    hide Select, HighestScore, RatioTotal, SumOf, RoundTo, Best, Worst, WinRate, MeanOrZero;
  }

  lemma LongsAre(trades: seq<DummyTrade>)
    ensures |Select(IsLong, trades)| == |set i: nat | i < |trades| && trades[i].direction == Long|
  {
    SelectCount(IsLong, trades);
    assert forall i: nat :: Meeting(IsLong, trades)(i) <==> i < |trades| && IsLong(trades[i]);
    assert Positions(|trades|, Meeting(IsLong, trades)) == set i: nat | i < |trades| && IsLong(trades[i]);
    assert (set i: nat | i < |trades| && IsLong(trades[i])) == set i: nat | i < |trades| && trades[i].direction == Long;
  }

  lemma ShortsAre(trades: seq<DummyTrade>)
    ensures |Select(IsShort, trades)| == |set i: nat | i < |trades| && trades[i].direction == Short|
  {
    SelectCount(IsShort, trades);
    assert forall i: nat :: Meeting(IsShort, trades)(i) <==> i < |trades| && IsShort(trades[i]);
    assert Positions(|trades|, Meeting(IsShort, trades)) == set i: nat | i < |trades| && IsShort(trades[i]);
    assert (set i: nat | i < |trades| && IsShort(trades[i]))
           == set i: nat | i < |trades| && trades[i].direction == Short;
  }

  lemma WinnersAre(trades: seq<DummyTrade>)
    ensures |Select(IsWinner, trades)|
            == |set i: nat | i < |trades| && trades[i].pnl.Some? && trades[i].pnl.value > 0|
  {
    SelectCount(IsWinner, trades);
    assert forall i: nat :: Meeting(IsWinner, trades)(i) <==> i < |trades| && IsWinner(trades[i]);
    assert Positions(|trades|, Meeting(IsWinner, trades)) == set i: nat | i < |trades| && IsWinner(trades[i]);
    assert (set i: nat | i < |trades| && IsWinner(trades[i]))
           == set i: nat | i < |trades| && trades[i].pnl.Some? && trades[i].pnl.value > 0;
  }

  lemma TimedAre(trades: seq<DummyTrade>)
    ensures |Select(HasDuration, trades)| == |set i: nat | i < |trades| && trades[i].duration.Some?|
  {
    SelectCount(HasDuration, trades);
    assert forall i: nat :: Meeting(HasDuration, trades)(i) <==> i < |trades| && HasDuration(trades[i]);
    assert Positions(|trades|, Meeting(HasDuration, trades)) == set i: nat | i < |trades| && HasDuration(trades[i]);
    assert (set i: nat | i < |trades| && HasDuration(trades[i]))
           == set i: nat | i < |trades| && trades[i].duration.Some?;
  }

  lemma AveragesOf(trades: seq<DummyTrade>, date: int, bias: Direction)
    ensures Averages(ReportOf(trades, date, bias), trades)
  {
    TimedAre(trades);
    WinRateOf(trades);
    hide Select, HighestScore, RatioTotal, SumOf, RoundTo, Best, Worst, WinRate;
  }

  lemma WinRateOf(trades: seq<DummyTrade>)
    ensures WinRate(trades)
            == if trades == [] then 0.0
               else RoundTo(100.0 * |Select(IsWinner, trades)| as real / |trades| as real, 100.0)
  {
    hide Select, RoundTo;
    if trades != [] { PercentOf(|Select(IsWinner, trades)| as real, |trades| as real); }
  }

  // ---------------------------------------------------------------- the tracker's books

  /** The positions that have a dummy trade, in order. */
  function Owned(c: Core, owner: seq<nat>): seq<Position>
    requires forall t :: 0 <= t < |owner| ==> owner[t] < |c.positions|
  {
    seq(|owner|, t requires 0 <= t < |owner| => c.positions[owner[t]])
  }

  /** What the tracker earned is what the reported positions realized. */
  lemma {:induction false} NetOfOwned(trades: seq<DummyTrade>, orders: seq<Order>, positions: seq<Position>)
    requires |trades| == |orders| == |positions|
    requires forall t :: 0 <= t < |trades| ==> Reports(trades[t], orders[t], positions[t])
    ensures NetOf(trades) == Total(RealizedOf, positions)
  {
    hide Reports;
    if trades != [] {
      var n := |trades| - 1;
      NetOfOwned(trades[..n], orders[..n], positions[..n]);
      PnlOfReport(trades[n], orders[n], positions[n]);
    }
  }

  lemma PnlOfReport(trade: DummyTrade, order: Order, p: Position)
    requires Reports(trade, order, p)
    ensures PnlOrZero(trade) == RealizedOf(p)
  {
  }

  /** The books of the tracker: over every run, what its trades earned is what the reported positions realized; when
      no signal was suppressed, that is the whole change of the account's cash. */
  ghost predicate BooksAgree(env: Env, c: Core, s: Signals) {
    exists owner ::
      && Mirrors(c, s, owner)
      && NetOf(s.trades) == Total(RealizedOf, Owned(c, owner))
      && (|s.trades| == |c.positions| ==> NetOf(s.trades) == c.book.cash - env.initialCapital)
  }

  lemma MirroredBooks(env: Env, c: Core, s: Signals, owner: seq<nat>)
    requires Balanced(env, c) && Mirrors(c, s, owner)
    ensures NetOf(s.trades) == Total(RealizedOf, Owned(c, owner))
    ensures |s.trades| == |c.positions| ==> NetOf(s.trades) == c.book.cash - env.initialCapital
  {
    hide Reports, OpenedBy;
    var orders := seq(|owner|, t requires 0 <= t < |owner| => c.orders[owner[t]]);
    NetOfOwned(s.trades, orders, Owned(c, owner));
    if |s.trades| == |c.positions| {
      Identity(owner, |owner|);
      assert Owned(c, owner) == c.positions;
    }
  }

  /** Increasing indices as many as there are positions are all of them. */
  lemma {:induction false} Identity(owner: seq<nat>, n: nat)
    requires |owner| == n && forall t :: 0 <= t < n ==> owner[t] < n
    requires forall t, u :: 0 <= t < u < n ==> owner[t] < owner[u]
    ensures forall t :: 0 <= t < n ==> owner[t] == t
  {
    if n > 0 {
      forall t | 0 <= t < n - 1 ensures owner[t] < n - 1 {
        assert owner[t] < owner[n - 1];
      }
      Identity(owner[..n - 1], n - 1);
      assert forall t :: 0 <= t < n - 1 ==> owner[..n - 1][t] == owner[t];
      if n > 1 { assert owner[n - 2] < owner[n - 1]; }
    }
  }

  lemma RunBooksAgree(config: SignalConfig, env: Env, candles: seq<Candle>)
    ensures var c := Run(env, candles); BooksAgree(env, c, Observe(config, c.log))
  {
    RunCorrelated(config, env, candles);
    RunBalanced(env, candles);
    var c := Run(env, candles);
    var s := Observe(config, c.log);
    var owner :| Mirrors(c, s, owner);
    hide Run, Observe, Mirrors, Balanced;
    MirroredBooks(env, c, s, owner);
  }

  lemma DirectionsOfMirrored(env: Env, c: Core, s: Signals, owner: seq<nat>)
    requires Balanced(env, c) && Mirrors(c, s, owner)
    ensures forall t :: t in s.trades ==> t.direction != NoDirection
  {
    forall t: nat | t < |s.trades| ensures s.trades[t].direction != NoDirection {
      assert Reports(s.trades[t], c.orders[owner[t]], c.positions[owner[t]]);
      assert OpenedBy(c.orders[owner[t]], c.positions[owner[t]], owner[t]);
    }
  }

  /** Over a run, the premise of the report holds at the boundary of every candle: whatever the date, it adds up. */
  lemma RunReportsAddUp(config: SignalConfig, env: Env, candles: seq<Candle>, date: int)
    ensures var s := Observe(config, Run(env, candles).log);
            var r := BuildReport(s.trades, date, s.current.marketBias);
            && r.totalSignals == |Select(ClosedThen(date), s.trades)|
            && r.winning + r.losing == r.totalSignals == r.buyCe + r.buyPe
  {
    RunCorrelated(config, env, candles);
    RunBalanced(env, candles);
    var c := Run(env, candles);
    var s := Observe(config, c.log);
    var owner :| Mirrors(c, s, owner);
    hide Run, Observe, Mirrors, Balanced, BuildReport;
    DirectionsOfMirrored(env, c, s, owner);
    ReportAddsUp(s.trades, date, s.current.marketBias);
  }
}
