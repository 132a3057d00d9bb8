/** The signal filter over whole runs: trading hours, threshold, cooldown, daily limit and daily summary. */
module SignalLimits {
  import opened Market
  import opened RiskEngine
  import opened PaperModels
  import opened Events
  import opened TradingStep
  import opened SignalStep

  /** An accepted signal. Every accepted signal opened one dummy trade, which keeps these fields for good. */
  datatype Emission = Emission(strategyName: string, at: Time, score: real)

  function EmissionOf(trade: DummyTrade): Emission {
    Emission(trade.strategyName, trade.openedAt, trade.guardian.score)
  }

  function Emissions(trades: seq<DummyTrade>): seq<Emission> {
    seq(|trades|, i requires 0 <= i < |trades| => EmissionOf(trades[i]))
  }

  function CountOn(sent: seq<Emission>, date: int): nat {
    if sent == [] then 0
    else
      var n := |sent| - 1;
      CountOn(sent[..n], date) + if DateOf(sent[n].at) == date then 1 else 0
  }

  /** What the filter promises about the signals it accepted. */
  ghost predicate Compliant(config: SignalConfig, sent: seq<Emission>) {
    && (forall i :: 0 <= i < |sent| ==>
          ClassifySession(config, sent[i].at) == OpenMarket && sent[i].score >= config.confidenceThreshold)
    && (forall i, j :: 0 <= i < j < |sent| ==> sent[i].at <= sent[j].at)
    && (forall i, j :: 0 <= i < j < |sent| && sent[i].strategyName == sent[j].strategyName ==>
          sent[j].at - sent[i].at >= config.cooldown)
    && (forall date :: CountOn(sent, date) <= config.maxSignalsPerDay)
  }

  /** The filter's memory agrees with the signals accepted so far, none of them in the future. */
  ghost predicate Remembers(filter: Filter, sent: seq<Emission>, now: Time) {
    && (forall i :: 0 <= i < |sent| ==>
          && sent[i].at <= now
          && sent[i].strategyName in filter.lastSignalAt
          && sent[i].at <= filter.lastSignalAt[sent[i].strategyName])
    && (sent != [] ==> filter.currentDay.Some?)
    && (filter.currentDay.Some? ==>
          && filter.currentDay.value <= DateOf(now)
          && filter.signalsToday == CountOn(sent, filter.currentDay.value)
          && forall i :: 0 <= i < |sent| ==> DateOf(sent[i].at) <= filter.currentDay.value)
  }

  lemma {:induction false} NoneOn(sent: seq<Emission>, date: int)
    requires forall i :: 0 <= i < |sent| ==> DateOf(sent[i].at) != date
    ensures CountOn(sent, date) == 0
  {
    if sent != [] { NoneOn(sent[..|sent| - 1], date); }
  }

  lemma RollRemembers(filter: Filter, sent: seq<Emission>, now: Time)
    requires Remembers(filter, sent, now)
    ensures Remembers(filter.RollDay(now), sent, now)
    ensures filter.RollDay(now).signalsToday == CountOn(sent, DateOf(now))
  {
    hide DateOf;
    if filter.currentDay != Some(DateOf(now)) { NoneOn(sent, DateOf(now)); }
  }

  lemma CountMore(sent: seq<Emission>, e: Emission, date: int)
    ensures CountOn(sent + [e], date) == CountOn(sent, date) + if DateOf(e.at) == date then 1 else 0
  {
  }

  lemma AcceptCompliant(config: SignalConfig, filter: Filter, sent: seq<Emission>, e: Emission)
    requires Compliant(config, sent) && Remembers(filter, sent, e.at)
    requires filter.ShouldEmit(config, e.strategyName, e.score, e.at) == Allowed
    ensures Compliant(config, sent + [e])
  {
    hide DateOf, ClockOf;
    RollRemembers(filter, sent, e.at);
    forall date ensures CountOn(sent + [e], date) <= config.maxSignalsPerDay {
      CountMore(sent, e, date);
    }
  }

  lemma AcceptRemembers(filter: Filter, sent: seq<Emission>, e: Emission)
    requires Remembers(filter, sent, e.at)
    ensures Remembers(filter.Recorded(e.strategyName, e.at), sent + [e], e.at)
  {
    hide DateOf, ClockOf;
    var rolled := filter.RollDay(e.at);
    RollRemembers(filter, sent, e.at);
    CountMore(sent, e, DateOf(e.at));
  }

  lemma TimePasses(filter: Filter, sent: seq<Emission>, earlier: Time, now: Time)
    requires Remembers(filter, sent, earlier) && earlier <= now
    ensures Remembers(filter, sent, now)
  {
  }

  // ---------------------------------------------------------------- the daily summary

  function SummaryDates(outbox: seq<Notification>): seq<int> {
    if outbox == [] then []
    else
      var n := |outbox| - 1;
      if outbox[n].DailySummarySent? then SummaryDates(outbox[..n]) + [DateOf(outbox[n].at)]
      else SummaryDates(outbox[..n])
  }

  lemma SummaryDatesNext(outbox: seq<Notification>, n: Notification)
    ensures SummaryDates(outbox + [n])
            == if n.DailySummarySent? then SummaryDates(outbox) + [DateOf(n.at)] else SummaryDates(outbox)
  {
  }

  /** The log holds a candle of the date inside trading hours. */
  predicate OpenCandleOn(config: SignalConfig, log: seq<Event>, date: int) {
    exists i :: 0 <= i < |log| && log[i].MarketDataReceived?
      && DateOf(log[i].candle.timestamp) == date && ClassifySession(config, log[i].candle.timestamp) == OpenMarket
  }

  ghost predicate Summarized(config: SignalConfig, log: seq<Event>, s: Signals) {
    var dates := SummaryDates(s.outbox);
    && (forall i, j :: 0 <= i < j < |dates| ==> dates[i] < dates[j])
    && (forall i :: 0 <= i < |dates| ==> OpenCandleOn(config, log, dates[i]))
    && (s.openSeenOn.Some? ==> OpenCandleOn(config, log, s.openSeenOn.value))
    && (dates != [] ==> s.reportDate == Some(dates[|dates| - 1]))
    && (s.reportDate.Some? ==> s.latestCandleAt.Some? && s.reportDate.value <= DateOf(s.latestCandleAt.value))
  }

  // ---------------------------------------------------------------- over a log

  /** The instants of the candles in a log. */
  function Feed(log: seq<Event>): seq<Time> {
    if log == [] then []
    else
      var n := |log| - 1;
      if log[n].MarketDataReceived? then Feed(log[..n]) + [log[n].candle.timestamp] else Feed(log[..n])
  }

  predicate NonDecreasing(times: seq<Time>) {
    forall i, j :: 0 <= i < j < |times| ==> times[i] <= times[j]
  }

  /** A log that starts with a candle and whose candles are in time order. */
  predicate OrderedFeed(log: seq<Event>) {
    NonDecreasing(Feed(log)) && (log != [] ==> log[0].MarketDataReceived?)
  }

  ghost predicate FilterPolicy(config: SignalConfig, s: Signals) {
    Compliant(config, Emissions(s.trades)) && Remembers(s.filter, Emissions(s.trades), s.Now(0))
  }

  ghost predicate WithinPolicy(config: SignalConfig, log: seq<Event>, s: Signals) {
    && s.latestCandleAt == (if Feed(log) == [] then None else Some(Feed(log)[|Feed(log)| - 1]))
    && (s.latestCandleAt.None? ==> s == NoSignals())
    && FilterPolicy(config, s)
    && Summarized(config, log, s)
  }

  lemma GrowingLog(config: SignalConfig, log: seq<Event>, e: Event)
    ensures forall date :: OpenCandleOn(config, log, date) ==> OpenCandleOn(config, log + [e], date)
    ensures e.MarketDataReceived? && ClassifySession(config, e.candle.timestamp) == OpenMarket
            ==> OpenCandleOn(config, log + [e], DateOf(e.candle.timestamp))
  {
    forall date | OpenCandleOn(config, log, date) ensures OpenCandleOn(config, log + [e], date) {
      var i :| 0 <= i < |log| && log[i].MarketDataReceived?
        && DateOf(log[i].candle.timestamp) == date && ClassifySession(config, log[i].candle.timestamp) == OpenMarket;
      assert (log + [e])[i] == log[i];
    }
    assert (log + [e])[|log|] == e;
  }

  lemma CandleFilterPolicy(config: SignalConfig, s: Signals, candle: Candle)
    requires FilterPolicy(config, s)
    requires s.latestCandleAt.None? ==> s == NoSignals()
    requires s.latestCandleAt.Some? ==> s.latestCandleAt.value <= candle.timestamp
    ensures FilterPolicy(config, OnMarketData(config, s, candle))
  {
    if s.latestCandleAt.Some? {
      TimePasses(s.filter, Emissions(s.trades), s.latestCandleAt.value, candle.timestamp);
    }
  }

  /** Everything the summary policy looks at, unchanged. */
  predicate SameSummary(s: Signals, r: Signals) {
    && SummaryDates(r.outbox) == SummaryDates(s.outbox)
    && r.reportDate == s.reportDate && r.openSeenOn == s.openSeenOn && r.latestCandleAt == s.latestCandleAt
  }

  lemma SameSummaryKeeps(config: SignalConfig, log: seq<Event>, e: Event, s: Signals, r: Signals)
    requires Summarized(config, log, s) && SameSummary(s, r)
    ensures Summarized(config, log + [e], r)
  {
    hide DateOf, OpenCandleOn, SummaryDates;
    GrowingLog(config, log, e);
  }

  /** Seeing a candle at or after the last one. */
  lemma SeenSummary(config: SignalConfig, log: seq<Event>, s: Signals, candle: Candle, seen: Signals)
    requires Summarized(config, log, s)
    requires s.latestCandleAt.Some? ==> s.latestCandleAt.value <= candle.timestamp
    requires seen.outbox == s.outbox && seen.reportDate == s.reportDate
    requires seen.latestCandleAt == Some(candle.timestamp)
    requires seen.openSeenOn == s.openSeenOn
             || (seen.openSeenOn == Some(DateOf(candle.timestamp))
                 && ClassifySession(config, candle.timestamp) == OpenMarket)
    ensures Summarized(config, log + [MarketDataReceived(candle)], seen)
  {
    hide DateOf, OpenCandleOn, SummaryDates;
    GrowingLog(config, log, MarketDataReceived(candle));
    if s.latestCandleAt.Some? { DateMonotone(s.latestCandleAt.value, candle.timestamp); }
  }

  /** Sending the summary of a date that has none yet and has seen an open candle. */
  lemma SentSummary(config: SignalConfig, log: seq<Event>, s: Signals, at: Time, report: DailyReport)
    requires Summarized(config, log, s) && s.latestCandleAt == Some(at)
    requires s.openSeenOn == Some(DateOf(at)) && s.reportDate != Some(DateOf(at))
    ensures Summarized(config, log, s.(reportDate := Some(DateOf(at))).Send(DailySummarySent(at, report)))
  {
  }

  lemma CandleSummary(config: SignalConfig, log: seq<Event>, s: Signals, candle: Candle)
    requires Summarized(config, log, s)
    requires s.latestCandleAt.Some? ==> s.latestCandleAt.value <= candle.timestamp
    ensures Summarized(config, log + [MarketDataReceived(candle)], OnMarketData(config, s, candle))
  {
    hide DateOf, Summarized;
    var t := candle.timestamp;
    var seen := s.(latestCandleAt := Some(t),
                   openSeenOn := if ClassifySession(config, t) == OpenMarket then Some(DateOf(t)) else s.openSeenOn,
                   current := s.current.(marketStatus := Some(ClassifySession(config, t))));
    SeenSummary(config, log, s, candle, seen);
    if seen.openSeenOn == Some(DateOf(t)) && seen.reportDate != Some(DateOf(t)) {
      SentSummary(config, log + [MarketDataReceived(candle)], seen, t,
                  BuildReport(s.trades, DateOf(t), s.current.marketBias));
    }
  }

  lemma FillFilterPolicy(config: SignalConfig, s: Signals, order: Order, at: Time)
    requires FilterPolicy(config, s) && s.latestCandleAt.Some?
    ensures FilterPolicy(config, OnOrderFilled(config, s, order, at))
  {
    if order.strategyName in s.lastEvaluation {
      var guardian := Guardian(s.lastEvaluation[order.strategyName].strength,
                               order.FillPrice(), order.stopLoss, order.target);
      FillPolicyFor(config, s, order, guardian);
    }
  }

  lemma FillPolicyFor(config: SignalConfig, s: Signals, order: Order, guardian: GuardianScore)
    requires FilterPolicy(config, s) && s.latestCandleAt.Some?
    ensures var now := s.latestCandleAt.value;
            && Remembers(s.filter.RollDay(now), Emissions(s.trades), now)
            && (s.filter.ShouldEmit(config, order.strategyName, guardian.score, now) == Allowed ==>
                  var sent := Emissions(s.trades + [NewTrade(|s.trades|, order, guardian, now)]);
                  Compliant(config, sent) && Remembers(s.filter.Recorded(order.strategyName, now), sent, now))
  {
    hide DateOf, ClockOf, CountOn;
    var now := s.latestCandleAt.value;
    var trade := NewTrade(|s.trades|, order, guardian, now);
    var sent := Emissions(s.trades);
    RollRemembers(s.filter, sent, now);
    assert Emissions(s.trades + [trade]) == sent + [EmissionOf(trade)];
    if s.filter.ShouldEmit(config, order.strategyName, guardian.score, now) == Allowed {
      AcceptCompliant(config, s.filter, sent, EmissionOf(trade));
      AcceptRemembers(s.filter, sent, EmissionOf(trade));
    }
  }

  lemma FillSummary(config: SignalConfig, s: Signals, order: Order, at: Time)
    ensures SameSummary(s, OnOrderFilled(config, s, order, at))
  {
  }

  lemma PositionKeepsPolicy(config: SignalConfig, s: Signals, p: Position, at: Time)
    requires s.NoDangling() && FilterPolicy(config, s)
    ensures FilterPolicy(config, OnPositionUpdated(s, p, at)) && SameSummary(s, OnPositionUpdated(s, p, at))
  {
    var r := OnPositionUpdated(s, p, at);
    assert Emissions(r.trades) == Emissions(s.trades);
    if r.outbox != s.outbox {
      SummaryDatesNext(s.outbox, r.outbox[|s.outbox|]);
      assert r.outbox == s.outbox + [r.outbox[|s.outbox|]];
    }
  }

  lemma EventPolicy(config: SignalConfig, log: seq<Event>, s: Signals, e: Event)
    requires s.NoDangling() && WithinPolicy(config, log, s)
    requires e.MarketDataReceived? || Feed(log) != []
    requires e.MarketDataReceived? && Feed(log) != [] ==> Feed(log)[|Feed(log)| - 1] <= e.candle.timestamp
    ensures WithinPolicy(config, log + [e], OnEvent(config, s, e))
  {
    hide FilterPolicy, Summarized, OnOrderFilled, OnPositionUpdated;
    assert (log + [e])[..|log|] == log;
    var r := OnEvent(config, s, e);
    if e.MarketDataReceived? {
      CandleFilterPolicy(config, s, e.candle);
      CandleSummary(config, log, s, e.candle);
    } else {
      QuietEventPolicy(config, s, e);
      SameSummaryKeeps(config, log, e, s, r);
    }
  }

  lemma QuietEventPolicy(config: SignalConfig, s: Signals, e: Event)
    requires s.NoDangling() && FilterPolicy(config, s) && s.latestCandleAt.Some? && !e.MarketDataReceived?
    ensures FilterPolicy(config, OnEvent(config, s, e)) && SameSummary(s, OnEvent(config, s, e))
  {
    hide Compliant, Remembers, OnOrderFilled, OnPositionUpdated;
    match e
    case OrderFilled(order, at) =>
      FillFilterPolicy(config, s, order, at);
      FillSummary(config, s, order, at);
    case PositionUpdated(p, at) => PositionKeepsPolicy(config, s, p, at);
    case _ =>
  }

  /** For every log of events whose candles come in time order. */
  lemma {:induction false} PolicyHolds(config: SignalConfig, log: seq<Event>)
    requires config.Valid() && OrderedFeed(log)
    ensures WithinPolicy(config, log, Observe(config, log))
  {
    hide OrderedFeed, WithinPolicy, Feed, OnEvent;
    if log != [] {
      var n := |log| - 1;
      OrderedPrefix(log);
      PolicyHolds(config, log[..n]);
      EventPolicy(config, log[..n], Observe(config, log[..n]), log[n]);
      assert log == log[..n] + [log[n]];
    } else {
      PolicyInitially(config);
    }
  }

  lemma PolicyInitially(config: SignalConfig)
    requires config.Valid()
    ensures WithinPolicy(config, [], NoSignals())
  {
  }

  lemma OrderedPrefix(log: seq<Event>)
    requires OrderedFeed(log) && log != []
    ensures var n := |log| - 1;
            && OrderedFeed(log[..n])
            && (log[n].MarketDataReceived? && Feed(log[..n]) != [] ==>
                  Feed(log[..n])[|Feed(log[..n])| - 1] <= log[n].candle.timestamp)
            && (log[n].MarketDataReceived? || Feed(log[..n]) != [])
  {
    var n := |log| - 1;
    var shorter, feed := Feed(log[..n]), Feed(log);
    assert forall i :: 0 <= i < |shorter| ==> shorter[i] == feed[i];
    if n > 0 {
      assert log[..n][0] == log[0];
      FirstCandle(log[..n]);
    }
    if log[n].MarketDataReceived? { assert feed[|shorter|] == log[n].candle.timestamp; }
  }

  lemma {:induction false} FirstCandle(log: seq<Event>)
    requires log != [] && log[0].MarketDataReceived?
    ensures Feed(log) != []
  {
    if |log| > 1 { FirstCandle(log[..|log| - 1]); }
  }

  // ---------------------------------------------------------------- over a run

  predicate NoCandles(events: seq<Event>) { forall i :: 0 <= i < |events| ==> !events[i].MarketDataReceived? }

  lemma {:induction false} ApprovalsQuiet(candidates: seq<Candidate>)
    ensures NoCandles(ApprovalEvents(candidates))
  {
    if candidates != [] { ApprovalsQuiet(candidates[..|candidates| - 1]); }
  }

  /** Everything published between two states, when the later log continues the earlier one without a candle. */
  predicate Quiet(before: seq<Event>, after: seq<Event>) {
    before <= after && NoCandles(after[|before|..])
  }

  lemma EntryQuiet(env: Env, c: Core, candle: Candle, history: seq<Candle>)
    requires history != []
    ensures Quiet(c.log, EvaluateEntry(env, c, candle, history).log)
  {
    hide Decide, Candidates, ApprovalEvents;
    var r := env.pipeline(candle, history, c.proc.lastTradeClosedAt);
    ApprovalsQuiet(Candidates(env, r.evaluations, history[|history| - 1].close, r.atr, Capital(env, c)));
  }

  lemma {:induction false} QuietFeed(before: seq<Event>, after: seq<Event>)
    requires Quiet(before, after)
    ensures Feed(after) == Feed(before)
  {
    if |after| > |before| {
      var n := |after| - 1;
      assert after[|before|..][n - |before|] == after[n];
      QuietFeed(before, after[..n]);
    } else {
      assert after == before;
    }
  }

  lemma EntryFeed(env: Env, c: Core, candle: Candle, history: seq<Candle>)
    requires c.OpenIdInRange() && history != []
    ensures c.log <= Entry(env, c, candle, history).log && Feed(Entry(env, c, candle, history).log) == Feed(c.log)
  {
    if !c.HasOpen() {
      EntryQuiet(env, c, candle, history);
      QuietFeed(c.log, Entry(env, c, candle, history).log);
    }
  }

  /** A step publishes its candle first and no other candle. */
  lemma StepFeed(env: Env, c: Core, candle: Candle, history: seq<Candle>)
    requires c.OpenIdInRange()
    ensures Receive(c, candle).log <= Step(env, c, candle, history).log
    ensures Feed(Step(env, c, candle, history).log) == Feed(c.log) + [candle.timestamp]
  {
    var received := Receive(c, candle);
    assert received.log[..|c.log|] == c.log;
    if |history| > env.warmup {
      StepQuiet(env, received, candle, history);
    }
  }

  lemma StepQuiet(env: Env, c: Core, candle: Candle, history: seq<Candle>)
    requires c.OpenIdInRange() && history != []
    ensures var entered := Entry(env, Exit(env, c, candle, history), candle, history);
            var next := TakeSnapshot(Mark(env, entered, candle, history));
            c.log <= next.log && Feed(next.log) == Feed(c.log)
  {
    var exited := Exit(env, c, candle, history);
    QuietFeed(c.log, exited.log);
    EntryFeed(env, exited, candle, history);
    MarkQuiet(env, Entry(env, exited, candle, history), candle, history);
  }

  lemma MarkQuiet(env: Env, c: Core, candle: Candle, history: seq<Candle>)
    requires c.OpenIdInRange()
    ensures var next := TakeSnapshot(Mark(env, c, candle, history));
            c.log <= next.log && Feed(next.log) == Feed(c.log)
  {
  }

  function Times(candles: seq<Candle>): seq<Time> {
    seq(|candles|, i requires 0 <= i < |candles| => candles[i].timestamp)
  }

  lemma NoFeed()
    ensures Feed([]) == []
  {
  }

  lemma {:induction false} RunFeed(env: Env, candles: seq<Candle>)
    ensures var log := Run(env, candles).log;
            Feed(log) == Times(candles) && (log != [] ==> log[0].MarketDataReceived?)
  {
    hide Step, Feed;
    if candles != [] {
      var n := |candles| - 1;
      RunFeed(env, candles[..n]);
      StepFeed(env, Run(env, candles[..n]), candles[n], candles);
      assert Times(candles) == Times(candles[..n]) + [candles[n].timestamp];
    } else {
      NoFeed();
    }
  }

  /** For every stream of candles in time order: the accepted signals are all in trading hours and at or above
      the threshold, at most the daily maximum on each date, any two of one strategy at least the cooldown apart;
      and each date gets at most one summary, only after a candle of that date inside trading hours. */
  lemma RunWithinPolicy(config: SignalConfig, env: Env, candles: seq<Candle>)
    requires config.Valid() && NonDecreasing(Times(candles))
    ensures var log := Run(env, candles).log;
            var s := Observe(config, log);
            Compliant(config, Emissions(s.trades)) && Summarized(config, log, s)
  {
    RunFeed(env, candles);
    PolicyHolds(config, Run(env, candles).log);
  }
}
