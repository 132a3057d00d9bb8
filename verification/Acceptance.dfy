/** What the signal service answers to a fill, and when it sums up a day, in terms of the log it has observed and of
    what it has sent: the other half of the limits, which only say what it never sends. */
module Acceptance {
  import opened Arithmetic
  import opened Market
  import opened Rounding
  import opened RiskEngine
  import opened PaperModels
  import opened Events
  import opened SignalStep
  import opened SignalLimits
  import opened Notifications

  // ---------------------------------------------------------------- what the service remembers of a log

  /** The last evaluation of a strategy. */
  function LastEvaluation(log: seq<Event>, name: string): Option<Evaluation> {
    if log == [] then None
    else
      var n := |log| - 1;
      if log[n].SignalGenerated? && log[n].evaluation.strategyName == name then Some(log[n].evaluation)
      else LastEvaluation(log[..n], name)
  }

  /** The direction of the last evaluation of any strategy. */
  function LastBias(log: seq<Event>): Direction {
    if log == [] then NoDirection
    else
      var n := |log| - 1;
      if log[n].SignalGenerated? then log[n].evaluation.direction else LastBias(log[..n])
  }

  function LastOf<T>(items: seq<T>): Option<T> { if items == [] then None else Some(items[|items| - 1]) }

  /** The trades announced, in order. */
  function Announced(outbox: seq<Notification>): seq<DummyTrade> {
    if outbox == [] then []
    else
      var n := |outbox| - 1;
      if outbox[n].SignalSent? then Announced(outbox[..n]) + [outbox[n].trade] else Announced(outbox[..n])
  }

  predicate InHours(config: SignalConfig, t: Time) { config.marketOpen <= ClockOf(t) <= config.marketClose }

  /** The date of the last candle inside trading hours. */
  function LastOpenDate(config: SignalConfig, log: seq<Event>): Option<int> {
    if log == [] then None
    else
      var n := |log| - 1;
      if log[n].MarketDataReceived? && InHours(config, log[n].candle.timestamp)
      then Some(DateOf(log[n].candle.timestamp)) else LastOpenDate(config, log[..n])
  }

  /** The last evaluation of each strategy. */
  ghost predicate KnowsEvaluations(log: seq<Event>, s: Signals) {
    forall name :: if name in s.lastEvaluation then LastEvaluation(log, name) == Some(s.lastEvaluation[name])
                   else LastEvaluation(log, name) == None
  }

  /** Every signal the filter remembers was sent. */
  ghost predicate KnowsSignals(filter: Filter, sent: seq<Emission>) {
    forall name :: name in filter.lastSignalAt ==>
      exists i :: 0 <= i < |sent| && sent[i].strategyName == name && sent[i].at == filter.lastSignalAt[name]
  }

  /** When the last messages were sent. */
  predicate KnowsMessages(s: Signals) {
    && s.lastNoTradeAt == LastOf(NoTradeTimes(s.outbox))
    && s.reportDate == LastOf(SummaryDates(s.outbox))
    && s.current.latest == LastOf(Announced(s.outbox))
  }

  /** What the market did last. */
  predicate KnowsMarket(config: SignalConfig, log: seq<Event>, s: Signals) {
    && s.latestCandleAt == LastOf(Feed(log))
    && s.openSeenOn == LastOpenDate(config, log)
    && s.current.marketBias == LastBias(log)
    && s.current.marketStatus
       == (if Feed(log) == [] then None
           else
             var clock := ClockOf(LastOf(Feed(log)).value);
             Some(if clock < config.marketOpen then PreMarket
                  else if clock > config.marketClose then ClosedMarket else OpenMarket))
  }

  ghost predicate Knows(config: SignalConfig, log: seq<Event>, s: Signals) {
    && KnowsEvaluations(log, s) && KnowsSignals(s.filter, Emissions(s.trades))
    && KnowsMessages(s) && KnowsMarket(config, log, s)
  }

  lemma LastNext(config: SignalConfig, log: seq<Event>, e: Event, name: string)
    ensures LastEvaluation(log + [e], name)
            == if e.SignalGenerated? && e.evaluation.strategyName == name then Some(e.evaluation)
               else LastEvaluation(log, name)
    ensures LastBias(log + [e]) == if e.SignalGenerated? then e.evaluation.direction else LastBias(log)
    ensures LastOpenDate(config, log + [e])
            == if e.MarketDataReceived? && InHours(config, e.candle.timestamp)
               then Some(DateOf(e.candle.timestamp)) else LastOpenDate(config, log)
    ensures Feed(log + [e]) == if e.MarketDataReceived? then Feed(log) + [e.candle.timestamp] else Feed(log)
  {
    assert (log + [e])[..|log|] == log;
  }

  lemma EvaluationsNext(config: SignalConfig, log: seq<Event>, s: Signals, e: Event)
    requires s.NoDangling() && KnowsEvaluations(log, s)
    ensures KnowsEvaluations(log + [e], OnEvent(config, s, e))
  {
    SameEvaluations(config, s, e);
    hide OnEvent, LastEvaluation;
    forall name ensures var r := OnEvent(config, s, e);
                        if name in r.lastEvaluation then
                          LastEvaluation(log + [e], name) == Some(r.lastEvaluation[name])
                        else LastEvaluation(log + [e], name) == None
    {
      LastNext(config, log, e, name);
    }
  }

  lemma SameEvaluations(config: SignalConfig, s: Signals, e: Event)
    requires s.NoDangling()
    ensures OnEvent(config, s, e).lastEvaluation
            == if e.SignalGenerated? then s.lastEvaluation[e.evaluation.strategyName := e.evaluation]
               else s.lastEvaluation
  {
    hide Guardian, Filter.ShouldEmit, Filter.Recorded, Filter.RollDay, BuildReport, CloseOf, ExitNotice;
  }

  lemma MarketNext(config: SignalConfig, log: seq<Event>, s: Signals, e: Event)
    requires s.NoDangling() && KnowsMarket(config, log, s)
    ensures KnowsMarket(config, log + [e], OnEvent(config, s, e))
  {
    LastNext(config, log, e, "");
    hide Guardian, Filter.ShouldEmit, Filter.Recorded, Filter.RollDay, BuildReport, CloseOf, ExitNotice, ClockOf,
         DateOf, Feed, LastBias, LastOpenDate, LastEvaluation;
  }

  lemma MessageNext(outbox: seq<Notification>, n: Notification)
    ensures NoTradeTimes(outbox + [n])
            == if n.NoTradeSent? then NoTradeTimes(outbox) + [n.at] else NoTradeTimes(outbox)
    ensures SummaryDates(outbox + [n])
            == if n.DailySummarySent? then SummaryDates(outbox) + [DateOf(n.at)] else SummaryDates(outbox)
    ensures Announced(outbox + [n]) == if n.SignalSent? then Announced(outbox) + [n.trade] else Announced(outbox)
  {
    SendNext(outbox, n);
    SummaryDatesNext(outbox, n);
    assert (outbox + [n])[..|outbox|] == outbox;
  }

  /** At most one message was sent, and noted if it is of a kind that is. */
  predicate SendsOne(s: Signals, r: Signals) {
    if r.outbox == s.outbox then
      r.lastNoTradeAt == s.lastNoTradeAt && r.reportDate == s.reportDate && r.current.latest == s.current.latest
    else
      && |r.outbox| == |s.outbox| + 1 && r.outbox == s.outbox + [r.outbox[|s.outbox|]]
      && var n := r.outbox[|s.outbox|];
      && r.lastNoTradeAt == (if n.NoTradeSent? then Some(n.at) else s.lastNoTradeAt)
      && r.reportDate == (if n.DailySummarySent? then Some(DateOf(n.at)) else s.reportDate)
      && r.current.latest == (if n.SignalSent? then Some(n.trade) else s.current.latest)
  }

  lemma SendsOneKeeps(s: Signals, r: Signals)
    requires KnowsMessages(s) && SendsOne(s, r)
    ensures KnowsMessages(r)
  {
    if r.outbox != s.outbox { MessageNext(s.outbox, r.outbox[|s.outbox|]); }
    hide DateOf, NoTradeTimes, SummaryDates, Announced;
  }

  lemma CandleSendsOne(config: SignalConfig, s: Signals, candle: Candle)
    ensures SendsOne(s, OnMarketData(config, s, candle))
  {
    hide BuildReport, ClockOf, DateOf, ClassifySession;
  }

  lemma FillSendsOne(config: SignalConfig, s: Signals, order: Order, at: Time)
    ensures SendsOne(s, OnOrderFilled(config, s, order, at))
  {
    hide Guardian, Filter.ShouldEmit, Filter.Recorded, Filter.RollDay, DateOf;
  }

  lemma UpdateSendsOne(s: Signals, p: Position, at: Time)
    requires s.NoDangling()
    ensures SendsOne(s, OnPositionUpdated(s, p, at))
  {
    hide CloseOf, DateOf;
  }

  lemma MessagesNext(config: SignalConfig, s: Signals, e: Event)
    requires s.NoDangling() && KnowsMessages(s)
    ensures KnowsMessages(OnEvent(config, s, e))
  {
    hide OnOrderFilled, OnPositionUpdated, OnMarketData, KnowsMessages;
    match e {
      case MarketDataReceived(candle) => CandleSendsOne(config, s, candle);
      case OrderFilled(order, at) => FillSendsOne(config, s, order, at);
      case PositionUpdated(p, at) => UpdateSendsOne(s, p, at);
      case _ =>
    }
    SendsOneKeeps(s, OnEvent(config, s, e));
  }

  /** A fill that is accepted is sent and remembered under its strategy; nothing else is. */
  lemma FillRecords(config: SignalConfig, s: Signals, order: Order, at: Time)
    ensures var r := OnOrderFilled(config, s, order, at);
            if r.trades == s.trades then r.filter.lastSignalAt == s.filter.lastSignalAt
            else
              && |r.trades| == |s.trades| + 1 && r.trades[..|s.trades|] == s.trades
              && r.trades[|s.trades|].strategyName == order.strategyName
              && r.filter.lastSignalAt
                 == s.filter.lastSignalAt[order.strategyName := r.trades[|s.trades|].openedAt]
  {
    hide Guardian, Filter.ShouldEmit, DateOf;
  }

  lemma FillSignalsNext(config: SignalConfig, s: Signals, order: Order, at: Time)
    requires KnowsSignals(s.filter, Emissions(s.trades))
    ensures var r := OnOrderFilled(config, s, order, at); KnowsSignals(r.filter, Emissions(r.trades))
  {
    FillRecords(config, s, order, at);
    hide OnOrderFilled;
    var r := OnOrderFilled(config, s, order, at);
    var sent, more := Emissions(s.trades), Emissions(r.trades);
    if r.trades != s.trades {
      forall name | name in r.filter.lastSignalAt
        ensures exists i :: 0 <= i < |more| && more[i].strategyName == name && more[i].at == r.filter.lastSignalAt[name]
      {
        if name == order.strategyName {
          assert more[|sent|].strategyName == name && more[|sent|].at == r.filter.lastSignalAt[name];
        } else {
          var i :| 0 <= i < |sent| && sent[i].strategyName == name && sent[i].at == s.filter.lastSignalAt[name];
          assert r.trades[..|s.trades|][i] == r.trades[i];
          assert more[i] == sent[i];
        }
      }
    }
  }

  lemma SignalsNext(config: SignalConfig, s: Signals, e: Event)
    requires s.NoDangling() && KnowsSignals(s.filter, Emissions(s.trades))
    ensures var r := OnEvent(config, s, e); KnowsSignals(r.filter, Emissions(r.trades))
  {
    hide OnOrderFilled, KnowsSignals, BuildReport, ClockOf, DateOf, ClassifySession;
    if e.OrderFilled? {
      FillSignalsNext(config, s, e.order, e.at);
    } else {
      assert Emissions(OnEvent(config, s, e).trades) == Emissions(s.trades);
    }
  }

  /** After any log: the service remembers exactly what the log and its own messages say. */
  lemma {:induction false} KnowsTheLog(config: SignalConfig, log: seq<Event>)
    ensures Knows(config, log, Observe(config, log))
  {
    if log != [] {
      var n := |log| - 1;
      KnowsTheLog(config, log[..n]);
      assert log == log[..n] + [log[n]];
      hide KnowsEvaluations, KnowsSignals, KnowsMessages, KnowsMarket, OnEvent;
      var s := Observe(config, log[..n]);
      EvaluationsNext(config, log[..n], s, log[n]);
      SignalsNext(config, s, log[n]);
      MessagesNext(config, s, log[n]);
      MarketNext(config, log[..n], s, log[n]);
    }
  }

  // ---------------------------------------------------------------- what it answers to a fill

  /** A signal the settings permit after the signals sent so far. */
  predicate Permitted(config: SignalConfig, sent: seq<Emission>, name: string, score: real, now: Time) {
    && config.marketOpen <= ClockOf(now) <= config.marketClose
    && score >= config.confidenceThreshold
    && (forall i :: 0 <= i < |sent| && sent[i].strategyName == name ==> now - sent[i].at >= config.cooldown)
    && CountOn(sent, DateOf(now)) < config.maxSignalsPerDay
  }

  lemma AllowedIff(config: SignalConfig, filter: Filter, sent: seq<Emission>, name: string, score: real, now: Time)
    requires Remembers(filter, sent, now) && KnowsSignals(filter, sent)
    ensures filter.ShouldEmit(config, name, score, now) == Allowed <==> Permitted(config, sent, name, score, now)
    ensures filter.ShouldEmit(config, name, score, now) == BelowThreshold
            <==> InHours(config, now) && score < config.confidenceThreshold
  {
    RollRemembers(filter, sent, now);
    hide DateOf, ClockOf, CountOn;
    if name in filter.lastSignalAt {
      var i :| 0 <= i < |sent| && sent[i].strategyName == name && sent[i].at == filter.lastSignalAt[name];
    }
  }

  /** The message about a signal that was not accepted: only for a score below the threshold in trading hours, and
      only when none was sent within the cooldown. */
  function NoTradeAnswer(config: SignalConfig, outbox: seq<Notification>, score: real, now: Time): seq<Notification> {
    if && InHours(config, now) && score < config.confidenceThreshold
       && (forall t :: t in NoTradeTimes(outbox) ==> now - t >= config.cooldown)
    then [NoTradeSent(now)] else []
  }

  /** The answer to a fill: nothing without an evaluation of its strategy; a signal when the settings permit one; the
      message about a weak signal otherwise, if one is due. In both cases the filter counts the signals of that day. */
  ghost predicate FillAnswered(config: SignalConfig, log: seq<Event>, s: Signals, r: Signals, order: Order) {
    var evaluation := LastEvaluation(log, order.strategyName);
    if evaluation.None? then
      Emissions(r.trades) == Emissions(s.trades) && r.outbox == s.outbox
    else
      && Feed(log) != []
      && var now := Feed(log)[|Feed(log)| - 1];
      && CountsDay(r.filter, Emissions(r.trades), DateOf(now))
      && var score := Guardian(evaluation.value.strength, order.FillPrice(), order.stopLoss, order.target).score;
      if Permitted(config, Emissions(s.trades), order.strategyName, score, now) then
        && Emissions(r.trades) == Emissions(s.trades) + [Emission(order.strategyName, now, score)]
        && r.outbox == s.outbox + [SignalSent(r.trades[|s.trades|])]
      else
        && Emissions(r.trades) == Emissions(s.trades)
        && r.outbox == s.outbox + NoTradeAnswer(config, s.outbox, score, now)
  }

  predicate CountsDay(filter: Filter, sent: seq<Emission>, date: int) {
    filter.currentDay == Some(date) && filter.signalsToday == CountOn(sent, date)
  }

  /** The count of the day after a fill, whether or not it was accepted. */
  lemma FillCountsDay(filter: Filter, sent: seq<Emission>, e: Emission)
    requires Remembers(filter, sent, e.at)
    ensures CountsDay(filter.RollDay(e.at), sent, DateOf(e.at))
    ensures CountsDay(filter.Recorded(e.strategyName, e.at), sent + [e], DateOf(e.at))
  {
    RollRemembers(filter, sent, e.at);
    CountMore(sent, e, DateOf(e.at));
    hide DateOf, CountOn, Remembers;
  }

  /** For any log whose candles come in time order: a fill is accepted exactly when its strategy has been evaluated
      and the instant is in trading hours, the score reaches the threshold, no signal of the strategy was sent within
      the cooldown and the date has had fewer than the maximum. */
  lemma FillIsAnswered(config: SignalConfig, log: seq<Event>, order: Order, at: Time)
    requires config.Valid() && OrderedFeed(log)
    ensures FillAnswered(config, log, Observe(config, log), Observe(config, log + [OrderFilled(order, at)]), order)
  {
    KnowsTheLog(config, log);
    PolicyHolds(config, log);
    MessagesAgree(config, log);
    ObserveNext(config, log, OrderFilled(order, at));
    hide *;
    EvaluatedHasFeed(log, order.strategyName);
    AnswerFill(config, log, Observe(config, log), order, at);
  }

  lemma {:induction false} EvaluatedHasFeed(log: seq<Event>, name: string)
    requires OrderedFeed(log)
    ensures log != [] ==> Feed(log) != []
    ensures LastEvaluation(log, name).Some? ==> log != []
  {
    if log != [] { FirstCandle(log); }
  }

  lemma AnswerFill(config: SignalConfig, log: seq<Event>, s: Signals, order: Order, at: Time)
    requires Knows(config, log, s) && WithinPolicy(config, log, s) && NoTradesSpaced(config, s)
    requires config.Valid()
    requires LastEvaluation(log, order.strategyName).Some? ==> Feed(log) != []
    ensures FillAnswered(config, log, s, OnOrderFilled(config, s, order, at), order)
  {
    hide Feed, LastEvaluation, NoTradeTimes, DateOf, ClockOf, CountOn, Compliant, Remembers, KnowsSignals, Guardian,
         Summarized, Permitted, InHours, Filter.ShouldEmit, NoTradeAnswer;
    var r := OnOrderFilled(config, s, order, at);
    if order.strategyName in s.lastEvaluation {
      var evaluation := s.lastEvaluation[order.strategyName];
      var now := Feed(log)[|Feed(log)| - 1];
      var score := Guardian(evaluation.strength, order.FillPrice(), order.stopLoss, order.target).score;
      AllowedIff(config, s.filter, Emissions(s.trades), order.strategyName, score, now);
      FillCountsDay(s.filter, Emissions(s.trades), Emission(order.strategyName, now, score));
      hide Filter.RollDay, Filter.Recorded, CountsDay;
      NoTradeIff(config, s, score, now);
      if |r.trades| > |s.trades| {
        assert Emissions(r.trades) == Emissions(s.trades) + [EmissionOf(r.trades[|s.trades|])];
      }
    }
  }

  lemma NoTradeIff(config: SignalConfig, s: Signals, score: real, now: Time)
    requires KnowsMessages(s) && NoTradesSpaced(config, s) && config.Valid()
    ensures NoTradeAnswer(config, s.outbox, score, now)
            == if InHours(config, now) && score < config.confidenceThreshold
                  && (s.lastNoTradeAt.None? || now - s.lastNoTradeAt.value >= config.cooldown)
               then [NoTradeSent(now)] else []
  {
    hide InHours, SummaryDates, Announced;
    var times := NoTradeTimes(s.outbox);
    hide NoTradeTimes;
    TimesGrow(config, times);
    if times != [] { assert times[|times| - 1] in times; }
  }

  lemma {:induction false} TimesGrow(config: SignalConfig, times: seq<Time>)
    requires config.Valid() && forall i :: 0 < i < |times| ==> times[i] - times[i - 1] >= config.cooldown
    ensures forall t :: t in times ==> t <= times[|times| - 1]
  {
    if |times| > 1 {
      var n := |times| - 1;
      TimesGrow(config, times[..n]);
      assert times[n] - times[n - 1] >= config.cooldown;
      assert times == times[..n] + [times[n]];
    }
  }

  // ---------------------------------------------------------------- when it sums up a day

  /** A candle of the date inside trading hours. */
  predicate OpenOn(config: SignalConfig, log: seq<Event>, date: int) {
    exists i :: 0 <= i < |log| && log[i].MarketDataReceived?
      && DateOf(log[i].candle.timestamp) == date && InHours(config, log[i].candle.timestamp)
  }

  lemma {:induction false} InFeed(log: seq<Event>, i: nat)
    requires i < |log| && log[i].MarketDataReceived?
    ensures log[i].candle.timestamp in Feed(log)
  {
    if i < |log| - 1 { InFeed(log[..|log| - 1], i); }
  }

  lemma OpenOnNext(config: SignalConfig, log: seq<Event>, date: int)
    requires log != []
    ensures var n := |log| - 1;
            OpenOn(config, log, date) <==>
              || (log[n].MarketDataReceived? && DateOf(log[n].candle.timestamp) == date
                  && InHours(config, log[n].candle.timestamp))
              || OpenOn(config, log[..n], date)
  {
    hide DateOf, InHours;
    var n := |log| - 1;
    assert forall i :: 0 <= i < n ==> log[..n][i] == log[i];
    if OpenOn(config, log[..n], date) {
      var i :| 0 <= i < n && log[..n][i].MarketDataReceived?
        && DateOf(log[..n][i].candle.timestamp) == date && InHours(config, log[..n][i].candle.timestamp);
      assert log[i].MarketDataReceived?;
    }
  }

  /** No candle is later than a date that is not before that of the last one. */
  predicate NoLater(log: seq<Event>, date: int) {
    forall t :: t in Feed(log) ==> DateOf(t) <= date
  }

  lemma LastIsLatest(log: seq<Event>, date: int)
    requires OrderedFeed(log)
    requires Feed(log) != [] ==> DateOf(Feed(log)[|Feed(log)| - 1]) <= date
    ensures NoLater(log, date)
  {
    forall t | t in Feed(log) ensures DateOf(t) <= date {
      var i :| 0 <= i < |Feed(log)| && Feed(log)[i] == t;
      DateMonotone(t, Feed(log)[|Feed(log)| - 1]);
    }
  }

  lemma EarlierIsClosed(config: SignalConfig, log: seq<Event>, date: int, earlier: int)
    requires NoLater(log, earlier) && earlier < date
    ensures !OpenOn(config, log, date)
  {
    if OpenOn(config, log, date) {
      var i :| 0 <= i < |log| && log[i].MarketDataReceived?
        && DateOf(log[i].candle.timestamp) == date && InHours(config, log[i].candle.timestamp);
      InFeed(log, i);
      assert false;
    }
  }

  /** Up to the latest date, the last candle in trading hours is of that date exactly when some is. */
  lemma {:induction false} OpenDateIff(config: SignalConfig, log: seq<Event>, date: int)
    requires OrderedFeed(log) && NoLater(log, date)
    ensures LastOpenDate(config, log) == Some(date) <==> OpenOn(config, log, date)
  {
    if log != [] {
      var n := |log| - 1;
      OrderedPrefix(log);
      OpenOnNext(config, log, date);
      var front := log[..n];
      assert forall t :: t in Feed(front) ==> t in Feed(log);
      OpenDateIff(config, front, date);
      if log[n].MarketDataReceived? {
        InFeed(log, n);
        var last := DateOf(log[n].candle.timestamp);
        if Feed(front) != [] { DateMonotone(Feed(front)[|Feed(front)| - 1], log[n].candle.timestamp); }
        LastIsLatest(front, last);
        if last < date { EarlierIsClosed(config, front, date, last); }
      }
      hide OpenOn, Feed, InHours, DateOf, OrderedFeed;
    }
  }

  /** For any log whose candles come in time order: a candle is answered with the summary of its date exactly when
      the clock has reached the summary time, the date has had a candle in trading hours and no summary yet. */
  lemma SummaryIsSent(config: SignalConfig, log: seq<Event>, candle: Candle)
    requires config.Valid() && OrderedFeed(log + [MarketDataReceived(candle)])
    ensures var more := log + [MarketDataReceived(candle)];
            var s, r := Observe(config, log), Observe(config, more);
            var t := candle.timestamp;
            && r.trades == s.trades
            && r.outbox == s.outbox
                 + if ClockOf(t) >= config.summaryTime && OpenOn(config, more, DateOf(t))
                      && DateOf(t) !in SummaryDates(s.outbox)
                   then [DailySummarySent(t, BuildReport(s.trades, DateOf(t), LastBias(log)))] else []
  {
    var more := log + [MarketDataReceived(candle)];
    assert more[..|log|] == log && more[|log|] == MarketDataReceived(candle);
    OrderedPrefix(more);
    KnowsTheLog(config, log);
    PolicyHolds(config, log);
    ObserveNext(config, log, MarketDataReceived(candle));
    LastNext(config, log, MarketDataReceived(candle), "");
    LastIsLatest(more, DateOf(candle.timestamp));
    OpenDateIff(config, more, DateOf(candle.timestamp));
    hide Observe, OpenOn, OrderedFeed, NoLater, Feed;
    SummaryFrom(config, log, Observe(config, log), candle);
  }

  lemma SummaryFrom(config: SignalConfig, log: seq<Event>, s: Signals, candle: Candle)
    requires Knows(config, log, s) && Summarized(config, log, s)
    requires s.latestCandleAt.Some? ==> s.latestCandleAt.value <= candle.timestamp
    ensures var r := OnMarketData(config, s, candle);
            var t := candle.timestamp;
            && r.trades == s.trades
            && r.outbox == s.outbox
                 + if ClockOf(t) >= config.summaryTime && DateOf(t) !in SummaryDates(s.outbox)
                      && LastOpenDate(config, log + [MarketDataReceived(candle)]) == Some(DateOf(t))
                   then [DailySummarySent(t, BuildReport(s.trades, DateOf(t), LastBias(log)))] else []
  {
    var date := DateOf(candle.timestamp);
    LastNext(config, log, MarketDataReceived(candle), "");
    if s.latestCandleAt.Some? { DateMonotone(s.latestCandleAt.value, candle.timestamp); }
    var dates := SummaryDates(s.outbox);
    hide BuildReport, ClockOf, DateOf, SummaryDates, NoTradeTimes, Announced, OpenCandleOn, Feed, LastBias,
         LastOpenDate, KnowsEvaluations, KnowsSignals;
    if dates != [] { assert dates[|dates| - 1] in dates; }
    assert date in dates <==> s.reportDate == Some(date);
  }

  // ---------------------------------------------------------------- how it closes a trade

  /** The trade of a position that closed: stamped with the last candle, or with the event when there was none. */
  ghost predicate ClosedBy(before: DummyTrade, after: DummyTrade, p: Position, now: Time) {
    && after.exitPrice.Some? && after.rMultiple.Some? && after.exitReason.Some?
    && after == before.(status := TradeClosed, exitPrice := after.exitPrice, closedAt := Some(now),
                        pnl := Some(p.realizedPnl), rMultiple := after.rMultiple,
                        duration := Some(now - before.openedAt), exitReason := after.exitReason)
    && (p.initialQuantity != 0 ==> Implied(p, before.entryPrice, after.exitPrice.value))
    && (before.quantity != 0 && before.entryPrice != before.stopLoss ==>
          exists r: real :: Multiple(before, r, Amount(p.realizedPnl)) && after.rMultiple.value == RoundTo(r, 10000.0))
    && (before.quantity == 0 || before.entryPrice == before.stopLoss ==> after.rMultiple == Some(0.0))
  }

  /** The price at which the whole position would have realized what it did. */
  predicate Implied(p: Position, entry: real, exit: real) {
    (exit - entry) * p.initialQuantity as real
    == if p.direction == Short then -Amount(p.realizedPnl) else Amount(p.realizedPnl)
  }

  /** So many times what the trade put at risk. */
  predicate Multiple(trade: DummyTrade, r: real, gain: real) {
    r * (trade.quantity as real * Abs(trade.entryPrice - trade.stopLoss)) == gain
  }

  lemma CloseIsStamped(config: SignalConfig, log: seq<Event>, p: Position, at: Time)
    requires p.status == Closed && p.positionId in Observe(config, log).tradeOf
    ensures var s, r := Observe(config, log), Observe(config, log + [PositionUpdated(p, at)]);
            var t := s.tradeOf[p.positionId];
            && t < |s.trades| == |r.trades|
            && ClosedBy(s.trades[t], r.trades[t], p, if Feed(log) == [] then at else Feed(log)[|Feed(log)| - 1])
            && r.trades == s.trades[t := r.trades[t]]
  {
    KnowsTheLog(config, log);
    ObserveNext(config, log, PositionUpdated(p, at));
    var s := Observe(config, log);
    hide Knows, ClosedBy, OnPositionUpdated, Signals.Now, Feed;
    NowIs(config, log, s, at);
    CloseFrom(s, p, at);
    hide Observe;
  }

  lemma NowIs(config: SignalConfig, log: seq<Event>, s: Signals, at: Time)
    requires Knows(config, log, s)
    ensures s.Now(at) == if Feed(log) == [] then at else Feed(log)[|Feed(log)| - 1]
  {
    hide Feed, KnowsEvaluations, KnowsSignals, KnowsMessages;
  }

  lemma CloseFrom(s: Signals, p: Position, at: Time)
    requires s.NoDangling() && p.status == Closed && p.positionId in s.tradeOf
    ensures var r := OnPositionUpdated(s, p, at);
            var t := s.tradeOf[p.positionId];
            && t < |s.trades| == |r.trades|
            && ClosedBy(s.trades[t], r.trades[t], p, s.Now(at))
            && r.trades == s.trades[t := r.trades[t]]
  {
    ClosingIs(s.trades[s.tradeOf[p.positionId]], p, s.Now(at));
    hide ClosedBy, ClosedTrade, InferExitPrice, ExitNotice;
  }

  lemma ClosingIs(trade: DummyTrade, p: Position, now: Time)
    ensures ClosedBy(trade, ClosedTrade(trade, InferExitPrice(p.direction, trade.entryPrice, p.realizedPnl,
                                                              p.initialQuantity), now, p.realizedPnl), p, now)
  {
    if p.initialQuantity != 0 { ExitPriceIs(p, trade.entryPrice); }
    if trade.quantity != 0 && trade.entryPrice != trade.stopLoss {
      RMultipleIs(trade, p.realizedPnl);
    } else {
      NoMultiple(trade, p.realizedPnl);
    }
    hide Amount, RoundTo, InferExitReason, InferExitPrice, RMultipleOf, Multiple, Implied;
  }

  lemma ExitPriceIs(p: Position, entry: real)
    requires p.initialQuantity != 0
    ensures Implied(p, entry, InferExitPrice(p.direction, entry, p.realizedPnl, p.initialQuantity))
  {
    Divided(Amount(p.realizedPnl), p.initialQuantity as real);
    hide Amount;
  }

  lemma NoMultiple(trade: DummyTrade, pnl: Money)
    requires trade.quantity == 0 || trade.entryPrice == trade.stopLoss
    ensures RoundTo(RMultipleOf(trade.entryPrice, trade.stopLoss, trade.quantity, pnl), UNITS) == 0.0
  {
    RoundWhole(0);
    if trade.entryPrice != trade.stopLoss { Divided(0.0, Abs(trade.entryPrice - trade.stopLoss)); }
    assert RMultipleOf(trade.entryPrice, trade.stopLoss, trade.quantity, pnl) == 0.0;
  }

  lemma RMultipleIs(trade: DummyTrade, pnl: Money)
    requires trade.quantity != 0 && trade.entryPrice != trade.stopLoss
    ensures Multiple(trade, RMultipleOf(trade.entryPrice, trade.stopLoss, trade.quantity, pnl), Amount(pnl))
  {
    var q, risk := trade.quantity as real, Abs(trade.entryPrice - trade.stopLoss);
    Divided(Amount(pnl), q);
    Divided(Amount(pnl) / q, risk);
    TwiceDivided(Amount(pnl), q, risk, Amount(pnl) / q / risk);
    hide Amount;
  }

  lemma TwiceDivided(x: real, q: real, risk: real, r: real)
    requires q != 0.0 && r * risk * q == x
    ensures r * (q * risk) == x
  {
  }
}
