/** What reaches the operator: over every log of events, however it came about, the messages sent agree with the
    trades the tracker holds. */
module Notifications {
  import opened Market
  import opened PaperModels
  import opened Events
  import opened SignalStep

  /** The trade of a message about an exit. */
  function ExitOf(n: Notification): Option<DummyTrade> {
    match n
    case TargetHit(trade) => Some(trade)
    case StopLossHit(trade) => Some(trade)
    case _ => None
  }

  /** The ids announced as new signals, in order. */
  function AnnouncedIds(outbox: seq<Notification>): seq<nat> {
    if outbox == [] then []
    else
      var n := |outbox| - 1;
      if outbox[n].SignalSent? then AnnouncedIds(outbox[..n]) + [outbox[n].trade.tradeId] else AnnouncedIds(outbox[..n])
  }

  function NoTradeTimes(outbox: seq<Notification>): seq<Time> {
    if outbox == [] then []
    else
      var n := |outbox| - 1;
      if outbox[n].NoTradeSent? then NoTradeTimes(outbox[..n]) + [outbox[n].at] else NoTradeTimes(outbox[..n])
  }

  /** Ids equal positions, and every trade the service still waits for is open and waited for once. */
  ghost predicate Awaited(s: Signals) {
    && s.NoDangling()
    && (forall t :: 0 <= t < |s.trades| ==> s.trades[t].tradeId == t)
    && (forall name :: name in s.pending ==> s.trades[s.pending[name]].status == TradeOpen)
    && (forall p :: p in s.tradeOf ==> s.trades[s.tradeOf[p]].status == TradeOpen)
    && (forall a, b :: a in s.pending && b in s.pending && a != b ==> s.pending[a] != s.pending[b])
    && (forall p, q :: p in s.tradeOf && q in s.tradeOf && p != q ==> s.tradeOf[p] != s.tradeOf[q])
    && (forall name, p :: name in s.pending && p in s.tradeOf ==> s.pending[name] != s.tradeOf[p])
  }

  /** Every exit message carries the trade as the tracker holds it, closed, and no trade has two. */
  ghost predicate ExitsAreFinal(s: Signals) {
    && (forall i :: 0 <= i < |s.outbox| && ExitOf(s.outbox[i]).Some? ==>
          var trade := ExitOf(s.outbox[i]).value;
          trade.status == TradeClosed && trade.tradeId < |s.trades| && s.trades[trade.tradeId] == trade)
    && (forall i, j :: 0 <= i < j < |s.outbox| && ExitOf(s.outbox[i]).Some? && ExitOf(s.outbox[j]).Some? ==>
          ExitOf(s.outbox[i]).value.tradeId != ExitOf(s.outbox[j]).value.tradeId)
  }

  /** Every trade was announced exactly once, in the order the trades were opened. */
  ghost predicate AllAnnounced(s: Signals) {
    var ids := AnnouncedIds(s.outbox);
    |ids| == |s.trades| && forall i :: 0 <= i < |ids| ==> ids[i] == i
  }

  /** Messages about suppressed signals keep the cooldown between them. */
  ghost predicate NoTradesSpaced(config: SignalConfig, s: Signals) {
    var times := NoTradeTimes(s.outbox);
    && (times != [] ==> s.lastNoTradeAt == Some(times[|times| - 1]))
    && (forall i :: 0 < i < |times| ==> times[i] - times[i - 1] >= config.cooldown)
  }

  lemma SendNext(outbox: seq<Notification>, n: Notification)
    ensures AnnouncedIds(outbox + [n])
            == if n.SignalSent? then AnnouncedIds(outbox) + [n.trade.tradeId] else AnnouncedIds(outbox)
    ensures NoTradeTimes(outbox + [n])
            == if n.NoTradeSent? then NoTradeTimes(outbox) + [n.at] else NoTradeTimes(outbox)
  {
    assert (outbox + [n])[..|outbox|] == outbox;
  }

  ghost predicate Agrees(config: SignalConfig, s: Signals) {
    Awaited(s) && ExitsAreFinal(s) && AllAnnounced(s) && NoTradesSpaced(config, s)
  }

  /** Changes that none of the four look at. */
  lemma UnrelatedKeeps(config: SignalConfig, s: Signals, r: Signals)
    requires Agrees(config, s)
    requires r == s.(lastEvaluation := r.lastEvaluation, filter := r.filter, reportDate := r.reportDate,
                     latestCandleAt := r.latestCandleAt, openSeenOn := r.openSeenOn, current := r.current)
    ensures Agrees(config, r)
  {
  }

  /** A message that announces no trade and no exit. */
  lemma QuietSendKeeps(s: Signals, n: Notification)
    requires Awaited(s) && ExitsAreFinal(s) && AllAnnounced(s) && ExitOf(n).None? && !n.SignalSent?
    ensures Awaited(s.Send(n)) && ExitsAreFinal(s.Send(n)) && AllAnnounced(s.Send(n))
  {
    assert Awaited(s.Send(n)) by { hide ExitsAreFinal, AllAnnounced; }
    assert ExitsAreFinal(s.Send(n)) by { hide Awaited, AllAnnounced; }
    hide Awaited, ExitsAreFinal;
    SendNext(s.outbox, n);
  }

  lemma SummaryKeeps(config: SignalConfig, s: Signals, at: Time, report: DailyReport)
    requires Agrees(config, s)
    ensures Agrees(config, s.Send(DailySummarySent(at, report)))
  {
    hide Awaited, ExitsAreFinal, AllAnnounced;
    QuietSendKeeps(s, DailySummarySent(at, report));
    SendNext(s.outbox, DailySummarySent(at, report));
  }

  lemma NoTradeKeeps(config: SignalConfig, s: Signals, at: Time)
    requires Agrees(config, s)
    requires s.lastNoTradeAt.Some? ==> at - s.lastNoTradeAt.value >= config.cooldown
    ensures Agrees(config, s.(lastNoTradeAt := Some(at)).Send(NoTradeSent(at)))
  {
    var r := s.(lastNoTradeAt := Some(at));
    NoteKeeps(s, r);
    hide Awaited, ExitsAreFinal, AllAnnounced;
    QuietSendKeeps(r, NoTradeSent(at));
    SendNext(s.outbox, NoTradeSent(at));
  }

  lemma NoteKeeps(s: Signals, r: Signals)
    requires Awaited(s) && ExitsAreFinal(s) && AllAnnounced(s) && r == s.(lastNoTradeAt := r.lastNoTradeAt)
    ensures Awaited(r) && ExitsAreFinal(r) && AllAnnounced(r)
  {
  }

  lemma OpenKeeps(config: SignalConfig, s: Signals, name: string, trade: DummyTrade)
    requires Agrees(config, s) && trade.tradeId == |s.trades| && trade.status == TradeOpen
    ensures Agrees(config, s.(trades := s.trades + [trade], pending := s.pending[name := trade.tradeId])
                            .Send(SignalSent(trade)))
  {
    OpenAwaited(s, name, trade);
    var r := s.(trades := s.trades + [trade], pending := s.pending[name := trade.tradeId]).Send(SignalSent(trade));
    assert ExitsAreFinal(r) by { hide Awaited, AllAnnounced, NoTradesSpaced; }
    hide Awaited, ExitsAreFinal;
    SendNext(s.outbox, SignalSent(trade));
  }

  lemma OpenAwaited(s: Signals, name: string, trade: DummyTrade)
    requires Awaited(s) && trade.tradeId == |s.trades| && trade.status == TradeOpen
    ensures Awaited(s.(trades := s.trades + [trade], pending := s.pending[name := trade.tradeId])
                     .Send(SignalSent(trade)))
  {
  }

  lemma FillKeeps(config: SignalConfig, s: Signals, order: Order, at: Time)
    requires Agrees(config, s)
    ensures Agrees(config, OnOrderFilled(config, s, order, at))
  {
    hide Agrees, Filter.ShouldEmit, Filter.RollDay, Filter.Recorded, ScoreOf, RewardToRisk;
    if order.strategyName in s.lastEvaluation {
      var guardian := Guardian(s.lastEvaluation[order.strategyName].strength,
                               order.FillPrice(), order.stopLoss, order.target);
      var now := s.Now(at);
      var decision := s.filter.ShouldEmit(config, order.strategyName, guardian.score, now);
      var r := OnOrderFilled(config, s, order, at);
      UnrelatedKeeps(config, s, s.(filter := r.filter));
      if decision == BelowThreshold && (s.lastNoTradeAt.None? || now - s.lastNoTradeAt.value >= config.cooldown) {
        NoTradeKeeps(config, s.(filter := r.filter), now);
      } else if decision == Allowed {
        UnrelatedKeeps(config, s, s.(filter := r.filter, current := r.current));
        OpenKeeps(config, s.(filter := r.filter, current := r.current), order.strategyName,
                  NewTrade(|s.trades|, order, guardian, now));
      }
    }
  }

  /** The position that takes over a pending trade. */
  lemma LinkKeeps(config: SignalConfig, s: Signals, name: string, p: nat)
    requires Agrees(config, s) && name in s.pending
    ensures Agrees(config, s.(pending := s.pending - {name}, tradeOf := s.tradeOf[p := s.pending[name]]))
  {
    hide ExitsAreFinal, AllAnnounced, NoTradesSpaced;
    var r := s.(pending := s.pending - {name}, tradeOf := s.tradeOf[p := s.pending[name]]);
    assert Awaited(r);
    SameMessages(config, s, r);
  }

  lemma SameMessages(config: SignalConfig, s: Signals, r: Signals)
    requires ExitsAreFinal(s) && AllAnnounced(s) && NoTradesSpaced(config, s)
    requires r == s.(pending := r.pending, tradeOf := r.tradeOf)
    ensures ExitsAreFinal(r) && AllAnnounced(r) && NoTradesSpaced(config, r)
  {
  }

  lemma CloseKeeps(config: SignalConfig, s: Signals, p: nat, closed: DummyTrade)
    requires Agrees(config, s) && p in s.tradeOf
    requires closed.status == TradeClosed && closed.tradeId == s.tradeOf[p]
    ensures var r := s.(tradeOf := s.tradeOf - {p}, trades := s.trades[s.tradeOf[p] := closed]);
            Agrees(config, r.(outbox := s.outbox + ExitNotice(closed)))
  {
    var r := s.(tradeOf := s.tradeOf - {p}, trades := s.trades[s.tradeOf[p] := closed]);
    CloseAwaited(s, p, closed);
    CloseIsNew(s, closed);
    hide Awaited;
    assert Agrees(config, r);
    if ExitNotice(closed) == [] {
      assert s.outbox + [] == s.outbox;
    } else {
      assert ExitNotice(closed) == [ExitNotice(closed)[0]];
      SendNext(s.outbox, ExitNotice(closed)[0]);
      ExitSendKeeps(config, r, ExitNotice(closed)[0]);
    }
  }

  lemma CloseAwaited(s: Signals, p: nat, closed: DummyTrade)
    requires Awaited(s) && p in s.tradeOf && closed.status == TradeClosed && closed.tradeId == s.tradeOf[p]
    ensures Awaited(s.(tradeOf := s.tradeOf - {p}, trades := s.trades[s.tradeOf[p] := closed]))
    ensures closed.tradeId < |s.trades| && s.trades[closed.tradeId].status == TradeOpen
  {
  }

  /** An open trade has had no exit message yet. */
  lemma CloseIsNew(s: Signals, closed: DummyTrade)
    requires ExitsAreFinal(s) && closed.tradeId < |s.trades| && s.trades[closed.tradeId].status == TradeOpen
    ensures forall i :: 0 <= i < |s.outbox| && ExitOf(s.outbox[i]).Some? ==>
              ExitOf(s.outbox[i]).value.tradeId != closed.tradeId
  {
  }

  lemma ExitSendKeeps(config: SignalConfig, s: Signals, n: Notification)
    requires Agrees(config, s) && ExitOf(n).Some?
    requires var trade := ExitOf(n).value;
             && trade.status == TradeClosed && trade.tradeId < |s.trades| && s.trades[trade.tradeId] == trade
             && forall i :: 0 <= i < |s.outbox| && ExitOf(s.outbox[i]).Some? ==>
                  ExitOf(s.outbox[i]).value.tradeId != trade.tradeId
    ensures Agrees(config, s.Send(n))
  {
    assert Awaited(s.Send(n)) by { hide ExitsAreFinal, AllAnnounced, NoTradesSpaced; }
    assert ExitsAreFinal(s.Send(n)) by { hide Awaited, AllAnnounced, NoTradesSpaced; }
    hide Awaited, ExitsAreFinal;
    SendNext(s.outbox, n);
  }

  lemma UpdateKeeps(config: SignalConfig, s: Signals, p: Position, at: Time)
    requires Agrees(config, s)
    ensures s.NoDangling() && Agrees(config, OnPositionUpdated(s, p, at))
  {
    AgreesIds(config, s);
    hide Agrees, InferExitPrice, InferExitReason, RMultipleOf, ExitNotice;
    if p.status == Open && p.strategyName in s.pending {
      LinkKeeps(config, s, p.strategyName, p.positionId);
    } else if p.status == Closed && p.positionId in s.tradeOf {
      CloseKeeps(config, s, p.positionId, CloseOf(s, s.tradeOf[p.positionId], p, at));
    }
  }

  lemma AgreesIds(config: SignalConfig, s: Signals)
    requires Agrees(config, s)
    ensures s.NoDangling() && forall t :: 0 <= t < |s.trades| ==> s.trades[t].tradeId == t
  {
  }

  lemma EventKeeps(config: SignalConfig, s: Signals, e: Event)
    requires s.NoDangling() && Agrees(config, s)
    ensures Agrees(config, OnEvent(config, s, e))
  {
    hide Agrees, OnOrderFilled, OnPositionUpdated;
    match e
    case OrderFilled(order, at) => FillKeeps(config, s, order, at);
    case PositionUpdated(p, at) => UpdateKeeps(config, s, p, at);
    case MarketDataReceived(candle) =>
      var r := OnEvent(config, s, e);
      UnrelatedKeeps(config, s, r.(outbox := s.outbox));
      if r.outbox != s.outbox {
        SummaryKeeps(config, r.(outbox := s.outbox), candle.timestamp, r.outbox[|s.outbox|].report);
      }
    case _ => UnrelatedKeeps(config, s, OnEvent(config, s, e));
  }

  /** Exit messages are of the kind their trade was closed with, and none is missing. */
  ghost predicate ExitsAreComplete(s: Signals) {
    && (forall i :: 0 <= i < |s.outbox| && ExitOf(s.outbox[i]).Some? ==>
          ExitNotice(ExitOf(s.outbox[i]).value) == [s.outbox[i]])
    && (forall t :: 0 <= t < |s.trades| && s.trades[t].status == TradeClosed && ExitNotice(s.trades[t]) != [] ==>
          ExitNotice(s.trades[t])[0] in s.outbox)
  }

  lemma FillCompletes(config: SignalConfig, s: Signals, order: Order, at: Time)
    requires ExitsAreComplete(s)
    ensures ExitsAreComplete(OnOrderFilled(config, s, order, at))
  {
    hide Guardian, Filter.ShouldEmit, Filter.RollDay, Filter.Recorded, DateOf;
  }

  lemma CloseCompletes(s: Signals, t: nat, closed: DummyTrade)
    requires ExitsAreComplete(s) && t < |s.trades| && closed.status == TradeClosed
    ensures ExitsAreComplete(s.(trades := s.trades[t := closed], outbox := s.outbox + ExitNotice(closed)))
  {
  }

  lemma UpdateCompletes(s: Signals, p: Position, at: Time)
    requires s.NoDangling() && ExitsAreComplete(s)
    ensures ExitsAreComplete(OnPositionUpdated(s, p, at))
  {
    hide InferExitPrice, InferExitReason, RMultipleOf, ExitNotice;
    if !(p.status == Open && p.strategyName in s.pending) && p.status == Closed && p.positionId in s.tradeOf {
      var t := s.tradeOf[p.positionId];
      CloseCompletes(s, t, CloseOf(s, t, p, at));
      var closed := CloseOf(s, t, p, at);
      SameCompleteness(s.(trades := s.trades[t := closed], outbox := s.outbox + ExitNotice(closed)),
                       OnPositionUpdated(s, p, at));
    } else {
      SameCompleteness(s, OnPositionUpdated(s, p, at));
    }
  }

  lemma SameCompleteness(s: Signals, r: Signals)
    requires ExitsAreComplete(s) && r.trades == s.trades && r.outbox == s.outbox
    ensures ExitsAreComplete(r)
  {
  }

  lemma EventCompletes(config: SignalConfig, s: Signals, e: Event)
    requires s.NoDangling() && ExitsAreComplete(s)
    ensures ExitsAreComplete(OnEvent(config, s, e))
  {
    hide OnOrderFilled, OnPositionUpdated, DateOf, ClockOf;
    match e
    case OrderFilled(order, at) => FillCompletes(config, s, order, at);
    case PositionUpdated(p, at) => UpdateCompletes(s, p, at);
    case _ =>
  }

  /** After any log of events: every dummy trade was announced once, in order; every exit message is the final
      state of its trade, of the kind of its exit reason and the only one; no exit at a stop or a target goes
      without one; and no-trade messages are at least the cooldown apart. */
  lemma {:induction false} MessagesAgree(config: SignalConfig, log: seq<Event>)
    ensures Agrees(config, Observe(config, log)) && ExitsAreComplete(Observe(config, log))
  {
    if log != [] {
      var n := |log| - 1;
      MessagesAgree(config, log[..n]);
      hide Agrees, ExitsAreComplete, OnEvent;
      EventKeeps(config, Observe(config, log[..n]), log[n]);
      EventCompletes(config, Observe(config, log[..n]), log[n]);
    }
  }
}
