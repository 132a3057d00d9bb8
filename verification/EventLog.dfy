/** What a run publishes: the announcements of each decision, and the state every event carries. */
module EventLog {
  import opened Market
  import opened RiskEngine
  import opened PaperModels
  import opened Events
  import opened TradingStep
  import opened Ledger
  import opened Bracket
  import opened Sums

  // ---------------------------------------------------------------- announcements

  /** The offers within their risk limits. */
  function Approved(candidates: seq<Candidate>): nat -> bool {
    (i: nat) => i < |candidates| && candidates[i].assessment.RiskOk()
  }

  function Assessments(candidates: seq<Candidate>): seq<Event> {
    seq(|candidates|, i requires 0 <= i < |candidates| => RiskApproved(candidates[i].assessment))
  }

  lemma {:induction false} ApprovalsArePicked(candidates: seq<Candidate>)
    ensures Picked(Assessments(candidates), Approved(candidates), ApprovalEvents(candidates))
  {
    var all, wanted := Assessments(candidates), Approved(candidates);
    if candidates == [] {
      PickedNone<Event>(wanted);
    } else {
      var n := |candidates| - 1;
      var front := candidates[..n];
      ApprovalsArePicked(front);
      assert all[..n] == Assessments(front);
      var at := WherePicked(Assessments(front), Approved(front), ApprovalEvents(front));
      assert Indices(at, n, wanted) by {
        assert forall i: nat :: i < n ==> front[i] == candidates[i];
      }
      PickedFrom(all[..n], wanted, at, ApprovalEvents(front));
      hide Picked, Indices;
      PickedNext(all, wanted, ApprovalEvents(front));
    }
  }

  function Submission(order: Order): Order {
    order.(status := Submitted, filledQuantity := 0, averageFillPrice := None)
  }

  /** The order as it was submitted and as it was filled, and the position of the fill. */
  function EntryEvents(order: Order, p: Position, now: Time): seq<Event> {
    [OrderSubmitted(Submission(order)), OrderFilled(order, now), PositionUpdated(p, now)]
  }

  /** The assessments of the offers at some positions, in that order. */
  ghost predicate ApprovesAt(env: Env, c: Core, candle: Candle, history: seq<Candle>, at: seq<nat>,
                             approvals: seq<Event>)
    requires history != []
  {
    var evaluations := env.pipeline(candle, history, c.proc.lastTradeClosedAt).evaluations;
    && (forall j, k :: 0 <= j < k < |at| ==> at[j] < at[k])
    && (forall i: nat :: i in at <==> i < |evaluations| && Offer(env, c, candle, history, i).assessment.RiskOk())
    && |approvals| == |at|
    && forall k :: 0 <= k < |at| ==>
         at[k] < |evaluations| && approvals[k] == RiskApproved(Offer(env, c, candle, history, at[k]).assessment)
  }

  /** The evaluation of a flat candle announces every evaluation, in the order they were reported; then the assessment
      of each one that is within its risk limits, and of no other; then the entry, if there is one. */
  lemma EntryAnnounces(env: Env, c: Core, candle: Candle, history: seq<Candle>)
    returns (signals: seq<Event>, at: seq<nat>, approvals: seq<Event>, entry: seq<Event>)
    requires history != [] && !c.HasOpen()
    ensures var evaluations := env.pipeline(candle, history, c.proc.lastTradeClosedAt).evaluations;
            |signals| == |evaluations|
            && forall i :: 0 <= i < |evaluations| ==> signals[i] == SignalGenerated(evaluations[i])
    ensures ApprovesAt(env, c, candle, history, at, approvals)
    ensures var next := EvaluateEntry(env, c, candle, history);
            && next.log == c.log + signals + approvals + entry
            && (if next.HasOpen() then
                  && |c.orders| < |next.orders| && |c.positions| < |next.positions|
                  && entry == EntryEvents(next.orders[|c.orders|], next.positions[|c.positions|],
                                          env.wallClock(|history|))
                else entry == [])
  {
    var r := env.pipeline(candle, history, c.proc.lastTradeClosedAt);
    signals := SignalEvents(r.evaluations);
    at, approvals := ApprovalsAre(env, c, candle, history);
    hide ApprovesAt, Offer;
    var announced := Announce(env, c, candle, history);
    assert announced.log == c.log + signals + approvals;
    entry := [];
    var decision := Decide(env, c, candle, history);
    if decision.Actionable() {
      EntryIs(announced, decision.best, history[|history| - 1].close, env.wallClock(|history|));
      var next := EvaluateEntry(env, c, candle, history);
      entry := EntryEvents(next.orders[|c.orders|], next.positions[|c.positions|], env.wallClock(|history|));
    }
    hide Announce, Decide, Enter, SignalEvents, ApprovalEvents, Candidates, EntryEvents;
  }

  lemma ApprovalsAre(env: Env, c: Core, candle: Candle, history: seq<Candle>)
    returns (at: seq<nat>, approvals: seq<Event>)
    requires history != []
    ensures var r := env.pipeline(candle, history, c.proc.lastTradeClosedAt);
            approvals
            == ApprovalEvents(Candidates(env, r.evaluations, history[|history| - 1].close, r.atr, Capital(env, c)))
    ensures ApprovesAt(env, c, candle, history, at, approvals)
  {
    var r := env.pipeline(candle, history, c.proc.lastTradeClosedAt);
    var candidates := Candidates(env, r.evaluations, history[|history| - 1].close, r.atr, Capital(env, c));
    assert forall i :: 0 <= i < |candidates| ==> candidates[i] == Offer(env, c, candle, history, i);
    hide Offer, ApprovalEvents, Candidates;
    approvals := ApprovalEvents(candidates);
    ApprovalsArePicked(candidates);
    at := WherePicked(Assessments(candidates), Approved(candidates), approvals);
    ApprovedOffers(env, c, candle, history, candidates, at, approvals);
    hide Approved, Assessments, ApprovesAt, Indices, ItemsAt;
  }

  lemma ApprovedOffers(env: Env, c: Core, candle: Candle, history: seq<Candle>, candidates: seq<Candidate>,
                       at: seq<nat>, approvals: seq<Event>)
    requires history != []
    requires |candidates| == |env.pipeline(candle, history, c.proc.lastTradeClosedAt).evaluations|
    requires forall i :: 0 <= i < |candidates| ==> candidates[i] == Offer(env, c, candle, history, i)
    requires Indices(at, |candidates|, Approved(candidates)) && ItemsAt(Assessments(candidates), at, approvals)
    ensures ApprovesAt(env, c, candle, history, at, approvals)
  {
    hide Offer;
    assert forall k :: 0 <= k < |at| ==> at[k] in at;
  }

  lemma EntryIs(c: Core, best: Candidate, price: real, now: Time)
    ensures var next := Enter(c, best, price, now);
            && next.HasOpen() && |next.orders| == |c.orders| + 1 && |next.positions| == |c.positions| + 1
            && next.log == c.log + EntryEvents(next.orders[|c.orders|], next.positions[|c.positions|], now)
  {
  }

  // ---------------------------------------------------------------- every event carries the state it left

  /** The last event about a position, and the last submission and fill of an order. */
  function LastUpdate(log: seq<Event>, id: nat): Option<Position> {
    if log == [] then None
    else
      var n := |log| - 1;
      if log[n].PositionUpdated? && log[n].position.positionId == id then Some(log[n].position)
      else LastUpdate(log[..n], id)
  }

  function LastSubmission(log: seq<Event>, id: nat): Option<Order> {
    if log == [] then None
    else
      var n := |log| - 1;
      if log[n].OrderSubmitted? && log[n].order.orderId == id then Some(log[n].order) else LastSubmission(log[..n], id)
  }

  function LastFill(log: seq<Event>, id: nat): Option<Order> {
    if log == [] then None
    else
      var n := |log| - 1;
      if log[n].OrderFilled? && log[n].order.orderId == id then Some(log[n].order) else LastFill(log[..n], id)
  }

  /** The log's last word on every position and order is the one the managers hold. */
  ghost predicate Current(c: Core) {
    && (forall k: nat :: LastUpdate(c.log, k) == if k < |c.positions| then Some(c.positions[k]) else None)
    && (forall k: nat :: LastFill(c.log, k) == if k < |c.orders| then Some(c.orders[k]) else None)
    && (forall k: nat :: LastSubmission(c.log, k)
                         == if k < |c.orders| then Some(Submission(c.orders[k])) else None)
  }

  lemma LastNext(log: seq<Event>, e: Event, k: nat)
    ensures LastUpdate(log + [e], k)
            == if e.PositionUpdated? && e.position.positionId == k then Some(e.position) else LastUpdate(log, k)
    ensures LastFill(log + [e], k)
            == if e.OrderFilled? && e.order.orderId == k then Some(e.order) else LastFill(log, k)
    ensures LastSubmission(log + [e], k)
            == if e.OrderSubmitted? && e.order.orderId == k then Some(e.order) else LastSubmission(log, k)
  {
    assert (log + [e])[..|log|] == log;
  }

  /** Events about neither orders nor positions. */
  predicate Elsewhere(e: Event) {
    e.MarketDataReceived? || e.SignalGenerated? || e.RiskApproved? || e.PortfolioUpdated?
  }

  lemma {:induction false} ElsewhereKeeps(log: seq<Event>, more: seq<Event>, k: nat)
    requires forall i :: 0 <= i < |more| ==> Elsewhere(more[i])
    ensures LastUpdate(log + more, k) == LastUpdate(log, k)
    ensures LastFill(log + more, k) == LastFill(log, k)
    ensures LastSubmission(log + more, k) == LastSubmission(log, k)
  {
    if more == [] {
      assert log + more == log;
    } else {
      var n := |more| - 1;
      ElsewhereKeeps(log, more[..n], k);
      assert log + more == (log + more[..n]) + [more[n]];
      LastNext(log + more[..n], more[n], k);
    }
  }

  lemma ElsewhereCurrent(c: Core, next: Core, more: seq<Event>)
    requires Current(c) && next.positions == c.positions && next.orders == c.orders && next.log == c.log + more
    requires forall i :: 0 <= i < |more| ==> Elsewhere(more[i])
    ensures Current(next)
  {
    forall k: nat
      ensures LastUpdate(next.log, k) == LastUpdate(c.log, k)
      ensures LastFill(next.log, k) == LastFill(c.log, k)
      ensures LastSubmission(next.log, k) == LastSubmission(c.log, k)
    {
      ElsewhereKeeps(c.log, more, k);
    }
    hide LastUpdate, LastFill, LastSubmission;
  }

  /** One position changed and told. */
  lemma UpdateCurrent(c: Core, next: Core, p: Position, now: Time)
    requires Current(c) && p.positionId < |c.positions| && next.positions == c.positions[p.positionId := p]
    requires next.orders == c.orders && next.log == c.log + [PositionUpdated(p, now)]
    ensures Current(next)
  {
    forall k: nat
      ensures LastUpdate(next.log, k) == if p.positionId == k then Some(p) else LastUpdate(c.log, k)
      ensures LastFill(next.log, k) == LastFill(c.log, k)
      ensures LastSubmission(next.log, k) == LastSubmission(c.log, k)
    {
      LastNext(c.log, PositionUpdated(p, now), k);
    }
    hide LastUpdate, LastFill, LastSubmission;
  }

  /** One order placed, filled and turned into a position. */
  lemma EntryCurrent(c: Core, next: Core, order: Order, p: Position, now: Time)
    requires Current(c) && order.orderId == |c.orders| && p.positionId == |c.positions|
    requires next.orders == c.orders + [order] && next.positions == c.positions + [p]
    requires next.log == c.log + EntryEvents(order, p, now)
    ensures Current(next)
  {
    var first, second, third := OrderSubmitted(Submission(order)), OrderFilled(order, now), PositionUpdated(p, now);
    assert next.log == c.log + [first] + [second] + [third];
    forall k: nat
      ensures LastUpdate(next.log, k) == if p.positionId == k then Some(p) else LastUpdate(c.log, k)
      ensures LastFill(next.log, k) == if order.orderId == k then Some(order) else LastFill(c.log, k)
      ensures LastSubmission(next.log, k)
              == if order.orderId == k then Some(Submission(order)) else LastSubmission(c.log, k)
    {
      LastNext(c.log, first, k);
      LastNext(c.log + [first], second, k);
      LastNext(c.log + [first] + [second], third, k);
    }
    hide LastUpdate, LastFill, LastSubmission;
  }

  lemma ExitCurrent(env: Env, c: Core, candle: Candle, history: seq<Candle>)
    requires Balanced(env, c) && Current(c)
    ensures Current(Exit(env, c, candle, history))
  {
    hide Current, Exited;
    var next := Exit(env, c, candle, history);
    if next != c {
      OpenIsLive(env, c);
      hide Balanced;
      var p := next.positions[c.proc.openId.value];
      ExitedKeepsId(c.OpenPosition(), c.OpenPosition().quantity);
      UpdateCurrent(c, next, p, env.wallClock(|history|));
    }
  }

  lemma ExitedKeepsId(p: Position, quantity: int)
    ensures forall price :: Exited(p, quantity, price).positionId == p.positionId
  {
  }

  lemma MarkCurrent(env: Env, c: Core, candle: Candle, history: seq<Candle>)
    requires Balanced(env, c) && Current(c)
    ensures Current(Mark(env, c, candle, history))
  {
    hide Current, SignedPnl;
    if c.HasOpen() {
      OpenIsLive(env, c);
      hide Balanced;
      UpdateCurrent(c, Mark(env, c, candle, history), Marked(c.OpenPosition(), candle.close), env.wallClock(|history|));
    }
  }

  lemma AnnouncedCurrent(env: Env, c: Core, candle: Candle, history: seq<Candle>)
    requires history != [] && !c.HasOpen() && Current(c)
    ensures Current(EvaluateEntry(env, c, candle, history))
  {
    hide *;
    var signals, at, approvals, entry := EntryAnnounces(env, c, candle, history);
    var told := c.(log := c.log + (signals + approvals));
    ApprovalsTold(env, c, candle, history, at, approvals);
    AllElsewhere(signals, approvals);
    NewIds(env, c, candle, history);
    ElsewhereCurrent(c, told, signals + approvals);
    assert c.log + signals + approvals == told.log;
    var next := EvaluateEntry(env, c, candle, history);
    if next.HasOpen() {
      EntryCurrent(told, next, next.orders[|c.orders|], next.positions[|c.positions|], env.wallClock(|history|));
    } else {
      assert next.log == told.log + [];
      ElsewhereCurrent(told, next, []);
    }
  }

  lemma ApprovalsTold(env: Env, c: Core, candle: Candle, history: seq<Candle>, at: seq<nat>, approvals: seq<Event>)
    requires history != [] && ApprovesAt(env, c, candle, history, at, approvals)
    ensures forall i :: 0 <= i < |approvals| ==> approvals[i].RiskApproved?
  {
    hide Offer;
  }

  lemma AllElsewhere(signals: seq<Event>, approvals: seq<Event>)
    requires forall i :: 0 <= i < |signals| ==> signals[i].SignalGenerated?
    requires forall i :: 0 <= i < |approvals| ==> approvals[i].RiskApproved?
    ensures forall i :: 0 <= i < |signals + approvals| ==> Elsewhere((signals + approvals)[i])
  {
  }

  lemma NewIds(env: Env, c: Core, candle: Candle, history: seq<Candle>)
    requires history != [] && !c.HasOpen()
    ensures var next := EvaluateEntry(env, c, candle, history);
            if next.HasOpen() then
              && |next.orders| == |c.orders| + 1 && next.orders == c.orders + [next.orders[|c.orders|]]
              && |next.positions| == |c.positions| + 1
              && next.positions == c.positions + [next.positions[|c.positions|]]
              && next.orders[|c.orders|].orderId == |c.orders|
              && next.positions[|c.positions|].positionId == |c.positions|
            else next.orders == c.orders && next.positions == c.positions
  {
    hide Decide;
  }

  lemma ReceiveCurrent(c: Core, candle: Candle)
    requires Current(c)
    ensures Current(Receive(c, candle))
  {
    hide Current;
    ElsewhereCurrent(c, Receive(c, candle), [MarketDataReceived(candle)]);
  }

  lemma SnapshotCurrent(c: Core)
    requires Current(c)
    ensures Current(TakeSnapshot(c))
  {
    hide Current;
    ElsewhereCurrent(c, TakeSnapshot(c), [PortfolioUpdated(c.book.Snapshot(c.positions))]);
  }

  lemma StepCurrent(env: Env, c: Core, candle: Candle, history: seq<Candle>)
    requires Balanced(env, c) && Current(c)
    ensures Current(Step(env, c, candle, history))
  {
    hide Balanced, Current, Receive, CheckExit, EvaluateEntry, MarkOpen, TakeSnapshot;
    var received := Receive(c, candle);
    ReceiveBalanced(env, c, candle);
    ReceiveCurrent(c, candle);
    if |history| > env.warmup {
      ExitCurrent(env, received, candle, history);
      if received.HasOpen() { ExitBalanced(env, received, candle, env.wallClock(|history|)); }
      var exited := Exit(env, received, candle, history);
      if !exited.HasOpen() {
        AnnouncedCurrent(env, exited, candle, history);
        EntryBalanced(env, exited, candle, history);
      }
      MarkCurrent(env, Entry(env, exited, candle, history), candle, history);
      SnapshotCurrent(Mark(env, Entry(env, exited, candle, history), candle, history));
    }
  }

  /** At the boundary of every candle, the last event about each position and each order carries it as it is, and
      no event is about any other. */
  lemma {:induction false} RunEventsAreCurrent(env: Env, candles: seq<Candle>)
    ensures Current(Run(env, candles))
  {
    if candles != [] {
      var n := |candles| - 1;
      RunEventsAreCurrent(env, candles[..n]);
      RunBalanced(env, candles[..n]);
      StepCurrent(env, Run(env, candles[..n]), candles[n], candles);
    }
  }

  // ---------------------------------------------------------------- when

  /** The events of a candle that carry an instant carry its own. */
  predicate Stamped(events: seq<Event>, now: Time) {
    forall i :: 0 <= i < |events| && (events[i].OrderFilled? || events[i].PositionUpdated?) ==> events[i].at == now
  }

  /** A log continued by events of one instant. */
  predicate Continues(before: seq<Event>, after: seq<Event>, now: Time) {
    before <= after && Stamped(after[|before|..], now)
  }

  lemma ContinuesBy(before: seq<Event>, after: seq<Event>, more: seq<Event>, now: Time)
    requires after == before + more && Stamped(more, now)
    ensures Continues(before, after, now)
  {
    assert after[|before|..] == more;
  }

  lemma ContinuesOn(a: seq<Event>, b: seq<Event>, c: seq<Event>, now: Time)
    requires Continues(a, b, now) && Continues(b, c, now)
    ensures Continues(a, c, now)
  {
    var first, second := b[|a|..], c[|b|..];
    assert c[|a|..] == first + second;
  }

  lemma ExitStamped(env: Env, c: Core, candle: Candle, history: seq<Candle>)
    requires c.OpenIdInRange()
    ensures Continues(c.log, Exit(env, c, candle, history).log, env.wallClock(|history|))
  {
    hide Exited, ExitPrice;
  }

  lemma EntryStamped(env: Env, c: Core, candle: Candle, history: seq<Candle>)
    requires c.OpenIdInRange() && history != []
    ensures Continues(c.log, Entry(env, c, candle, history).log, env.wallClock(|history|))
  {
    hide EvaluateEntry;
    if !c.HasOpen() { EvaluationStamped(env, c, candle, history); }
  }

  lemma EvaluationStamped(env: Env, c: Core, candle: Candle, history: seq<Candle>)
    requires history != [] && !c.HasOpen()
    ensures Continues(c.log, EvaluateEntry(env, c, candle, history).log, env.wallClock(|history|))
  {
    hide *;
    var signals, at, approvals, entry := EntryAnnounces(env, c, candle, history);
    var next, now := EvaluateEntry(env, c, candle, history), env.wallClock(|history|);
    ApprovalsTold(env, c, candle, history, at, approvals);
    NothingStamped(now);
    if next.HasOpen() { EventsStamped(next.orders[|c.orders|], next.positions[|c.positions|], now); }
    AnnouncementsStamped(signals, approvals, entry, now);
    assert next.log == c.log + (signals + approvals + entry);
    ContinuesBy(c.log, next.log, signals + approvals + entry, now);
  }

  lemma EventsStamped(order: Order, p: Position, now: Time)
    ensures Stamped(EntryEvents(order, p, now), now)
  {
  }

  lemma NothingStamped(now: Time)
    ensures Stamped([], now)
  {
  }

  lemma AnnouncementsStamped(signals: seq<Event>, approvals: seq<Event>, entry: seq<Event>, now: Time)
    requires forall i :: 0 <= i < |signals| ==> signals[i].SignalGenerated?
    requires forall i :: 0 <= i < |approvals| ==> approvals[i].RiskApproved?
    requires Stamped(entry, now)
    ensures Stamped(signals + approvals + entry, now)
  {
  }

  lemma MarkStamped(env: Env, c: Core, candle: Candle, history: seq<Candle>)
    requires c.OpenIdInRange()
    ensures Continues(c.log, Mark(env, c, candle, history).log, env.wallClock(|history|))
  {
    hide Marked;
  }

  /** Everything a candle publishes: its market data first, a snapshot last unless the warm-up is still on, and every
      fill and position update in between at the instant of that candle. */
  lemma CandleIsFramed(env: Env, candles: seq<Candle>)
    requires candles != []
    ensures var n := |candles| - 1;
            var before, log := Run(env, candles[..n]).log, Run(env, candles).log;
            && |before| < |log| && log[|before|] == MarketDataReceived(candles[n])
            && Continues(before, log, env.wallClock(|candles|))
            && (|candles| > env.warmup ==> |before| + 1 < |log| && log[|log| - 1].PortfolioUpdated?)
            && (|candles| <= env.warmup ==> |log| == |before| + 1)
  {
    var n := |candles| - 1;
    var c := Run(env, candles[..n]);
    assert Run(env, candles) == Step(env, c, candles[n], candles);
    hide Run;
    StepIsFramed(env, c, candles[n], candles);
  }

  lemma StepIsFramed(env: Env, c: Core, candle: Candle, history: seq<Candle>)
    requires c.OpenIdInRange() && history != []
    ensures var next := Step(env, c, candle, history);
            && |c.log| < |next.log| && next.log[|c.log|] == MarketDataReceived(candle)
            && Continues(c.log, next.log, env.wallClock(|history|))
            && (|history| > env.warmup ==> |c.log| + 1 < |next.log| && next.log[|next.log| - 1].PortfolioUpdated?)
            && (|history| <= env.warmup ==> |next.log| == |c.log| + 1)
  {
    var now := env.wallClock(|history|);
    var received := Receive(c, candle);
    ContinuesBy(c.log, received.log, [MarketDataReceived(candle)], now);
    if |history| > env.warmup {
      var exited := Exit(env, received, candle, history);
      var entered := Entry(env, exited, candle, history);
      var marked := Mark(env, entered, candle, history);
      ExitStamped(env, received, candle, history);
      EntryStamped(env, exited, candle, history);
      MarkStamped(env, entered, candle, history);
      hide Exit, Entry, Mark, Continues, Stamped;
      var last := PortfolioUpdated(marked.book.Snapshot(marked.positions));
      LastStamped(marked.log, last, now);
      ContinuesOn(received.log, exited.log, entered.log, now);
      ContinuesOn(received.log, entered.log, marked.log, now);
      FramedBy(c.log, received.log, marked.log, candle, last, now);
    }
  }

  lemma LastStamped(log: seq<Event>, last: Event, now: Time)
    requires last.PortfolioUpdated?
    ensures Continues(log, log + [last], now)
  {
    ContinuesBy(log, log + [last], [last], now);
  }

  lemma FramedBy(log: seq<Event>, received: seq<Event>, marked: seq<Event>, candle: Candle, last: Event, now: Time)
    requires received == log + [MarketDataReceived(candle)] && last.PortfolioUpdated?
    requires Continues(log, received, now) && Continues(received, marked, now)
    ensures |log| < |marked| && marked[|log|] == MarketDataReceived(candle)
    ensures Continues(log, marked + [last], now)
  {
    ContinuesOn(log, received, marked, now);
    LastStamped(marked, last, now);
    ContinuesOn(log, marked, marked + [last], now);
  }
}
