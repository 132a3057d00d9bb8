/** The synchronous event bus and the observers the runtime subscribes to it. */
module EventBuses {
  import opened Arithmetic
  import opened Rounding
  import opened PaperModels
  import opened Events
  import opened Monitors
  import opened SignalStep
  import opened SignalServices

  class ExecutionJournal {
    var entries: seq<JournalEntry>

    constructor ()
      ensures entries == []
    {
      entries := [];
    }

    method RecordEvent(e: Event)
      modifies this
      ensures entries == old(entries) + Recorded(e)
    {
      entries := entries + Recorded(e);
    }
  }

  class PerformanceMonitor {
    var ordersSubmitted: nat
    var ordersFilled: nat
    var ordersRejected: nat
    var ordersCancelled: nat
    var wins: nat
    var losses: nat
    var latestDailyPnl: Money
    var maxDrawdown: Money

    constructor ()
      ensures View() == NoPerformance()
    {
      ordersSubmitted, ordersFilled, ordersRejected, ordersCancelled := 0, 0, 0, 0;
      wins, losses, latestDailyPnl, maxDrawdown := 0, 0, 0, 0;
    }

    function View(): Performance
      reads this
    {
      Performance(ordersSubmitted, ordersFilled, ordersRejected, ordersCancelled,
                  wins, losses, latestDailyPnl, maxDrawdown)
    }

    method Handle(e: Event)
      modifies this
      ensures View() == old(View()).On(e)
    {
      match e
      case OrderSubmitted(_) => ordersSubmitted := ordersSubmitted + 1;
      case OrderFilled(_, _) => ordersFilled := ordersFilled + 1;
      case OrderRejected(_) => ordersRejected := ordersRejected + 1;
      case OrderCancelled(_) => ordersCancelled := ordersCancelled + 1;
      case PositionUpdated(p, _) =>
        if p.status != Closed { return; }
        if p.realizedPnl > 0 { wins := wins + 1; }
        else if p.realizedPnl < 0 { losses := losses + 1; }
      case PortfolioUpdated(portfolio) =>
        latestDailyPnl := portfolio.dailyPnl;
        maxDrawdown := Max(maxDrawdown, portfolio.Drawdown());
      case _ =>
    }
  }

  class HealthMonitor {
    var eventsPublished: nat
    var ordersGenerated: nat
    var processedCandles: nat

    constructor ()
      ensures View() == Health(0, 0) && processedCandles == 0
    {
      eventsPublished, ordersGenerated, processedCandles := 0, 0, 0;
    }

    function View(): Health
      reads this
    {
      Health(eventsPublished, ordersGenerated)
    }

    method RecordCandleProcessed()
      modifies this`processedCandles
      ensures processedCandles == old(processedCandles) + 1
    {
      processedCandles := processedCandles + 1;
    }

    method OnAnyEvent()
      modifies this`eventsPublished
      ensures View() == old(View()).Published()
    {
      eventsPublished := eventsPublished + 1;
    }

    method OnOrderSubmitted()
      modifies this`ordersGenerated
      ensures View() == old(View()).Generated()
    {
      ordersGenerated := ordersGenerated + 1;
    }
  }

  // ---------------------------------------------------------------- subscriptions

  /** The subscribed callables: those of the runtime's observers, of which the health monitor has two, and those of
      somebody else, which leave these observers alone and either return or raise. */
  datatype Handler = RecordIt | CountIt | CountAny | CountOrder | ReportIt | Foreign | Raising

  type Table = map<EventKind, seq<Handler>>

  function HandlersFor(table: Table, kind: EventKind): seq<Handler> { if kind in table then table[kind] else [] }

  /** What the observers hold. */
  datatype Observed = Observed(
    journal: seq<JournalEntry>,
    performance: Performance,
    health: Health,
    signals: Signals)

  ghost function Handled(config: SignalConfig, o: Observed, handler: Handler, e: Event): (r: Observed)
    requires o.signals.NoDangling()
    ensures r.signals.NoDangling()
  {
    match handler
    case RecordIt => o.(journal := o.journal + Recorded(e))
    case CountIt => o.(performance := o.performance.On(e))
    case CountAny => o.(health := o.health.Published())
    case CountOrder => o.(health := o.health.Generated())
    case ReportIt => o.(signals := OnEvent(config, o.signals, e))
    case _ => o
  }

  /** An event handed to a list of handlers, in order. */
  ghost function Delivered(config: SignalConfig, o: Observed, handlers: seq<Handler>, e: Event): (r: Observed)
    requires o.signals.NoDangling()
    ensures r.signals.NoDangling()
  {
    if handlers == [] then o
    else
      var n := |handlers| - 1;
      Handled(config, Delivered(config, o, handlers[..n], e), handlers[n], e)
  }

  /** The handlers that get to return: those before the first one that raises. */
  function Called(handlers: seq<Handler>): seq<Handler> {
    if handlers == [] || handlers[0] == Raising then [] else [handlers[0]] + Called(handlers[1..])
  }

  lemma {:induction false} CalledUpTo(handlers: seq<Handler>, i: nat)
    requires i <= |handlers| && (i == |handlers| || handlers[i] == Raising)
    requires forall j :: 0 <= j < i ==> handlers[j] != Raising
    ensures Called(handlers) == handlers[..i]
  {
    if i > 0 { CalledUpTo(handlers[1..], i - 1); }
  }

  /** The kinds of event each handler of the runtime subscribes to. */
  function Kinds(handler: Handler): seq<EventKind> {
    match handler
    case RecordIt =>
      [SignalKind, RiskKind, SubmittedKind, FilledKind, PartialKind, CancelledKind, RejectedKind, PositionKind,
       PortfolioKind]
    case CountIt => [SubmittedKind, FilledKind, RejectedKind, CancelledKind, PositionKind, PortfolioKind]
    case CountAny =>
      [MarketKind, SignalKind, RiskKind, SubmittedKind, PartialKind, FilledKind, CancelledKind, RejectedKind,
       PositionKind, PortfolioKind]
    case CountOrder => [SubmittedKind]
    case ReportIt => [SignalKind, FilledKind, PositionKind, MarketKind]
    case _ => []
  }

  predicate Distinct(kinds: seq<EventKind>) { forall i, j :: 0 <= i < j < |kinds| ==> kinds[i] != kinds[j] }

  lemma KindsDistinct(handler: Handler)
    ensures Distinct(Kinds(handler))
  {
  }

  function If(handler: Handler, kind: EventKind, kinds: seq<EventKind>): seq<Handler> {
    if kind in kinds then [handler] else []
  }

  function Own(handler: Handler, kind: EventKind): seq<Handler> { If(handler, kind, Kinds(handler)) }

  /** The runtime's wiring: journal, performance monitor, health monitor, then the signal service. */
  function Wired(kind: EventKind): seq<Handler> {
    Own(RecordIt, kind) + Own(CountIt, kind) + Own(CountAny, kind) + Own(CountOrder, kind) + Own(ReportIt, kind)
  }

  ghost function HandledIf(config: SignalConfig, o: Observed, subscribed: bool, handler: Handler, e: Event)
    : (r: Observed)
    requires o.signals.NoDangling()
    ensures r.signals.NoDangling()
  {
    if subscribed then Handled(config, o, handler, e) else o
  }

  /** One more handler at the end of a list. */
  lemma DeliveredNext(config: SignalConfig, o: Observed, list: seq<Handler>, handler: Handler, e: Event)
    requires o.signals.NoDangling()
    ensures Delivered(config, o, list + Own(handler, KindOf(e)), e)
            == HandledIf(config, Delivered(config, o, list, e), KindOf(e) in Kinds(handler), handler, e)
  {
    hide Handled, KindOf, Kinds;
    if KindOf(e) in Kinds(handler) {
      assert (list + [handler])[..|list|] == list;
    } else {
      assert list + [] == list;
    }
  }

  /** The five handlers in a row. */
  lemma DeliveredInTurn(config: SignalConfig, o: Observed, e: Event)
    requires o.signals.NoDangling()
    ensures var k := KindOf(e);
            var recorded := HandledIf(config, o, k in Kinds(RecordIt), RecordIt, e);
            var counted := HandledIf(config, recorded, k in Kinds(CountIt), CountIt, e);
            var any := HandledIf(config, counted, k in Kinds(CountAny), CountAny, e);
            var ordered := HandledIf(config, any, k in Kinds(CountOrder), CountOrder, e);
            Delivered(config, o, Own(RecordIt, k) + Own(CountIt, k) + Own(CountAny, k) + Own(CountOrder, k)
                                 + Own(ReportIt, k), e)
            == HandledIf(config, ordered, k in Kinds(ReportIt), ReportIt, e)
  {
    var k := KindOf(e);
    DeliveredNothing(config, o, e);
    hide *;
    var a, b, c, d := Own(RecordIt, k), Own(CountIt, k), Own(CountAny, k), Own(CountOrder, k);
    DeliveredNext(config, o, [], RecordIt, e);
    assert [] + a == a;
    DeliveredNext(config, o, a, CountIt, e);
    DeliveredNext(config, o, a + b, CountAny, e);
    DeliveredNext(config, o, a + b + c, CountOrder, e);
    DeliveredNext(config, o, a + b + c + d, ReportIt, e);
  }

  lemma DeliveredNothing(config: SignalConfig, o: Observed, e: Event)
    requires o.signals.NoDangling()
    ensures Delivered(config, o, [], e) == o
  {
  }

  /** A handler that does not subscribe to an event would not have changed anything. */
  lemma Unsubscribed(config: SignalConfig, o: Observed, e: Event)
    requires o.signals.NoDangling()
    ensures HandledIf(config, o, KindOf(e) in Kinds(RecordIt), RecordIt, e) == o.(journal := o.journal + Recorded(e))
    ensures HandledIf(config, o, KindOf(e) in Kinds(CountIt), CountIt, e) == o.(performance := o.performance.On(e))
    ensures HandledIf(config, o, KindOf(e) in Kinds(ReportIt), ReportIt, e)
            == o.(signals := OnEvent(config, o.signals, e))
  {
    hide OnOrderFilled, OnPositionUpdated, OnMarketData, OnSignalGenerated;
  }

  /** The health monitor counts every event, and submissions once more. */
  lemma HealthSeesAll(config: SignalConfig, o: Observed, e: Event)
    requires o.signals.NoDangling()
    ensures var any := HandledIf(config, o, KindOf(e) in Kinds(CountAny), CountAny, e);
            HandledIf(config, any, KindOf(e) in Kinds(CountOrder), CountOrder, e) == o.(health := o.health.On(e))
  {
    hide OnEvent, Performance.On, Recorded;
  }

  /** Under that wiring every observer sees every event it counts exactly once. */
  lemma WiredDelivers(config: SignalConfig, o: Observed, e: Event)
    requires o.signals.NoDangling()
    ensures Delivered(config, o, Wired(KindOf(e)), e)
            == Observed(o.journal + Recorded(e), o.performance.On(e), o.health.On(e), OnEvent(config, o.signals, e))
  {
    WiredIs(KindOf(e));
    hide *;
    DeliveredInTurn(config, o, e);
    Unsubscribed(config, o, e);
    var recorded := o.(journal := o.journal + Recorded(e));
    Unsubscribed(config, recorded, e);
    var counted := recorded.(performance := o.performance.On(e));
    HealthSeesAll(config, counted, e);
    Unsubscribed(config, counted.(health := o.health.On(e)), e);
  }

  lemma WiredIs(kind: EventKind)
    ensures Wired(kind)
            == Own(RecordIt, kind) + Own(CountIt, kind) + Own(CountAny, kind) + Own(CountOrder, kind)
               + Own(ReportIt, kind)
    ensures Raising !in Wired(kind)
  {
    hide Kinds;
  }

  /** None of the runtime's handlers raises. */
  lemma WiredCalled(kind: EventKind)
    ensures Called(Wired(kind)) == Wired(kind) && Raising !in Wired(kind)
  {
    WiredIs(kind);
    hide Wired;
    CalledUpTo(Wired(kind), |Wired(kind)|);
  }

  lemma DeliveredOne(config: SignalConfig, o: Observed, list: seq<Handler>, i: nat, e: Event)
    requires o.signals.NoDangling() && i < |list|
    ensures Delivered(config, o, list[..i + 1], e) == Handled(config, Delivered(config, o, list[..i], e), list[i], e)
  {
    hide Handled;
    assert list[..i + 1][..i] == list[..i];
  }

  /** The bus, with the observers behind its handlers; the ghost log is the history the observers are compared
      with. */
  class EventBus {
    const journal: ExecutionJournal
    const performance: PerformanceMonitor
    const health: HealthMonitor
    const signals: SignalService
    var handlers: Table
    ghost var log: seq<Event>

    constructor (config: SignalConfig)
      ensures Valid() && log == [] && signals.config == config && health.processedCandles == 0
      ensures fresh(Objects())
    {
      journal := new ExecutionJournal();
      performance := new PerformanceMonitor();
      health := new HealthMonitor();
      signals := new SignalService(config);
      handlers := map[];
      log := [];
      new;
      Wire();
    }

    /** Every observer subscribes itself, in the order the runtime builds them. */
    method Wire()
      requires handlers == map[]
      modifies this`handlers
      ensures forall kind :: HandlersFor(handlers, kind) == Wired(kind)
    {
      hide If, Kinds;
      SubscribeTo(RecordIt);
      SubscribeTo(CountIt);
      SubscribeTo(CountAny);
      SubscribeTo(CountOrder);
      SubscribeTo(ReportIt);
    }

    ghost function Objects(): set<object> {
      {this, journal, performance, health, signals, signals.filter, signals.tracker}
    }

    ghost function View(): Observed
      reads Objects()
    {
      Observed(journal.entries, performance.View(), health.View(), signals.View())
    }

    /** The runtime's wiring, with each observer in the state that observing the whole log leads to. */
    ghost predicate Valid()
      reads Objects()
    {
      && (forall kind :: HandlersFor(handlers, kind) == Wired(kind))
      && signals.Valid()
      && View() == Observed(JournalAfter(log), PerformanceAfter(log), HealthAfter(log), Observe(signals.config, log))
    }

    method Subscribe(kind: EventKind, handler: Handler)
      modifies this`handlers
      ensures forall k :: HandlersFor(handlers, k)
                          == HandlersFor(old(handlers), k) + (if k == kind then [handler] else [])
    {
      handlers := handlers[kind := HandlersFor(handlers, kind) + [handler]];
    }

    /** One handler for all its kinds of event. */
    method SubscribeTo(handler: Handler)
      modifies this`handlers
      ensures forall k :: HandlersFor(handlers, k) == HandlersFor(old(handlers), k) + Own(handler, k)
    {
      KindsDistinct(handler);
      hide Kinds;
      var kinds := Kinds(handler);
      for i := 0 to |kinds|
        invariant forall k :: HandlersFor(handlers, k) == HandlersFor(old(handlers), k) + If(handler, k, kinds[..i])
      {
        Subscribe(kinds[i], handler);
      }
      assert kinds[..|kinds|] == kinds;
    }

    /** Calls every handler subscribed to the event's exact type, in subscription order, until one raises; for any
        table of subscriptions. */
    method Dispatch(e: Event) returns (raised: bool)
      requires signals.Valid()
      modifies Objects() - {this}
      ensures var list := HandlersFor(handlers, KindOf(e));
              && raised == (Raising in list)
              && signals.Valid() && View() == Delivered(signals.config, old(View()), Called(list), e)
      ensures health.processedCandles == old(health.processedCandles)
    {
      hide Handled, Called;
      var list := HandlersFor(handlers, KindOf(e));
      for i := 0 to |list|
        invariant forall j :: 0 <= j < i ==> list[j] != Raising
        invariant signals.Valid() && View() == Delivered(signals.config, old(View()), list[..i], e)
        invariant health.processedCandles == old(health.processedCandles)
      {
        if list[i] == Raising {
          CalledUpTo(list, i);
          return true;
        }
        DeliveredOne(signals.config, old(View()), list, i, e);
        Call(list[i], e);
      }
      CalledUpTo(list, |list|);
      raised := false;
    }

    method Call(handler: Handler, e: Event)
      requires signals.Valid()
      modifies Objects() - {this}
      ensures signals.Valid() && View() == Handled(signals.config, old(View()), handler, e)
      ensures health.processedCandles == old(health.processedCandles)
    {
      hide OnEvent, Performance.On, Recorded;
      match handler
      case RecordIt => journal.RecordEvent(e);
      case CountIt => performance.Handle(e);
      case CountAny => health.OnAnyEvent();
      case CountOrder => health.OnOrderSubmitted();
      case ReportIt => signals.Handle(e);
      case _ =>
    }

    /** Under the runtime's own wiring nothing raises and every observer follows the log. */
    method Publish(e: Event)
      requires Valid()
      modifies Objects()
      ensures Valid() && log == old(log) + [e]
      ensures health.processedCandles == old(health.processedCandles)
    {
      hide PerformanceAfter, HealthAfter, JournalAfter, Observe, OnEvent, Performance.On, Health.On, Recorded, Wired,
           Delivered, Handled, Called;
      ghost var before := View();
      WiredCalled(KindOf(e));
      var raised := Dispatch(e);
      assert !raised;
      WiredDelivers(signals.config, before, e);
      AfterNext(log, e);
      JournalNext(log, e);
      ObserveNext(signals.config, log, e);
      log := log + [e];
    }
  }
}
