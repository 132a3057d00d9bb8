/** The paper-trading objects on their synchronous bus. */
module PaperTrading {
  import opened Arithmetic
  import opened Market
  import opened Rounding
  import opened PaperModels
  import opened Events
  import opened EventBuses

  // ---------------------------------------------------------------- orders

  /** A copy of an order in a new status; a rejection reason is only ever added. */
  function Moved(order: Order, status: OrderStatus, reason: Option<string>): Order {
    order.(status := status, rejectionReason := if reason.Some? then reason else order.rejectionReason)
  }

  class OrderManager {
    const bus: EventBus
    var orders: seq<Order>

    constructor (bus: EventBus)
      ensures this.bus == bus && orders == []
    {
      this.bus := bus;
      orders := [];
    }

    method CreateOrder(strategyName: string, direction: Direction, price: real, quantity: int,
                       stopLoss: real, target: real)
      returns (r: Result<Order>)
      modifies this
      ensures quantity <= 0 ==> r == Failure(InvalidOrder) && orders == old(orders)
      ensures quantity > 0 ==>
                && r == Success(NewOrder(|old(orders)|, strategyName, direction, price, quantity, stopLoss, target))
                && orders == old(orders) + [r.value]
    {
      var order := NewOrder(|orders|, strategyName, direction, price, quantity, stopLoss, target);
      if !order.Valid() { return Failure(InvalidOrder); }
      orders := orders + [order];
      r := Success(order);
    }

    /** Moves an order along the transition table, or leaves everything alone. */
    method Transition(orderId: nat, status: OrderStatus, reason: Option<string>) returns (r: Result<Order>)
      modifies this
      ensures var all := old(orders);
              if orderId >= |all| then r == Failure(NoSuchId) && orders == all
              else if status !in Transitions(all[orderId].status) then r == Failure(InvalidTransition) && orders == all
              else
                && r == Success(Moved(all[orderId], status, reason))
                && orders == all[orderId := r.value]
    {
      if orderId >= |orders| { return Failure(NoSuchId); }
      if status !in Transitions(orders[orderId].status) { return Failure(InvalidTransition); }
      var order := Moved(orders[orderId], status, reason);
      orders := orders[orderId := order];
      r := Success(order);
    }

    method Validate(orderId: nat) returns (r: Result<Order>)
      modifies this
      ensures var all := old(orders);
              if orderId >= |all| then r == Failure(NoSuchId) && orders == all
              else if all[orderId].status != New then r == Failure(InvalidTransition) && orders == all
              else
                && r == Success(all[orderId].(status := Validated))
                && orders == all[orderId := r.value]
    {
      r := Transition(orderId, Validated, None);
    }

    /** Submit to a broker: the submission is published before the broker answers, the fill after it.  An answer
        outside the transition table is refused, with the order left submitted. */
    method Submit(orderId: nat, broker: Order -> Order, now: Time) returns (r: Result<Order>)
      requires bus.Valid()
      modifies this, bus.Objects()
      ensures bus.Valid()
      ensures bus.health.processedCandles == old(bus.health.processedCandles)
      ensures var all := old(orders);
              if orderId >= |all| then r == Failure(NoSuchId) && orders == all && bus.log == old(bus.log)
              else if all[orderId].status != Validated then
                r == Failure(InvalidTransition) && orders == all && bus.log == old(bus.log)
              else
                var submitted := all[orderId].(status := Submitted);
                var answer := broker(submitted);
                var log := old(bus.log) + [OrderSubmitted(submitted)];
                if answer.status !in Transitions(Submitted) then
                  r == Failure(InvalidTransition) && orders == all[orderId := submitted] && bus.log == log
                else
                  && r == Success(answer)
                  && orders == all[orderId := answer]
                  && bus.log == (match answer.status
                                 case Filled => log + [OrderFilled(answer, now)]
                                 case PartiallyFilled => log + [OrderPartiallyFilled(answer)]
                                 case _ => log)
    {
      hide EventBus.Valid;
      var moved := Transition(orderId, Submitted, None);
      if moved.Failure? { return moved; }
      bus.Publish(OrderSubmitted(moved.value));
      var answer := broker(moved.value);
      if answer.status !in Transitions(moved.value.status) { return Failure(InvalidTransition); }
      orders := orders[orderId := answer];
      if answer.status == Filled {
        bus.Publish(OrderFilled(answer, now));
      } else if answer.status == PartiallyFilled {
        bus.Publish(OrderPartiallyFilled(answer));
      }
      r := Success(answer);
    }
  }

  // ---------------------------------------------------------------- positions

  class PositionManager {
    const bus: EventBus
    var positions: seq<Position>

    constructor (bus: EventBus)
      ensures this.bus == bus && positions == []
    {
      this.bus := bus;
      positions := [];
    }

    method OpenPosition(strategyName: string, direction: Direction, entry: real, quantity: int, now: Time)
      returns (r: Result<Position>)
      requires bus.Valid()
      modifies this, bus.Objects()
      ensures bus.Valid()
      ensures bus.health.processedCandles == old(bus.health.processedCandles)
      ensures quantity <= 0 ==> r == Failure(InvalidPosition) && positions == old(positions) && bus.log == old(bus.log)
      ensures quantity > 0 ==>
                && r == Success(NewPosition(|old(positions)|, strategyName, direction, entry, quantity))
                && positions == old(positions) + [r.value]
                && bus.log == old(bus.log) + [PositionUpdated(r.value, now)]
    {
      hide EventBus.Valid;
      var p := NewPosition(|positions|, strategyName, direction, entry, quantity);
      if !p.Valid() { return Failure(InvalidPosition); }
      positions := positions + [p];
      bus.Publish(PositionUpdated(p, now));
      r := Success(p);
    }

    method UpdateUnrealizedPnl(positionId: nat, price: real, now: Time) returns (r: Result<Position>)
      requires bus.Valid()
      modifies this, bus.Objects()
      ensures bus.Valid()
      ensures bus.health.processedCandles == old(bus.health.processedCandles)
      ensures var all := old(positions);
              if positionId >= |all| || all[positionId].status == Closed then
                r.Failure? && positions == all && bus.log == old(bus.log)
              else
                && r == Success(Marked(all[positionId], price))
                && positions == all[positionId := r.value]
                && bus.log == old(bus.log) + [PositionUpdated(r.value, now)]
    {
      hide EventBus.Valid, SignedPnl;
      if positionId >= |positions| { return Failure(NoSuchId); }
      var p := positions[positionId];
      if p.status == Closed { return Failure(PositionClosed); }
      var unrealized := SignedPnl(p.direction, p.averageEntryPrice, price, p.quantity);
      p := p.(unrealizedPnl := unrealized);
      positions := positions[positionId := p];
      bus.Publish(PositionUpdated(p, now));
      r := Success(p);
    }

    method Exit(positionId: nat, quantity: int, price: real, now: Time) returns (r: Result<Position>)
      requires bus.Valid()
      modifies this, bus.Objects()
      ensures bus.Valid()
      ensures bus.health.processedCandles == old(bus.health.processedCandles)
      ensures var all := old(positions);
              if positionId >= |all| || all[positionId].status == Closed
                 || quantity <= 0 || quantity > all[positionId].quantity then
                r.Failure? && positions == all && bus.log == old(bus.log)
              else
                && r == Success(Exited(all[positionId], quantity, price))
                && positions == all[positionId := r.value]
                && bus.log == old(bus.log) + [PositionUpdated(r.value, now)]
    {
      hide EventBus.Valid, SignedPnl;
      if positionId >= |positions| { return Failure(NoSuchId); }
      var p := positions[positionId];
      if p.status == Closed { return Failure(PositionClosed); }
      if quantity <= 0 || quantity > p.quantity { return Failure(BadQuantity); }
      var realized := p.realizedPnl + SignedPnl(p.direction, p.averageEntryPrice, price, quantity);
      var remaining := p.quantity - quantity;
      if remaining == 0 {
        p := p.(quantity := 0, realizedPnl := realized, unrealizedPnl := 0, status := Closed);
      } else {
        p := p.(quantity := remaining, realizedPnl := realized, status := PartiallyExited);
      }
      positions := positions[positionId := p];
      bus.Publish(PositionUpdated(p, now));
      r := Success(p);
    }
  }

  // ---------------------------------------------------------------- portfolio

  class PortfolioManager {
    const bus: EventBus
    const positionManager: PositionManager
    const availableMargin: Money
    var cash: Money
    var dailyPnl: Money
    var peakEquity: Money

    constructor (initialCash: Money, positionManager: PositionManager, bus: EventBus)
      ensures this.bus == bus && this.positionManager == positionManager
      ensures View() == Book(initialCash, initialCash, 0, initialCash)
    {
      this.bus, this.positionManager := bus, positionManager;
      cash, availableMargin, dailyPnl, peakEquity := initialCash, initialCash, 0, initialCash;
    }

    function View(): Book
      reads this
    {
      Book(cash, availableMargin, dailyPnl, peakEquity)
    }

    method RecordCashChange(delta: Money)
      modifies this
      ensures View() == old(View()).Record(delta)
    {
      cash := cash + delta;
      dailyPnl := dailyPnl + delta;
    }

    method Snapshot() returns (portfolio: Portfolio)
      requires bus.Valid()
      modifies this, bus.Objects()
      ensures bus.Valid()
      ensures bus.health.processedCandles == old(bus.health.processedCandles)
      ensures View() == old(View()).Snapped(positionManager.positions)
      ensures portfolio == old(View()).Snapshot(positionManager.positions)
      ensures bus.log == old(bus.log) + [PortfolioUpdated(portfolio)]
    {
      hide EventBus.Valid, Total, IdsWhere;
      var totalEquity := cash + Total(UnrealizedOf, positionManager.positions);
      peakEquity := Max(peakEquity, totalEquity);
      portfolio := Portfolio(cash, availableMargin,
                             IdsWhere(IsOpen, positionManager.positions), IdsWhere(IsClosed, positionManager.positions),
                             dailyPnl, totalEquity, peakEquity);
      bus.Publish(PortfolioUpdated(portfolio));
    }
  }
}
