/** Orders, positions and portfolio snapshots of the paper-trading engine. */
module PaperModels {
  import opened Arithmetic
  import opened Market
  import opened Rounding

  datatype Error = NoSuchId | InvalidTransition | InvalidOrder | InvalidPosition | PositionClosed | BadQuantity

  datatype Result<+T> = Success(value: T) | Failure(error: Error)

  // ---------------------------------------------------------------- orders

  datatype OrderStatus = New | Validated | Submitted | PartiallyFilled | Filled | Cancelled | Rejected

  function Transitions(status: OrderStatus): set<OrderStatus> {
    match status
    case New => {Validated, Rejected}
    case Validated => {Submitted, Rejected}
    case Submitted => {Filled, PartiallyFilled, Cancelled, Rejected}
    case PartiallyFilled => {Filled, Cancelled}
    case Filled => {}
    case Cancelled => {}
    case Rejected => {}
  }

  /** From where each status is reached. */
  predicate Reachable(from: OrderStatus, status: OrderStatus) {
    match status
    case New => false
    case Validated => from == New
    case Submitted => from == Validated
    case PartiallyFilled => from == Submitted
    case Filled => from == Submitted || from == PartiallyFilled
    case Cancelled => from == Submitted || from == PartiallyFilled
    case Rejected => from == New || from == Validated || from == Submitted
  }

  lemma TransitionsAre(from: OrderStatus, status: OrderStatus)
    ensures status in Transitions(from) <==> Reachable(from, status)
  {
  }

  /** The statuses an order passes through. */
  predicate Life(statuses: seq<OrderStatus>) {
    && statuses != [] && statuses[0] == New
    && forall i :: 0 < i < |statuses| ==> statuses[i] in Transitions(statuses[i - 1])
  }

  function Stage(status: OrderStatus): nat {
    match status
    case New => 0
    case Validated => 1
    case Submitted => 2
    case PartiallyFilled => 3
    case _ => 4
  }

  /** An order only moves on: it never returns to a status, and after five of them at most it is filled, cancelled or
      rejected; a filled one was submitted before. */
  lemma {:induction false} LivesMoveOn(statuses: seq<OrderStatus>)
    requires Life(statuses)
    ensures forall i, j :: 0 <= i < j < |statuses| ==> Stage(statuses[i]) < Stage(statuses[j])
    ensures |statuses| <= Stage(statuses[|statuses| - 1]) + 1 <= 5
    ensures statuses[|statuses| - 1] in {Submitted, PartiallyFilled, Filled, Cancelled} ==> Submitted in statuses
    ensures |statuses| == 5 ==> statuses[|statuses| - 1] in {Filled, Cancelled}
  {
    var n := |statuses| - 1;
    if n > 0 {
      var front := statuses[..n];
      LivesMoveOn(front);
      TransitionsAre(statuses[n - 1], statuses[n]);
      assert front[n - 1] == statuses[n - 1];
      assert forall i :: 0 <= i < n ==> front[i] == statuses[i] && Stage(front[i]) <= Stage(front[n - 1]);
      assert Submitted in front ==> Submitted in statuses;
    } else {
      assert statuses[0] == New;
    }
  }

  /** Ids are fresh when created and entries are never removed, so the k-th order has id k. */
  datatype Order = Order(
    orderId: nat,
    strategyName: string,
    direction: Direction,
    requestedPrice: real,
    requestedQuantity: int,
    filledQuantity: int,
    averageFillPrice: Option<real>,
    stopLoss: real,
    target: real,
    status: OrderStatus,
    rejectionReason: Option<string>)
  {
    predicate Valid() { 0 < requestedQuantity && 0 <= filledQuantity <= requestedQuantity }

    /** average_fill_price or requested_price: an absent or zero fill price falls back. */
    function FillPrice(): real {
      if averageFillPrice.Some? && averageFillPrice.value != 0.0 then averageFillPrice.value else requestedPrice
    }
  }

  /** The price of a fill is its average, and the requested price in place of an absent or zero one. */
  lemma FillPriceIs(order: Order)
    ensures forall p :: order.averageFillPrice == Some(p) && p != 0.0 ==> order.FillPrice() == p
    ensures order.averageFillPrice in {None, Some(0.0)} ==> order.FillPrice() == order.requestedPrice
  {
  }

  function NewOrder(id: nat, strategyName: string, direction: Direction, price: real, quantity: int,
                    stopLoss: real, target: real): Order
  {
    Order(id, strategyName, direction, price, quantity, 0, None, stopLoss, target, New, None)
  }

  /** The paper broker: fill everything at once at the requested price. */
  function PaperFill(order: Order): Order {
    order.(status := Filled, filledQuantity := order.requestedQuantity, averageFillPrice := Some(order.requestedPrice))
  }

  // ---------------------------------------------------------------- positions

  datatype PositionStatus = Open | PartiallyExited | Closed

  datatype Position = Position(
    positionId: nat,
    strategyName: string,
    direction: Direction,
    averageEntryPrice: real,
    quantity: int,
    initialQuantity: int,
    realizedPnl: Money,
    unrealizedPnl: Money,
    status: PositionStatus)
  {
    predicate Valid() { 0 < initialQuantity && 0 <= quantity <= initialQuantity }
  }

  function NewPosition(id: nat, strategyName: string, direction: Direction, entry: real, quantity: int): Position {
    Position(id, strategyName, direction, entry, quantity, quantity, 0, 0, Open)
  }

  /** The gain of moving a quantity from the entry price to a price, before rounding. */
  function Gain(direction: Direction, entry: real, price: real, quantity: int): real {
    if direction == Short then -((price - entry) * quantity as real) else (price - entry) * quantity as real
  }

  function SignedPnl(direction: Direction, entry: real, price: real, quantity: int): Money {
    ToMoney(Gain(direction, entry, price, quantity))
  }

  function Marked(p: Position, price: real): Position {
    p.(unrealizedPnl := SignedPnl(p.direction, p.averageEntryPrice, price, p.quantity))
  }

  function Exited(p: Position, quantity: int, price: real): Position {
    var realized := p.realizedPnl + SignedPnl(p.direction, p.averageEntryPrice, price, quantity);
    if p.quantity == quantity then
      p.(quantity := 0, realizedPnl := realized, unrealizedPnl := 0, status := Closed)
    else
      p.(quantity := p.quantity - quantity, realizedPnl := realized, status := PartiallyExited)
  }

  /** Pnl follows the price upwards for a long position and downwards for a short one. */
  lemma PnlMonotone(direction: Direction, entry: real, lower: real, upper: real, quantity: int)
    requires lower <= upper && quantity >= 0
    ensures direction != Short ==>
              SignedPnl(direction, entry, lower, quantity) <= SignedPnl(direction, entry, upper, quantity)
    ensures direction == Short ==>
              SignedPnl(direction, entry, upper, quantity) <= SignedPnl(direction, entry, lower, quantity)
  {
    MulMonotone(lower - entry, upper - entry, quantity as real);
    if direction == Short {
      ToMoneyMonotone(Gain(direction, entry, upper, quantity), Gain(direction, entry, lower, quantity));
    } else {
      ToMoneyMonotone(Gain(direction, entry, lower, quantity), Gain(direction, entry, upper, quantity));
    }
  }

  /** The pnl is what the quantity gains by the move of the price, to the nearest ten-thousandth; a short position
      gains exactly what a long one loses. */
  lemma PnlIsGain(entry: real, price: real, quantity: int)
    ensures Abs(Amount(SignedPnl(Long, entry, price, quantity)) - quantity as real * (price - entry)) <= HALF_UNIT
    ensures SignedPnl(NoDirection, entry, price, quantity) == SignedPnl(Long, entry, price, quantity)
    ensures SignedPnl(Short, entry, price, quantity) == -SignedPnl(Long, entry, price, quantity)
    ensures SignedPnl(Long, entry, price, quantity) == ToMoney(quantity as real * (price - entry))
  {
    var gain := (price - entry) * quantity as real;
    assert gain == quantity as real * (price - entry);
    ToMoneyNear(gain);
    ToMoneyOdd(gain);
    hide ToMoney;
  }

  /** An exit of some quantity: what is left, what was realized by it, and the state it leads to. */
  lemma ExitLeaves(p: Position, quantity: int, price: real)
    ensures var q := Exited(p, quantity, price);
            && q.quantity + quantity == p.quantity
            && q.realizedPnl - p.realizedPnl == SignedPnl(p.direction, p.averageEntryPrice, price, quantity)
            && (q.status == Closed <==> q.quantity == 0) && q.status != Open
            && q.unrealizedPnl == (if q.quantity == 0 then 0 else p.unrealizedPnl)
            && q == p.(quantity := q.quantity, realizedPnl := q.realizedPnl, status := q.status,
                       unrealizedPnl := q.unrealizedPnl)
  {
    hide SignedPnl;
  }

  // ---------------------------------------------------------------- views and totals over positions

  predicate IsOpen(p: Position) { p.status != Closed }

  predicate IsClosed(p: Position) { p.status == Closed }

  /** Ids of the positions that satisfy a condition, in the order they were opened. */
  function IdsWhere(cond: Position -> bool, positions: seq<Position>): seq<nat> {
    if positions == [] then []
    else
      var n := |positions| - 1;
      IdsWhere(cond, positions[..n]) + (if cond(positions[n]) then [positions[n].positionId] else [])
  }

  function Total(f: Position -> int, positions: seq<Position>): int {
    if positions == [] then 0 else Total(f, positions[..|positions| - 1]) + f(positions[|positions| - 1])
  }

  function UnrealizedOf(p: Position): Money { if IsOpen(p) then p.unrealizedPnl else 0 }
  function RealizedOf(p: Position): Money { if IsOpen(p) then 0 else p.realizedPnl }
  function WinOf(p: Position): int { if !IsOpen(p) && p.realizedPnl > 0 then 1 else 0 }
  function LossOf(p: Position): int { if !IsOpen(p) && p.realizedPnl < 0 then 1 else 0 }

  lemma TotalAppend(f: Position -> int, positions: seq<Position>, p: Position)
    ensures Total(f, positions + [p]) == Total(f, positions) + f(p)
  {
  }

  lemma {:induction false} TotalUpdate(f: Position -> int, positions: seq<Position>, k: nat, p: Position)
    requires k < |positions|
    ensures Total(f, positions[k := p]) == Total(f, positions) - f(positions[k]) + f(p)
  {
    var n := |positions| - 1;
    if k == n {
      assert positions[k := p][..n] == positions[..n];
    } else {
      TotalUpdate(f, positions[..n], k, p);
      assert positions[k := p][..n] == positions[..n][k := p];
    }
  }

  /** A total to which at most the position at k contributes. */
  lemma {:induction false} TotalOfOne(f: Position -> int, positions: seq<Position>, k: Option<nat>)
    requires k.Some? ==> k.value < |positions|
    requires forall i: nat :: i < |positions| && k != Some(i) ==> f(positions[i]) == 0
    ensures Total(f, positions) == if k.Some? then f(positions[k.value]) else 0
  {
    if positions != [] {
      var n := |positions| - 1;
      TotalOfOne(f, positions[..n], if k == Some(n) then None else k);
    }
  }

  // ---------------------------------------------------------------- portfolio

  datatype Portfolio = Portfolio(
    cash: Money,
    availableMargin: Money,
    openPositionIds: seq<nat>,
    closedPositionIds: seq<nat>,
    dailyPnl: Money,
    totalEquity: Money,
    peakEquity: Money)
  {
    function Drawdown(): Money { Max(0, peakEquity - totalEquity) }
  }

  /** The fields the portfolio manager keeps between snapshots. */
  datatype Book = Book(cash: Money, availableMargin: Money, dailyPnl: Money, peakEquity: Money)
  {
    function Record(delta: Money): Book { this.(cash := cash + delta, dailyPnl := dailyPnl + delta) }

    function Equity(positions: seq<Position>): Money { cash + Total(UnrealizedOf, positions) }

    function Snapped(positions: seq<Position>): Book {
      this.(peakEquity := Max(peakEquity, Equity(positions)))
    }

    function Snapshot(positions: seq<Position>): Portfolio {
      Portfolio(cash, availableMargin, IdsWhere(IsOpen, positions), IdsWhere(IsClosed, positions),
                dailyPnl, Equity(positions), Max(peakEquity, Equity(positions)))
    }
  }
}
