/** The domain events published on the bus. */
module Events {
  import opened Market
  import opened PaperModels
  import opened RiskEngine

  /** Fill and position events carry the wall-clock instant of the change they report. */
  datatype Event =
    | MarketDataReceived(candle: Candle)
    | SignalGenerated(evaluation: Evaluation)
    | RiskApproved(assessment: RiskAssessment)
    | OrderSubmitted(order: Order)
    | OrderPartiallyFilled(order: Order)
    | OrderFilled(order: Order, at: Time)
    | OrderCancelled(order: Order)
    | OrderRejected(order: Order)
    | PositionUpdated(position: Position, at: Time)
    | PortfolioUpdated(portfolio: Portfolio)

  /** The exact type of an event, by which the bus dispatches. */
  datatype EventKind =
    | MarketKind
    | SignalKind
    | RiskKind
    | SubmittedKind
    | PartialKind
    | FilledKind
    | CancelledKind
    | RejectedKind
    | PositionKind
    | PortfolioKind

  function KindOf(e: Event): EventKind {
    match e
    case MarketDataReceived(_) => MarketKind
    case SignalGenerated(_) => SignalKind
    case RiskApproved(_) => RiskKind
    case OrderSubmitted(_) => SubmittedKind
    case OrderPartiallyFilled(_) => PartialKind
    case OrderFilled(_, _) => FilledKind
    case OrderCancelled(_) => CancelledKind
    case OrderRejected(_) => RejectedKind
    case PositionUpdated(_, _) => PositionKind
    case PortfolioUpdated(_) => PortfolioKind
  }
}
