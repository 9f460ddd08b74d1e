// The records of src/trader/domain/models.py. Times are seconds since the epoch
// (UTC); the LLM's own columns (confidence, rationale, hashes) are left out.
module Models {
  import opened Money

  datatype Result<+T, +E> = Ok(value: T) | Err(error: E)
  datatype Option<+T> = None | Some(value: T) {
    function GetOr(default: T): T { if Some? then value else default }
  }

  type Id = string
  type Ticker = string
  type Time = int
  const DAY := 86400

  /** The number of shares of an order or of a fill. */
  type Shares = n: int | n >= 1 witness 1

  datatype Mode = Paper | Live
  datatype Side = Buy | Sell
  datatype Action = ActBuy | ActSell | ActHold | ActSkip
  datatype Origin = Llm | RuleExit
  datatype RuleCheck = Passed | Rejected
  datatype OrderStatus =
    Recorded | Submitted | PartiallyFilled | Filled | Canceled | BrokerRejected | Failed
  datatype Approver = System | Kyo
  datatype ExitReason = StopLoss | PartialTakeProfit | TrailingStop | MaxHoldingDays | LlmExit

  datatype Decision = Decision(
    id: Id, cycleId: Id, decidedAt: Time, mode: Mode, ticker: Ticker, action: Action,
    origin: Origin, ruleCheck: RuleCheck, proposedNotional: Option<Cents>, referencePrice: Option<Ticks>)

  datatype Approval = Approval(
    id: Id, decisionId: Id, approver: Approver, approvedAt: Time, expiresAt: Time)

  datatype Order = Order(
    id: Id, decisionId: Id, approvalId: Id, clientOrderId: Id, brokerOrderId: Option<Id>, mode: Mode,
    side: Side, qty: Shares, status: OrderStatus, submittedAt: Option<Time>, lastError: Option<string>)

  datatype Fill = Fill(id: Id, orderId: Id, filledAt: Time, qty: Shares, price: Ticks, fee: Cents)

  datatype Position = Position(
    ticker: Ticker, qty: nat, avgCost: Ticks, openedAt: Time, highWatermark: Ticks, partialTpDone: bool)

  datatype Trade = Trade(
    ticker: Ticker, openedAt: Time, closedAt: Time, entryDecisionId: Id, exitDecisionIds: seq<Id>,
    exitReason: ExitReason, realizedPnl: Cents, fees: Cents, holdingDays: int)

  datatype Snapshot = Snapshot(
    day: int, mode: Mode, cash: Cents, positionsValue: Cents, equity: Cents, peakEquity: Cents,
    drawdownPct: real, takenAt: Time)

  /** `order_{decision.id}`, the order's primary key and its client order id. */
  function OrderId(decisionId: Id): (id: Id) { "order_" + decisionId }

  lemma {:induction false} OrderIdInjective(a: Id, b: Id)
    requires OrderId(a) == OrderId(b)
    ensures a == b
  {
    assert OrderId(a)[6..] == a && OrderId(b)[6..] == b;
  }

  function Max(a: int, b: int): int { if a >= b then a else b }
}
