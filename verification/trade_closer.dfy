// src/trader/ledger/trade_closer.py: one fill turns a position into the next
// position or into a closed trade.
module TradeCloser {
  import opened Money
  import opened Models

  datatype PositionUpdate = OpenPosition(position: Position) | ClosedTrade(trade: Trade)

  datatype CloseError = NoPosition | Oversell(asked: nat, held: nat) | Unexplained

  /** What `positions` has no column for and the caller threads through. */
  datatype Carried = Carried(entry: Option<Id>, exits: seq<Id>, realized: Cents, fees: Cents)
  const NOTHING_CARRIED := Carried(None, [], 0, 0)

  /** Weighted average cost, quantized to the tick. */
  function Average(avg: Ticks, qty: nat, price: Ticks, bought: Shares): Ticks {
    RoundHalfEven(avg * qty + price * bought, qty + bought)
  }

  /** One sell's realized P&L. */
  function SellPnl(avg: Ticks, price: Ticks, qty: Shares, fee: Cents): Cents {
    ToCents((price - avg) * qty) - fee
  }

  function ApplyFill(position: Option<Position>, fill: Fill, decision: Decision, side: Side,
                     reason: Option<ExitReason>, carried: Carried): Result<PositionUpdate, CloseError> {
    match side
    case Buy => Ok(OpenPosition(ApplyBuy(position, fill, decision)))
    case Sell => ApplySell(position, fill, decision, reason, carried)
  }

  function ApplyBuy(position: Option<Position>, fill: Fill, decision: Decision): Position {
    match position
    case None => Position(decision.ticker, fill.qty, fill.price, fill.filledAt, fill.price, false)
    case Some(p) =>
      p.(qty := p.qty + fill.qty,
         avgCost := Average(p.avgCost, p.qty, fill.price, fill.qty),
         highWatermark := Max(p.highWatermark, fill.price))
  }

  /** A first fill opens the position at its price; a later one moves the average, to the nearest tick, and may raise
      the watermark. */
  lemma {:induction false} BuyExactly(position: Option<Position>, fill: Fill, decision: Decision)
    ensures var q := ApplyBuy(position, fill, decision);
            match position
            case None =>
              && q.ticker == decision.ticker && q.qty == fill.qty && q.avgCost == fill.price == q.highWatermark
              && q.openedAt == fill.filledAt && !q.partialTpDone
            case Some(p) =>
              && q.ticker == p.ticker && q.openedAt == p.openedAt && q.partialTpDone == p.partialTpDone
              && q.qty == p.qty + fill.qty
              && IsHalfEven(p.avgCost * p.qty + fill.price * fill.qty, p.qty + fill.qty, q.avgCost)
              && p.highWatermark <= q.highWatermark && fill.price <= q.highWatermark
              && q.highWatermark in {p.highWatermark, fill.price}
  {
  }

  function Resolve(reason: Option<ExitReason>, origin: Origin): Option<ExitReason> {
    if reason.None? && origin.Llm? then Some(LlmExit) else reason
  }

  function ApplySell(position: Option<Position>, fill: Fill, decision: Decision,
                     reason: Option<ExitReason>, carried: Carried): Result<PositionUpdate, CloseError> {
    if position.None? then Err(NoPosition)
    else
      var p := position.value;
      if fill.qty > p.qty then Err(Oversell(fill.qty, p.qty))
      else
        var remaining := p.qty - fill.qty;
        var resolved := Resolve(reason, decision.origin);
        if remaining > 0 then
          Ok(OpenPosition(p.(qty := remaining,
                             partialTpDone := p.partialTpDone || resolved == Some(PartialTakeProfit))))
        else if resolved.None? then Err(Unexplained)
        else Ok(ClosedTrade(CloseOut(p, fill, decision, resolved.value, carried)))
  }

  function CloseOut(p: Position, fill: Fill, decision: Decision, reason: ExitReason, carried: Carried): Trade {
    Trade(p.ticker, p.openedAt, fill.filledAt,
          if carried.entry.Some? then carried.entry.value else decision.id,
          carried.exits + [decision.id],
          reason,
          carried.realized + SellPnl(p.avgCost, fill.price, fill.qty, fill.fee),
          carried.fees + fill.fee,
          fill.filledAt / DAY - p.openedAt / DAY)
  }
}
