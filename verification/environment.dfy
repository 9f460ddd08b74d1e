// Everything one process cannot choose: what the broker, the market, the LLM,
// the clock, uuid4 and the database answer. Each is an arbitrary function of the
// call it answers, so a statement about every `Env` is a statement about every
// way one cycle may go.
module Environment {
  import opened Money
  import opened Models
  import opened Ledger

  datatype BrokerOrder = BrokerOrder(
    brokerOrderId: Id, status: OrderStatus, filledQty: nat, filledAvgPrice: Option<Ticks>)

  datatype Broker = Broker(
    account: Result<Cents, string>,
    cancelAll: Result<nat, string>,
    submit: OrderRequest -> Result<BrokerOrder, string>,
    read: (Id, nat) -> Result<BrokerOrder, string>)  // the k-th get_order of a client order id

  datatype MarketClock = MarketClock(isOpen: bool, nextClose: Time)

  datatype Market = Market(
    clock: Result<MarketClock, string>,
    price: Ticker -> Result<Ticks, string>,
    volume: Ticker -> Result<int, string>)  // average volume of the daily bars

  datatype Mention = Mention(id: Id, ticker: Ticker, postedAt: Time, excerpt: string)
  datatype Proposal = Proposal(ticker: Ticker, action: ProposedAction)
  datatype ProposedAction = ProposeBuy | ProposeHold | ProposeSkip

  /** Each call of `clock.now()`. */
  datatype Reading =
    | Started | AtHoldings | AtRisk | AtHalt | AtCandidates | Finished
    | Approving(decisionId: Id) | Submitting(decisionId: Id) | Filling(clientOrderId: Id, read: nat)

  /** Each call of `uuid4()`. */
  datatype Fresh =
    | FreshCycle | FreshExit(ticker: Ticker) | FreshEntry(n: nat)
    | FreshApproval(decisionId: Id) | FreshFill(clientOrderId: Id, read: nat)

  datatype Env = Env(
    broker: Broker,
    market: Market,
    faults: Faults,
    now: Reading -> Time,
    uuid: Fresh -> Id,
    mentions: seq<Mention>,
    llm: Option<seq<Ticker> -> Result<seq<Proposal>, string>>)
}
