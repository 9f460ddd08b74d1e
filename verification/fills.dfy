// src/trader/engine/fills.py: poll one submitted order, turn the broker's
// cumulative quantity and average price into fills, settle each fill.
module Fills {
  import opened Money
  import opened Models
  import opened TradeCloser
  import opened Accounting
  import opened Ledger
  import opened Environment

  datatype FillsError = BrokerFailed(message: string) | DbFailed(why: LedgerError) | NotSettled(reason: CloseError)
  datatype PollOutcome = PollOutcome(fillsRecorded: nat, finalStatus: OrderStatus)

  /** The arguments of one `poll_and_settle` call. */
  datatype PollJob = PollJob(
    clientOrderId: Id, orderId: Id, decision: Decision, side: Side, reason: Option<ExitReason>,
    timeout: int, interval: int)

  // ---- one fill ----

  datatype Settled = Settled(tables: Tables, error: Option<FillsError>)

  /** The bookkeeping `_settle_fill` rebuilds for a sell. */
  function CarriedFor(t: Tables, ticker: Ticker, fill: Fill, side: Side): Carried {
    if side.Sell? && ticker in t.positions
    then Replay(Without(ListFillContextSince(t, ticker, t.positions[ticker].openedAt), fill.id)).carried
    else NOTHING_CARRIED
  }

  function StoreUpdate(t: Tables, ticker: Ticker, update: PositionUpdate, fill: Id, faults: Faults): Settled {
    match update
    case OpenPosition(p) =>
      var u := UpsertPosition(t, p, Some(fill), faults);
      if u.Err? then Settled(t, Some(DbFailed(u.error))) else Settled(u.value, None)
    case ClosedTrade(trade) =>
      var gone := DeletePosition(t, ticker);
      var u := InsertTrade(gone, trade, faults);
      if u.Err? then Settled(gone, Some(DbFailed(u.error))) else Settled(u.value, None)
  }

  function SettleSpec(t: Tables, job: PollJob, fill: Fill, faults: Faults): Settled {
    var update := ApplyFill(GetPosition(t, job.decision.ticker), fill, job.decision, job.side, job.reason,
                            CarriedFor(t, job.decision.ticker, fill, job.side));
    if update.Err? then Settled(t, Some(NotSettled(update.error)))
    else StoreUpdate(t, job.decision.ticker, update.value, fill.id, faults)
  }

  method SettleFill(conn: Connection, job: PollJob, fill: Fill, faults: Faults) returns (error: Option<FillsError>)
    modifies conn`working
    ensures Settled(conn.working, error) == SettleSpec(old(conn.working), job, fill, faults)
  {
    var ticker := job.decision.ticker;
    var position := GetPosition(conn.working, ticker);
    var carried := NOTHING_CARRIED;
    if job.side == Sell && position.Some? {
      var replay := ReplayPriorFills(ListFillContextSince(conn.working, ticker, position.value.openedAt), fill.id);
      carried := replay.carried;
    }
    var update := ApplyFill(position, fill, job.decision, job.side, job.reason, carried);
    if update.Err? { return Some(NotSettled(update.error)); }
    match update.value
    case OpenPosition(p) =>
      var upserted := UpsertPosition(conn.working, p, Some(fill.id), faults);
      if upserted.Err? { return Some(DbFailed(upserted.error)); }
      conn.working := upserted.value;
      return None;
    case ClosedTrade(trade) =>
      conn.working := DeletePosition(conn.working, ticker);
      var inserted := InsertTrade(conn.working, trade, faults);
      if inserted.Err? { return Some(DbFailed(inserted.error)); }
      conn.working := inserted.value;
      return None;
  }

  // ---- the loop ----

  datatype PollState = PollState(
    tables: Tables, recordedQty: nat, recordedNotional: Cents, fillsRecorded: nat,
    lastStatus: OrderStatus, elapsed: int, polls: nat)

  datatype PollStep = Continue(state: PollState) | Stop(state: PollState, result: Result<PollOutcome, FillsError>)

  function SumQty(fs: seq<Fill>): nat {
    if fs == [] then 0 else SumQty(fs[..|fs| - 1]) + fs[|fs| - 1].qty
  }

  /** The exact value of the fills, in ticks. */
  function SumValue(fs: seq<Fill>): Ticks {
    if fs == [] then 0 else SumValue(fs[..|fs| - 1]) + fs[|fs| - 1].price * fs[|fs| - 1].qty
  }

  /** Seeded from the rows already there, not assumed to be a fresh order. */
  function PollStart(t: Tables, orderId: Id): PollState {
    var existing := FillsOf(t.fills, orderId);
    PollState(t, SumQty(existing), ToCents(SumValue(existing)), 0, Submitted, 0, 0)
  }

  predicate Terminal(s: OrderStatus) { s in {Filled, Canceled, BrokerRejected} }

  function CumulativeNotional(bo: BrokerOrder): Option<Cents> {
    if bo.filledAvgPrice.Some? then Some(ToCents(bo.filledAvgPrice.value * bo.filledQty)) else None
  }

  /** The fill this read backs out of the cumulative numbers, if it has one. */
  function NewFill(s: PollState, job: PollJob, bo: BrokerOrder, env: Env): Option<Fill> {
    var newQty, cumulative := bo.filledQty - s.recordedQty, CumulativeNotional(bo);
    if newQty > 0 && cumulative.Some? && cumulative.value - s.recordedNotional > 0 then
      var price := RoundHalfEven(TICKS_PER_CENT * (cumulative.value - s.recordedNotional), newQty);
      Some(Fill(env.uuid(FreshFill(job.clientOrderId, s.polls)), job.orderId,
                env.now(Filling(job.clientOrderId, s.polls)), newQty, price, 0))
    else None
  }

  datatype Recorded = RecordedFill(state: PollState, error: Option<FillsError>)

  function RecordFill(s: PollState, job: PollJob, bo: BrokerOrder, fill: Fill, env: Env): Recorded
    requires CumulativeNotional(bo).Some?
  {
    var inserted := InsertFill(s.tables, fill, env.faults);
    if inserted.Err? then RecordedFill(s, Some(DbFailed(inserted.error)))
    else
      var settled := SettleSpec(inserted.value, job, fill, env.faults);
      if settled.error.Some? then RecordedFill(s.(tables := settled.tables), settled.error)
      else RecordedFill(s.(tables := settled.tables, recordedQty := bo.filledQty,
                           recordedNotional := CumulativeNotional(bo).value,
                           fillsRecorded := s.fillsRecorded + 1), None)
  }

  function RecordNew(s: PollState, job: PollJob, bo: BrokerOrder, env: Env): Recorded {
    var fill := NewFill(s, job, bo, env);
    if fill.None? then RecordedFill(s, None) else RecordFill(s, job, bo, fill.value, env)
  }

  function NoteStatus(s: PollState, job: PollJob, bo: BrokerOrder, env: Env): Recorded {
    if bo.status == s.lastStatus then RecordedFill(s, None)
    else
      var u := UpdateOrderStatus(s.tables, job.orderId, bo.status, None, Some(bo.brokerOrderId), None, Some(s.polls),
                                 env.faults);
      if u.Err? then RecordedFill(s, Some(DbFailed(u.error)))
      else RecordedFill(s.(tables := u.value, lastStatus := bo.status), None)
  }

  function Decide(s: PollState, job: PollJob, bo: BrokerOrder): PollStep {
    if Terminal(bo.status) then Stop(s, Ok(PollOutcome(s.fillsRecorded, bo.status)))
    else if s.elapsed >= job.timeout then Stop(s, Ok(PollOutcome(s.fillsRecorded, s.lastStatus)))
    else Continue(s.(elapsed := s.elapsed + job.interval, polls := s.polls + 1))
  }

  /** The rest of a turn, once what the broker newly reports is recorded. */
  function Conclude(recorded: Recorded, job: PollJob, bo: BrokerOrder, env: Env): PollStep {
    if recorded.error.Some? then Stop(recorded.state, Err(recorded.error.value))
    else
      var noted := NoteStatus(recorded.state, job, bo, env);
      if noted.error.Some? then Stop(noted.state, Err(noted.error.value))
      else Decide(noted.state, job, bo)
  }

  /** One turn of `while True`. */
  function Turn(s: PollState, job: PollJob, env: Env): PollStep {
    match env.broker.read(job.clientOrderId, s.polls)
    case Err(message) => Stop(s, Err(BrokerFailed(message)))
    case Ok(bo) => Conclude(RecordNew(s, job, bo, env), job, bo, env)
  }

  datatype Polled = Polled(state: PollState, result: Result<PollOutcome, FillsError>)

  /** With a positive interval, or no time to wait, the loop ends. */
  predicate CanPoll(interval: int, timeout: int) { interval >= 1 || timeout <= 0 }

  /** It ends from here. */
  predicate Ends(s: PollState, job: PollJob) { CanPoll(job.interval, job.timeout - s.elapsed) }

  function Poll(s: PollState, job: PollJob, env: Env): Polled
    requires Ends(s, job)
    decreases job.timeout - s.elapsed
  {
    match Turn(s, job, env)
    case Stop(s', r) => Polled(s', r)
    case Continue(s') => TurnAdvances(s, job, env); Poll(s', job, env)
  }

  lemma {:induction false} TurnAdvances(s: PollState, job: PollJob, env: Env)
    requires Turn(s, job, env).Continue?
    ensures var s' := Turn(s, job, env).state;
            s.elapsed < job.timeout && s'.elapsed == s.elapsed + job.interval && s'.polls == s.polls + 1
  {
  }

  /** The part of one turn that records and settles what the broker newly reports. */
  method TakeNewFill(conn: Connection, job: PollJob, bo: BrokerOrder, qty: nat, notional: Cents, count: nat,
                     ghost s: PollState, polls: nat, env: Env)
    returns (qty': nat, notional': Cents, count': nat, error: Option<FillsError>)
    requires s.tables == conn.working && s.recordedQty == qty && s.recordedNotional == notional
    requires s.fillsRecorded == count && s.polls == polls
    modifies conn`working
    ensures RecordNew(s, job, bo, env) ==
            RecordedFill(s.(tables := conn.working, recordedQty := qty', recordedNotional := notional',
                            fillsRecorded := count'), error)
  {
    qty', notional', count', error := qty, notional, count, None;
    var newQty := bo.filledQty - qty;
    if newQty > 0 && bo.filledAvgPrice.Some? {
      var cumulative := ToCents(bo.filledAvgPrice.value * bo.filledQty);
      var delta := cumulative - notional;
      if delta > 0 {
        var fill := Fill(env.uuid(FreshFill(job.clientOrderId, polls)), job.orderId,
                         env.now(Filling(job.clientOrderId, polls)), newQty,
                         RoundHalfEven(TICKS_PER_CENT * delta, newQty), 0);
        assert NewFill(s, job, bo, env) == Some(fill);
        var inserted := InsertFill(conn.working, fill, env.faults);
        if inserted.Err? {
          error := Some(DbFailed(inserted.error));
          return;
        }
        conn.working := inserted.value;
        error := SettleFill(conn, job, fill, env.faults);
        if error.None? {
          qty', notional', count' := bo.filledQty, cumulative, count + 1;
        }
      }
    }
  }

  /** `if broker_order.status != last_status`. */
  method TakeNewStatus(conn: Connection, job: PollJob, bo: BrokerOrder, lastStatus: OrderStatus, polls: nat,
                       ghost s: PollState, env: Env)
    returns (status': OrderStatus, error: Option<FillsError>)
    requires s.tables == conn.working && s.lastStatus == lastStatus && s.polls == polls
    modifies conn`working
    ensures NoteStatus(s, job, bo, env) == RecordedFill(s.(tables := conn.working, lastStatus := status'), error)
  {
    status', error := lastStatus, None;
    if bo.status != lastStatus {
      var updated := UpdateOrderStatus(conn.working, job.orderId, bo.status, None, Some(bo.brokerOrderId), None,
                                       Some(polls),
                                       env.faults);
      if updated.Err? {
        error := Some(DbFailed(updated.error));
        return;
      }
      conn.working := updated.value;
      status' := bo.status;
    }
  }

  /** One turn; `done` is what the loop returns, if it returns. */
  method TakeTurn(conn: Connection, job: PollJob, qty: nat, notional: Cents, count: nat, lastStatus: OrderStatus,
                  elapsed: int, polls: nat, env: Env)
    returns (qty': nat, notional': Cents, count': nat, status': OrderStatus,
             done: Option<Result<PollOutcome, FillsError>>)
    modifies conn`working
    ensures var s := PollState(old(conn.working), qty, notional, count, lastStatus, elapsed, polls);
            var s' := PollState(conn.working, qty', notional', count', status', elapsed, polls);
            Turn(s, job, env) == if done.Some? then Stop(s', done.value)
                                 else Continue(s'.(elapsed := elapsed + job.interval, polls := polls + 1))
  {
    ghost var s := PollState(conn.working, qty, notional, count, lastStatus, elapsed, polls);
    qty', notional', count', status', done := qty, notional, count, lastStatus, None;
    var got := env.broker.read(job.clientOrderId, polls);
    if got.Err? {
      done := Some(Err(BrokerFailed(got.error)));
      return;
    }
    var bo := got.value;
    var failed;
    qty', notional', count', failed := TakeNewFill(conn, job, bo, qty, notional, count, s, polls, env);
    if failed.Some? {
      done := Some(Err(failed.value));
      return;
    }
    ghost var recorded := PollState(conn.working, qty', notional', count', lastStatus, elapsed, polls);
    assert Turn(s, job, env) == Conclude(RecordedFill(recorded, None), job, bo, env);
    status', failed := TakeNewStatus(conn, job, bo, lastStatus, polls, recorded, env);
    if failed.Some? {
      done := Some(Err(failed.value));
    } else if Terminal(bo.status) {
      done := Some(Ok(PollOutcome(count', bo.status)));
    } else if elapsed >= job.timeout {
      done := Some(Ok(PollOutcome(count', status')));
    }
  }

  /** The loop, one turn unrolled. */
  lemma {:induction false} PollUnrolls(s: PollState, job: PollJob, env: Env)
    requires Ends(s, job)
    ensures var turn := Turn(s, job, env);
            if turn.Stop? then Poll(s, job, env) == Polled(turn.state, turn.result)
            else
              && turn.state.elapsed == s.elapsed + job.interval && s.elapsed < job.timeout && Ends(turn.state, job)
              && Poll(s, job, env) == Poll(turn.state, job, env)
  {
    if Turn(s, job, env).Continue? { TurnAdvances(s, job, env); }
  }

  method PollAndSettle(conn: Connection, job: PollJob, env: Env) returns (r: Result<PollOutcome, FillsError>)
    requires CanPoll(job.interval, job.timeout)
    modifies conn`working
    ensures var p := Poll(PollStart(old(conn.working), job.orderId), job, env);
            r == p.result && conn.working == p.state.tables
  {
    var existing := FillsOf(conn.working.fills, job.orderId);
    var qty, notional: Cents := SumQty(existing), ToCents(SumValue(existing));
    var count, lastStatus, elapsed, polls := 0, Submitted, 0, 0;
    ghost var whole := Poll(PollStart(conn.working, job.orderId), job, env);
    while true
      invariant CanPoll(job.interval, job.timeout - elapsed)
      invariant whole == Poll(PollState(conn.working, qty, notional, count, lastStatus, elapsed, polls), job, env)
      decreases job.timeout - elapsed
    {
      PollUnrolls(PollState(conn.working, qty, notional, count, lastStatus, elapsed, polls), job, env);
      var done;
      qty, notional, count, lastStatus, done :=
        TakeTurn(conn, job, qty, notional, count, lastStatus, elapsed, polls, env);
      if done.Some? { return done.value; }
      elapsed, polls := elapsed + job.interval, polls + 1;
    }
  }
}
