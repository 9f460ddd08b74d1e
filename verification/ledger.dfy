// src/trader/ledger: the tables, the statements on them, and the one connection
// whose implicit transaction every write of a cycle shares. A statement fails on
// a primary-key, unique or foreign-key violation, or where the environment says
// the database itself does (`Faults`); a failed statement changes nothing.
module Ledger {
  import opened Models
  import opened Accounting

  datatype CycleRow = CycleRow(startedAt: Time, mode: Mode, finishedAt: Option<Time>, outcome: Option<CycleStatus>)
  datatype CycleStatus = CycleOk | CycleHalted | MarketUnavailable | CycleFailed

  datatype Tables = Tables(
    cycles: map<Id, CycleRow>,
    decisions: map<Id, Decision>,
    approvals: seq<Approval>,
    orders: map<Id, Order>,
    fills: seq<Fill>,
    positions: map<Ticker, Position>,
    trades: seq<Trade>,
    snapshots: seq<Snapshot>,
    state: map<string, string>)

  datatype LedgerError = DatabaseFault | Duplicate | MissingReference | NoSuchRow
  type DbResult = Result<Tables, LedgerError>

  /** Each statement of a cycle: an order's update names the broker read it follows, a
      position's upsert the fill it settles (none where it only marks). */
  datatype Stmt =
    | InsertCycleStmt(id: Id) | FinishCycleStmt(id: Id)
    | InsertDecisionStmt(id: Id) | InsertApprovalStmt(id: Id) | InsertOrderStmt(id: Id)
    | UpdateOrderStmt(id: Id, read: Option<nat>) | InsertFillStmt(id: Id)
    | UpsertPositionStmt(ticker: Ticker, fill: Option<Id>) | InsertTradeStmt(entry: Id, exit: Id)
    | UpsertSnapshotStmt(day: int) | SetStateStmt(key: string)
    | CommitStmt(what: string)
  type Faults = Stmt -> bool

  // ---- repository.py ----

  function InsertDecision(t: Tables, d: Decision, faults: Faults): DbResult {
    if faults(InsertDecisionStmt(d.id)) then Err(DatabaseFault)
    else if d.id in t.decisions then Err(Duplicate)
    else if d.cycleId !in t.cycles then Err(MissingReference)
    else Ok(t.(decisions := t.decisions[d.id := d]))
  }

  function InsertApproval(t: Tables, a: Approval, faults: Faults): DbResult {
    if faults(InsertApprovalStmt(a.id)) then Err(DatabaseFault)
    else if exists b :: b in t.approvals && b.id == a.id then Err(Duplicate)
    else if a.decisionId !in t.decisions then Err(MissingReference)
    else Ok(t.(approvals := t.approvals + [a]))
  }

  function InsertOrder(t: Tables, o: Order, faults: Faults): DbResult {
    if faults(InsertOrderStmt(o.id)) then Err(DatabaseFault)
    else if o.id in t.orders then Err(Duplicate)
    else if exists k :: k in t.orders && t.orders[k].clientOrderId == o.clientOrderId then Err(Duplicate)
    else if o.decisionId !in t.decisions then Err(MissingReference)
    else if !exists b :: b in t.approvals && b.id == o.approvalId then Err(MissingReference)
    else Ok(t.(orders := t.orders[o.id := o]))
  }

  function Coalesce<T>(value: Option<T>, kept: Option<T>): Option<T> { if value.Some? then value else kept }

  function UpdateOrderStatus(t: Tables, id: Id, status: OrderStatus, lastError: Option<string>,
                             brokerOrderId: Option<Id>, submittedAt: Option<Time>, read: Option<nat>,
                             faults: Faults): DbResult {
    if faults(UpdateOrderStmt(id, read)) then Err(DatabaseFault)
    else if id !in t.orders then Err(NoSuchRow)
    else
      var o := t.orders[id];
      Ok(t.(orders := t.orders[id := o.(status := status,
                                        lastError := Coalesce(lastError, o.lastError),
                                        brokerOrderId := Coalesce(brokerOrderId, o.brokerOrderId),
                                        submittedAt := Coalesce(submittedAt, o.submittedAt))]))
  }

  function InsertFill(t: Tables, f: Fill, faults: Faults): DbResult {
    if faults(InsertFillStmt(f.id)) then Err(DatabaseFault)
    else if exists g :: g in t.fills && g.id == f.id then Err(Duplicate)
    else if f.orderId !in t.orders then Err(MissingReference)
    else Ok(t.(fills := t.fills + [f]))
  }

  /** `list_fills`; its callers only sum the rows, so insertion order serves. */
  function FillsOf(fills: seq<Fill>, orderId: Id): seq<Fill> {
    if fills == [] then []
    else
      var front, last := FillsOf(fills[..|fills| - 1], orderId), fills[|fills| - 1];
      if last.orderId == orderId then front + [last] else front
  }

  /** The newest approval of the decision that has not expired at `now`. */
  function FindValidApproval(approvals: seq<Approval>, decisionId: Id, now: Time): (r: Option<Approval>)
    ensures r.Some? ==> r.value in approvals && r.value.decisionId == decisionId && r.value.expiresAt > now
    ensures r.None? ==> forall a :: a in approvals && a.decisionId == decisionId ==> a.expiresAt <= now
    ensures r.Some? ==> forall a :: a in approvals && a.decisionId == decisionId && a.expiresAt > now
                                    ==> a.approvedAt <= r.value.approvedAt
  {
    if approvals == [] then None
    else
      var best, a := FindValidApproval(approvals[..|approvals| - 1], decisionId, now), approvals[|approvals| - 1];
      if a.decisionId == decisionId && a.expiresAt > now && (best.None? || best.value.approvedAt < a.approvedAt)
      then Some(a) else best
  }

  /** fills JOIN orders JOIN decisions, for one ticker, in insertion order. */
  function HistoryOf(t: Tables, ticker: Ticker): History { Joined(t, t.fills, ticker) }

  predicate Joins(t: Tables, f: Fill, ticker: Ticker) {
    && f.orderId in t.orders && t.orders[f.orderId].decisionId in t.decisions
    && t.decisions[t.orders[f.orderId].decisionId].ticker == ticker
  }

  function Joined(t: Tables, fills: seq<Fill>, ticker: Ticker): History {
    if fills == [] then []
    else
      var front, f := Joined(t, fills[..|fills| - 1], ticker), fills[|fills| - 1];
      if Joins(t, f, ticker)
      then front + [FillContext(f, t.orders[f.orderId].side, t.orders[f.orderId].decisionId)]
      else front
  }

  /** ORDER BY filled_at ASC. */
  function ByTime(h: History): History {
    if h == [] then [] else PlaceByTime(ByTime(h[..|h| - 1]), h[|h| - 1])
  }

  function PlaceByTime(h: History, c: FillContext): History {
    if h == [] || h[|h| - 1].fill.filledAt <= c.fill.filledAt then h + [c]
    else PlaceByTime(h[..|h| - 1], c) + [h[|h| - 1]]
  }

  function ListFillContextSince(t: Tables, ticker: Ticker, since: Time): History {
    ByTime(From(HistoryOf(t, ticker), since))
  }

  lemma {:induction false} ByTimeKeepsSorted(h: History)
    requires Increasing(h)
    ensures ByTime(h) == h
  {
    if h != [] {
      ByTimeKeepsSorted(h[..|h| - 1]);
      assert h == h[..|h| - 1] + [h[|h| - 1]];
    }
  }

  // ---- portfolio_repository.py ----

  function UpsertPosition(t: Tables, p: Position, fill: Option<Id>, faults: Faults): DbResult {
    if faults(UpsertPositionStmt(p.ticker, fill)) then Err(DatabaseFault)
    else Ok(t.(positions := t.positions[p.ticker := p]))
  }

  function GetPosition(t: Tables, ticker: Ticker): Option<Position> {
    if ticker in t.positions then Some(t.positions[ticker]) else None
  }

  function DeletePosition(t: Tables, ticker: Ticker): Tables { t.(positions := t.positions - {ticker}) }

  function LastExit(t: Trade): Option<Id> {
    if t.exitDecisionIds == [] then None else Some(t.exitDecisionIds[|t.exitDecisionIds| - 1])
  }

  /** The trade's id is `{entry}:{exit}`; the pair stands for it. */
  predicate SameTradeId(a: Trade, b: Trade) { a.entryDecisionId == b.entryDecisionId && LastExit(a) == LastExit(b) }

  function InsertTrade(t: Tables, trade: Trade, faults: Faults): DbResult {
    if faults(InsertTradeStmt(trade.entryDecisionId, LastExit(trade).GetOr(""))) then Err(DatabaseFault)
    else if exists u :: u in t.trades && SameTradeId(u, trade) then Err(Duplicate)
    else if trade.entryDecisionId !in t.decisions then Err(MissingReference)
    else Ok(t.(trades := t.trades + [trade]))
  }

  /** One row per day, oldest first; a second snapshot of a day replaces the first. */
  function PutSnapshot(rows: seq<Snapshot>, s: Snapshot): seq<Snapshot> {
    if rows == [] then [s]
    else
      var last := rows[|rows| - 1];
      if last.day < s.day then rows + [s]
      else if last.day == s.day then rows[..|rows| - 1] + [s]
      else PutSnapshot(rows[..|rows| - 1], s) + [last]
  }

  function UpsertSnapshot(t: Tables, s: Snapshot, faults: Faults): DbResult {
    if faults(UpsertSnapshotStmt(s.day)) then Err(DatabaseFault)
    else Ok(t.(snapshots := PutSnapshot(t.snapshots, s)))
  }

  function SetState(t: Tables, key: string, value: string, faults: Faults): DbResult {
    if faults(SetStateStmt(key)) then Err(DatabaseFault) else Ok(t.(state := t.state[key := value]))
  }

  function InsertCycle(t: Tables, id: Id, startedAt: Time, mode: Mode, faults: Faults): DbResult {
    if faults(InsertCycleStmt(id)) then Err(DatabaseFault)
    else if id in t.cycles then Err(Duplicate)
    else Ok(t.(cycles := t.cycles[id := CycleRow(startedAt, mode, None, None)]))
  }

  function FinishCycle(t: Tables, id: Id, finishedAt: Time, outcome: CycleStatus, faults: Faults): DbResult {
    if faults(FinishCycleStmt(id)) then Err(DatabaseFault)
    else if id !in t.cycles then Err(NoSuchRow)
    else Ok(t.(cycles := t.cycles[id := t.cycles[id].(finishedAt := Some(finishedAt), outcome := Some(outcome))]))
  }

  // ---- db.py: the connection ----

  datatype OrderRequest = OrderRequest(clientOrderId: Id, ticker: Ticker, side: Side, qty: Shares)

  /** What survives a crash, and what left the process: commits and submissions, in order. */
  datatype Event = Committed(tables: Tables) | Sent(request: OrderRequest)

  datatype World = World(working: Tables, committed: Tables, trace: seq<Event>)

  function CommitWorld(w: World): World { World(w.working, w.working, w.trace + [Committed(w.working)]) }
  function RollbackWorld(w: World): World { w.(working := w.committed) }
  function SendWorld(w: World, r: OrderRequest): World { w.(trace := w.trace + [Sent(r)]) }

  class Connection {
    var working: Tables
    var committed: Tables
    ghost var trace: seq<Event>

    ghost function State(): World reads this { World(working, committed, trace) }

    constructor (t: Tables)
      ensures State() == World(t, t, [Committed(t)])
    {
      working, committed, trace := t, t, [Committed(t)];
    }

    method Commit()
      modifies this
      ensures State() == CommitWorld(old(State()))
    {
      committed := working;
      trace := trace + [Committed(working)];
    }

    method Rollback()
      modifies this
      ensures State() == RollbackWorld(old(State()))
    {
      working := committed;
    }
  }
}
