// What one `poll_and_settle` call may touch, and that it keeps the books balanced.
module Polling {
  import opened Models
  import opened TradeCloser
  import opened Accounting
  import opened Ledger
  import opened Environment
  import opened Protocol
  import opened Fills
  import opened Settlement

  // ---- the frame ----

  /** A poll appends fills of its own order, and touches one ticker's position. */
  ghost predicate PollFrame(t: Tables, u: Tables, job: PollJob) {
    && Grows(t, u) && u.orders.Keys == t.orders.Keys
    && u.decisions == t.decisions && u.approvals == t.approvals && u.cycles == t.cycles
    && u.snapshots == t.snapshots && u.state == t.state
    && OnlyTicker(t, u, job.decision.ticker) && KeysMatch(u)
    && (job.side.Sell? ==> u.positions.Keys <= t.positions.Keys)
    && AppendsOwn(t.fills, u.fills, job.orderId)
  }

  ghost predicate AppendsOwn(a: seq<Fill>, b: seq<Fill>, orderId: Id) {
    |a| <= |b| && b[..|a|] == a && forall i :: |a| <= i < |b| ==> b[i].orderId == orderId
  }

  lemma {:induction false} PollFrameTransitive(a: Tables, b: Tables, c: Tables, job: PollJob)
    requires PollFrame(a, b, job) && PollFrame(b, c, job)
    ensures PollFrame(a, c, job)
  {
    AppendsTransitive(a.fills, b.fills, c.fills, job.orderId);
  }

  lemma {:induction false} AppendsTransitive(a: seq<Fill>, b: seq<Fill>, c: seq<Fill>, id: Id)
    requires AppendsOwn(a, b, id) && AppendsOwn(b, c, id)
    ensures AppendsOwn(a, c, id)
  {
    assert c[..|a|] == c[..|b|][..|a|];
    forall i | |a| <= i < |c| ensures c[i].orderId == id {
      if i < |b| { assert c[i] == c[..|b|][i]; }
    }
  }

  lemma {:induction false} SettleFrame(t: Tables, job: PollJob, f: Fill, faults: Faults)
    requires KeysMatch(t)
    ensures PollFrame(t, SettleSpec(t, job, f, faults).tables, job)
  {
    var ticker := job.decision.ticker;
    var update := ApplyFill(GetPosition(t, ticker), f, job.decision, job.side, job.reason,
                            CarriedFor(t, ticker, f, job.side));
    if update.Ok? { StoreFrame(t, job, update.value, f.id, faults); }
  }

  lemma {:induction false} HoldingFrame(t: Tables, u: Tables, job: PollJob)
    requires u == t.(positions := u.positions, trades := u.trades)
    requires OnlyTicker(t, u, job.decision.ticker) && KeysMatch(u)
    requires job.side.Sell? ==> u.positions.Keys <= t.positions.Keys
    ensures PollFrame(t, u, job)
  {
  }

  lemma {:induction false} StoreFrame(t: Tables, job: PollJob, update: PositionUpdate, fill: Id, faults: Faults)
    requires KeysMatch(t)
    requires update.OpenPosition? ==>
               update.position.ticker == job.decision.ticker && (job.side.Sell? ==> job.decision.ticker in t.positions)
    ensures PollFrame(t, StoreUpdate(t, job.decision.ticker, update, fill, faults).tables, job)
  {
    HoldingFrame(t, StoreUpdate(t, job.decision.ticker, update, fill, faults).tables, job);
  }

  lemma {:induction false} RecordNewFrame(s: PollState, job: PollJob, bo: BrokerOrder, env: Env)
    requires KeysMatch(s.tables)
    ensures PollFrame(s.tables, RecordNew(s, job, bo, env).state.tables, job)
  {
    var fill := NewFill(s, job, bo, env);
    if fill.Some? {
      var t1 := InsertFill(s.tables, fill.value, env.faults);
      if t1.Ok? {
        assert PollFrame(s.tables, t1.value, job);
        SettleFrame(t1.value, job, fill.value, env.faults);
        PollFrameTransitive(s.tables, t1.value, SettleSpec(t1.value, job, fill.value, env.faults).tables, job);
      }
    }
  }

  lemma {:induction false} OrdersFrame(t: Tables, u: Tables, job: PollJob)
    requires KeysMatch(t) && u == t.(orders := u.orders) && u.orders.Keys == t.orders.Keys
    requires forall id :: id in t.orders ==> SameOrder(t.orders[id], u.orders[id])
    ensures PollFrame(t, u, job)
  {
  }

  /** An update touches one row of orders, and of it only what may change. */
  lemma {:induction false} UpdateTouches(t: Tables, id: Id, status: OrderStatus, lastError: Option<string>,
                                         brokerOrderId: Option<Id>, submittedAt: Option<Time>, read: Option<nat>,
                                         faults: Faults)
    requires UpdateOrderStatus(t, id, status, lastError, brokerOrderId, submittedAt, read, faults).Ok?
    ensures var u := UpdateOrderStatus(t, id, status, lastError, brokerOrderId, submittedAt, read, faults).value;
            && u == t.(orders := u.orders) && u.orders.Keys == t.orders.Keys && id in t.orders
            && SameOrder(t.orders[id], u.orders[id])
            && forall k :: k in t.orders && k != id ==> u.orders[k] == t.orders[k]
  {
  }

  lemma {:induction false} NoteOrders(s: PollState, job: PollJob, bo: BrokerOrder, env: Env)
    ensures var u := NoteStatus(s, job, bo, env).state.tables;
            && u == s.tables.(orders := u.orders) && u.orders.Keys == s.tables.orders.Keys
            && forall id :: id in s.tables.orders ==>
                 SameOrder(s.tables.orders[id], u.orders[id])
                   && (id != job.orderId ==> u.orders[id] == s.tables.orders[id])
  {
    if bo.status != s.lastStatus && job.orderId in s.tables.orders
       && !env.faults(UpdateOrderStmt(job.orderId, Some(s.polls))) {
      UpdateTouches(s.tables, job.orderId, bo.status, None, Some(bo.brokerOrderId), None, Some(s.polls), env.faults);
    }
  }

  lemma {:induction false} NoteFrame(s: PollState, job: PollJob, bo: BrokerOrder, env: Env)
    requires KeysMatch(s.tables)
    ensures var u := NoteStatus(s, job, bo, env).state.tables;
            && u == s.tables.(orders := u.orders) && u.orders.Keys == s.tables.orders.Keys
            && PollFrame(s.tables, u, job)
  {
    NoteOrders(s, job, bo, env);
    OrdersFrame(s.tables, NoteStatus(s, job, bo, env).state.tables, job);
  }

  lemma {:induction false} ConcludeFrame(recorded: Recorded, job: PollJob, bo: BrokerOrder, env: Env)
    requires KeysMatch(recorded.state.tables)
    ensures PollFrame(recorded.state.tables, Conclude(recorded, job, bo, env).state.tables, job)
  {
    if recorded.error.None? {
      NoteFrame(recorded.state, job, bo, env);
      assert Conclude(recorded, job, bo, env).state.tables == NoteStatus(recorded.state, job, bo, env).state.tables;
    }
  }

  lemma {:induction false} TurnFrame(s: PollState, job: PollJob, env: Env)
    requires KeysMatch(s.tables)
    ensures PollFrame(s.tables, Turn(s, job, env).state.tables, job)
  {
    match env.broker.read(job.clientOrderId, s.polls)
    case Err(_) =>
    case Ok(bo) =>
      var recorded := RecordNew(s, job, bo, env);
      RecordNewFrame(s, job, bo, env);
      ConcludeFrame(recorded, job, bo, env);
      PollFrameTransitive(s.tables, recorded.state.tables, Turn(s, job, env).state.tables, job);
  }

  lemma {:induction false} PollKeepsFrame(s: PollState, job: PollJob, env: Env)
    requires Ends(s, job) && KeysMatch(s.tables)
    ensures PollFrame(s.tables, Poll(s, job, env).state.tables, job)
    decreases job.timeout - s.elapsed
  {
    TurnFrame(s, job, env);
    match Turn(s, job, env)
    case Stop(s', _) =>
    case Continue(s') =>
      TurnAdvances(s, job, env);
      PollKeepsFrame(s', job, env);
      PollFrameTransitive(s.tables, s'.tables, Poll(s', job, env).state.tables, job);
  }

  /** What a poll writes: its own order's row and fills, positions and trades. */
  ghost predicate PollWrites(t: Tables, u: Tables, orderId: Id) {
    && u == t.(orders := u.orders, fills := u.fills, positions := u.positions, trades := u.trades)
    && u.orders.Keys == t.orders.Keys && AppendsOwn(t.fills, u.fills, orderId)
    && (|t.fills| < |u.fills| ==> orderId in t.orders)
    && (forall id :: id in t.orders ==>
          SameOrder(t.orders[id], u.orders[id]) && (id != orderId ==> u.orders[id] == t.orders[id]))
  }

  lemma {:induction false} PollWritesTransitive(a: Tables, b: Tables, c: Tables, orderId: Id)
    requires PollWrites(a, b, orderId) && PollWrites(b, c, orderId)
    ensures PollWrites(a, c, orderId)
  {
    AppendsTransitive(a.fills, b.fills, c.fills, orderId);
  }

  lemma {:induction false} SettleWrites(t: Tables, job: PollJob, f: Fill, faults: Faults)
    ensures var u := SettleSpec(t, job, f, faults).tables; u == t.(positions := u.positions, trades := u.trades)
  {
  }

  lemma {:induction false} RecordWrites(s: PollState, job: PollJob, bo: BrokerOrder, env: Env)
    ensures PollWrites(s.tables, RecordNew(s, job, bo, env).state.tables, job.orderId)
  {
    var fill := NewFill(s, job, bo, env);
    if fill.Some? {
      var t1 := InsertFill(s.tables, fill.value, env.faults);
      if t1.Ok? { SettleWrites(t1.value, job, fill.value, env.faults); }
    }
  }

  lemma {:induction false} OrderWrites(t: Tables, u: Tables, orderId: Id)
    requires u == t.(orders := u.orders) && u.orders.Keys == t.orders.Keys
    requires forall id :: id in t.orders ==>
               SameOrder(t.orders[id], u.orders[id]) && (id != orderId ==> u.orders[id] == t.orders[id])
    ensures PollWrites(t, u, orderId)
  {
  }

  lemma {:induction false} ConcludeWrites(recorded: Recorded, job: PollJob, bo: BrokerOrder, env: Env)
    ensures PollWrites(recorded.state.tables, Conclude(recorded, job, bo, env).state.tables, job.orderId)
  {
    if recorded.error.None? {
      NoteOrders(recorded.state, job, bo, env);
      OrderWrites(recorded.state.tables, NoteStatus(recorded.state, job, bo, env).state.tables, job.orderId);
    }
  }

  lemma {:induction false} TurnWrites(s: PollState, job: PollJob, env: Env)
    ensures PollWrites(s.tables, Turn(s, job, env).state.tables, job.orderId)
  {
    match env.broker.read(job.clientOrderId, s.polls)
    case Err(_) =>
    case Ok(bo) =>
      RecordWrites(s, job, bo, env);
      ConcludeWrites(RecordNew(s, job, bo, env), job, bo, env);
      PollWritesTransitive(s.tables, RecordNew(s, job, bo, env).state.tables, Turn(s, job, env).state.tables,
                           job.orderId);
  }

  lemma {:induction false} PollWritesOwn(s: PollState, job: PollJob, env: Env)
    requires Ends(s, job)
    ensures PollWrites(s.tables, Poll(s, job, env).state.tables, job.orderId)
    decreases job.timeout - s.elapsed
  {
    TurnWrites(s, job, env);
    match Turn(s, job, env)
    case Stop(_, _) =>
    case Continue(s') =>
      TurnAdvances(s, job, env);
      PollWritesOwn(s', job, env);
      PollWritesTransitive(s.tables, s'.tables, Poll(s', job, env).state.tables, job.orderId);
  }

  lemma {:induction false} WritesLinked(t: Tables, u: Tables, orderId: Id)
    requires Linked(t) && PollWrites(t, u, orderId)
    ensures Linked(u)
  {
    forall f | f in u.fills ensures f.orderId in u.orders {
      var i :| 0 <= i < |u.fills| && u.fills[i] == f;
      if i < |t.fills| { assert f == u.fills[..|t.fills|][i]; }
    }
  }

  // ---- the books stay balanced ----

  /** What is asked of the outside while an order of `ordered` shares is polled: the
      broker never reports more than was ordered, the clock advances from read to
      read, and settling statements succeed. */
  ghost predicate Fair(job: PollJob, ordered: nat, env: Env) {
    && SettlesCleanly(env.faults)
    && (forall k: nat :: env.broker.read(job.clientOrderId, k).Ok?
          ==> env.broker.read(job.clientOrderId, k).value.filledQty <= ordered)
    && (forall k: nat, l: nat :: k < l ==>
          env.now(Filling(job.clientOrderId, k)) < env.now(Filling(job.clientOrderId, l)))
  }

  /** From read `next` on: the books are balanced, the holding has moved from `base` by
      exactly what is recorded, and what a sell may still fill is held. */
  ghost predicate OnTrack(t: Tables, recorded: nat, next: nat, job: PollJob, ordered: nat, base: nat, env: Env) {
    && Balanced(t) && JobRecorded(t, job)
    && (forall k: nat :: k >= next ==>
          Earlier(HistoryOf(t, job.decision.ticker), env.now(Filling(job.clientOrderId, k))))
    && Held(t, job.decision.ticker) == (if job.side.Buy? then base + recorded else base - recorded)
    && (job.side.Sell? ==>
          && Resolve(job.reason, job.decision.origin).Some? && ordered <= base
          && (NeverClosed(t, job.decision.id) || recorded >= ordered))
  }

  /** The same of a poll state. */
  ghost predicate StateOnTrack(s: PollState, next: nat, job: PollJob, ordered: nat, base: nat, env: Env) {
    OnTrack(s.tables, s.recordedQty, next, job, ordered, base, env)
  }

  /** A settlement never fails: at most the insert of the fill row itself does. */
  ghost predicate OnlyDatabase(error: Option<FillsError>) { error.Some? ==> error.value.DbFailed? }

  lemma {:induction false} NewFillOnTrack(s: PollState, job: PollJob, ordered: nat, base: nat, bo: BrokerOrder, f: Fill,
                                          env: Env)
    requires StateOnTrack(s, s.polls, job, ordered, base, env) && Fair(job, ordered, env) && bo.filledQty <= ordered
    requires NewFill(s, job, bo, env) == Some(f)
    ensures var r := RecordFill(s, job, bo, f, env);
            StateOnTrack(r.state, s.polls + 1, job, ordered, base, env) && OnlyDatabase(r.error)
  {
    var t1 := InsertFill(s.tables, f, env.faults);
    if t1.Ok? {
      var u := SettleSpec(t1.value, job, f, env.faults);
      assert BalancedFor(s.tables, job.decision.ticker);
      assert Settleable(s.tables, job, f);
      if job.side.Buy? {
        SettleBuy(s.tables, job, f, env.faults);
      } else {
        SellAccepted(s.tables, job, f, env.faults);
        SettleSell(s.tables, job, f, env.faults);
      }
      SettleFrame(t1.value, job, f, env.faults);
      SettledOnTrack(s, u.tables, job, ordered, base, f, env);
    }
  }

  lemma {:induction false} SettledOnTrack(s: PollState, u: Tables, job: PollJob, ordered: nat, base: nat, f: Fill,
                                          env: Env)
    requires StateOnTrack(s, s.polls, job, ordered, base, env) && Fair(job, ordered, env)
    requires s.recordedQty + f.qty <= ordered && f.filledAt == env.now(Filling(job.clientOrderId, s.polls))
    requires Balanced(u) && JobRecorded(u, job)
    requires HistoryOf(u, job.decision.ticker)
             == HistoryOf(s.tables, job.decision.ticker) + [FillContext(f, job.side, job.decision.id)]
    requires Held(u, job.decision.ticker)
             == Held(s.tables, job.decision.ticker) + (if job.side.Buy? then f.qty else 0 - f.qty)
    requires job.side.Sell? && f.qty < Held(s.tables, job.decision.ticker) ==> u.trades == s.tables.trades
    ensures OnTrack(u, s.recordedQty + f.qty, s.polls + 1, job, ordered, base, env)
  {
    HistoryAdvances(s, u, job, f, env);
  }

  lemma {:induction false} HistoryAdvances(s: PollState, u: Tables, job: PollJob, f: Fill, env: Env)
    requires forall k: nat :: k >= s.polls ==>
               Earlier(HistoryOf(s.tables, job.decision.ticker), env.now(Filling(job.clientOrderId, k)))
    requires f.filledAt == env.now(Filling(job.clientOrderId, s.polls))
    requires HistoryOf(u, job.decision.ticker)
             == HistoryOf(s.tables, job.decision.ticker) + [FillContext(f, job.side, job.decision.id)]
    requires forall k: nat, l: nat :: k < l ==>
               env.now(Filling(job.clientOrderId, k)) < env.now(Filling(job.clientOrderId, l))
    ensures forall k: nat :: k > s.polls ==>
              Earlier(HistoryOf(u, job.decision.ticker), env.now(Filling(job.clientOrderId, k)))
  {
  }

  lemma {:induction false} NoteOnTrack(s: PollState, next: nat, job: PollJob, ordered: nat, base: nat, bo: BrokerOrder,
                                       env: Env)
    requires StateOnTrack(s, next, job, ordered, base, env)
    ensures var r := NoteStatus(s, job, bo, env);
            StateOnTrack(r.state, next, job, ordered, base, env) && OnlyDatabase(r.error)
  {
    var u := NoteStatus(s, job, bo, env).state.tables;
    NoteFrame(s, job, bo, env);
    BalancedStable(s.tables, u);
    HistoryStable(s.tables, u, job.decision.ticker);
  }

  lemma {:induction false} ConcludeOnTrack(recorded: Recorded, next: nat, job: PollJob, ordered: nat, base: nat,
                                           bo: BrokerOrder, env: Env)
    requires StateOnTrack(recorded.state, next, job, ordered, base, env) && OnlyDatabase(recorded.error)
    ensures var step := Conclude(recorded, job, bo, env);
            && StateOnTrack(step.state, next, job, ordered, base, env)
            && (step.Stop? && step.result.Err? ==> step.result.error.DbFailed?)
  {
    if recorded.error.None? { NoteOnTrack(recorded.state, next, job, ordered, base, bo, env); }
  }

  lemma {:induction false} TurnOnTrack(s: PollState, job: PollJob, ordered: nat, base: nat, env: Env)
    requires StateOnTrack(s, s.polls, job, ordered, base, env) && Fair(job, ordered, env)
    ensures var step := Turn(s, job, env);
            && StateOnTrack(step.state, s.polls + 1, job, ordered, base, env)
            && (step.Stop? && step.result.Err? ==> !step.result.error.NotSettled?)
  {
    match env.broker.read(job.clientOrderId, s.polls)
    case Err(_) =>
    case Ok(bo) =>
      var f := NewFill(s, job, bo, env);
      if f.Some? { NewFillOnTrack(s, job, ordered, base, bo, f.value, env); }
      ConcludeOnTrack(RecordNew(s, job, bo, env), s.polls + 1, job, ordered, base, bo, env);
  }

  /** Polling an order whose sells are covered keeps the books balanced, and no
      settlement is ever refused. */
  lemma {:induction false} PollBalances(s: PollState, job: PollJob, ordered: nat, base: nat, env: Env)
    requires Ends(s, job) && StateOnTrack(s, s.polls, job, ordered, base, env) && Fair(job, ordered, env)
    ensures var p := Poll(s, job, env);
            && Balanced(p.state.tables)
            && (p.result.Err? ==> !p.result.error.NotSettled?)
            && Held(p.state.tables, job.decision.ticker)
               == (if job.side.Buy? then base + p.state.recordedQty else base - p.state.recordedQty)
    decreases job.timeout - s.elapsed
  {
    TurnOnTrack(s, job, ordered, base, env);
    match Turn(s, job, env)
    case Stop(_, _) =>
    case Continue(s') =>
      TurnAdvances(s, job, env);
      PollBalances(s', job, ordered, base, env);
  }
}
