// Whole cycles keep the books: in every state a cycle stores, each ticker's
// recorded buys less sells are its position and each trade row is a completed
// round trip, provided the broker, the clock, the market and the settling
// statements behave.
module Conservation {
  import opened Money
  import opened Models
  import opened Rules
  import opened TradeCloser
  import opened Ledger
  import opened Environment
  import opened Execution
  import opened Protocol
  import opened Fills
  import opened Settlement
  import opened Polling
  import Pricing
  import opened Holdings
  import opened Exits
  import opened Proposals
  import opened KillSwitch
  import opened Cycle
  import opened Preparation
  import opened Recording
  import opened Sending

  // ---- what is asked of the outside ----

  /** The broker never reports more than was ordered. */
  ghost predicate Honest(env: Env, trace: seq<Event>) {
    forall i, k: nat {:trigger trace[i], env.broker.read(trace[i].request.clientOrderId, k)} ::
      0 <= i < |trace| && trace[i].Sent? && env.broker.read(trace[i].request.clientOrderId, k).Ok?
      ==> env.broker.read(trace[i].request.clientOrderId, k).value.filledQty <= trace[i].request.qty
  }

  lemma {:induction false} HonestPrefix(env: Env, a: seq<Event>, b: seq<Event>)
    requires a <= b && Honest(env, b)
    ensures Honest(env, a)
  {
    forall i, k: nat | 0 <= i < |a| && a[i].Sent? && env.broker.read(a[i].request.clientOrderId, k).Ok?
      ensures env.broker.read(a[i].request.clientOrderId, k).value.filledQty <= a[i].request.qty
    {
      assert a[i] == b[i];
      assert env.broker.read(b[i].request.clientOrderId, k).value.filledQty <= b[i].request.qty;
    }
  }

  /** The readings of a cycle lie in (lo, hi], and the clock moves on from read to read;
      a poll of at least a second's interval makes at most `timeout` + 1 reads. */
  ghost predicate Ticking(env: Env, lo: Time, hi: Time, timeout: int) {
    && (forall r: Reading :: lo < env.now(r))
    && (forall r: Reading :: (r.Filling? ==> r.read <= Max(0, timeout)) ==> env.now(r) <= hi)
    && (forall id, k: nat, l: nat {:trigger env.now(Filling(id, k)), env.now(Filling(id, l))} ::
          k < l ==> env.now(Filling(id, k)) < env.now(Filling(id, l)))
  }

  ghost predicate FillsBy(t: Tables, time: Time) { forall f :: f in t.fills ==> f.filledAt <= time }

  /** The books, and when they were last written. */
  ghost predicate Booked(t: Tables, time: Time) { Balanced(t) && FillsBy(t, time) }

  ghost predicate BookedThroughout(w: World, from: nat, time: Time) { Throughout(w, from, t => Booked(t, time)) }

  // ---- a decision whose order can be filled ----

  ghost predicate Ready(t: Tables, d: Decision, reasons: map<Id, ExitReason>, env: Env) {
    Tradable(d) ==>
      && Agrees(t, d)
      && (forall k: nat :: Earlier(HistoryOf(t, d.ticker), env.now(Filling(OrderId(d.id), k))))
      && (d.action == ActSell ==> Covered(t, d) && d.id in reasons)
  }

  /** Other tickers' histories and positions are as they were. */
  ghost predicate Undisturbed(t: Tables, u: Tables, ticker: Ticker) {
    forall k :: k != ticker ==> HistoryOf(u, k) == HistoryOf(t, k) && GetPosition(u, k) == GetPosition(t, k)
  }

  lemma {:induction false} StaysReady(t: Tables, u: Tables, d: Decision, x: Decision, reasons: map<Id, ExitReason>,
                                      env: Env)
    requires Ready(t, x, reasons, env) && OnlyAdds(t, u, d) && x.id != d.id
    requires Undisturbed(t, u, d.ticker) && (Tradable(x) ==> x.ticker != d.ticker)
    ensures Ready(u, x, reasons, env)
  {
    if Tradable(x) { assert GetPosition(u, x.ticker) == GetPosition(t, x.ticker); }
  }

  // ---- recording ----

  /** A change that touches neither fills nor holdings. */
  ghost predicate NoShares(t: Tables, u: Tables) {
    && Grows(t, u) && u.fills == t.fills && u.trades == t.trades && u.positions == t.positions
  }

  lemma {:induction false} NoSharesMoved(t: Tables, u: Tables, time: Time)
    requires Booked(t, time) && NoShares(t, u) && Linked(u)
    ensures Booked(u, time)
    ensures forall k :: HistoryOf(u, k) == HistoryOf(t, k) && GetPosition(u, k) == GetPosition(t, k)
  {
    BalancedStable(t, u);
    forall k ensures HistoryOf(u, k) == HistoryOf(t, k) { HistoryStable(t, u, k); }
  }

  lemma {:induction false} RecordMovesNothing(t: Tables, req: ApprovedOrderRequest, mode: Mode, faults: Faults)
    requires Authorized(req) && Agrees(t, req.decision) && Linked(t) && RecordOrder(t, req, mode, faults).Ok?
    ensures var u := RecordOrder(t, req, mode, faults).value; NoShares(t, u) && Linked(u)
  {
    RecordGrows(t, req, mode, faults);
  }

  lemma {:induction false} UpdateMovesNothing(w: World, req: ApprovedOrderRequest, env: Env, mode: Mode)
    requires Linked(w.working)
    ensures var x := AfterSubmit(w, req, env, mode);
            && NoShares(w.working, x.world.working) && Linked(x.world.working)
            && x.world == w.(working := x.world.working)
            && x.world.working.decisions == w.working.decisions
            && (OrderId(req.decision.id) in w.working.orders ==>
                  SameOrder(w.working.orders[OrderId(req.decision.id)],
                            x.world.working.orders[OrderId(req.decision.id)]))
  {
    SubmitOrders(w, req, env, mode);
    OrdersMoveNothing(w.working, AfterSubmit(w, req, env, mode).world.working);
  }

  lemma {:induction false} OrdersMoveNothing(t: Tables, u: Tables)
    requires Linked(t) && u == t.(orders := u.orders) && u.orders.Keys == t.orders.Keys
    requires forall k :: k in t.orders ==> SameOrder(t.orders[k], u.orders[k])
    ensures NoShares(t, u) && Linked(u)
  {
  }

  // ---- polling ----

  lemma {:induction false} NoFillsYet(fills: seq<Fill>, id: Id)
    requires forall f :: f in fills ==> f.orderId != id
    ensures FillsOf(fills, id) == []
  {
    if fills != [] {
      assert fills[|fills| - 1] in fills;
      NoFillsYet(fills[..|fills| - 1], id);
    }
  }

  lemma {:induction false} AppendedElsewhere(u: Tables, fills: seq<Fill>, n: nat, orderId: Id, k: Ticker)
    requires n <= |fills| && forall i :: n <= i < |fills| ==> fills[i].orderId == orderId
    requires orderId in u.orders && u.orders[orderId].decisionId in u.decisions
    requires u.decisions[u.orders[orderId].decisionId].ticker != k
    ensures Joined(u, fills, k) == Joined(u, fills[..n], k)
    decreases |fills|
  {
    if n == |fills| {
      assert fills[..n] == fills;
    } else {
      var front := fills[..|fills| - 1];
      assert front[..n] == fills[..n];
      AppendedElsewhere(u, front, n, orderId, k);
    }
  }

  lemma {:induction false} PollUndisturbed(t: Tables, u: Tables, job: PollJob)
    requires PollFrame(t, u, job) && Linked(t) && JobRecorded(t, job)
    ensures Undisturbed(t, u, job.decision.ticker)
  {
    forall k | k != job.decision.ticker ensures HistoryOf(u, k) == HistoryOf(t, k) {
      AppendedElsewhere(u, u.fills, |t.fills|, job.orderId, k);
      JoinedStable(t, u, t.fills, k);
    }
  }

  /** No more reads than seconds waited, and none past the timeout. */
  ghost predicate InTime(s: PollState, job: PollJob) { s.polls <= s.elapsed && s.polls <= Max(0, job.timeout) }

  lemma {:induction false} TurnFillsBy(s: PollState, job: PollJob, env: Env, lo: Time, hi: Time)
    requires FillsBy(s.tables, hi) && Ticking(env, lo, hi, job.timeout) && InTime(s, job)
    requires Ends(s, job)
    ensures var step := Turn(s, job, env);
            FillsBy(step.state.tables, hi) && (step.Continue? ==> InTime(step.state, job))
  {
    if Turn(s, job, env).Continue? { TurnAdvances(s, job, env); }
    match env.broker.read(job.clientOrderId, s.polls)
    case Err(_) =>
    case Ok(bo) =>
      var fill := NewFill(s, job, bo, env);
      var recorded := RecordNew(s, job, bo, env);
      if fill.Some? && InsertFill(s.tables, fill.value, env.faults).Ok? {
        Pricing.SettlingAddsNoFill(InsertFill(s.tables, fill.value, env.faults).value, job, fill.value, env.faults);
      }
      assert FillsBy(recorded.state.tables, hi);
      Pricing.ConcludeFills(recorded, job, bo, env);
  }

  lemma {:induction false} PollFillsBy(s: PollState, job: PollJob, env: Env, lo: Time, hi: Time)
    requires Ends(s, job) && FillsBy(s.tables, hi) && Ticking(env, lo, hi, job.timeout) && InTime(s, job)
    ensures FillsBy(Poll(s, job, env).state.tables, hi)
    decreases job.timeout - s.elapsed
  {
    TurnFillsBy(s, job, env, lo, hi);
    match Turn(s, job, env)
    case Stop(_, _) =>
    case Continue(s') =>
      TurnAdvances(s, job, env);
      PollFillsBy(s', job, env, lo, hi);
  }

  /** An order just recorded, of a decision that was ready. */
  ghost predicate FreshOrder(t: Tables, job: PollJob, qty: nat, env: Env) {
    && JobRecorded(t, job) && FillsOf(t.fills, job.orderId) == [] && NeverClosed(t, job.decision.id)
    && (forall k: nat :: Earlier(HistoryOf(t, job.decision.ticker), env.now(Filling(job.clientOrderId, k))))
    && (job.side.Sell? ==> Resolve(job.reason, job.decision.origin).Some? && qty <= Held(t, job.decision.ticker))
  }

  /** Polling such an order keeps the books and is never refused; a sell leaves what it did not fill. */
  lemma {:induction false} FreshPollBalances(t: Tables, job: PollJob, qty: nat, env: Env, lo: Time, hi: Time)
    requires CanPoll(job.interval, job.timeout) && Booked(t, hi) && FreshOrder(t, job, qty, env)
    requires SettlesCleanly(env.faults) && Ticking(env, lo, hi, job.timeout)
    requires forall k: nat :: env.broker.read(job.clientOrderId, k).Ok? ==>
               env.broker.read(job.clientOrderId, k).value.filledQty <= qty
    ensures var p := Poll(PollStart(t, job.orderId), job, env);
            && Booked(p.state.tables, hi) && Undisturbed(t, p.state.tables, job.decision.ticker)
            && p.state.tables.decisions == t.decisions
            && (p.result.Err? ==> !p.result.error.NotSettled?)
            && Held(p.state.tables, job.decision.ticker)
               == (if job.side.Buy? then Held(t, job.decision.ticker) + p.state.recordedQty
                   else Held(t, job.decision.ticker) - p.state.recordedQty)
  {
    var s := PollStart(t, job.orderId);
    assert StateOnTrack(s, 0, job, qty, Held(t, job.decision.ticker), env);
    PollBalances(s, job, qty, Held(t, job.decision.ticker), env);
    PollKeepsFrame(s, job, env);
    PollFillsBy(s, job, env, lo, hi);
    PollUndisturbed(t, Poll(s, job, env).state.tables, job);
  }

  /** A rule exit, from the signal to its settled fills: it is ordered at `_sell_qty`, never
      refused, and once all of it is filled a full exit has removed the position, while a
      partial one on two shares or more has left at least one. */
  lemma {:induction false} RuleExitSettles(t: Tables, p: Position, price: Ticks, rules: RuleSet, signal: ExitSignal,
                                           cycleId: Id, mode: Mode, now: Time, job: PollJob, env: Env, lo: Time,
                                           hi: Time)
    requires Admissible(rules) && price >= TICKS_PER_CENT && p.qty >= 1
             && CheckExit(p, price, rules, now) == Some(signal)
    requires GetPosition(t, p.ticker) == Some(p)
    requires job.decision == ExitDecision(p, price, signal.fraction, cycleId, mode, env) && job.side.Sell?
    requires CanPoll(job.interval, job.timeout) && Booked(t, hi)
             && FreshOrder(t, job, SellQty(p.qty, signal.fraction), env)
    requires SettlesCleanly(env.faults) && Ticking(env, lo, hi, job.timeout)
    requires forall k: nat :: env.broker.read(job.clientOrderId, k).Ok? ==>
               env.broker.read(job.clientOrderId, k).value.filledQty <= SellQty(p.qty, signal.fraction)
    ensures var d, qty := job.decision, SellQty(p.qty, signal.fraction);
            var polled := Poll(PollStart(t, job.orderId), job, env);
            var u := polled.state.tables;
            && OrderQty(d.proposedNotional, d.referencePrice) == Ok(qty)
            && (polled.result.Err? ==> !polled.result.error.NotSettled?)
            && (polled.state.recordedQty == qty && signal.reason != PartialTakeProfit ==> p.ticker !in u.positions)
            && (polled.state.recordedQty == qty && signal.reason == PartialTakeProfit && p.qty >= 2 ==>
                  p.ticker in u.positions && u.positions[p.ticker].qty == p.qty - qty >= 1)
  {
    ExitSized(p, price, rules, signal, cycleId, mode, now, env);
    FreshPollBalances(t, job, SellQty(p.qty, signal.fraction), env, lo, hi);
    SharesConserved(Poll(PollStart(t, job.orderId), job, env).state.tables, p.ticker);
  }

  // ---- executing ----

  ghost predicate ReadyBoth(w: World, d: Decision, reasons: map<Id, ExitReason>, env: Env) {
    Ready(w.working, d, reasons, env) && Ready(w.committed, d, reasons, env)
  }

  /** Recorded, or reverted: either way no share moves. */
  ghost predicate Registers(w: World, w': World, d: Decision) {
    || w' == RollbackWorld(w)
    || (&& NoShares(w.working, w'.working) && Linked(w'.working) && OnlyAdds(w.working, w'.working, d)
        && NoShares(w.working, w'.committed) && Linked(w'.committed) && OnlyAdds(w.working, w'.committed, d))
  }

  lemma {:induction false} RegistersStaysReady(w: World, w': World, d: Decision, x: Decision,
                                               reasons: map<Id, ExitReason>, env: Env, hi: Time)
    requires Registers(w, w', d) && Booked(w.working, hi) && ReadyBoth(w, x, reasons, env)
    requires x.id != d.id && (Tradable(x) ==> x.ticker != d.ticker)
    ensures ReadyBoth(w', x, reasons, env)
  {
    if w' != RollbackWorld(w) {
      NoSharesMoved(w.working, w'.working, hi);
      NoSharesMoved(w.working, w'.committed, hi);
      StaysReady(w.working, w'.working, d, x, reasons, env);
      StaysReady(w.working, w'.committed, d, x, reasons, env);
    }
  }

  lemma {:induction false} RecordBooks(w: World, req: ApprovedOrderRequest, mode: Mode, faults: Faults, from: nat,
                                       hi: Time)
    requires BookedThroughout(w, from, hi) && Authorized(req) && Agrees(w.working, req.decision)
    ensures var (w1, failed) := RecordTransaction(w, req, mode, faults);
            && BookedThroughout(w1, from, hi) && Registers(w, w1, req.decision)
            && (failed.Some? ==> w1 == RollbackWorld(w))
            && (failed.None? ==>
                  && w1.committed == w1.working && NoShares(w.working, w1.working)
                  && req.clientOrderId !in w.working.orders && req.clientOrderId in w1.working.orders
                  && w1.working.orders[req.clientOrderId] == NewOrder(req, mode)
                  && req.decision.id in w1.working.decisions && w1.working.decisions[req.decision.id] == req.decision)
  {
    var t := RecordOrder(w.working, req, mode, faults);
    if t.Ok? {
      RecordMovesNothing(w.working, req, mode, faults);
      RecordGrows(w.working, req, mode, faults);
      NoSharesMoved(w.working, t.value, hi);
    }
  }

  lemma {:induction false} SubmitBooks(w: World, req: ApprovedOrderRequest, env: Env, mode: Mode, from: nat, hi: Time)
    requires BookedThroughout(w, from, hi)
    ensures BookedThroughout(AfterSubmit(w, req, env, mode).world, from, hi)
  {
    UpdateMovesNothing(w, req, env, mode);
    NoSharesMoved(w.working, AfterSubmit(w, req, env, mode).world.working, hi);
  }

  lemma {:induction false} ExecuteBooks(w: World, req: ApprovedOrderRequest, env: Env, mode: Mode, from: nat, hi: Time)
    requires BookedThroughout(w, from, hi) && Authorized(req) && Agrees(w.working, req.decision)
    ensures var x := ExecuteSpec(w, req, env, mode);
            && BookedThroughout(x.world, from, hi) && Registers(w, x.world, req.decision)
            && (x.result.Ok? ==> OrderMade(w, x.world, req) && x.result.value.side == req.side
                                 && x.result.value.clientOrderId == x.result.value.id == req.clientOrderId)
  {
    var (w1, failed) := RecordTransaction(w, req, mode, env.faults);
    RecordBooks(w, req, mode, env.faults, from, hi);
    if failed.None? {
      var w2 := SendWorld(w1, RequestOf(req));
      assert BookedThroughout(w2, from, hi);
      SubmitBooks(w2, req, env, mode, from, hi);
      UpdateMovesNothing(w2, req, env, mode);
      RegistersSent(w, w1, AfterSubmit(w2, req, env, mode).world, req);
      if AfterSubmit(w2, req, env, mode).result.Ok? { assert w2.trace[|w2.trace| - 1] == Sent(RequestOf(req)); }
    }
  }

  lemma {:induction false} RegistersSent(w: World, w1: World, w': World, req: ApprovedOrderRequest)
    requires NoShares(w.working, w1.working) && w1.committed == w1.working && Linked(w1.working)
    requires OnlyAdds(w.working, w1.working, req.decision)
    requires NoShares(w1.working, w'.working) && Linked(w'.working) && w'.working.decisions == w1.working.decisions
    requires w'.committed == w1.committed
    ensures Registers(w, w', req.decision) && NoShares(w.working, w'.working)
  {
  }

  /** The order an accepted request left behind, and that the request was sent. */
  ghost predicate OrderMade(w: World, w': World, req: ApprovedOrderRequest) {
    var id, d := req.clientOrderId, req.decision;
    && NoShares(w.working, w'.working) && id !in w.working.orders && id in w'.working.orders
    && w'.working.orders[id].decisionId == d.id && w'.working.orders[id].side == req.side
    && d.id in w'.working.decisions && w'.working.decisions[d.id] == d
    && exists i :: 0 <= i < |w'.trace| && w'.trace[i] == Sent(RequestOf(req))
  }

  lemma {:induction false} OrderIsFresh(w: World, w': World, req: ApprovedOrderRequest, job: PollJob,
                                        reasons: map<Id, ExitReason>, env: Env, hi: Time)
    requires Booked(w.working, hi) && OrderMade(w, w', req) && Authorized(req)
             && Ready(w.working, req.decision, reasons, env)
    requires Linked(w'.working)
    requires job.decision == req.decision && job.side == req.side
             && job.clientOrderId == job.orderId == req.clientOrderId
    requires job.reason == if job.decision.id in reasons then Some(reasons[job.decision.id]) else None
    ensures FreshOrder(w'.working, job, req.qty, env)
  {
    var d := req.decision;
    assert Tradable(d);
    NoSharesMoved(w.working, w'.working, hi);
    NoFillsYet(w.working.fills, req.clientOrderId);
  }

  lemma {:induction false} HonestOrder(env: Env, trace: seq<Event>, r: OrderRequest)
    requires Honest(env, trace) && exists i :: 0 <= i < |trace| && trace[i] == Sent(r)
    ensures forall k: nat :: env.broker.read(r.clientOrderId, k).Ok? ==>
              env.broker.read(r.clientOrderId, k).value.filledQty <= r.qty
  {
    var i :| 0 <= i < |trace| && trace[i] == Sent(r);
    assert trace[i].request.clientOrderId == r.clientOrderId;
  }

  /** One decision: the books are kept, and every other decision stays ready. */
  lemma {:induction false} ExecuteOneBooks(e: Executions, d: Decision, reasons: map<Id, ExitReason>, deps: Deps,
                                           env: Env, nextClose: Time, from: nat, lo: Time, hi: Time)
    requires Paced(deps) && BookedThroughout(e.world, from, hi)
             && ReadyBoth(e.world, d, reasons, env)
    requires SettlesCleanly(env.faults) && Ticking(env, lo, hi, deps.timeout)
    requires Honest(env, ExecuteOne(e, d, reasons, deps, env, nextClose).world.trace)
    ensures var w' := ExecuteOne(e, d, reasons, deps, env, nextClose).world;
            && BookedThroughout(w', from, hi)
            && forall x :: ReadyBoth(e.world, x, reasons, env) && x.id != d.id
                 && (Tradable(x) && Tradable(d) ==> x.ticker != d.ticker)
                 ==> ReadyBoth(w', x, reasons, env)
  {
    var approved := ResolveApproval(d, deps.mode, e.world.working, env, nextClose);
    if Tradable(d) && approved.Ok? {
      var req := approved.value;
      ResolvedIsAuthorized(d, deps.mode, e.world.working, env, nextClose);
      var x := ExecuteSpec(e.world, req, env, deps.mode);
      ExecuteBooks(e.world, req, env, deps.mode, from, hi);
      forall y | ReadyBoth(e.world, y, reasons, env) && y.id != d.id && (Tradable(y) ==> y.ticker != d.ticker)
        ensures ReadyBoth(x.world, y, reasons, env)
      {
        RegistersStaysReady(e.world, x.world, d, y, reasons, env, hi);
      }
      if x.result.Ok? {
        var job := JobFor(d, x.result.value, reasons, deps);
        OrderIsFresh(e.world, x.world, req, job, reasons, env, hi);
        PolledBooks(x.world, job, RequestOf(req), reasons, env, from, lo, hi);
      }
    }
  }

  lemma {:induction false} PolledBooks(w: World, job: PollJob, r: OrderRequest, reasons: map<Id, ExitReason>, env: Env,
                                       from: nat, lo: Time, hi: Time)
    requires CanPoll(job.interval, job.timeout) && BookedThroughout(w, from, hi)
             && FreshOrder(w.working, job, r.qty, env)
    requires SettlesCleanly(env.faults) && Ticking(env, lo, hi, job.timeout) && job.clientOrderId == r.clientOrderId
    requires Honest(env, w.trace) && exists i :: 0 <= i < |w.trace| && w.trace[i] == Sent(r)
    ensures var w' := w.(working := Poll(PollStart(w.working, job.orderId), job, env).state.tables);
            && BookedThroughout(w', from, hi)
            && forall x :: ReadyBoth(w, x, reasons, env) && x.id != job.decision.id
                 && (Tradable(x) ==> x.ticker != job.decision.ticker)
                 ==> ReadyBoth(w', x, reasons, env)
  {
    HonestOrder(env, w.trace, r);
    FreshPollBalances(w.working, job, r.qty, env, lo, hi);
    var u := Poll(PollStart(w.working, job.orderId), job, env).state.tables;
    forall x | ReadyBoth(w, x, reasons, env) && x.id != job.decision.id
      && (Tradable(x) ==> x.ticker != job.decision.ticker)
      ensures Ready(u, x, reasons, env)
    {
      StaysReady(w.working, u, job.decision, x, reasons, env);
    }
  }

  /** The rest of the list stays ready while its front is executed. */
  lemma {:induction false} ExecuteAllBooks(w: World, ds: seq<Decision>, n: nat, reasons: map<Id, ExitReason>,
                                           deps: Deps, env: Env, nextClose: Time, from: nat, lo: Time, hi: Time)
    requires n <= |ds| && Paced(deps) && BookedThroughout(w, from, hi) && Distinct(ds)
    requires forall i :: 0 <= i < |ds| ==> ReadyBoth(w, ds[i], reasons, env)
    requires SettlesCleanly(env.faults) && Ticking(env, lo, hi, deps.timeout)
    requires Honest(env, ExecuteAll(w, ds[..n], reasons, deps, env, nextClose).world.trace)
    ensures var w' := ExecuteAll(w, ds[..n], reasons, deps, env, nextClose).world;
            && BookedThroughout(w', from, hi)
            && forall i :: n <= i < |ds| ==> ReadyBoth(w', ds[i], reasons, env)
    decreases n
  {
    if n > 0 {
      assert ds[..n][..n - 1] == ds[..n - 1];
      var e := ExecuteAll(w, ds[..n - 1], reasons, deps, env, nextClose);
      ExecuteOneSends(e, ds[n - 1], reasons, deps, env, nextClose);
      HonestPrefix(env, e.world.trace, ExecuteOne(e, ds[n - 1], reasons, deps, env, nextClose).world.trace);
      ExecuteAllBooks(w, ds, n - 1, reasons, deps, env, nextClose, from, lo, hi);
      ExecuteOneBooks(e, ds[n - 1], reasons, deps, env, nextClose, from, lo, hi);
    }
  }

  // ---- before executing ----

  lemma {:induction false} PreparedBooks(t: Tables, u: Tables, time: Time)
    requires Booked(t, time) && Prepares(t, u)
    ensures Booked(u, time)
    ensures forall k :: HistoryOf(u, k) == HistoryOf(t, k)
  {
    BalancedStable(t, u);
    forall k ensures HistoryOf(u, k) == HistoryOf(t, k) { HistoryStable(t, u, k); }
  }

  lemma {:induction false} AllEarlier(t: Tables, k: Ticker, time: Time)
    requires FillsBy(t, time)
    ensures forall c :: c in HistoryOf(t, k) ==> c.fill.filledAt <= time
  {
    forall c | c in HistoryOf(t, k) ensures c.fill.filledAt <= time { JoinedFromFills(t, t.fills, k, c); }
  }

  /** What a cycle prepared is ready, in what is pending and in what it started from. */
  lemma {:induction false} TaskReady(t: Tables, u: Tables, d: Decision, reasons: map<Id, ExitReason>, env: Env,
                                     lo: Time)
    requires Booked(t, lo) && Prepares(t, u) && Task(t, u, reasons, d) && forall r: Reading :: lo < env.now(r)
    requires Tradable(d) && d.action == ActSell ==> Covered(t, d)
    ensures Ready(t, d, reasons, env) && Ready(u, d, reasons, env)
  {
    PreparedBooks(t, u, lo);
    AllEarlier(t, d.ticker, lo);
  }

  ghost predicate SellsAmong(todo: seq<Decision>, ds: seq<Decision>) {
    forall d :: d in todo && Tradable(d) && d.action == ActSell ==> d in ds
  }

  lemma {:induction false} BuySideSells(w: World, cycleId: Id, held: set<Ticker>, h: HoldingsOutcome, mc: MarketClock,
                                        deps: Deps, env: Env)
    requires Runnable(deps)
    ensures SellsAmong(BuySide(w, cycleId, held, h, mc, deps, env).todo, h.decisions)
  {
    CandidatesAreSafe(SettingFor(cycleId, held, mc, deps), env);
  }

  lemma {:induction false} PricedSells(w: World, cycleId: Id, held: set<Ticker>, h: HoldingsOutcome, mc: MarketClock,
                                       deps: Deps, env: Env)
    requires Runnable(deps)
    ensures SellsAmong(PricedCycle(w, cycleId, held, h, mc, deps, env).todo, h.decisions)
  {
    RiskPrepared(w, h, deps, env);
    match EvaluateRiskSpec(w, h, deps, env)
    case Stopped(_) =>
    case GoOn(w1) => BuySideSells(w1, cycleId, held, h, mc, deps, env);
  }

  /** The sells a cycle executes are those its holdings' evaluation decided. */
  lemma {:induction false} SellsFromHoldings(w: World, cycleId: Id, deps: Deps, env: Env)
    requires Runnable(deps)
    ensures var m := MarkAll(w.working, ListPositions(w.working.positions), deps.rules, cycleId, deps.mode, env);
            SellsAmong(StartedCycle(w, cycleId, deps, env).todo, m.state.decisions)
  {
    if !IsHalted(w.working) && env.market.clock.Ok? {
      var m := MarkAll(w.working, ListPositions(w.working.positions), deps.rules, cycleId, deps.mode, env);
      PricedSells(w.(working := m.state.tables), cycleId, w.working.positions.Keys, OutcomeOf(m.state),
                  env.market.clock.value, deps, env);
    }
  }

  lemma {:induction false} PositionsHold(t: Tables)
    requires Balanced(t)
    ensures forall k :: k in t.positions ==> t.positions[k].qty >= 1
  {
    forall k | k in t.positions ensures t.positions[k].qty >= 1 { SharesConserved(t, k); }
  }

  lemma {:induction false} SellsAreCovered(w: World, cycleId: Id, deps: Deps, env: Env)
    requires Runnable(deps) && Balanced(w.working) && Admissible(deps.rules) && QuotesFromACent(env)
    ensures forall d :: d in StartedCycle(w, cycleId, deps, env).todo && Tradable(d) && d.action == ActSell ==>
              Covered(w.working, d)
  {
    var ps := ListPositions(w.working.positions);
    ListsEachOnce(w.working.positions);
    PositionsHold(w.working);
    MarkAllCovered(w.working, ps, deps.rules, cycleId, deps.mode, env);
    SellsFromHoldings(w, cycleId, deps, env);
  }

  // ---- a cycle ----

  /** The outside as a cycle may expect it. */
  ghost predicate Ordinary(deps: Deps, env: Env, lo: Time, hi: Time) {
    && SettlesCleanly(env.faults) && QuotesFromACent(env) && Admissible(deps.rules)
    && Ticking(env, lo, hi, deps.timeout)
  }

  lemma {:induction false} Later(t: Tables, lo: Time, hi: Time)
    requires Booked(t, lo) && lo <= hi
    ensures Booked(t, hi)
  {
  }

  lemma {:induction false} NothingSentBooks(w: World, w': World, lo: Time, hi: Time)
    requires Booked(w.working, lo) && Booked(w.committed, lo) && lo <= hi && NothingSent(w, w')
    ensures BookedThroughout(w', |w.trace|, hi)
  {
    if w' != RollbackWorld(w) { PreparedBooks(w.working, w'.working, lo); }
  }

  lemma {:induction false} FinishBooks(w: World, o: CycleOutcome, env: Env, from: nat, hi: Time)
    requires BookedThroughout(w, from, hi)
    ensures BookedThroughout(Finish(w, o, env).world, from, hi)
  {
    var t := FinishTables(w.working, o, env);
    if t.Ok? {
      assert NoShares(w.working, t.value);
      NoSharesMoved(w.working, t.value, hi);
    }
  }

  lemma {:induction false} TradeBooks(w: World, p: Prepared, cycleId: Id, deps: Deps, env: Env, lo: Time, hi: Time)
    requires Paced(deps) && Ordinary(deps, env, lo, hi)
    requires Booked(w.working, lo) && Booked(w.committed, lo) && NoShares(w.committed, w.working)
    requires WellPrepared(w, p, deps.rules.maxConcurrentPositions)
    requires forall d :: d in p.todo && Tradable(d) && d.action == ActSell ==> Covered(w.working, d)
    requires Honest(env, TradeAndFinish(p, cycleId, deps, env).world.trace)
    ensures BookedThroughout(TradeAndFinish(p, cycleId, deps, env).world, |w.trace|, hi)
  {
    assert lo < env.now(Started) <= hi;
    NothingSentBooks(w, p.world, lo, hi);
    forall i | 0 <= i < |p.todo| ensures ReadyBoth(p.world, p.todo[i], p.reasons, env) {
      assert Task(w.working, p.world.working, p.reasons, p.todo[i]) && p.todo[i] in p.todo;
      TaskReady(w.working, p.world.working, p.todo[i], p.reasons, env, lo);
      ReadyBefore(w.committed, w.working, p.todo[i], p.reasons, env, lo);
    }
    assert p.todo[..|p.todo|] == p.todo;
    var e := ExecuteAll(p.world, p.todo, p.reasons, deps, env, p.nextClose);
    HonestPrefix(env, e.world.trace, TradeAndFinish(p, cycleId, deps, env).world.trace);
    ExecuteAllBooks(p.world, p.todo, |p.todo|, p.reasons, deps, env, p.nextClose, |w.trace|, lo, hi);
    FinishBooks(e.world, CycleOutcome(cycleId, p.status, p.count, e.orders, e.fills, p.skipped), env, |w.trace|, hi);
  }

  lemma {:induction false} ReadyBefore(a: Tables, b: Tables, d: Decision, reasons: map<Id, ExitReason>, env: Env,
                                       lo: Time)
    requires Ready(b, d, reasons, env) && Booked(a, lo) && NoShares(a, b) && Linked(b) && d.id !in b.decisions
    ensures Ready(a, d, reasons, env)
  {
    NoSharesMoved(a, b, lo);
    assert GetPosition(b, d.ticker) == GetPosition(a, d.ticker);
  }

  /** A cycle that starts from balanced books, in an ordinary world, stores only
      balanced books: at every commit, and so after a crash at any point. */
  lemma {:induction false} CycleBooks(w: World, deps: Deps, env: Env, lo: Time, hi: Time)
    requires Runnable(deps) && Ordinary(deps, env, lo, hi) && lo <= hi
    requires Booked(w.working, lo) && w.committed == w.working
    requires Honest(env, CycleSpec(w, deps, env).world.trace)
    ensures BookedThroughout(CycleSpec(w, deps, env).world, |w.trace|, hi)
  {
    var cycleId := env.uuid(FreshCycle);
    var t := InsertCycle(w.working, cycleId, env.now(Started), deps.mode, env.faults);
    if t.Ok? {
      var w1 := w.(working := t.value);
      assert NoShares(w.working, t.value);
      NoSharesMoved(w.working, t.value, lo);
      StartedPrepared(w1, cycleId, deps, env);
      SellsAreCovered(w1, cycleId, deps, env);
      TradeBooks(w1, StartedCycle(w1, cycleId, deps, env), cycleId, deps, env, lo, hi);
    }
  }

  /** Such a world exists for every admissible set of rules. */
  lemma {:induction false} OrdinaryWorld(deps: Deps, lo: Time) returns (env: Env, hi: Time)
    requires Admissible(deps.rules)
    ensures Ordinary(deps, env, lo, hi) && forall trace :: Honest(env, trace)
  {
    hi := lo + Max(0, deps.timeout) + 1;
    var filled := BrokerOrder("", Filled, 1, Some(TICKS_PER_CENT));
    env := Env(Broker(Ok(0), Ok(0), _ => Ok(filled), (_, _) => Ok(filled)),
               Market(Ok(MarketClock(true, lo)), _ => Ok(TICKS_PER_CENT), _ => Ok(0)),
               _ => false, (r: Reading) => lo + 1 + (if r.Filling? then r.read else 0), _ => "", [], None);
  }
}
