// What becomes of an order a cycle sent: its polled fills and status are stored,
// or forgotten, and which of the two the next attempted order decides.
module Keeping {
  import opened Money
  import opened Models
  import opened Ledger
  import opened Environment
  import opened Execution
  import opened Protocol
  import opened Fills
  import opened Polling
  import opened Pricing
  import opened Cycle
  import opened Preparation
  import opened Recording
  import opened Sending
  import opened Conservation
  import opened Reverting

  /** An order's row and fills are the same in both. */
  ghost predicate SameOutcome(t: Tables, u: Tables, id: Id) {
    && FillsOf(t.fills, id) == FillsOf(u.fills, id)
    && (id in t.orders <==> id in u.orders) && (id in t.orders ==> t.orders[id] == u.orders[id])
  }

  lemma {:induction false} AppendedFills(a: seq<Fill>, b: seq<Fill>, orderId: Id, id: Id)
    requires AppendsOwn(a, b, orderId) && id != orderId
    ensures FillsOf(b, id) == FillsOf(a, id)
    decreases |b|
  {
    if |a| == |b| {
      assert a == b[..|a|] == b;
    } else {
      var front := b[..|b| - 1];
      assert front[..|a|] == b[..|a|];
      AppendedFills(a, front, orderId, id);
    }
  }

  lemma {:induction false} WritesKeepOthers(t: Tables, u: Tables, orderId: Id, id: Id)
    requires PollWrites(t, u, orderId) && id != orderId
    ensures SameOutcome(t, u, id)
  {
    AppendedFills(t.fills, u.fills, orderId, id);
  }

  lemma {:induction false} RecordingKeepsOthers(w: World, d: Decision, mode: Mode, env: Env, nextClose: Time, id: Id)
    requires Attempted(w, d, mode, env, nextClose) && CanRecord(w, d, mode, env, nextClose) && id != OrderId(d.id)
    ensures SameOutcome(w.working, RecordedTables(w, d, mode, env, nextClose), id)
  {
    ResolvedIsAuthorized(d, mode, w.working, env, nextClose);
  }

  /** Both what is pending and what is stored of an order are as in t. */
  ghost predicate BothAs(w: World, t: Tables, id: Id) {
    SameOutcome(w.working, t, id) && SameOutcome(w.committed, t, id)
  }

  /** Another decision leaves the order alone, reverts it to what is stored, or stores what is pending. */
  lemma {:induction false} ExecuteOneKeeps(e: Executions, d: Decision, reasons: map<Id, ExitReason>, deps: Deps,
                                           env: Env, nextClose: Time, id: Id)
    requires Paced(deps) && id != OrderId(d.id)
    ensures var w, w' := e.world, ExecuteOne(e, d, reasons, deps, env, nextClose).world;
            if !Attempted(w, d, deps.mode, env, nextClose) then w' == w
            else if CanRecord(w, d, deps.mode, env, nextClose) then BothAs(w', w.working, id)
            else BothAs(w', w.committed, id)
  {
    if !Attempted(e.world, d, deps.mode, env, nextClose) {
      UnattemptedStays(e, d, reasons, deps, env, nextClose);
    } else if CanRecord(e.world, d, deps.mode, env, nextClose) {
      SuccessCommits(e, d, reasons, deps, env, nextClose);
      RecordingKeepsOthers(e.world, d, deps.mode, env, nextClose, id);
      var w' := ExecuteOne(e, d, reasons, deps, env, nextClose).world;
      WritesKeepOthers(w'.committed, w'.working, OrderId(d.id), id);
    } else {
      RefusalReverts(e, d, reasons, deps, env, nextClose);
    }
  }

  /** So the first of the remaining decisions to be attempted decides for good. */
  lemma {:induction false} RestDecides(w: World, rest: seq<Decision>, reasons: map<Id, ExitReason>, deps: Deps,
                                       env: Env, nextClose: Time, id: Id)
    requires Paced(deps) && forall d :: d in rest ==> OrderId(d.id) != id
    ensures var w' := ExecuteAll(w, rest, reasons, deps, env, nextClose).world;
            if FirstAttempt(w, rest, deps.mode, env, nextClose).None? then w' == w
            else if Loses(w, rest, deps.mode, env, nextClose) then BothAs(w', w.committed, id)
            else BothAs(w', w.working, id)
  {
    if rest != [] {
      var front, last := rest[..|rest| - 1], rest[|rest| - 1];
      assert last in rest && forall d :: d in front ==> d in rest;
      RestDecides(w, front, reasons, deps, env, nextClose, id);
      ExecuteOneKeeps(ExecuteAll(w, front, reasons, deps, env, nextClose), last, reasons, deps, env, nextClose, id);
    }
  }

  lemma {:induction false} CountsDoNotMatter(e: Executions, f: Executions, d: Decision, reasons: map<Id, ExitReason>,
                                             deps: Deps, env: Env, nextClose: Time)
    requires Paced(deps) && e.world == f.world
    ensures ExecuteOne(e, d, reasons, deps, env, nextClose).world
            == ExecuteOne(f, d, reasons, deps, env, nextClose).world
  {
  }

  lemma {:induction false} ExecuteSplits(w: World, a: seq<Decision>, b: seq<Decision>, reasons: map<Id, ExitReason>,
                                         deps: Deps, env: Env, nextClose: Time)
    requires Paced(deps)
    ensures ExecuteAll(w, a + b, reasons, deps, env, nextClose).world
            == ExecuteAll(ExecuteAll(w, a, reasons, deps, env, nextClose).world, b, reasons, deps, env, nextClose).world
  {
    if b == [] {
      assert a + b == a;
    } else {
      var front, last := b[..|b| - 1], b[|b| - 1];
      assert (a + b)[..|a + b| - 1] == a + front;
      ExecuteSplits(w, a, front, reasons, deps, env, nextClose);
      CountsDoNotMatter(ExecuteAll(w, a + front, reasons, deps, env, nextClose),
                        ExecuteAll(ExecuteAll(w, a, reasons, deps, env, nextClose).world, front, reasons, deps, env,
                                   nextClose),
                        last, reasons, deps, env, nextClose);
    }
  }

  // ---- one sent order ----

  /** Decision d is sent: its recording transaction commits. */
  ghost predicate Sends(w: World, d: Decision, mode: Mode, env: Env, nextClose: Time) {
    Attempted(w, d, mode, env, nextClose) && CanRecord(w, d, mode, env, nextClose)
  }

  /** And accepted by the broker, with its status updated, so that it is polled. */
  ghost predicate Accepted(w: World, d: Decision, mode: Mode, env: Env, nextClose: Time) {
    Sends(w, d, mode, env, nextClose)
    && ExecuteSpec(w, ResolveApproval(d, mode, w.working, env, nextClose).value, env, mode).result.Ok?
  }

  /** Right after it was sent the order is stored as merely recorded, without a fill. */
  lemma {:induction false} SentIsStored(e: Executions, d: Decision, reasons: map<Id, ExitReason>, deps: Deps, env: Env,
                                        nextClose: Time)
    requires Paced(deps) && Guarded(e.world) && Sends(e.world, d, deps.mode, env, nextClose)
    ensures var w' := ExecuteOne(e, d, reasons, deps, env, nextClose).world;
            var req := ResolveApproval(d, deps.mode, e.world.working, env, nextClose).value;
            && MerelyRecorded(w'.committed, req, deps.mode)
            && w'.trace == e.world.trace + [Committed(w'.committed), Sent(RequestOf(req))]
  {
    var req := ResolveApproval(d, deps.mode, e.world.working, env, nextClose).value;
    ResolvedIsAuthorized(d, deps.mode, e.world.working, env, nextClose);
    RecordsExactly(e.world, req, deps.mode, env.faults);
    SendsExactlyWhenRecorded(e.world, req, env, deps.mode);
    SuccessCommits(e, d, reasons, deps, env, nextClose);
    NoFillsYet(e.world.working.fills, OrderId(d.id));
  }

  /** An order's row as its recording transaction wrote it, and no fill: neither sent, nor failed, nor filled. */
  ghost predicate MerelyRecorded(t: Tables, req: ApprovedOrderRequest, mode: Mode) {
    var id := OrderId(req.decision.id);
    id in t.orders && t.orders[id] == NewOrder(req, mode) && FillsOf(t.fills, id) == []
  }

  /** What is pending of an order the broker refused: "failed" with its message, and no fill. */
  lemma {:induction false} RefusedByBroker(e: Executions, d: Decision, reasons: map<Id, ExitReason>, deps: Deps,
                                           env: Env, nextClose: Time, message: string)
    requires Paced(deps) && Guarded(e.world) && Sends(e.world, d, deps.mode, env, nextClose)
    requires var req := ResolveApproval(d, deps.mode, e.world.working, env, nextClose).value;
             env.broker.submit(RequestOf(req)) == Err(message) && !env.faults(UpdateOrderStmt(OrderId(d.id), None))
    ensures var t, id := ExecuteOne(e, d, reasons, deps, env, nextClose).world.working, OrderId(d.id);
            && id in t.orders && t.orders[id].status == Failed && t.orders[id].lastError == Some(message)
            && FillsOf(t.fills, id) == []
  {
    var req := ResolveApproval(d, deps.mode, e.world.working, env, nextClose).value;
    ResolvedIsAuthorized(d, deps.mode, e.world.working, env, nextClose);
    RecordsExactly(e.world, req, deps.mode, env.faults);
    NoFillsYet(e.world.working.fills, OrderId(d.id));
  }

  /** The poll an accepted order is followed by. */
  ghost function PollOf(w: World, d: Decision, reasons: map<Id, ExitReason>, deps: Deps, env: Env, nextClose: Time)
    : Polled
    requires Paced(deps) && Accepted(w, d, deps.mode, env, nextClose)
  {
    var x := ExecuteSpec(w, ResolveApproval(d, deps.mode, w.working, env, nextClose).value, env, deps.mode);
    var job := JobFor(d, x.result.value, reasons, deps);
    Poll(PollStart(x.world.working, job.orderId), job, env)
  }

  /** The state its last turn began in, and the job. */
  ghost function LastTurnOf(w: World, d: Decision, reasons: map<Id, ExitReason>, deps: Deps, env: Env, nextClose: Time)
    : (PollState, PollJob)
    requires Paced(deps) && Accepted(w, d, deps.mode, env, nextClose)
  {
    var x := ExecuteSpec(w, ResolveApproval(d, deps.mode, w.working, env, nextClose).value, env, deps.mode);
    var job := JobFor(d, x.result.value, reasons, deps);
    (LastTurn(PollStart(x.world.working, job.orderId), job, env), job)
  }

  lemma {:induction false} AcceptedIsPolled(e: Executions, d: Decision, reasons: map<Id, ExitReason>, deps: Deps,
                                            env: Env, nextClose: Time)
    requires Paced(deps) && Accepted(e.world, d, deps.mode, env, nextClose)
    ensures ExecuteOne(e, d, reasons, deps, env, nextClose).world.working
            == PollOf(e.world, d, reasons, deps, env, nextClose).state.tables
  {
  }

  /** The rows of an accepted order sum to what a growing broker last reported, however its poll ended,
      unless the last of them could not be inserted. */
  lemma {:induction false} PolledInFull(e: Executions, d: Decision, reasons: map<Id, ExitReason>, deps: Deps, env: Env,
                                        nextClose: Time)
    requires Paced(deps) && Guarded(e.world) && Accepted(e.world, d, deps.mode, env, nextClose)
    requires Growing(OrderId(d.id), env)
    ensures var p := PollOf(e.world, d, reasons, deps, env, nextClose);
            var (s, job) := LastTurnOf(e.world, d, reasons, deps, env, nextClose);
            SumQty(FillsOf(p.state.tables.fills, OrderId(d.id))) == ReportedBy(OrderId(d.id), env, p.state.polls + 1)
            <==> !RowRefused(s, job, env)
  {
    var req := ResolveApproval(d, deps.mode, e.world.working, env, nextClose).value;
    ResolvedIsAuthorized(d, deps.mode, e.world.working, env, nextClose);
    var x := ExecuteSpec(e.world, req, env, deps.mode);
    var job := JobFor(d, x.result.value, reasons, deps);
    FreshStart(e.world, req, env, deps.mode);
    PollKeepsUp(PollStart(x.world.working, job.orderId), job, env);
  }

  lemma {:induction false} FreshStart(w: World, req: ApprovedOrderRequest, env: Env, mode: Mode)
    requires Guarded(w) && Authorized(req) && ExecuteSpec(w, req, env, mode).result.Ok?
    ensures var s := PollStart(ExecuteSpec(w, req, env, mode).world.working, req.clientOrderId);
            && FillsOf(s.tables.fills, req.clientOrderId) == [] && s.recordedQty == 0 && s.recordedNotional == 0
    ensures ExecuteSpec(w, req, env, mode).result.value.id == ExecuteSpec(w, req, env, mode).result.value.clientOrderId
            == req.clientOrderId
  {
    NoFillsYet(w.working.fills, req.clientOrderId);
    RoundExact(0, TICKS_PER_CENT);
  }

  // ---- a whole cycle ----

  /** What a list of executed decisions leaves of its n-th, if that is sent: its row and fills as they were
      right after it, or as merely recorded if the next attempted order is refused. */
  ghost predicate LeavesSent(w: World, ds: seq<Decision>, n: nat, reasons: map<Id, ExitReason>, deps: Deps, env: Env,
                             nextClose: Time, final: World)
    requires Paced(deps) && n < |ds|
  {
    var e, d := ExecuteAll(w, ds[..n], reasons, deps, env, nextClose), ds[n];
    Sends(e.world, d, deps.mode, env, nextClose) ==>
      var req := ResolveApproval(d, deps.mode, e.world.working, env, nextClose).value;
      var after := ExecuteOne(e, d, reasons, deps, env, nextClose).world;
      && Sent(RequestOf(req)) in final.trace
      && if Loses(after, ds[n + 1..], deps.mode, env, nextClose) then MerelyRecorded(final.working, req, deps.mode)
         else SameOutcome(final.working, after.working, OrderId(d.id))
  }

  lemma {:induction false} ListLeavesSent(w: World, ds: seq<Decision>, n: nat, reasons: map<Id, ExitReason>, deps: Deps,
                                          env: Env, nextClose: Time)
    requires Paced(deps) && n < |ds| && Guarded(w) && Distinct(ds)
             && forall d :: d in ds ==> Agrees(w.working, d)
    ensures LeavesSent(w, ds, n, reasons, deps, env, nextClose, ExecuteAll(w, ds, reasons, deps, env, nextClose).world)
  {
    var e := ExecuteAll(w, ds[..n], reasons, deps, env, nextClose);
    ExecuteAllGuarded(w, ds[..n], reasons, deps, env, nextClose);
    if Sends(e.world, ds[n], deps.mode, env, nextClose) {
      SplitAt(w, ds, n, reasons, deps, env, nextClose);
      RestDiffers(ds, n);
      RestLeaves(e, ds[n], ds[n + 1..], reasons, deps, env, nextClose);
    }
  }

  lemma {:induction false} SplitAt(w: World, ds: seq<Decision>, n: nat, reasons: map<Id, ExitReason>, deps: Deps,
                                   env: Env, nextClose: Time)
    requires Paced(deps) && n < |ds|
    ensures var e := ExecuteAll(w, ds[..n], reasons, deps, env, nextClose);
            ExecuteAll(w, ds, reasons, deps, env, nextClose).world
            == ExecuteAll(ExecuteOne(e, ds[n], reasons, deps, env, nextClose).world, ds[n + 1..], reasons, deps, env,
                          nextClose).world
  {
    assert ds[..n + 1][..n] == ds[..n] && ds == ds[..n + 1] + ds[n + 1..];
    ExecuteSplits(w, ds[..n + 1], ds[n + 1..], reasons, deps, env, nextClose);
  }

  lemma {:induction false} RestDiffers(ds: seq<Decision>, n: nat)
    requires n < |ds| && Distinct(ds)
    ensures forall x :: x in ds[n + 1..] ==> OrderId(x.id) != OrderId(ds[n].id)
  {
    forall x | x in ds[n + 1..] ensures OrderId(x.id) != OrderId(ds[n].id) {
      var i :| 0 <= i < |ds[n + 1..]| && ds[n + 1..][i] == x;
      assert ds[n + 1 + i] == x;
      if OrderId(x.id) == OrderId(ds[n].id) { OrderIdInjective(x.id, ds[n].id); }
    }
  }

  lemma {:induction false} RestLeaves(e: Executions, d: Decision, rest: seq<Decision>, reasons: map<Id, ExitReason>,
                                      deps: Deps, env: Env, nextClose: Time)
    requires Paced(deps) && Guarded(e.world) && Sends(e.world, d, deps.mode, env, nextClose)
    requires forall x :: x in rest ==> OrderId(x.id) != OrderId(d.id)
    ensures var req := ResolveApproval(d, deps.mode, e.world.working, env, nextClose).value;
            var after := ExecuteOne(e, d, reasons, deps, env, nextClose).world;
            var final := ExecuteAll(after, rest, reasons, deps, env, nextClose).world;
            && Sent(RequestOf(req)) in final.trace
            && if Loses(after, rest, deps.mode, env, nextClose) then MerelyRecorded(final.working, req, deps.mode)
               else SameOutcome(final.working, after.working, OrderId(d.id))
  {
    var after := ExecuteOne(e, d, reasons, deps, env, nextClose).world;
    ResolvedIsAuthorized(d, deps.mode, e.world.working, env, nextClose);
    SentIsStored(e, d, reasons, deps, env, nextClose);
    RestDecides(after, rest, reasons, deps, env, nextClose, OrderId(d.id));
    ExecuteAllSends(after, rest, reasons, deps, env, nextClose);
    assert after.trace[|after.trace| - 1] in after.trace;
  }

  lemma {:induction false} FinishLeavesSent(w: World, o: CycleOutcome, env: Env)
    ensures var w' := Finish(w, o, env).world;
            && w'.working.orders == w.working.orders && w'.working.fills == w.working.fills
            && w'.committed == w'.working && w.trace <= w'.trace
  {
  }

  lemma {:induction false} LeavesSentFinally(w: World, ds: seq<Decision>, n: nat, reasons: map<Id, ExitReason>,
                                             deps: Deps, env: Env, nextClose: Time, a: World, b: World)
    requires Paced(deps) && n < |ds| && LeavesSent(w, ds, n, reasons, deps, env, nextClose, a)
    requires b.working.orders == a.working.orders && b.working.fills == a.working.fills && a.trace <= b.trace
    ensures LeavesSent(w, ds, n, reasons, deps, env, nextClose, b)
  {
  }

  /** The cycle's row can be inserted. */
  ghost predicate Starts(w: World, deps: Deps, env: Env) {
    InsertCycle(w.working, env.uuid(FreshCycle), env.now(Started), deps.mode, env.faults).Ok?
  }

  /** What it then prepares. */
  ghost function PreparedBy(w: World, deps: Deps, env: Env): Prepared
    requires Runnable(deps) && Starts(w, deps, env)
  {
    var t := InsertCycle(w.working, env.uuid(FreshCycle), env.now(Started), deps.mode, env.faults).value;
    StartedCycle(w.(working := t), env.uuid(FreshCycle), deps, env)
  }

  lemma {:induction false} PreparedGuarded(w: World, deps: Deps, env: Env) returns (w1: World)
    requires Guarded(w) && Runnable(deps) && Starts(w, deps, env)
    ensures Guarded(w1) && WellPrepared(w1, PreparedBy(w, deps, env), deps.rules.maxConcurrentPositions)
    ensures CycleSpec(w, deps, env) == TradeAndFinish(PreparedBy(w, deps, env), env.uuid(FreshCycle), deps, env)
  {
    var t := InsertCycle(w.working, env.uuid(FreshCycle), env.now(Started), deps.mode, env.faults).value;
    w1 := w.(working := t);
    GuardedWrite(w, t);
    StartedPrepared(w1, env.uuid(FreshCycle), deps, env);
  }

  /** Every order a cycle sends, accepted or not, is stored as it stood when the cycle went on to the next
      decision: submitted and polled, or failed. Unless the next attempted order of the cycle is refused:
      then it is stored as merely recorded, as if it had never been sent. */
  lemma {:induction false} CycleLeavesSent(w: World, deps: Deps, env: Env, n: nat)
    requires Guarded(w) && Runnable(deps) && Starts(w, deps, env) && n < |PreparedBy(w, deps, env).todo|
    ensures var p, w' := PreparedBy(w, deps, env), CycleSpec(w, deps, env).world;
            w'.committed == w'.working && LeavesSent(p.world, p.todo, n, p.reasons, deps, env, p.nextClose, w')
  {
    var w1 := PreparedGuarded(w, deps, env);
    TradeLeavesSent(w1, PreparedBy(w, deps, env), env.uuid(FreshCycle), deps, env, n);
  }

  lemma {:induction false} TradeLeavesSent(w: World, p: Prepared, cycleId: Id, deps: Deps, env: Env, n: nat)
    requires Paced(deps) && Guarded(w)
             && WellPrepared(w, p, deps.rules.maxConcurrentPositions) && n < |p.todo|
    ensures var w' := TradeAndFinish(p, cycleId, deps, env).world;
            w'.committed == w'.working && LeavesSent(p.world, p.todo, n, p.reasons, deps, env, p.nextClose, w')
  {
    NothingSentGuarded(w, p.world);
    TasksAgree(w.working, p.world.working, p.reasons, p.todo);
    ListLeavesSent(p.world, p.todo, n, p.reasons, deps, env, p.nextClose);
    var e := ExecuteAll(p.world, p.todo, p.reasons, deps, env, p.nextClose);
    var o := CycleOutcome(cycleId, p.status, p.count, e.orders, e.fills, p.skipped);
    FinishLeavesSent(e.world, o, env);
    LeavesSentFinally(p.world, p.todo, n, p.reasons, deps, env, p.nextClose, e.world, Finish(e.world, o, env).world);
  }

  // ---- stored and reported ----

  /** The world in which the n-th decision's turn comes. */
  ghost function BeforeNth(p: Prepared, n: nat, deps: Deps, env: Env): Executions
    requires Paced(deps) && n < |p.todo|
  {
    ExecuteAll(p.world, p.todo[..n], p.reasons, deps, env, p.nextClose)
  }

  ghost predicate AcceptedNth(p: Prepared, n: nat, deps: Deps, env: Env)
    requires Paced(deps) && n < |p.todo|
  {
    Accepted(BeforeNth(p, n, deps, env).world, p.todo[n], deps.mode, env, p.nextClose)
  }

  /** The quantity its last good read reported. */
  ghost function LastReported(p: Prepared, n: nat, deps: Deps, env: Env): nat
    requires Paced(deps) && n < |p.todo| && AcceptedNth(p, n, deps, env)
  {
    var polled := PollOf(BeforeNth(p, n, deps, env).world, p.todo[n], p.reasons, deps, env, p.nextClose);
    ReportedBy(OrderId(p.todo[n].id), env, polled.state.polls + 1)
  }

  /** Its poll could not insert the last fill row. */
  ghost predicate LastRowRefused(p: Prepared, n: nat, deps: Deps, env: Env)
    requires Paced(deps) && n < |p.todo| && AcceptedNth(p, n, deps, env)
  {
    var (s, job) := LastTurnOf(BeforeNth(p, n, deps, env).world, p.todo[n], p.reasons, deps, env, p.nextClose);
    RowRefused(s, job, env)
  }

  /** The next order attempted after it is refused. */
  ghost predicate TakenBack(p: Prepared, n: nat, deps: Deps, env: Env)
    requires Paced(deps) && n < |p.todo|
  {
    var after := ExecuteOne(BeforeNth(p, n, deps, env), p.todo[n], p.reasons, deps, env, p.nextClose).world;
    Loses(after, p.todo[n + 1..], deps.mode, env, p.nextClose)
  }

  lemma {:induction false} StoredIsReported(p: Prepared, n: nat, deps: Deps, env: Env, final: World)
    requires Paced(deps) && n < |p.todo| && Guarded(p.world) && Distinct(p.todo)
             && forall d :: d in p.todo ==> Agrees(p.world.working, d)
    requires LeavesSent(p.world, p.todo, n, p.reasons, deps, env, p.nextClose, final)
    requires AcceptedNth(p, n, deps, env) && Growing(OrderId(p.todo[n].id), env)
    ensures SumQty(FillsOf(final.working.fills, OrderId(p.todo[n].id))) == LastReported(p, n, deps, env)
            <==> LastReported(p, n, deps, env) == 0
                 || !(TakenBack(p, n, deps, env) || LastRowRefused(p, n, deps, env))
  {
    var e := BeforeNth(p, n, deps, env);
    ExecuteAllGuarded(p.world, p.todo[..n], p.reasons, deps, env, p.nextClose);
    PolledInFull(e, p.todo[n], p.reasons, deps, env, p.nextClose);
    AcceptedIsPolled(e, p.todo[n], p.reasons, deps, env, p.nextClose);
    ResolvedIsAuthorized(p.todo[n], deps.mode, e.world.working, env, p.nextClose);
    if LastRowRefused(p, n, deps, env) { RefusedIsReported(p, n, deps, env); }
  }

  /** A refused row is of shares the broker reported. */
  lemma {:induction false} RefusedIsReported(p: Prepared, n: nat, deps: Deps, env: Env)
    requires Paced(deps) && n < |p.todo| && AcceptedNth(p, n, deps, env) && LastRowRefused(p, n, deps, env)
    ensures LastReported(p, n, deps, env) > 0
  {
    var e, d := BeforeNth(p, n, deps, env), p.todo[n];
    var x := ExecuteSpec(e.world, ResolveApproval(d, deps.mode, e.world.working, env, p.nextClose).value, env,
                         deps.mode);
    ResolvedIsAuthorized(d, deps.mode, e.world.working, env, p.nextClose);
    var job := JobFor(d, x.result.value, p.reasons, deps);
    SubmitNames(e.world, ResolveApproval(d, deps.mode, e.world.working, env, p.nextClose).value, env, deps.mode);
    LastTurnPolls(PollStart(x.world.working, job.orderId), job, env);
  }

  lemma {:induction false} SubmitNames(w: World, req: ApprovedOrderRequest, env: Env, mode: Mode)
    requires Authorized(req) && ExecuteSpec(w, req, env, mode).result.Ok?
    ensures ExecuteSpec(w, req, env, mode).result.value.clientOrderId == OrderId(req.decision.id)
  {
  }

  lemma {:induction false} LastTurnPolls(s: PollState, job: PollJob, env: Env)
    requires Ends(s, job)
    ensures LastTurn(s, job, env).polls == Poll(s, job, env).state.polls
    decreases job.timeout - s.elapsed
  {
    match Turn(s, job, env)
    case Stop(_, _) => TurnStopsHere(s, job, env);
    case Continue(s') =>
      TurnAdvances(s, job, env);
      LastTurnPolls(s', job, env);
  }

  lemma {:induction false} TradeStoresReported(w: World, p: Prepared, cycleId: Id, deps: Deps, env: Env, n: nat)
    requires Paced(deps) && Guarded(w) && WellPrepared(w, p, deps.rules.maxConcurrentPositions)
    requires n < |p.todo| && AcceptedNth(p, n, deps, env) && Growing(OrderId(p.todo[n].id), env)
    ensures var fills := TradeAndFinish(p, cycleId, deps, env).world.committed.fills;
            SumQty(FillsOf(fills, OrderId(p.todo[n].id))) == LastReported(p, n, deps, env)
            <==> LastReported(p, n, deps, env) == 0
                 || !(TakenBack(p, n, deps, env) || LastRowRefused(p, n, deps, env))
  {
    NothingSentGuarded(w, p.world);
    TasksAgree(w.working, p.world.working, p.reasons, p.todo);
    TradeLeavesSent(w, p, cycleId, deps, env, n);
    StoredIsReported(p, n, deps, env, TradeAndFinish(p, cycleId, deps, env).world);
  }

  /** The fills a whole cycle stores of an accepted order are what a growing broker last reported of it,
      however its poll ended, exactly unless the next attempted order is refused or its own last row was,
      or nothing was reported. */
  lemma {:induction false} CycleStoresReported(w: World, deps: Deps, env: Env, n: nat)
    requires Guarded(w) && Runnable(deps) && Starts(w, deps, env) && n < |PreparedBy(w, deps, env).todo|
    requires AcceptedNth(PreparedBy(w, deps, env), n, deps, env)
    requires Growing(OrderId(PreparedBy(w, deps, env).todo[n].id), env)
    ensures var p, fills := PreparedBy(w, deps, env), CycleSpec(w, deps, env).world.committed.fills;
            SumQty(FillsOf(fills, OrderId(p.todo[n].id))) == LastReported(p, n, deps, env)
            <==> LastReported(p, n, deps, env) == 0
                 || !(TakenBack(p, n, deps, env) || LastRowRefused(p, n, deps, env))
  {
    var w1 := PreparedGuarded(w, deps, env);
    TradeStoresReported(w1, PreparedBy(w, deps, env), env.uuid(FreshCycle), deps, env, n);
  }
}
