// Whole cycles record before they submit: the invariant of every step, and that
// a cycle keeps it whatever fails in it.
module Recording {
  import opened Models
  import opened Ledger
  import opened Environment
  import opened Execution
  import opened Protocol
  import opened Fills
  import opened Polling
  import opened Cycle
  import opened Preparation

  /** Something holds of what is pending, of what is stored, and of all that was stored since event `from`. */
  ghost predicate Throughout(w: World, from: nat, good: Tables -> bool) {
    && good(w.working) && good(w.committed)
    && forall i :: from <= i < |w.trace| && w.trace[i].Committed? ==> good(w.trace[i].tables)
  }

  ghost predicate Guarded(w: World) { Safe(w) && Throughout(w, 0, Filed) }

  lemma {:induction false} GuardedWrite(w: World, t: Tables)
    requires Guarded(w) && Grows(w.working, t) && Filed(t)
    ensures Guarded(w.(working := t))
  {
    SafeWrite(w, t);
  }

  lemma {:induction false} GuardedCommit(w: World)
    requires Guarded(w)
    ensures Guarded(CommitWorld(w))
  {
    SafeCommit(w);
  }

  lemma {:induction false} GuardedCrash(w: World, kept: nat)
    requires Guarded(w) && kept <= |w.trace| && Durable(w.trace[..kept]).Some?
    ensures Guarded(Crash(w, kept))
  {
    SafePrefix(w, kept);
    DurableIsStored(w.trace[..kept]);
  }

  lemma {:induction false} DurableIsStored(trace: seq<Event>)
    requires Durable(trace).Some?
    ensures exists i :: 0 <= i < |trace| && trace[i] == Committed(Durable(trace).value)
  {
    if !trace[|trace| - 1].Committed? { DurableIsStored(trace[..|trace| - 1]); }
  }

  lemma {:induction false} RecordFiled(t: Tables, req: ApprovedOrderRequest, mode: Mode, faults: Faults)
    requires Filed(t) && RecordOrder(t, req, mode, faults).Ok?
    ensures Filed(RecordOrder(t, req, mode, faults).value)
  {
  }

  lemma {:induction false} TransactionFiled(w: World, req: ApprovedOrderRequest, mode: Mode, faults: Faults)
    requires Throughout(w, 0, Filed)
    ensures Throughout(RecordTransaction(w, req, mode, faults).0, 0, Filed)
  {
    if RecordOrder(w.working, req, mode, faults).Ok? { RecordFiled(w.working, req, mode, faults); }
  }

  lemma {:induction false} ExecuteGuarded(w: World, req: ApprovedOrderRequest, env: Env, mode: Mode)
    requires Guarded(w) && Authorized(req) && Agrees(w.working, req.decision)
    ensures var w' := ExecuteSpec(w, req, env, mode).world;
            Guarded(w') && OnlyAdds(w.working, w'.working, req.decision)
  {
    ExecuteSafe(w, req, env, mode);
    TransactionFiled(w, req, mode, env.faults);
    AfterSubmitFiled(SendWorld(RecordTransaction(w, req, mode, env.faults).0, RequestOf(req)), req, env, mode);
  }

  /** What follows the broker's answer touches the request's own order row. */
  lemma {:induction false} SubmitOrders(w: World, req: ApprovedOrderRequest, env: Env, mode: Mode)
    ensures var x, id := AfterSubmit(w, req, env, mode), OrderId(req.decision.id);
            var u := x.world.working;
            && x.world == w.(working := u) && u == w.working.(orders := u.orders)
            && u.orders.Keys == w.working.orders.Keys
            && (forall k :: k in w.working.orders ==>
                  SameOrder(w.working.orders[k], u.orders[k]) && (k != id ==> u.orders[k] == w.working.orders[k]))
            && (x.result.Ok? ==> x.result.value.id == id)
  {
    var id := OrderId(req.decision.id);
    if id in w.working.orders && !env.faults(UpdateOrderStmt(id, None)) {
      match env.broker.submit(RequestOf(req))
      case Err(message) => UpdateTouches(w.working, id, Failed, Some(message), None, None, None, env.faults);
      case Ok(bo) =>
        var at := env.now(Submitting(req.decision.id));
        UpdateTouches(w.working, id, Submitted, None, Some(bo.brokerOrderId), Some(at), None, env.faults);
    }
  }

  lemma {:induction false} AfterSubmitFiled(w: World, req: ApprovedOrderRequest, env: Env, mode: Mode)
    requires Throughout(w, 0, Filed)
    ensures Throughout(AfterSubmit(w, req, env, mode).world, 0, Filed)
  {
  }

  lemma {:induction false} PollGuarded(w: World, job: PollJob, env: Env)
    requires Guarded(w) && CanPoll(job.interval, job.timeout)
    ensures var u := Poll(PollStart(w.working, job.orderId), job, env).state.tables;
            Guarded(w.(working := u)) && u.decisions == w.working.decisions
  {
    var s := PollStart(w.working, job.orderId);
    PollKeepsFrame(s, job, env);
    PollWritesOwn(s, job, env);
    WritesLinked(w.working, Poll(s, job, env).state.tables, job.orderId);
    GuardedWrite(w, Poll(s, job, env).state.tables);
  }

  lemma {:induction false} ExecuteOneGuarded(e: Executions, d: Decision, reasons: map<Id, ExitReason>, deps: Deps,
                                             env: Env, nextClose: Time)
    requires Paced(deps) && Guarded(e.world) && Agrees(e.world.working, d)
    ensures var w' := ExecuteOne(e, d, reasons, deps, env, nextClose).world;
            Guarded(w') && OnlyAdds(e.world.working, w'.working, d)
  {
    if Tradable(d) {
      var approved := ResolveApproval(d, deps.mode, e.world.working, env, nextClose);
      if approved.Ok? {
        ResolvedIsAuthorized(d, deps.mode, e.world.working, env, nextClose);
        ExecuteGuarded(e.world, approved.value, env, deps.mode);
        var x := ExecuteSpec(e.world, approved.value, env, deps.mode);
        if x.result.Ok? { PollGuarded(x.world, JobFor(d, x.result.value, reasons, deps), env); }
      }
    }
  }

  /** The decisions of `after`: those of `before`, and some of ds. */
  ghost predicate OnlyAddsSome(before: Tables, after: Tables, ds: seq<Decision>) {
    forall id :: id in after.decisions ==>
      (id in before.decisions && after.decisions[id] == before.decisions[id])
      || (after.decisions[id] in ds && after.decisions[id].id == id)
  }

  lemma {:induction false} ExecuteAllGuarded(w: World, ds: seq<Decision>, reasons: map<Id, ExitReason>, deps: Deps,
                                             env: Env, nextClose: Time)
    requires Paced(deps) && Guarded(w) && Distinct(ds)
             && forall d :: d in ds ==> Agrees(w.working, d)
    ensures var w' := ExecuteAll(w, ds, reasons, deps, env, nextClose).world;
            Guarded(w') && OnlyAddsSome(w.working, w'.working, ds)
  {
    if ds != [] {
      var front, last := ds[..|ds| - 1], ds[|ds| - 1];
      assert last in ds && forall d :: d in front ==> d in ds;
      ExecuteAllGuarded(w, front, reasons, deps, env, nextClose);
      var e := ExecuteAll(w, front, reasons, deps, env, nextClose);
      StillAgrees(w.working, e.world.working, front, last);
      ExecuteOneGuarded(e, last, reasons, deps, env, nextClose);
    }
  }

  lemma {:induction false} StillAgrees(before: Tables, after: Tables, ds: seq<Decision>, d: Decision)
    requires OnlyAddsSome(before, after, ds) && Agrees(before, d) && forall x :: x in ds ==> x.id != d.id
    ensures Agrees(after, d)
  {
  }

  lemma {:induction false} FinishGuarded(w: World, o: CycleOutcome, env: Env)
    requires Guarded(w)
    ensures Guarded(Finish(w, o, env).world)
  {
    var t := FinishTables(w.working, o, env);
    if t.Ok? {
      GuardedWrite(w, t.value);
      GuardedCommit(w.(working := t.value));
    } else {
      GuardedCommit(w);
    }
  }

  lemma {:induction false} NothingSentGuarded(w: World, w': World)
    requires Guarded(w) && NothingSent(w, w')
    ensures Guarded(w')
  {
    if w' != RollbackWorld(w) {
      GuardedWrite(w, w'.working);
      GuardedCommit(w.(working := w'.working));
    }
  }

  lemma {:induction false} TradeGuarded(w: World, p: Prepared, cycleId: Id, deps: Deps, env: Env)
    requires Paced(deps) && Guarded(w) && WellPrepared(w, p, deps.rules.maxConcurrentPositions)
    ensures Guarded(TradeAndFinish(p, cycleId, deps, env).world)
  {
    NothingSentGuarded(w, p.world);
    TasksAgree(w.working, p.world.working, p.reasons, p.todo);
    ExecuteAllGuarded(p.world, p.todo, p.reasons, deps, env, p.nextClose);
    var e := ExecuteAll(p.world, p.todo, p.reasons, deps, env, p.nextClose);
    FinishGuarded(e.world, CycleOutcome(cycleId, p.status, p.count, e.orders, e.fills, p.skipped), env);
  }

  /** A cycle of any mode, rules and environment, whatever fails in it, keeps the invariant. */
  lemma {:induction false} CycleGuarded(w: World, deps: Deps, env: Env)
    requires Runnable(deps) && Guarded(w)
    ensures Guarded(CycleSpec(w, deps, env).world)
  {
    var cycleId := env.uuid(FreshCycle);
    var t := InsertCycle(w.working, cycleId, env.now(Started), deps.mode, env.faults);
    if t.Ok? {
      var w1 := w.(working := t.value);
      GuardedWrite(w, t.value);
      StartedPrepared(w1, cycleId, deps, env);
      TradeGuarded(w1, StartedCycle(w1, cycleId, deps, env), cycleId, deps, env);
    }
  }

  lemma {:induction false} TasksAgree(t: Tables, u: Tables, reasons: map<Id, ExitReason>, ds: seq<Decision>)
    requires Tasks(t, u, reasons, ds)
    ensures forall d :: d in ds ==> Agrees(u, d)
  {
    forall i | 0 <= i < |ds| ensures Agrees(u, ds[i]) { assert Task(t, u, reasons, ds[i]); }
  }
}
