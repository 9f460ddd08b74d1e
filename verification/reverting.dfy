// What a failed recording transaction takes with it: everything pending since the
// last commit, which may be the whole cycle, or what an order already sent has
// become in the meantime.
module Reverting {
  import opened Models
  import opened Rules
  import opened Ledger
  import opened Environment
  import opened Execution
  import opened Fills
  import opened Settlement
  import opened Polling
  import opened Holdings
  import opened Exits
  import opened Proposals
  import opened KillSwitch
  import opened Cycle
  import opened Preparation
  import opened Recording
  import opened Sending

  // ---- one attempt ----

  /** What the recording transaction of a request needs. */
  predicate Recordable(t: Tables, req: ApprovedOrderRequest, faults: Faults) {
    && (req.decision.id in t.decisions
        || (!faults(InsertDecisionStmt(req.decision.id)) && req.decision.cycleId in t.cycles))
    && !faults(InsertApprovalStmt(req.approval.id)) && (forall a :: a in t.approvals ==> a.id != req.approval.id)
    && !faults(InsertOrderStmt(req.clientOrderId)) && req.clientOrderId !in t.orders
    && (forall k :: k in t.orders ==> t.orders[k].clientOrderId != req.clientOrderId)
    && !faults(CommitStmt(req.clientOrderId))
  }

  lemma {:induction false} RecordsExactly(w: World, req: ApprovedOrderRequest, mode: Mode, faults: Faults)
    requires Authorized(req)
    ensures RecordTransaction(w, req, mode, faults).1.None? <==> Recordable(w.working, req, faults)
  {
    var a := w.working.approvals + [req.approval];
    assert a[|w.working.approvals|] == req.approval;
  }

  /** A decision reaches its recording transaction. */
  predicate Attempted(w: World, d: Decision, mode: Mode, env: Env, nextClose: Time) {
    Tradable(d) && ResolveApproval(d, mode, w.working, env, nextClose).Ok?
  }

  /** And can be recorded. */
  predicate CanRecord(w: World, d: Decision, mode: Mode, env: Env, nextClose: Time)
    requires Attempted(w, d, mode, env, nextClose)
  {
    Recordable(w.working, ResolveApproval(d, mode, w.working, env, nextClose).value, env.faults)
  }

  lemma {:induction false} UnattemptedStays(e: Executions, d: Decision, reasons: map<Id, ExitReason>, deps: Deps,
                                            env: Env, nextClose: Time)
    requires Paced(deps) && !Attempted(e.world, d, deps.mode, env, nextClose)
    ensures ExecuteOne(e, d, reasons, deps, env, nextClose) == e
  {
  }

  /** A refused recording reverts everything pending, fills already settled included. */
  lemma {:induction false} RefusalReverts(e: Executions, d: Decision, reasons: map<Id, ExitReason>, deps: Deps,
                                          env: Env, nextClose: Time)
    requires Paced(deps) && Attempted(e.world, d, deps.mode, env, nextClose)
    requires !CanRecord(e.world, d, deps.mode, env, nextClose)
    ensures ExecuteOne(e, d, reasons, deps, env, nextClose) == e.(world := RollbackWorld(e.world))
  {
    ResolvedIsAuthorized(d, deps.mode, e.world.working, env, nextClose);
    RecordsExactly(e.world, ResolveApproval(d, deps.mode, e.world.working, env, nextClose).value, deps.mode,
                   env.faults);
  }

  /** The tables a successful recording commits. */
  ghost function RecordedTables(w: World, d: Decision, mode: Mode, env: Env, nextClose: Time): Tables
    requires Attempted(w, d, mode, env, nextClose) && CanRecord(w, d, mode, env, nextClose)
  {
    ResolvedIsAuthorized(d, mode, w.working, env, nextClose);
    RecordsExactly(w, ResolveApproval(d, mode, w.working, env, nextClose).value, mode, env.faults);
    RecordOrder(w.working, ResolveApproval(d, mode, w.working, env, nextClose).value, mode, env.faults).value
  }

  lemma {:induction false} SuccessCommits(e: Executions, d: Decision, reasons: map<Id, ExitReason>, deps: Deps,
                                          env: Env, nextClose: Time)
    requires Paced(deps) && Attempted(e.world, d, deps.mode, env, nextClose)
             && CanRecord(e.world, d, deps.mode, env, nextClose)
    ensures var w, w' := e.world, ExecuteOne(e, d, reasons, deps, env, nextClose).world;
            && w'.committed == RecordedTables(w, d, deps.mode, env, nextClose)
            && PollWrites(w'.committed, w'.working, OrderId(d.id))
  {
    var req := ResolveApproval(d, deps.mode, e.world.working, env, nextClose).value;
    ResolvedIsAuthorized(d, deps.mode, e.world.working, env, nextClose);
    RecordsExactly(e.world, req, deps.mode, env.faults);
    var t := RecordedTables(e.world, d, deps.mode, env, nextClose);
    var w2 := SendWorld(CommitWorld(e.world.(working := t)), RequestOf(req));
    SubmitWrites(w2, req, env, deps.mode);
    var x := AfterSubmit(w2, req, env, deps.mode);
    if x.result.Ok? {
      var job := JobFor(d, x.result.value, reasons, deps);
      PollWritesOwn(PollStart(x.world.working, job.orderId), job, env);
      PollWritesTransitive(t, x.world.working, Poll(PollStart(x.world.working, job.orderId), job, env).state.tables,
                           OrderId(d.id));
    }
  }

  lemma {:induction false} SubmitWrites(w: World, req: ApprovedOrderRequest, env: Env, mode: Mode)
    ensures var x := AfterSubmit(w, req, env, mode);
            && x.world == w.(working := x.world.working)
            && PollWrites(w.working, x.world.working, OrderId(req.decision.id))
            && (x.result.Ok? ==> x.result.value.id == OrderId(req.decision.id))
  {
    SubmitOrders(w, req, env, mode);
    OrderWrites(w.working, AfterSubmit(w, req, env, mode).world.working, OrderId(req.decision.id));
  }

  // ---- the first attempt decides what becomes of the cycle ----

  /** The first of ds to reach its recording transaction. */
  function FirstAttempt(w: World, ds: seq<Decision>, mode: Mode, env: Env, nextClose: Time): (r: Option<Decision>)
    ensures r.Some? ==> Attempted(w, r.value, mode, env, nextClose)
  {
    if ds == [] then None
    else
      var first, last := FirstAttempt(w, ds[..|ds| - 1], mode, env, nextClose), ds[|ds| - 1];
      if first.None? && Attempted(w, last, mode, env, nextClose) then Some(last) else first
  }

  /** It is refused. */
  predicate Loses(w: World, ds: seq<Decision>, mode: Mode, env: Env, nextClose: Time) {
    var first := FirstAttempt(w, ds, mode, env, nextClose);
    first.Some? && !CanRecord(w, first.value, mode, env, nextClose)
  }

  /** Decisions of a cycle whose row is not committed, none of them stored yet. */
  ghost predicate OfPendingCycle(w: World, ds: seq<Decision>, cycleId: Id) {
    && cycleId !in w.committed.cycles
    && forall d :: d in ds ==> d.cycleId == cycleId && d.id !in w.committed.decisions
  }

  /** After the revert the cycle's row is gone, and no decision of it can be recorded. */
  lemma {:induction false} NothingRecordsAfter(w: World, d: Decision, mode: Mode, env: Env, nextClose: Time)
    requires d.cycleId !in w.committed.cycles && d.id !in w.committed.decisions
    requires Attempted(RollbackWorld(w), d, mode, env, nextClose)
    ensures !CanRecord(RollbackWorld(w), d, mode, env, nextClose)
  {
  }

  lemma {:induction false} SuccessKeepsRow(e: Executions, d: Decision, reasons: map<Id, ExitReason>, deps: Deps,
                                           env: Env, nextClose: Time, cycleId: Id)
    requires Paced(deps) && cycleId in e.world.working.cycles
    requires Attempted(e.world, d, deps.mode, env, nextClose) && CanRecord(e.world, d, deps.mode, env, nextClose)
    ensures var w' := ExecuteOne(e, d, reasons, deps, env, nextClose).world;
            cycleId in w'.working.cycles && cycleId in w'.committed.cycles
  {
    SuccessCommits(e, d, reasons, deps, env, nextClose);
    assert RecordedTables(e.world, d, deps.mode, env, nextClose).cycles == e.world.working.cycles;
  }

  lemma {:induction false} RowSurvives(e: Executions, d: Decision, reasons: map<Id, ExitReason>, deps: Deps, env: Env,
                                       nextClose: Time, cycleId: Id)
    requires Paced(deps) && cycleId in e.world.working.cycles
    requires cycleId in e.world.committed.cycles
             || (Attempted(e.world, d, deps.mode, env, nextClose) && CanRecord(e.world, d, deps.mode, env, nextClose))
    ensures var w' := ExecuteOne(e, d, reasons, deps, env, nextClose).world;
            cycleId in w'.working.cycles && cycleId in w'.committed.cycles
  {
    if !Attempted(e.world, d, deps.mode, env, nextClose) {
      UnattemptedStays(e, d, reasons, deps, env, nextClose);
    } else if !CanRecord(e.world, d, deps.mode, env, nextClose) {
      RefusalReverts(e, d, reasons, deps, env, nextClose);
    } else {
      SuccessKeepsRow(e, d, reasons, deps, env, nextClose, cycleId);
    }
  }

  /** Executing a pending cycle's decisions: with no attempt nothing happens; if the first attempt is
      recorded the cycle's row is stored for good; if it is refused, the whole cycle is reverted and
      nothing at all is executed, however many more decisions there are. */
  lemma {:induction false} FirstAttemptDecides(w: World, ds: seq<Decision>, reasons: map<Id, ExitReason>, deps: Deps,
                                               env: Env, nextClose: Time, cycleId: Id)
    requires Paced(deps) && cycleId in w.working.cycles && OfPendingCycle(w, ds, cycleId)
    ensures var e := ExecuteAll(w, ds, reasons, deps, env, nextClose);
            var first := FirstAttempt(w, ds, deps.mode, env, nextClose);
            if first.None? then e == Executions(w, 0, 0)
            else if Loses(w, ds, deps.mode, env, nextClose) then e == Executions(RollbackWorld(w), 0, 0)
            else cycleId in e.world.working.cycles && cycleId in e.world.committed.cycles
  {
    if ds != [] {
      var front, last := ds[..|ds| - 1], ds[|ds| - 1];
      assert last in ds && forall d :: d in front ==> d in ds;
      FirstAttemptDecides(w, front, reasons, deps, env, nextClose, cycleId);
      var e := ExecuteAll(w, front, reasons, deps, env, nextClose);
      if FirstAttempt(w, front, deps.mode, env, nextClose).None? {
        if !Attempted(w, last, deps.mode, env, nextClose) {
          UnattemptedStays(e, last, reasons, deps, env, nextClose);
        } else if CanRecord(w, last, deps.mode, env, nextClose) {
          RowSurvives(e, last, reasons, deps, env, nextClose, cycleId);
        } else {
          RefusalReverts(e, last, reasons, deps, env, nextClose);
        }
      } else if Loses(w, front, deps.mode, env, nextClose) {
        LostStaysLost(w, e, last, reasons, deps, env, nextClose);
      } else {
        RowSurvives(e, last, reasons, deps, env, nextClose, cycleId);
      }
    }
  }

  lemma {:induction false} LostStaysLost(w: World, e: Executions, d: Decision, reasons: map<Id, ExitReason>, deps: Deps,
                                         env: Env, nextClose: Time)
    requires Paced(deps) && e.world == RollbackWorld(w)
    requires d.cycleId !in w.committed.cycles && d.id !in w.committed.decisions
    ensures ExecuteOne(e, d, reasons, deps, env, nextClose) == e
  {
    if Attempted(e.world, d, deps.mode, env, nextClose) {
      NothingRecordsAfter(w, d, deps.mode, env, nextClose);
      RefusalReverts(e, d, reasons, deps, env, nextClose);
    } else {
      UnattemptedStays(e, d, reasons, deps, env, nextClose);
    }
  }

  // ---- when a cycle can be finished ----

  lemma {:induction false} MarkAllOwn(t: Tables, ps: seq<Position>, rules: RuleSet, cycleId: Id, mode: Mode, env: Env)
    ensures forall d :: d in MarkAll(t, ps, rules, cycleId, mode, env).state.decisions ==> d.cycleId == cycleId
    ensures MarkAll(t, ps, rules, cycleId, mode, env).state.tables.cycles == t.cycles
  {
    if ps != [] { MarkAllOwn(t, ps[..|ps| - 1], rules, cycleId, mode, env); }
  }

  lemma {:induction false} GateOwn(ps: seq<Proposal>, c: Setting, env: Env)
    requires Sensible(c) && AllPriced(env.market, ps)
    ensures forall d :: d in Gate(ps, c, env).decisions ==> d.cycleId == c.cycleId
  {
    if ps != [] {
      assert ps[|ps| - 1] in ps;
      GateOwn(ps[..|ps| - 1], c, env);
    }
  }

  lemma {:induction false} SkipAllOwn(tickers: seq<Ticker>, c: Setting, env: Env)
    ensures forall d :: d in SkipAll(tickers, c, env) ==> d.cycleId == c.cycleId
  {
    if tickers != [] { SkipAllOwn(tickers[..|tickers| - 1], c, env); }
  }

  lemma {:induction false} CandidatesOwn(c: Setting, env: Env)
    requires Sensible(c)
    ensures forall d :: d in DecideCandidates(c, env) ==> d.cycleId == c.cycleId
  {
    var kept := CandidatesFor(c, env);
    SkipAllOwn(kept, c, env);
    if kept != [] && Proposed(env, kept).Some? {
      ProposedArePriced(c, env);
      GateOwn(Proposed(env, kept).value, c, env);
    }
  }

  /** A breach whose halt cannot be stored: everything pending is reverted then, too. */
  ghost predicate HaltLost(t: Tables, cycleId: Id, deps: Deps, env: Env) {
    Breached(t, cycleId, deps, env) && HaltFails(env.faults)
  }

  /** What is prepared is the cycle's own, and its row is pending with it. */
  ghost predicate OwnWork(p: Prepared, cycleId: Id) {
    cycleId in p.world.working.cycles && forall d :: d in p.todo ==> d.cycleId == cycleId
  }

  lemma {:induction false} BuySideOwn(w: World, cycleId: Id, held: set<Ticker>, h: HoldingsOutcome, mc: MarketClock,
                                      deps: Deps, env: Env)
    requires Runnable(deps) && cycleId in w.working.cycles && forall d :: d in h.decisions ==> d.cycleId == cycleId
    ensures OwnWork(BuySide(w, cycleId, held, h, mc, deps, env), cycleId)
  {
    var c := SettingFor(cycleId, held, mc, deps);
    CandidatesOwn(c, env);
    InsertAllRecords(w.working, DecideCandidates(c, env), env.faults);
  }

  lemma {:induction false} PricedOwn(w: World, cycleId: Id, held: set<Ticker>, h: HoldingsOutcome, mc: MarketClock,
                                     deps: Deps, env: Env)
    requires Runnable(deps) && cycleId in w.working.cycles && forall d :: d in h.decisions ==> d.cycleId == cycleId
    requires !HaltFails(env.faults) || env.broker.account.Err?
             || var s := TodaysSnapshot(w.working.snapshots, env.broker.account.value, h, deps, env);
                env.faults(UpsertSnapshotStmt(s.day)) || BreachAt(w.working, s, h, deps, env).None?
    ensures OwnWork(PricedCycle(w, cycleId, held, h, mc, deps, env), cycleId)
  {
    match EvaluateRiskSpec(w, h, deps, env)
    case Stopped(p) =>
    case GoOn(w1) =>
      RiskPrepared(w, h, deps, env);
      if |held| < deps.rules.maxConcurrentPositions { BuySideOwn(w1, cycleId, held, h, mc, deps, env); }
  }

  lemma {:induction false} StartedOwn(w: World, cycleId: Id, deps: Deps, env: Env)
    requires Runnable(deps) && KeysMatch(w.working) && cycleId in w.working.cycles
             && !HaltLost(w.working, cycleId, deps, env)
    ensures OwnWork(StartedCycle(w, cycleId, deps, env), cycleId)
  {
    var m := MarkAll(w.working, ListPositions(w.working.positions), deps.rules, cycleId, deps.mode, env);
    MarkAllOwn(w.working, ListPositions(w.working.positions), deps.rules, cycleId, deps.mode, env);
    HoldingsPrepared(w.working, cycleId, deps, env);
    if !IsHalted(w.working) && env.market.clock.Ok? && m.error.None? && m.state.errors == [] {
      PricedOwn(w.(working := m.state.tables), cycleId, w.working.positions.Keys, OutcomeOf(m.state),
                env.market.clock.value,
                deps, env);
    }
  }

  lemma {:induction false} FinishesExactly(w: World, o: CycleOutcome, env: Env)
    ensures Finish(w, o, env).result.Err? <==> env.faults(FinishCycleStmt(o.cycleId)) || o.cycleId !in w.working.cycles
    ensures o.cycleId !in w.working.cycles ==> Finish(w, o, env).world == CommitWorld(w)
  {
  }

  /** A started cycle is lost: its halt could not be stored, or its first attempted order is refused. */
  ghost predicate Lost(w: World, cycleId: Id, deps: Deps, env: Env)
    requires Runnable(deps)
  {
    var p := StartedCycle(w, cycleId, deps, env);
    HaltLost(w.working, cycleId, deps, env) || Loses(p.world, p.todo, deps.mode, env, p.nextClose)
  }

  /** A cycle ends without an outcome exactly when its row could not be inserted or closed, or it is
      lost. A lost cycle sends nothing, rule exits included, and leaves the database as it found it. */
  lemma {:induction false} CycleEndsExactly(w: World, deps: Deps, env: Env)
    requires Runnable(deps) && KeysMatch(w.working) && w.committed == w.working
    ensures var cycleId := env.uuid(FreshCycle);
            var t := InsertCycle(w.working, cycleId, env.now(Started), deps.mode, env.faults);
            var run := CycleSpec(w, deps, env);
            if t.Err? then run == CycleRun(w, Err(NotStarted(t.error)))
            else
              var lost := Lost(w.(working := t.value), cycleId, deps, env);
              && (run.result.Err? <==> lost || env.faults(FinishCycleStmt(cycleId)))
              && (lost ==> run.world == CommitWorld(w))
  {
    var cycleId := env.uuid(FreshCycle);
    var t := InsertCycle(w.working, cycleId, env.now(Started), deps.mode, env.faults);
    if t.Ok? {
      var w1 := w.(working := t.value);
      StartedPrepared(w1, cycleId, deps, env);
      if HaltLost(w1.working, cycleId, deps, env) {
        StartedBreached(w1, cycleId, deps, env);
      } else {
        StartedOwn(w1, cycleId, deps, env);
      }
      StartedEnds(w1, StartedCycle(w1, cycleId, deps, env), cycleId, deps, env);
    }
  }

  lemma {:induction false} StartedEnds(w: World, p: Prepared, cycleId: Id, deps: Deps, env: Env)
    requires Paced(deps) && cycleId in w.working.cycles && cycleId !in w.committed.cycles
    requires forall id :: id in w.committed.decisions ==> id in w.working.decisions
    requires NothingSent(w, p.world) && (p.todo != [] ==> Pending(w, p.world))
    requires Tasks(w.working, p.world.working, p.reasons, p.todo)
    requires OwnWork(p, cycleId) || (p.world == RollbackWorld(w) && p.todo == [])
    ensures var run := TradeAndFinish(p, cycleId, deps, env);
            var lost := p.world == RollbackWorld(w) || Loses(p.world, p.todo, deps.mode, env, p.nextClose);
            && (run.result.Err? <==> lost || env.faults(FinishCycleStmt(cycleId)))
            && (lost ==> run.world == CommitWorld(RollbackWorld(w)))
  {
    var e := ExecuteAll(p.world, p.todo, p.reasons, deps, env, p.nextClose);
    if p.todo != [] {
      forall d | d in p.todo ensures d.id !in w.committed.decisions {
        var i :| 0 <= i < |p.todo| && p.todo[i] == d;
        assert Task(w.working, p.world.working, p.reasons, p.todo[i]);
      }
      FirstAttemptDecides(p.world, p.todo, p.reasons, deps, env, p.nextClose, cycleId);
    }
    FinishesExactly(e.world, CycleOutcome(cycleId, p.status, p.count, e.orders, e.fills, p.skipped), env);
  }

  /** A breached cycle never ends "error": it ends "halted" if the halt is stored and its row can be closed,
      and without an outcome otherwise, as the failed halt reverted the row it would close. */
  lemma {:induction false} BreachEndsHalted(w: World, deps: Deps, env: Env)
    requires Runnable(deps) && KeysMatch(w.working) && w.committed == w.working
    requires var t := InsertCycle(w.working, env.uuid(FreshCycle), env.now(Started), deps.mode, env.faults);
             t.Ok? && Breached(t.value, env.uuid(FreshCycle), deps, env)
    ensures var r := CycleSpec(w, deps, env).result;
            && (r.Ok? <==> !HaltFails(env.faults) && !env.faults(FinishCycleStmt(env.uuid(FreshCycle))))
            && (r.Ok? ==> r.value.status == CycleHalted)
  {
    var cycleId := env.uuid(FreshCycle);
    var w1 := w.(working := InsertCycle(w.working, cycleId, env.now(Started), deps.mode, env.faults).value);
    var p := StartedCycle(w1, cycleId, deps, env);
    StartedBreached(w1, cycleId, deps, env);
    FinishAfterBreach(w1, p, cycleId, deps, env);
    CycleEndsExactly(w, deps, env);
    assert FirstAttempt(p.world, [], deps.mode, env, p.nextClose) == None;
  }

  // ---- live mode ----

  lemma {:induction false} NoneAttempted(w: World, ds: seq<Decision>, mode: Mode, env: Env, nextClose: Time)
    requires forall d :: d in ds ==> !Attempted(w, d, mode, env, nextClose)
    ensures FirstAttempt(w, ds, mode, env, nextClose).None?
  {
    if ds != [] {
      assert ds[|ds| - 1] in ds && forall d :: d in ds[..|ds| - 1] ==> d in ds;
      NoneAttempted(w, ds[..|ds| - 1], mode, env, nextClose);
    }
  }

  lemma {:induction false} UnattemptedStay(w: World, ds: seq<Decision>, reasons: map<Id, ExitReason>, deps: Deps,
                                           env: Env, nextClose: Time)
    requires Paced(deps) && forall d :: d in ds ==> !Attempted(w, d, deps.mode, env, nextClose)
    ensures ExecuteAll(w, ds, reasons, deps, env, nextClose) == Executions(w, 0, 0)
  {
    if ds != [] {
      assert ds[|ds| - 1] in ds && forall d :: d in ds[..|ds| - 1] ==> d in ds;
      UnattemptedStay(w, ds[..|ds| - 1], reasons, deps, env, nextClose);
      UnattemptedStays(Executions(w, 0, 0), ds[|ds| - 1], reasons, deps, env, nextClose);
    }
  }

  /** A live cycle's decisions are new, so none has an approval, and not one reaches its recording
      transaction: executing does nothing. */
  lemma {:induction false} LiveCycleAttemptsNothing(w: World, cycleId: Id, deps: Deps, env: Env)
    requires Runnable(deps) && Filed(w.working) && deps.mode.Live?
    ensures var p := StartedCycle(w, cycleId, deps, env);
            && (forall d :: d in p.todo ==> !Attempted(p.world, d, Live, env, p.nextClose))
            && ExecuteAll(p.world, p.todo, p.reasons, deps, env, p.nextClose) == Executions(p.world, 0, 0)
  {
    var p := StartedCycle(w, cycleId, deps, env);
    StartedPrepared(w, cycleId, deps, env);
    TasksUnapproved(w, p, env);
    UnattemptedStay(p.world, p.todo, p.reasons, deps, env, p.nextClose);
  }

  lemma {:induction false} TasksUnapproved(w: World, p: Prepared, env: Env)
    requires Filed(w.working) && Tasks(w.working, p.world.working, p.reasons, p.todo)
    requires p.todo != [] ==> p.world.working.approvals == w.working.approvals
    ensures forall d :: d in p.todo ==> !Attempted(p.world, d, Live, env, p.nextClose)
  {
    forall d | d in p.todo ensures !Attempted(p.world, d, Live, env, p.nextClose) {
      var i :| 0 <= i < |p.todo| && p.todo[i] == d;
      assert Task(w.working, p.world.working, p.reasons, p.todo[i]);
    }
  }
}
