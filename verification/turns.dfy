// A cycle gives each decision of its agenda its turn, in order: what a turn does,
// what it sends, and what all of them come to in the trace and in the outcome.
module Turns {
  import opened Models
  import opened Ledger
  import opened Environment
  import opened Execution
  import opened Fills
  import opened Settlement
  import opened Holdings
  import opened Cycle
  import opened Preparation
  import opened Reverting
  import opened Ordering
  import opened Course

  // ---- one turn ----

  predicate MayTrade(d: Decision) { d.ruleCheck == Passed && d.action in {ActBuy, ActSell} }

  function ReasonFor(d: Decision, reasons: map<Id, ExitReason>): Option<ExitReason> {
    if d.id in reasons then Some(reasons[d.id]) else None
  }

  /** The poll of d's order. */
  function PollFor(d: Decision, side: Side, reasons: map<Id, ExitReason>, deps: Deps): PollJob {
    PollJob("order_" + d.id, "order_" + d.id, d, side, ReasonFor(d, reasons), deps.timeout, deps.interval)
  }

  /** A decision's turn takes e to e': it is skipped, executed and not counted, or executed, polled and counted. */
  ghost predicate Takes(e: Executions, d: Decision, e': Executions, reasons: map<Id, ExitReason>, deps: Deps, env: Env,
                        nextClose: Time)
    requires Paced(deps)
  {
    var approved := ResolveApproval(d, deps.mode, e.world.working, env, nextClose);
    if !MayTrade(d) || approved.Err? then e' == e
    else
      var x := ExecuteSpec(e.world, approved.value, env, deps.mode);
      if x.result.Err? then e' == e.(world := x.world)
      else
        var p := Poll(PollStart(x.world.working, "order_" + d.id), PollFor(d, approved.value.side, reasons, deps), env);
        && e'.world == x.world.(working := p.state.tables) && e'.orders == e.orders + 1
        && e'.fills == e.fills + (if p.result.Ok? then p.result.value.fillsRecorded else 0)
  }

  lemma {:induction false} ExecuteOneTakes(e: Executions, d: Decision, reasons: map<Id, ExitReason>, deps: Deps,
                                           env: Env, nextClose: Time)
    requires Paced(deps)
    ensures Takes(e, d, ExecuteOne(e, d, reasons, deps, env, nextClose), reasons, deps, env, nextClose)
  {
    var approved := ResolveApproval(d, deps.mode, e.world.working, env, nextClose);
    if Tradable(d) && approved.Ok? {
      ResolvedIsAuthorized(d, deps.mode, e.world.working, env, nextClose);
      var x := ExecuteSpec(e.world, approved.value, env, deps.mode);
      ExecutesExactly(e.world, approved.value, env, deps.mode);
      if x.result.Ok? { JobIsPollFor(d, x.result.value, approved.value.side, reasons, deps); }
    }
  }

  lemma {:induction false} JobIsPollFor(d: Decision, o: Order, side: Side, reasons: map<Id, ExitReason>, deps: Deps)
    requires o.id == o.clientOrderId == OrderId(d.id) && o.side == side
    ensures JobFor(d, o, reasons, deps) == PollFor(d, side, reasons, deps)
  {
  }

  /** The order a turn would send, where there is one. */
  ghost predicate Asks(w: World, d: Decision, r: OrderRequest, mode: Mode, env: Env, nextClose: Time) {
    var approved := ResolveApproval(d, mode, w.working, env, nextClose);
    && MayTrade(d) && approved.Ok?
    && r == OrderRequest("order_" + d.id, d.ticker, if d.action == ActBuy then Buy else Sell, approved.value.qty)
  }

  /** It is sent exactly if it can be recorded, right after the commit that records it; if it cannot, everything
      pending is reverted. */
  ghost predicate SendsIfRecorded(w: World, d: Decision, w': World, deps: Deps, env: Env, nextClose: Time) {
    var approved := ResolveApproval(d, deps.mode, w.working, env, nextClose);
    if !MayTrade(d) || approved.Err? then w' == w
    else if !Recordable(w.working, approved.value, env.faults) then w' == w.(working := w.committed)
    else
      exists r :: Asks(w, d, r, deps.mode, env, nextClose)
                  && w'.trace == w.trace + [Committed(w'.committed), Sent(r)]
  }

  lemma {:induction false} TurnSends(e: Executions, d: Decision, e': Executions, reasons: map<Id, ExitReason>,
                                     deps: Deps, env: Env, nextClose: Time)
    requires Paced(deps) && Takes(e, d, e', reasons, deps, env, nextClose)
    ensures SendsIfRecorded(e.world, d, e'.world, deps, env, nextClose)
  {
    var approved := ResolveApproval(d, deps.mode, e.world.working, env, nextClose);
    if MayTrade(d) && approved.Ok? {
      ResolvedIsAuthorized(d, deps.mode, e.world.working, env, nextClose);
      ExecutesExactly(e.world, approved.value, env, deps.mode);
      var r := OrderRequest("order_" + d.id, d.ticker, if d.action == ActBuy then Buy else Sell, approved.value.qty);
      assert Asks(e.world, d, r, deps.mode, env, nextClose);
    }
  }

  // ---- all turns ----

  /** One state before each turn, and one after the last. */
  ghost predicate TakesAll(turns: seq<Executions>, ds: seq<Decision>, reasons: map<Id, ExitReason>, deps: Deps,
                           env: Env, nextClose: Time)
    requires Paced(deps)
  {
    && |turns| == |ds| + 1
    && forall n :: 0 <= n < |ds| ==> Takes(turns[n], ds[n], turns[n + 1], reasons, deps, env, nextClose)
  }

  lemma {:induction false} TakesMore(turns: seq<Executions>, ds: seq<Decision>, d: Decision, e: Executions,
                                     reasons: map<Id, ExitReason>, deps: Deps, env: Env, nextClose: Time)
    requires Paced(deps) && TakesAll(turns, ds, reasons, deps, env, nextClose)
    requires Takes(turns[|ds|], d, e, reasons, deps, env, nextClose)
    ensures TakesAll(turns + [e], ds + [d], reasons, deps, env, nextClose)
  {
    var more, all := turns + [e], ds + [d];
    forall n | 0 <= n < |all| ensures Takes(more[n], all[n], more[n + 1], reasons, deps, env, nextClose) {
      if n < |ds| {
        assert more[n] == turns[n] && all[n] == ds[n] && more[n + 1] == turns[n + 1];
      } else {
        assert more[n] == turns[|ds|] && all[n] == d && more[n + 1] == e;
      }
    }
  }

  lemma {:induction false} ExecuteAllTakes(w: World, ds: seq<Decision>, reasons: map<Id, ExitReason>, deps: Deps,
                                           env: Env, nextClose: Time)
    returns (turns: seq<Executions>)
    requires Paced(deps)
    ensures TakesAll(turns, ds, reasons, deps, env, nextClose)
    ensures turns[0] == Executions(w, 0, 0) && turns[|ds|] == ExecuteAll(w, ds, reasons, deps, env, nextClose)
  {
    if ds == [] {
      turns := [Executions(w, 0, 0)];
    } else {
      var front, last := ds[..|ds| - 1], ds[|ds| - 1];
      var before := ExecuteAllTakes(w, front, reasons, deps, env, nextClose);
      ExecuteOneTakes(before[|front|], last, reasons, deps, env, nextClose);
      var e := ExecuteOne(before[|front|], last, reasons, deps, env, nextClose);
      TakesMore(before, front, last, e, reasons, deps, env, nextClose);
      assert ds == front + [last];
      turns := before + [e];
    }
  }

  /** What was sent since an event. */
  ghost function SentSince(trace: seq<Event>, from: nat): seq<OrderRequest>
    requires from <= |trace|
    decreases |trace|
  {
    if |trace| == from then []
    else
      var front, last := SentSince(trace[..|trace| - 1], from), trace[|trace| - 1];
      if last.Sent? then front + [last.request] else front
  }

  lemma {:induction false} SentSnoc(trace: seq<Event>, e: Event, from: nat)
    requires from <= |trace|
    ensures SentSince(trace + [e], from) == SentSince(trace, from) + (if e.Sent? then [e.request] else [])
  {
    assert (trace + [e])[..|trace|] == trace;
  }

  /** The order of one turn, if it asks for one that can be recorded. */
  ghost function OrderIn(w: World, d: Decision, deps: Deps, env: Env, nextClose: Time): seq<OrderRequest> {
    var approved := ResolveApproval(d, deps.mode, w.working, env, nextClose);
    if MayTrade(d) && approved.Ok? && Recordable(w.working, approved.value, env.faults)
    then [OrderRequest("order_" + d.id, d.ticker, if d.action == ActBuy then Buy else Sell, approved.value.qty)]
    else []
  }

  /** The orders that those turns ask for, n of them, that can be recorded when it is their turn. */
  ghost function OrdersOf(turns: seq<Executions>, ds: seq<Decision>, n: nat, deps: Deps, env: Env, nextClose: Time)
    : seq<OrderRequest>
    requires n <= |ds| < |turns|
  {
    if n == 0 then []
    else
      OrdersOf(turns, ds, n - 1, deps, env, nextClose) + OrderIn(turns[n - 1].world, ds[n - 1], deps, env, nextClose)
  }

  /** Each turn adds its order, if it has one. */
  ghost predicate SendAll(turns: seq<Executions>, ds: seq<Decision>, from: nat, deps: Deps, env: Env, nextClose: Time) {
    && |turns| == |ds| + 1 && from <= |turns[0].world.trace|
    && forall n :: 0 <= n < |ds| ==>
         && turns[n].world.trace <= turns[n + 1].world.trace
         && (from <= |turns[n].world.trace| ==>
               SentSince(turns[n + 1].world.trace, from)
               == SentSince(turns[n].world.trace, from) + OrderIn(turns[n].world, ds[n], deps, env, nextClose))
  }

  lemma {:induction false} TakenSend(turns: seq<Executions>, ds: seq<Decision>, from: nat, reasons: map<Id, ExitReason>,
                                     deps: Deps, env: Env, nextClose: Time)
    requires Paced(deps) && TakesAll(turns, ds, reasons, deps, env, nextClose) && from <= |turns[0].world.trace|
    ensures SendAll(turns, ds, from, deps, env, nextClose)
  {
    forall n | 0 <= n < |ds|
      ensures turns[n].world.trace <= turns[n + 1].world.trace
      ensures from <= |turns[n].world.trace| ==>
                SentSince(turns[n + 1].world.trace, from)
                == SentSince(turns[n].world.trace, from) + OrderIn(turns[n].world, ds[n], deps, env, nextClose)
    {
      TurnTaken(turns[n], ds[n], turns[n + 1], from, reasons, deps, env, nextClose);
    }
  }

  lemma {:induction false} TurnTaken(e: Executions, d: Decision, e': Executions, from: nat,
                                     reasons: map<Id, ExitReason>, deps: Deps, env: Env, nextClose: Time)
    requires Paced(deps) && Takes(e, d, e', reasons, deps, env, nextClose)
    ensures e.world.trace <= e'.world.trace
    ensures from <= |e.world.trace| ==>
              SentSince(e'.world.trace, from)
              == SentSince(e.world.trace, from) + OrderIn(e.world, d, deps, env, nextClose)
  {
    TurnSends(e, d, e', reasons, deps, env, nextClose);
    if from <= |e.world.trace| {
      OneTurnSends(e.world, d, e'.world, from, deps, env, nextClose);
    } else {
      OneTurnSends(e.world, d, e'.world, 0, deps, env, nextClose);
    }
  }

  lemma {:induction false} TurnsSend(turns: seq<Executions>, ds: seq<Decision>, n: nat, from: nat, deps: Deps, env: Env,
                                     nextClose: Time)
    requires SendAll(turns, ds, from, deps, env, nextClose) && n <= |ds|
    requires SentSince(turns[0].world.trace, from) == []
    ensures turns[0].world.trace <= turns[n].world.trace
    ensures SentSince(turns[n].world.trace, from) == OrdersOf(turns, ds, n, deps, env, nextClose)
  {
    if n > 0 { TurnsSend(turns, ds, n - 1, from, deps, env, nextClose); }
  }

  lemma {:induction false} OneTurnSends(w: World, d: Decision, w': World, from: nat, deps: Deps, env: Env,
                                        nextClose: Time)
    requires SendsIfRecorded(w, d, w', deps, env, nextClose) && from <= |w.trace|
    ensures w.trace <= w'.trace
    ensures SentSince(w'.trace, from) == SentSince(w.trace, from) + OrderIn(w, d, deps, env, nextClose)
  {
    var approved := ResolveApproval(d, deps.mode, w.working, env, nextClose);
    if MayTrade(d) && approved.Ok? && Recordable(w.working, approved.value, env.faults) {
      var r :| Asks(w, d, r, deps.mode, env, nextClose)
               && w'.trace == w.trace + [Committed(w'.committed), Sent(r)];
      SentSnoc(w.trace, Committed(w'.committed), from);
      SentSnoc(w.trace + [Committed(w'.committed)], Sent(r), from);
      assert w'.trace == w.trace + [Committed(w'.committed)] + [Sent(r)];
    }
  }

  // ---- the whole cycle ----

  /** The world in which the turns begin: nothing has been sent, and every decision to take a turn is a row, pending
      with all the rest. */
  ghost predicate Opens(w: World, start: World, ds: seq<Decision>) {
    && w.trace <= start.trace && SentSince(start.trace, |w.trace|) == []
    && (ds != [] ==> start.trace == w.trace && start.committed == w.committed)
    && forall d :: d in ds ==> d.id in start.working.decisions && start.working.decisions[d.id] == d
  }

  /** What the cycle's row says at the end, and what is remembered of it. */
  ghost predicate RowClosed(t: Tables, cycleId: Id, status: CycleStatus, deps: Deps, env: Env) {
    && cycleId in t.cycles
    && t.cycles[cycleId] == CycleRow(env.now(Started), deps.mode, Some(env.now(Finished)), Some(status))
    && (status != CycleFailed && !env.faults(SetStateStmt("last_cycle_id")) ==>
          "last_cycle_id" in t.state && t.state["last_cycle_id"] == cycleId)
  }

  /** A cycle that failed is not remembered as the last one. */
  ghost predicate Remembers(t: Tables, u: Tables, status: CycleStatus) {
    && u.state - {"last_cycle_id"} == t.state - {"last_cycle_id"}
    && (status == CycleFailed ==> u.state == t.state)
  }

  lemma {:induction false} FinishCloses(w: World, o: CycleOutcome, deps: Deps, env: Env)
    requires o.cycleId in w.working.cycles
             ==> w.working.cycles[o.cycleId] == CycleRow(env.now(Started), deps.mode, None, None)
    ensures var run := Finish(w, o, env);
            && run.world.committed == run.world.working && run.world.trace == w.trace + [Committed(run.world.working)]
            && (run.result.Ok? <==> o.cycleId in w.working.cycles && !env.faults(FinishCycleStmt(o.cycleId)))
            && (run.result.Ok? ==>
                  run.result.value == o && RowClosed(run.world.working, o.cycleId, o.status, deps, env))
            && run.world.working == w.working.(cycles := run.world.working.cycles, state := run.world.working.state)
            && Remembers(w.working, run.world.working, o.status)
  {
  }

  /** Where the cycle's row is, it is as it was inserted, and snapshots and engine state are those of t0. */
  ghost predicate OwnRow(t: Tables, cycleId: Id, row: CycleRow, t0: Tables) {
    cycleId in t.cycles ==> t.cycles[cycleId] == row && t.snapshots == t0.snapshots && t.state == t0.state
  }

  ghost predicate OwnRows(w: World, cycleId: Id, row: CycleRow, t0: Tables) {
    OwnRow(w.working, cycleId, row, t0) && OwnRow(w.committed, cycleId, row, t0)
  }

  lemma {:induction false} ExecuteOneOwnRows(e: Executions, d: Decision, reasons: map<Id, ExitReason>, deps: Deps,
                                             env: Env, nextClose: Time, cycleId: Id, row: CycleRow, t0: Tables)
    requires Paced(deps) && OwnRows(e.world, cycleId, row, t0)
    ensures OwnRows(ExecuteOne(e, d, reasons, deps, env, nextClose).world, cycleId, row, t0)
  {
    if !Attempted(e.world, d, deps.mode, env, nextClose) {
      UnattemptedStays(e, d, reasons, deps, env, nextClose);
    } else if CanRecord(e.world, d, deps.mode, env, nextClose) {
      SuccessCommits(e, d, reasons, deps, env, nextClose);
      RecordedKeepsRows(e.world, d, deps.mode, env, nextClose);
    } else {
      RefusalReverts(e, d, reasons, deps, env, nextClose);
    }
  }

  lemma {:induction false} RecordedKeepsRows(w: World, d: Decision, mode: Mode, env: Env, nextClose: Time)
    requires Attempted(w, d, mode, env, nextClose) && CanRecord(w, d, mode, env, nextClose)
    ensures var t := RecordedTables(w, d, mode, env, nextClose);
            t.cycles == w.working.cycles && t.snapshots == w.working.snapshots && t.state == w.working.state
  {
    ResolvedIsAuthorized(d, mode, w.working, env, nextClose);
  }

  lemma {:induction false} ExecuteAllOwnRows(w: World, ds: seq<Decision>, reasons: map<Id, ExitReason>, deps: Deps,
                                             env: Env, nextClose: Time, cycleId: Id, row: CycleRow, t0: Tables)
    requires Paced(deps) && OwnRows(w, cycleId, row, t0)
    ensures OwnRows(ExecuteAll(w, ds, reasons, deps, env, nextClose).world, cycleId, row, t0)
  {
    if ds != [] {
      ExecuteAllOwnRows(w, ds[..|ds| - 1], reasons, deps, env, nextClose, cycleId, row, t0);
      ExecuteOneOwnRows(ExecuteAll(w, ds[..|ds| - 1], reasons, deps, env, nextClose), ds[|ds| - 1], reasons, deps, env,
                        nextClose, cycleId, row, t0);
    }
  }

  lemma {:induction false} PreparedOpens(w: World, p: Prepared, cap: nat)
    requires WellPrepared(w, p, cap)
    ensures Opens(w, p.world, p.todo)
  {
    if p.world.trace == w.trace + [Committed(p.world.working)] {
      SentSnoc(w.trace, Committed(p.world.working), |w.trace|);
    }
    forall d | d in p.todo ensures d.id in p.world.working.decisions && p.world.working.decisions[d.id] == d {
      var i :| 0 <= i < |p.todo| && p.todo[i] == d;
      assert Task(w.working, p.world.working, p.reasons, p.todo[i]);
    }
  }

  lemma {:induction false} PreparedOwnRows(w: World, p: Prepared, cap: nat, cycleId: Id, row: CycleRow)
    requires WellPrepared(w, p, cap) && cycleId in w.working.cycles && w.working.cycles[cycleId] == row
    requires cycleId !in w.committed.cycles
    ensures OwnRows(p.world, cycleId, row, p.world.working)
  {
  }

  function NextClose(env: Env): Time { if env.market.clock.Ok? then env.market.clock.value.nextClose else 0 }

  /** The cycle gives every decision of its agenda one turn, in order; then it closes its row and commits. */
  ghost predicate Executes(w: World, run: CycleRun, a: Agenda, turns: seq<Executions>, cycleId: Id,
                           reasons: map<Id, ExitReason>, deps: Deps, env: Env)
    requires Paced(deps)
  {
    var n := |a.owed|;
    && TakesAll(turns, a.owed, reasons, deps, env, NextClose(env))
    && Opens(w, turns[0].world, a.owed) && turns[0].orders == 0 && turns[0].fills == 0
    && run.world.committed == run.world.working
    && run.world.trace == turns[n].world.trace + [Committed(run.world.working)]
    && w.trace <= run.world.trace
    && SentSince(run.world.trace, |w.trace|) == OrdersOf(turns, a.owed, n, deps, env, NextClose(env))
    && (run.result.Ok? ==>
          && RowClosed(run.world.working, cycleId, a.status, deps, env)
          && run.world.working.snapshots == turns[0].world.working.snapshots
          && Remembers(turns[0].world.working, run.world.working, a.status)
          && run.result.value
             == CycleOutcome(cycleId, a.status, a.decisions, turns[n].orders, turns[n].fills, a.skipped))
  }

  lemma {:induction false} TradeExecutes(w: World, p: Prepared, a: Agenda, cycleId: Id, reasons: map<Id, ExitReason>,
                                         deps: Deps, env: Env)
    returns (turns: seq<Executions>)
    requires Paced(deps) && WellPrepared(w, p, deps.rules.maxConcurrentPositions) && Heads(p, a, reasons, env)
    requires cycleId in w.working.cycles && cycleId !in w.committed.cycles
    requires w.working.cycles[cycleId] == CycleRow(env.now(Started), deps.mode, None, None)
    ensures Executes(w, TradeAndFinish(p, cycleId, deps, env), a, turns, cycleId, reasons, deps, env)
    ensures turns[0].world == p.world
  {
    var row, close := w.working.cycles[cycleId], NextClose(env);
    turns := ExecuteAllTakes(p.world, p.todo, p.reasons, deps, env, p.nextClose);
    var e := ExecuteAll(p.world, p.todo, p.reasons, deps, env, p.nextClose);
    PreparedOpens(w, p, deps.rules.maxConcurrentPositions);
    PreparedOwnRows(w, p, deps.rules.maxConcurrentPositions, cycleId, row);
    ExecuteAllOwnRows(p.world, p.todo, p.reasons, deps, env, p.nextClose, cycleId, row, p.world.working);
    var o := CycleOutcome(cycleId, p.status, p.count, e.orders, e.fills, p.skipped);
    FinishCloses(e.world, o, deps, env);
    assert TakesAll(turns, a.owed, reasons, deps, env, close);
    TakenSend(turns, a.owed, |w.trace|, reasons, deps, env, close);
    TurnsSend(turns, a.owed, |a.owed|, |w.trace|, deps, env, close);
    SentSnoc(e.world.trace, Committed(Finish(e.world, o, env).world.working), |w.trace|);
  }

  /** Every cycle that can insert its row executes its agenda. */
  lemma {:induction false} CycleExecutes(w: World, deps: Deps, env: Env) returns (turns: seq<Executions>)
    requires Runnable(deps) && KeysMatch(w.working) && w.committed == w.working
    requires InsertCycle(w.working, env.uuid(FreshCycle), env.now(Started), deps.mode, env.faults).Ok?
    ensures var cycleId := env.uuid(FreshCycle);
            var t := InsertCycle(w.working, cycleId, env.now(Started), deps.mode, env.faults).value;
            var m := MarkAll(t, ListPositions(t.positions), deps.rules, cycleId, deps.mode, env);
            Executes(w, CycleSpec(w, deps, env), AgendaOf(t, cycleId, deps, env), turns, cycleId, m.state.reasons, deps,
                     env)
    ensures var t := InsertCycle(w.working, env.uuid(FreshCycle), env.now(Started), deps.mode, env.faults).value;
            turns[0].world == StartedCycle(w.(working := t), env.uuid(FreshCycle), deps, env).world
  {
    var cycleId := env.uuid(FreshCycle);
    var t := InsertCycle(w.working, cycleId, env.now(Started), deps.mode, env.faults).value;
    var m := MarkAll(t, ListPositions(t.positions), deps.rules, cycleId, deps.mode, env);
    var w1 := w.(working := t);
    StartedPrepared(w1, cycleId, deps, env);
    StartedAgenda(w1, cycleId, deps, env);
    turns := TradeExecutes(w1, StartedCycle(w1, cycleId, deps, env), AgendaOf(t, cycleId, deps, env), cycleId,
                           m.state.reasons, deps, env);
  }
}
