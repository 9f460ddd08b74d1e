// What a cycle sends, and when: the kill switch, the buy side's conditions, and
// what live mode comes to.
module Sending {
  import opened Models
  import opened Rules
  import opened Ledger
  import opened Environment
  import opened Execution
  import opened Protocol
  import opened Settlement
  import opened Holdings
  import opened Exits
  import opened KillSwitch
  import opened Cycle
  import opened Preparation

  /** A request is the order of a decision. */
  ghost predicate SentFor(r: OrderRequest, d: Decision) {
    && r.clientOrderId == OrderId(d.id) && r.ticker == d.ticker && OrderSide(d.action) == Some(r.side)
    && OrderQty(d.proposedNotional, d.referencePrice) == Ok(r.qty)
  }

  ghost predicate SentForSome(r: OrderRequest, ds: seq<Decision>) {
    exists d :: d in ds && Tradable(d) && SentFor(r, d)
  }

  /** Everything sent since `before` is the order of one of ds. */
  ghost predicate SendsOnly(before: seq<Event>, after: seq<Event>, ds: seq<Decision>) {
    && before <= after
    && forall i :: |before| <= i < |after| && after[i].Sent? ==> SentForSome(after[i].request, ds)
  }

  ghost predicate Silent(before: seq<Event>, after: seq<Event>) {
    before <= after && forall i :: |before| <= i < |after| ==> !after[i].Sent?
  }

  lemma {:induction false} SendsTransitive(a: seq<Event>, b: seq<Event>, c: seq<Event>, ds: seq<Decision>,
                                           es: seq<Decision>)
    requires SendsOnly(a, b, ds) && SendsOnly(b, c, es)
    ensures SendsOnly(a, c, ds + es)
  {
    forall i | |a| <= i < |c| && c[i].Sent? ensures SentForSome(c[i].request, ds + es) {
      if i < |b| {
        assert c[i] == b[i];
        var d :| d in ds && Tradable(d) && SentFor(b[i].request, d);
        assert d in ds + es;
      } else {
        var d :| d in es && Tradable(d) && SentFor(c[i].request, d);
        assert d in ds + es;
      }
    }
  }

  lemma {:induction false} ExecuteOneSends(e: Executions, d: Decision, reasons: map<Id, ExitReason>, deps: Deps,
                                           env: Env, nextClose: Time)
    requires Paced(deps)
    ensures var after := ExecuteOne(e, d, reasons, deps, env, nextClose).world.trace;
            SendsOnly(e.world.trace, after, [d]) && (deps.mode.Live? ==> after == e.world.trace)
  {
    if Tradable(d) {
      var approved := ResolveApproval(d, deps.mode, e.world.working, env, nextClose);
      if approved.Ok? {
        var req := approved.value;
        ResolvedIsAuthorized(d, deps.mode, e.world.working, env, nextClose);
        if deps.mode.Live? { LiveNeverSends(e.world, d, env, nextClose); }
        SendsExactlyWhenRecorded(e.world, req, env, deps.mode);
        assert d in [d] && SentFor(RequestOf(req), d);
        assert SentForSome(RequestOf(req), [d]);
      }
    }
  }

  lemma {:induction false} ExecuteAllSends(w: World, ds: seq<Decision>, reasons: map<Id, ExitReason>, deps: Deps,
                                           env: Env, nextClose: Time)
    requires Paced(deps)
    ensures var after := ExecuteAll(w, ds, reasons, deps, env, nextClose).world.trace;
            SendsOnly(w.trace, after, ds) && (deps.mode.Live? ==> after == w.trace)
  {
    if ds != [] {
      var front, last := ds[..|ds| - 1], ds[|ds| - 1];
      assert ds == front + [last];
      ExecuteAllSends(w, front, reasons, deps, env, nextClose);
      var e := ExecuteAll(w, front, reasons, deps, env, nextClose);
      ExecuteOneSends(e, last, reasons, deps, env, nextClose);
      SendsTransitive(w.trace, e.world.trace, ExecuteOne(e, last, reasons, deps, env, nextClose).world.trace, front,
                      [last]);
    }
  }

  lemma {:induction false} TradeSends(p: Prepared, cycleId: Id, deps: Deps, env: Env)
    requires Paced(deps)
    ensures var after := TradeAndFinish(p, cycleId, deps, env).world.trace;
            SendsOnly(p.world.trace, after, p.todo) && (deps.mode.Live? ==> SendsOnly(p.world.trace, after, []))
  {
    ExecuteAllSends(p.world, p.todo, p.reasons, deps, env, p.nextClose);
  }

  /** What a cycle sends are orders of what it prepared; in live mode it sends nothing. */
  lemma {:induction false} CycleSends(w: World, deps: Deps, env: Env)
    requires Runnable(deps) && KeysMatch(w.working)
    ensures var cycleId := env.uuid(FreshCycle);
            var t := InsertCycle(w.working, cycleId, env.now(Started), deps.mode, env.faults);
            var after := CycleSpec(w, deps, env).world.trace;
            && (t.Err? ==> after == w.trace)
            && (t.Ok? ==> SendsOnly(w.trace, after, StartedCycle(w.(working := t.value), cycleId, deps, env).todo))
            && (deps.mode.Live? ==> Silent(w.trace, after))
  {
    var cycleId := env.uuid(FreshCycle);
    var t := InsertCycle(w.working, cycleId, env.now(Started), deps.mode, env.faults);
    if t.Ok? { StartedSends(w.(working := t.value), cycleId, deps, env); }
  }

  lemma {:induction false} StartedSends(w: World, cycleId: Id, deps: Deps, env: Env)
    requires Runnable(deps) && KeysMatch(w.working)
    ensures var p := StartedCycle(w, cycleId, deps, env);
            var after := TradeAndFinish(p, cycleId, deps, env).world.trace;
            SendsOnly(w.trace, after, p.todo) && (deps.mode.Live? ==> Silent(w.trace, after))
  {
    StartedPrepared(w, cycleId, deps, env);
    PreparedSends(w, StartedCycle(w, cycleId, deps, env), cycleId, deps, env);
  }

  lemma {:induction false} PreparedSends(w: World, p: Prepared, cycleId: Id, deps: Deps, env: Env)
    requires Paced(deps) && NothingSent(w, p.world)
    ensures var after := TradeAndFinish(p, cycleId, deps, env).world.trace;
            SendsOnly(w.trace, after, p.todo) && (deps.mode.Live? ==> Silent(w.trace, after))
  {
    TradeSends(p, cycleId, deps, env);
    var after := TradeAndFinish(p, cycleId, deps, env).world.trace;
    SendsTransitive(w.trace, p.world.trace, after, [], p.todo);
    assert [] + p.todo == p.todo;
  }

  // ---- the kill switch ----

  lemma {:induction false} FinishKeepsHalt(w: World, o: CycleOutcome, env: Env)
    requires IsHalted(w.working)
    ensures IsHalted(Finish(w, o, env).world.working)
  {
  }

  /** A halted cycle sends nothing, stays halted, and can only end "halted" or without an outcome. */
  lemma {:induction false} HaltedCycleSendsNothing(w: World, deps: Deps, env: Env)
    requires Runnable(deps) && KeysMatch(w.working) && IsHalted(w.working)
    ensures var run := CycleSpec(w, deps, env);
            && Silent(w.trace, run.world.trace) && IsHalted(run.world.working)
            && (forall i :: |w.trace| <= i < |run.world.trace| ==> IsHalted(run.world.trace[i].tables))
            && (run.result.Ok? ==> run.result.value.status == CycleHalted && run.result.value.orders == 0)
  {
    var cycleId := env.uuid(FreshCycle);
    var t := InsertCycle(w.working, cycleId, env.now(Started), deps.mode, env.faults);
    if t.Ok? { StartedHalted(w.(working := t.value), cycleId, deps, env); }
  }

  lemma {:induction false} StartedHalted(w: World, cycleId: Id, deps: Deps, env: Env)
    requires Runnable(deps) && KeysMatch(w.working) && IsHalted(w.working)
    ensures var run := TradeAndFinish(StartedCycle(w, cycleId, deps, env), cycleId, deps, env);
            && run.world.trace == w.trace + [Committed(run.world.working)] && IsHalted(run.world.working)
            && (run.result.Ok? ==> run.result.value.status == CycleHalted && run.result.value.orders == 0)
  {
    HoldingsPrepared(w.working, cycleId, deps, env);
    var p := HaltedCycle(w, cycleId, deps, env);
    FinishKeepsHalt(p.world, CycleOutcome(cycleId, p.status, p.count, 0, 0, p.skipped), env);
  }

  /** The cycle's loss check finds a breach. */
  ghost predicate Breached(t: Tables, cycleId: Id, deps: Deps, env: Env) {
    var m := MarkAll(t, ListPositions(t.positions), deps.rules, cycleId, deps.mode, env);
    && !IsHalted(t) && env.market.clock.Ok? && m.error.None? && m.state.errors == [] && env.broker.account.Ok?
    && var s := TodaysSnapshot(t.snapshots, env.broker.account.value, OutcomeOf(m.state), deps, env);
    && !env.faults(UpsertSnapshotStmt(s.day))
    && BreachAt(t, s, OutcomeOf(m.state), deps, env).Some?
  }

  /** A halt was committed, and nothing else since. */
  ghost predicate HaltStored(w: World, w': World) {
    && IsHalted(w'.working) && w'.committed == w'.working && w'.trace == w.trace + [Committed(w'.working)]
  }

  /** Nothing is left to execute: the halt is stored, or everything pending is reverted. */
  ghost predicate StopsAtBreach(w: World, p: Prepared, cycleId: Id, faults: Faults) {
    && p.todo == []
    && (HaltFails(faults) ==> p.world == RollbackWorld(w) && p.status == CycleFailed)
    && (!HaltFails(faults) ==>
          p.status == CycleHalted && HaltStored(w, p.world)
            && (cycleId in w.working.cycles ==> cycleId in p.world.working.cycles))
  }

  lemma {:induction false} BreachStops(w: World, cycleId: Id, h: HoldingsOutcome, deps: Deps, env: Env)
    requires env.broker.account.Ok?
    requires var s := TodaysSnapshot(w.working.snapshots, env.broker.account.value, h, deps, env);
             !env.faults(UpsertSnapshotStmt(s.day)) && BreachAt(w.working, s, h, deps, env).Some?
    ensures var r := EvaluateRiskSpec(w, h, deps, env); r.Stopped? && StopsAtBreach(w, r.prepared, cycleId, env.faults)
  {
    var s := TodaysSnapshot(w.working.snapshots, env.broker.account.value, h, deps, env);
    var w1 := w.(working := w.working.(snapshots := PutSnapshot(w.working.snapshots, s)));
    TriggerHalts(w1, BreachAt(w1.working, s, h, deps, env).value, env.faults);
  }

  lemma {:induction false} StartedBreached(w: World, cycleId: Id, deps: Deps, env: Env)
    requires Runnable(deps) && KeysMatch(w.working) && Breached(w.working, cycleId, deps, env)
    ensures StopsAtBreach(w, StartedCycle(w, cycleId, deps, env), cycleId, env.faults)
  {
    HoldingsPrepared(w.working, cycleId, deps, env);
    var m := MarkAll(w.working, ListPositions(w.working.positions), deps.rules, cycleId, deps.mode, env);
    BreachStops(w.(working := m.state.tables), cycleId, OutcomeOf(m.state), deps, env);
  }

  /** Such a cycle sends nothing and ends "halted" or "error"; it is halted if it says so. */
  lemma {:induction false} BreachedCycleStops(w: World, deps: Deps, env: Env)
    requires Runnable(deps) && KeysMatch(w.working)
    requires var t := InsertCycle(w.working, env.uuid(FreshCycle), env.now(Started), deps.mode, env.faults);
             t.Ok? && Breached(t.value, env.uuid(FreshCycle), deps, env)
    ensures var run := CycleSpec(w, deps, env);
            && Silent(w.trace, run.world.trace)
            && (run.result.Ok? ==> run.result.value.status in {CycleHalted, CycleFailed})
            && (run.result.Ok? && run.result.value.status == CycleHalted ==>
                  IsHalted(run.world.working) && run.world.committed == run.world.working)
            && (!HaltFails(env.faults) ==> StoresHalt(w, run.world))
  {
    var cycleId := env.uuid(FreshCycle);
    var t := InsertCycle(w.working, cycleId, env.now(Started), deps.mode, env.faults).value;
    var w1 := w.(working := t);
    StartedBreached(w1, cycleId, deps, env);
    FinishAfterBreach(w1, StartedCycle(w1, cycleId, deps, env), cycleId, deps, env);
  }

  /** Two commits, of a halted database both. */
  ghost predicate StoresHalt(w: World, w': World) {
    && |w'.trace| == |w.trace| + 2 && w.trace <= w'.trace && IsHalted(w'.working)
    && forall i :: |w.trace| <= i < |w'.trace| ==> w'.trace[i].Committed? && IsHalted(w'.trace[i].tables)
  }

  lemma {:induction false} FinishAfterBreach(w: World, p: Prepared, cycleId: Id, deps: Deps, env: Env)
    requires Paced(deps) && StopsAtBreach(w, p, cycleId, env.faults)
    ensures var run := TradeAndFinish(p, cycleId, deps, env);
            && Silent(w.trace, run.world.trace) && run.world.committed == run.world.working
            && (run.result.Ok? ==> run.result.value.status == p.status)
            && (!HaltFails(env.faults) ==> StoresHalt(w, run.world))
  {
    var o := CycleOutcome(cycleId, p.status, p.count, 0, 0, p.skipped);
    assert TradeAndFinish(p, cycleId, deps, env) == Finish(p.world, o, env);
    if !HaltFails(env.faults) { FinishKeepsHalt(p.world, o, env); }
  }

  // ---- the conditions of a buy ----

  /** Not halted, market open, every holding priced, today's snapshot written, no breach, a slot free. */
  ghost predicate Cleared(t: Tables, cycleId: Id, deps: Deps, env: Env) {
    var h := OutcomeOf(MarkAll(t, ListPositions(t.positions), deps.rules, cycleId, deps.mode, env).state);
    && !IsHalted(t) && env.market.clock.Ok? && env.market.clock.value.isOpen
    && (forall k :: k in t.positions ==> env.market.price(k).Ok?)
    && env.broker.account.Ok?
    && var s := TodaysSnapshot(t.snapshots, env.broker.account.value, h, deps, env);
    && !env.faults(UpsertSnapshotStmt(s.day)) && BreachAt(t, s, h, deps, env).None?
    && |t.positions.Keys| < deps.rules.maxConcurrentPositions
  }

  lemma {:induction false} NoErrorsAllPriced(t: Tables, ps: seq<Position>, rules: RuleSet, cycleId: Id, mode: Mode,
                                             env: Env)
    requires var m := MarkAll(t, ps, rules, cycleId, mode, env); m.error.None? && m.state.errors == []
    ensures forall p :: p in ps ==> env.market.price(p.ticker).Ok?
  {
    if ps != [] {
      var front, last := ps[..|ps| - 1], ps[|ps| - 1];
      assert ps == front + [last];
      NoErrorsAllPriced(t, front, rules, cycleId, mode, env);
    }
  }

  /** Only a cleared cycle prepares a buy. */
  lemma {:induction false} BuysAreCleared(w: World, cycleId: Id, deps: Deps, env: Env)
    requires Runnable(deps) && KeysMatch(w.working)
    ensures Buys(StartedCycle(w, cycleId, deps, env).todo) != {} ==> Cleared(w.working, cycleId, deps, env)
  {
    var p, t := StartedCycle(w, cycleId, deps, env), w.working;
    if Buys(p.todo) != {} {
      var m := MarkAll(t, ListPositions(t.positions), deps.rules, cycleId, deps.mode, env);
      HoldingsPrepared(t, cycleId, deps, env);
      if m.error.None? {
        SellsAreTasks(t, m.state, m.state.tables);
        if m.state.errors == [] {
          NoErrorsAllPriced(t, ListPositions(t.positions), deps.rules, cycleId, deps.mode, env);
          ListsEachOnce(t.positions);
          forall k | k in t.positions ensures env.market.price(k).Ok? {
            assert t.positions[k] in ListPositions(t.positions);
          }
          BuysNeedRisk(World(m.state.tables, w.committed, w.trace), cycleId, t.positions.Keys, OutcomeOf(m.state),
                       env.market.clock.value, deps, env);
        }
      }
    }
  }

  lemma {:induction false} BuysNeedRisk(w: World, cycleId: Id, held: set<Ticker>, h: HoldingsOutcome, mc: MarketClock,
                                        deps: Deps, env: Env)
    requires Runnable(deps) && Buys(h.decisions) == {}
    requires Buys(PricedCycle(w, cycleId, held, h, mc, deps, env).todo) != {}
    ensures mc.isOpen && env.broker.account.Ok? && |held| < deps.rules.maxConcurrentPositions
    ensures var s := TodaysSnapshot(w.working.snapshots, env.broker.account.value, h, deps, env);
            !env.faults(UpsertSnapshotStmt(s.day)) && BreachAt(w.working, s, h, deps, env).None?
  {
  }

  /** A buy is sent only by a cleared cycle, for a ticker not held. */
  lemma {:induction false} BuysOnlyWhenCleared(w: World, deps: Deps, env: Env, i: nat)
    requires Runnable(deps) && KeysMatch(w.working)
    requires var after := CycleSpec(w, deps, env).world.trace;
             |w.trace| <= i < |after| && after[i].Sent? && after[i].request.side == Buy
    ensures var t := InsertCycle(w.working, env.uuid(FreshCycle), env.now(Started), deps.mode, env.faults);
            t.Ok? && Cleared(t.value, env.uuid(FreshCycle), deps, env)
    ensures CycleSpec(w, deps, env).world.trace[i].request.ticker !in w.working.positions
  {
    var cycleId := env.uuid(FreshCycle);
    CycleSends(w, deps, env);
    var t := InsertCycle(w.working, cycleId, env.now(Started), deps.mode, env.faults).value;
    var w1 := w.(working := t);
    var p := StartedCycle(w1, cycleId, deps, env);
    var d :| d in p.todo && Tradable(d) && SentFor(CycleSpec(w, deps, env).world.trace[i].request, d);
    assert d.ticker in Buys(p.todo);
    BuysAreCleared(w1, cycleId, deps, env);
    StartedPrepared(w1, cycleId, deps, env);
    var j :| 0 <= j < |p.todo| && p.todo[j] == d;
    assert Task(t, p.world.working, p.reasons, p.todo[j]);
  }
}
