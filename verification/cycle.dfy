// src/trader/engine/cycle.py: one cycle, from its `cycles` row to the commit
// that ends it.
module Cycle {
  import opened Money
  import opened Models
  import opened Rules
  import opened Ledger
  import opened Environment
  import opened Execution
  import opened Fills
  import opened Holdings
  import opened Proposals
  import opened KillSwitch

  /** `trading_day` and `trading_week_start`: the New York calendar, a given function of time. */
  datatype Calendar = Calendar(day: Time -> int, weekStart: Time -> int)

  datatype Deps = Deps(mode: Mode, rules: RuleSet, limits: Limits, capital: Cents,
                       timeout: int, interval: int, calendar: Calendar)

  /** Its polls end. */
  predicate Paced(deps: Deps) { CanPoll(deps.interval, deps.timeout) }

  predicate Runnable(deps: Deps) { Paced(deps) && deps.rules.minPrice.num > 0 }

  datatype CycleError = NotStarted(why: LedgerError) | NotFinished(why: LedgerError)
  datatype CycleOutcome = CycleOutcome(cycleId: Id, status: CycleStatus, decisions: nat, orders: nat, fills: nat,
                                       candidatesSkipped: bool)
  datatype CycleRun = CycleRun(world: World, result: Result<CycleOutcome, CycleError>)

  // ---- _finish ----

  const LAST_CYCLE := "last_cycle_id"

  function FinishTables(t: Tables, o: CycleOutcome, env: Env): DbResult {
    var t1 := FinishCycle(t, o.cycleId, env.now(Finished), o.status, env.faults);
    if t1.Err? then t1
    else if o.status == CycleFailed then t1
    else
      // The result of set_engine_state is not looked at.
      var t2 := SetState(t1.value, LAST_CYCLE, o.cycleId, env.faults);
      if t2.Err? then t1 else t2
  }

  function Finish(w: World, o: CycleOutcome, env: Env): CycleRun {
    var t := FinishTables(w.working, o, env);
    if t.Err? then CycleRun(CommitWorld(w), Err(NotFinished(t.error)))
    else CycleRun(CommitWorld(w.(working := t.value)), Ok(o))
  }

  method FinishCycleRow(conn: Connection, o: CycleOutcome, env: Env) returns (r: Result<CycleOutcome, CycleError>)
    modifies conn
    ensures CycleRun(conn.State(), r) == Finish(old(conn.State()), o, env)
  {
    var finished := FinishCycle(conn.working, o.cycleId, env.now(Finished), o.status, env.faults);
    if finished.Err? {
      conn.Commit();
      return Err(NotFinished(finished.error));
    }
    conn.working := finished.value;
    if o.status != CycleFailed {
      var noted := SetState(conn.working, LAST_CYCLE, o.cycleId, env.faults);
      if noted.Ok? { conn.working := noted.value; }
    }
    conn.Commit();
    return Ok(o);
  }

  // ---- _execute_passed_decisions ----

  datatype Executions = Executions(world: World, orders: nat, fills: nat)

  function JobFor(d: Decision, o: Order, reasons: map<Id, ExitReason>, deps: Deps): PollJob {
    PollJob(o.clientOrderId, o.id, d, o.side, if d.id in reasons then Some(reasons[d.id]) else None,
            deps.timeout, deps.interval)
  }

  predicate Tradable(d: Decision) { d.ruleCheck == Passed && (d.action == ActBuy || d.action == ActSell) }

  function AfterExecute(x: Executed, e: Executions, d: Decision, reasons: map<Id, ExitReason>, deps: Deps, env: Env)
    : Executions
    requires Paced(deps)
  {
    if x.result.Err? then e.(world := x.world)
    else
      var job := JobFor(d, x.result.value, reasons, deps);
      var p := Poll(PollStart(x.world.working, job.orderId), job, env);
      Executions(x.world.(working := p.state.tables), e.orders + 1,
                 if p.result.Ok? then e.fills + p.result.value.fillsRecorded else e.fills)
  }

  function ExecuteOne(e: Executions, d: Decision, reasons: map<Id, ExitReason>, deps: Deps, env: Env, nextClose: Time)
    : Executions
    requires Paced(deps)
  {
    if !Tradable(d) then e
    else
      var approved := ResolveApproval(d, deps.mode, e.world.working, env, nextClose);
      if approved.Err? then e
      else AfterExecute(ExecuteSpec(e.world, approved.value, env, deps.mode), e, d, reasons, deps, env)
  }

  function ExecuteAll(w: World, ds: seq<Decision>, reasons: map<Id, ExitReason>, deps: Deps, env: Env, nextClose: Time)
    : Executions
    requires Paced(deps)
  {
    if ds == [] then Executions(w, 0, 0)
    else ExecuteOne(ExecuteAll(w, ds[..|ds| - 1], reasons, deps, env, nextClose), ds[|ds| - 1], reasons, deps, env,
                    nextClose)
  }

  method ExecutePassedDecisions(conn: Connection, ds: seq<Decision>, reasons: map<Id, ExitReason>, deps: Deps, env: Env,
                                nextClose: Time)
    returns (orders: nat, fills: nat)
    requires Paced(deps)
    modifies conn
    ensures Executions(conn.State(), orders, fills) == ExecuteAll(old(conn.State()), ds, reasons, deps, env, nextClose)
  {
    orders, fills := 0, 0;
    for i := 0 to |ds|
      invariant Executions(conn.State(), orders, fills)
                == ExecuteAll(old(conn.State()), ds[..i], reasons, deps, env, nextClose)
    {
      ghost var e := Executions(conn.State(), orders, fills);
      var d := ds[i];
      assert ds[..i + 1][..i] == ds[..i];
      if !Tradable(d) { continue; }
      var approved := ResolveApproval(d, deps.mode, conn.working, env, nextClose);
      if approved.Err? { continue; }
      var executed := Execute(conn, approved.value, env, deps.mode);
      if executed.Err? { continue; }
      var order := executed.value;
      orders := orders + 1;
      var polled := PollAndSettle(conn, JobFor(d, order, reasons, deps), env);
      if polled.Ok? { fills := fills + polled.value.fillsRecorded; }
    }
    assert ds[..|ds|] == ds;
  }

  // ---- _evaluate_risk ----

  /** The last row before today, in date order. */
  function LastBefore(rows: seq<Snapshot>, today: int): Option<Snapshot> {
    if rows == [] then None
    else if rows[|rows| - 1].day < today then Some(rows[|rows| - 1])
    else LastBefore(rows[..|rows| - 1], today)
  }

  function PriorPeak(rows: seq<Snapshot>, capital: Cents, today: int): Cents {
    var prior := LastBefore(rows, today);
    if prior.None? then capital else prior.value.peakEquity
  }

  /** Realized P&L of the trades closed on or after a day that satisfy `sameDay`. */
  function RealizedOn(trades: seq<Trade>, c: Calendar, today: int): Cents {
    if trades == [] then 0
    else
      var last := trades[|trades| - 1];
      RealizedOn(trades[..|trades| - 1], c, today) + (if c.day(last.closedAt) == today then last.realizedPnl else 0)
  }

  function RealizedSince(trades: seq<Trade>, c: Calendar, start: int): Cents {
    if trades == [] then 0
    else
      var last := trades[|trades| - 1];
      RealizedSince(trades[..|trades| - 1], c, start) + (if c.day(last.closedAt) >= start then last.realizedPnl else 0)
  }

  method RealizedTotals(trades: seq<Trade>, c: Calendar, now: Time) returns (today: Cents, week: Cents)
    ensures today == RealizedOn(trades, c, c.day(now)) && week == RealizedSince(trades, c, c.weekStart(now))
  {
    today, week := 0, 0;
    for i := 0 to |trades|
      invariant today == RealizedOn(trades[..i], c, c.day(now))
                && week == RealizedSince(trades[..i], c, c.weekStart(now))
    {
      assert trades[..i + 1][..i] == trades[..i];
      var day := c.day(trades[i].closedAt);
      if day == c.day(now) { today := today + trades[i].realizedPnl; }
      if day >= c.weekStart(now) { week := week + trades[i].realizedPnl; }
    }
    assert trades[..|trades|] == trades;
  }

  /** Where no trade closed after today, today's total is the total since today. */
  lemma {:induction false} TodayIsSinceToday(trades: seq<Trade>, c: Calendar, today: int)
    requires forall t :: t in trades ==> c.day(t.closedAt) <= today
    ensures RealizedOn(trades, c, today) == RealizedSince(trades, c, today)
  {
    if trades != [] {
      var front, last := trades[..|trades| - 1], trades[|trades| - 1];
      assert last in trades && forall t :: t in front ==> t in trades;
      TodayIsSinceToday(front, c, today);
    }
  }

  /** Today's row. */
  function TodaysSnapshot(rows: seq<Snapshot>, cash: Cents, h: HoldingsOutcome, deps: Deps, env: Env): Snapshot {
    var now := env.now(AtRisk);
    var today, equity := deps.calendar.day(now), cash + h.value;
    var peak := Max(PriorPeak(rows, deps.capital, today), equity);
    Snapshot(today, deps.mode, cash, h.value, equity, peak, Drawdown(peak, equity), now)
  }

  function BreachAt(t: Tables, s: Snapshot, h: HoldingsOutcome, deps: Deps, env: Env): Option<LossKind> {
    var c, now := deps.calendar, env.now(AtRisk);
    LossBreach(deps.limits, RealizedOn(t.trades, c, c.day(now)), h.unrealized,
               RealizedSince(t.trades, c, c.weekStart(now)), s.equity, s.peakEquity)
  }

  /** Where a cycle stands when only executing `todo` and finishing are left. */
  datatype Prepared = Prepared(world: World, todo: seq<Decision>, reasons: map<Id, ExitReason>, nextClose: Time,
                               status: CycleStatus, count: nat, skipped: bool)

  function Idle(w: World, status: CycleStatus, count: nat): Prepared { Prepared(w, [], map[], 0, status, count, false) }

  function TradeAndFinish(p: Prepared, cycleId: Id, deps: Deps, env: Env): CycleRun
    requires Paced(deps)
  {
    var e := ExecuteAll(p.world, p.todo, p.reasons, deps, env, p.nextClose);
    Finish(e.world, CycleOutcome(cycleId, p.status, p.count, e.orders, e.fills, p.skipped), env)
  }

  function Counted(cycleId: Id, status: CycleStatus, decisions: nat): CycleOutcome {
    CycleOutcome(cycleId, status, decisions, 0, 0, false)
  }

  datatype Risk = Stopped(prepared: Prepared) | GoOn(world: World)

  function EvaluateRiskSpec(w: World, h: HoldingsOutcome, deps: Deps, env: Env): Risk {
    var n := |h.decisions|;
    match env.broker.account
    case Err(_) => Stopped(Idle(w, MarketUnavailable, n))
    case Ok(cash) =>
      var s := TodaysSnapshot(w.working.snapshots, cash, h, deps, env);
      var t := UpsertSnapshot(w.working, s, env.faults);
      if t.Err? then Stopped(Idle(w, CycleFailed, n))
      else
        var w1 := w.(working := t.value);
        var breach := BreachAt(w1.working, s, h, deps, env);
        if breach.None? then GoOn(w1)
        else
          var k := TriggerSpec(w1, breach.value, env.faults);
          Stopped(Idle(k.world, if k.persisted then CycleHalted else CycleFailed, n))
  }

  method EvaluateRisk(conn: Connection, cycleId: Id, h: HoldingsOutcome, deps: Deps, env: Env)
    returns (stopped: Option<Result<CycleOutcome, CycleError>>)
    requires Runnable(deps)
    modifies conn
    ensures match EvaluateRiskSpec(old(conn.State()), h, deps, env)
            case Stopped(p) => stopped.Some?
              && CycleRun(conn.State(), stopped.value) == TradeAndFinish(p, cycleId, deps, env)
            case GoOn(w) => stopped.None? && conn.State() == w
  {
    var n := |h.decisions|;
    if env.broker.account.Err? {
      var r := FinishCycleRow(conn, Counted(cycleId, MarketUnavailable, n), env);
      return Some(r);
    }
    var cash := env.broker.account.value;
    var now := env.now(AtRisk);
    var today, equity := deps.calendar.day(now), cash + h.value;
    var prior := PriorPeak(conn.working.snapshots, deps.capital, today);
    var peak := Max(prior, equity);
    var s := Snapshot(today, deps.mode, cash, h.value, equity, peak, Drawdown(peak, equity), now);
    assert s == TodaysSnapshot(conn.working.snapshots, cash, h, deps, env);
    var upserted := UpsertSnapshot(conn.working, s, env.faults);
    if upserted.Err? {
      var r := FinishCycleRow(conn, Counted(cycleId, CycleFailed, n), env);
      return Some(r);
    }
    conn.working := upserted.value;
    var realizedToday, realizedWeek := RealizedTotals(conn.working.trades, deps.calendar, now);
    var breach := LossBreach(deps.limits, realizedToday, h.unrealized, realizedWeek, equity, peak);
    assert breach == BreachAt(conn.working, s, h, deps, env);
    if breach.None? { return None; }
    var persisted, _, _ := Trigger(conn, breach.value, env);
    var r := FinishCycleRow(conn, Counted(cycleId, if persisted then CycleHalted else CycleFailed, n), env);
    return Some(r);
  }

  // ---- _run_locked ----

  /** Nothing is executed while the market is closed. */
  function Trading(w: World, ds: seq<Decision>, h: HoldingsOutcome, status: CycleStatus, count: nat, skipped: bool,
                   mc: MarketClock): Prepared
  {
    Prepared(w, if mc.isOpen then ds else [], h.reasons, mc.nextClose, status, count, skipped)
  }

  method TradeThenFinish(conn: Connection, cycleId: Id, ds: seq<Decision>, h: HoldingsOutcome, status: CycleStatus,
                         count: nat, skipped: bool, mc: MarketClock, deps: Deps, env: Env)
    returns (r: Result<CycleOutcome, CycleError>)
    requires Runnable(deps)
    modifies conn
    ensures CycleRun(conn.State(), r)
            == TradeAndFinish(Trading(old(conn.State()), ds, h, status, count, skipped, mc), cycleId, deps, env)
  {
    var orders, fills := 0, 0;
    if mc.isOpen { orders, fills := ExecutePassedDecisions(conn, ds, h.reasons, deps, env, mc.nextClose); }
    r := FinishCycleRow(conn, CycleOutcome(cycleId, status, count, orders, fills, skipped), env);
  }

  function SettingFor(cycleId: Id, held: set<Ticker>, mc: MarketClock, deps: Deps): Setting {
    Setting(deps.rules, deps.limits, deps.mode, cycleId, held, mc.isOpen, None)
  }

  /** From candidate evaluation on. `held` is what was held when the cycle began. */
  function BuySide(w: World, cycleId: Id, held: set<Ticker>, h: HoldingsOutcome, mc: MarketClock, deps: Deps, env: Env)
    : Prepared
    requires Runnable(deps)
  {
    var n := |h.decisions|;
    var ds := DecideCandidates(SettingFor(cycleId, held, mc, deps), env);
    var i := InsertAll(w.working, ds, env.faults);
    var w1 := w.(working := i.tables);
    if i.error.Some? then Idle(w1, CycleFailed, n)
    else Trading(w1, h.decisions + ds, h, CycleOk, n + |ds|, false, mc)
  }

  /** From the risk evaluation on. */
  function PricedCycle(w: World, cycleId: Id, held: set<Ticker>, h: HoldingsOutcome, mc: MarketClock, deps: Deps,
                       env: Env): Prepared
    requires Runnable(deps)
  {
    match EvaluateRiskSpec(w, h, deps, env)
    case Stopped(p) => p
    case GoOn(w1) =>
      if |held| >= deps.rules.maxConcurrentPositions
      then Trading(w1, h.decisions, h, CycleOk, |h.decisions|, true, mc)
      else BuySide(w1, cycleId, held, h, mc, deps, env)
  }

  /** From the evaluation of the holdings on. */
  function ActiveCycle(w: World, cycleId: Id, mc: MarketClock, deps: Deps, env: Env): Prepared
    requires Runnable(deps)
  {
    var m := MarkAll(w.working, ListPositions(w.working.positions), deps.rules, cycleId, deps.mode, env);
    var w1 := w.(working := m.state.tables);
    var h := OutcomeOf(m.state);
    if m.error.Some? then Idle(w1, CycleFailed, 0)
    else if h.errors != [] then Trading(w1, h.decisions, h, MarketUnavailable, |h.decisions|, false, mc)
    else PricedCycle(w1, cycleId, w.working.positions.Keys, h, mc, deps, env)
  }

  function HaltedCycle(w: World, cycleId: Id, deps: Deps, env: Env): Prepared {
    var m := MarkAll(w.working, ListPositions(w.working.positions), deps.rules, cycleId, deps.mode, env);
    Idle(w.(working := m.state.tables), CycleHalted, if m.error.None? then |m.state.decisions| else 0)
  }

  function StartedCycle(w: World, cycleId: Id, deps: Deps, env: Env): Prepared
    requires Runnable(deps)
  {
    if IsHalted(w.working) then HaltedCycle(w, cycleId, deps, env)
    else
      match env.market.clock
      case Err(_) => Idle(w, MarketUnavailable, 0)
      case Ok(mc) => ActiveCycle(w, cycleId, mc, deps, env)
  }

  function CycleSpec(w: World, deps: Deps, env: Env): CycleRun
    requires Runnable(deps)
  {
    var cycleId := env.uuid(FreshCycle);
    var t := InsertCycle(w.working, cycleId, env.now(Started), deps.mode, env.faults);
    if t.Err? then CycleRun(w, Err(NotStarted(t.error)))
    else TradeAndFinish(StartedCycle(w.(working := t.value), cycleId, deps, env), cycleId, deps, env)
  }

  method RunBuySide(conn: Connection, cycleId: Id, held: set<Ticker>, h: HoldingsOutcome, mc: MarketClock, deps: Deps,
                    env: Env)
    returns (r: Result<CycleOutcome, CycleError>)
    requires Runnable(deps)
    modifies conn
    ensures CycleRun(conn.State(), r)
            == TradeAndFinish(BuySide(old(conn.State()), cycleId, held, h, mc, deps, env), cycleId, deps, env)
  {
    ghost var p := BuySide(conn.State(), cycleId, held, h, mc, deps, env);
    var candidates := EvaluateCandidates(conn, SettingFor(cycleId, held, mc, deps), env);
    assert p.world == conn.State();
    if candidates.Err? {
      r := FinishCycleRow(conn, Counted(cycleId, CycleFailed, |h.decisions|), env);
      return;
    }
    r := TradeThenFinish(conn, cycleId, h.decisions + candidates.value, h, CycleOk,
                         |h.decisions| + |candidates.value|, false, mc, deps, env);
  }

  method RunPriced(conn: Connection, cycleId: Id, held: set<Ticker>, h: HoldingsOutcome, mc: MarketClock, deps: Deps,
                   env: Env)
    returns (r: Result<CycleOutcome, CycleError>)
    requires Runnable(deps)
    modifies conn
    ensures CycleRun(conn.State(), r)
            == TradeAndFinish(PricedCycle(old(conn.State()), cycleId, held, h, mc, deps, env), cycleId, deps, env)
  {
    var stopped := EvaluateRisk(conn, cycleId, h, deps, env);
    if stopped.Some? { return stopped.value; }
    if |held| >= deps.rules.maxConcurrentPositions {
      r := TradeThenFinish(conn, cycleId, h.decisions, h, CycleOk, |h.decisions|, true, mc, deps, env);
      return;
    }
    r := RunBuySide(conn, cycleId, held, h, mc, deps, env);
  }

  method RunActive(conn: Connection, cycleId: Id, mc: MarketClock, deps: Deps, env: Env)
    returns (r: Result<CycleOutcome, CycleError>)
    requires Runnable(deps)
    modifies conn
    ensures CycleRun(conn.State(), r)
            == TradeAndFinish(ActiveCycle(old(conn.State()), cycleId, mc, deps, env), cycleId, deps, env)
  {
    var ps := ListPositions(conn.working.positions);
    var held := conn.working.positions.Keys;
    var evaluated := EvaluateHoldings(conn, ps, deps.rules, cycleId, deps.mode, env);
    if evaluated.Err? {
      r := FinishCycleRow(conn, Counted(cycleId, CycleFailed, 0), env);
      return;
    }
    var h := evaluated.value;
    if h.errors != [] {
      r := TradeThenFinish(conn, cycleId, h.decisions, h, MarketUnavailable, |h.decisions|, false, mc, deps, env);
      return;
    }
    r := RunPriced(conn, cycleId, held, h, mc, deps, env);
  }

  method RunCycle(conn: Connection, deps: Deps, env: Env) returns (r: Result<CycleOutcome, CycleError>)
    requires Runnable(deps)
    modifies conn
    ensures CycleRun(conn.State(), r) == CycleSpec(old(conn.State()), deps, env)
  {
    var cycleId := env.uuid(FreshCycle);
    var inserted := InsertCycle(conn.working, cycleId, env.now(Started), deps.mode, env.faults);
    if inserted.Err? { return Err(NotStarted(inserted.error)); }
    conn.working := inserted.value;
    if IsHalted(conn.working) {
      var h := EvaluateHoldings(conn, ListPositions(conn.working.positions), deps.rules, cycleId, deps.mode, env);
      r := FinishCycleRow(conn, Counted(cycleId, CycleHalted, if h.Ok? then |h.value.decisions| else 0), env);
      return;
    }
    match env.market.clock
    case Err(_) => r := FinishCycleRow(conn, Counted(cycleId, MarketUnavailable, 0), env);
    case Ok(mc) => r := RunActive(conn, cycleId, mc, deps, env);
  }
}
