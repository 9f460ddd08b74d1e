// Whole cycles keep the stored peaks right.
module Peaks {
  import opened Money
  import opened Models
  import opened Rules
  import opened Ledger
  import opened Environment
  import opened Execution
  import opened Fills
  import opened Settlement
  import opened Polling
  import opened Holdings
  import opened Proposals
  import opened KillSwitch
  import opened Cycle
  import opened Preparation
  import opened Recording
  import opened Report

  /** Peaks are right and no row is after `day`. */
  ghost predicate RightPeaks(t: Tables, capital: Cents, day: int) {
    KeysMatch(t) && Peaked(t.snapshots, capital) && NotAfter(t.snapshots, day)
  }

  ghost predicate PeaksThroughout(w: World, from: nat, capital: Cents, day: int) {
    Throughout(w, from, t => RightPeaks(t, capital, day))
  }

  lemma {:induction false} WritePeaks(w: World, from: nat, capital: Cents, day: int, t: Tables)
    requires PeaksThroughout(w, from, capital, day) && RightPeaks(t, capital, day)
    ensures PeaksThroughout(w.(working := t), from, capital, day)
    ensures PeaksThroughout(CommitWorld(w.(working := t)), from, capital, day)
  {
  }

  lemma {:induction false} ExecutePeaks(w: World, req: ApprovedOrderRequest, env: Env, mode: Mode, from: nat,
                                        capital: Cents, day: int)
    requires PeaksThroughout(w, from, capital, day)
    ensures PeaksThroughout(ExecuteSpec(w, req, env, mode).world, from, capital, day)
  {
    var t := RecordOrder(w.working, req, mode, env.faults);
    if t.Ok? { WritePeaks(w, from, capital, day, t.value); }
    var w2 := SendWorld(RecordTransaction(w, req, mode, env.faults).0, RequestOf(req));
    assert PeaksThroughout(w2, from, capital, day);
    SubmitPeaks(w2, req, env, mode, from, capital, day);
  }

  lemma {:induction false} SubmitPeaks(w: World, req: ApprovedOrderRequest, env: Env, mode: Mode, from: nat,
                                       capital: Cents, day: int)
    requires PeaksThroughout(w, from, capital, day)
    ensures PeaksThroughout(AfterSubmit(w, req, env, mode).world, from, capital, day)
  {
    WritePeaks(w, from, capital, day, AfterSubmit(w, req, env, mode).world.working);
  }

  lemma {:induction false} ExecuteOnePeaks(e: Executions, d: Decision, reasons: map<Id, ExitReason>, deps: Deps,
                                           env: Env, nextClose: Time, from: nat, capital: Cents, day: int)
    requires Paced(deps) && PeaksThroughout(e.world, from, capital, day)
    ensures PeaksThroughout(ExecuteOne(e, d, reasons, deps, env, nextClose).world, from, capital, day)
  {
    if Tradable(d) {
      var approved := ResolveApproval(d, deps.mode, e.world.working, env, nextClose);
      if approved.Ok? {
        ExecutePeaks(e.world, approved.value, env, deps.mode, from, capital, day);
        var x := ExecuteSpec(e.world, approved.value, env, deps.mode);
        if x.result.Ok? {
          var job := JobFor(d, x.result.value, reasons, deps);
          PollKeepsFrame(PollStart(x.world.working, job.orderId), job, env);
          WritePeaks(x.world, from, capital, day, Poll(PollStart(x.world.working, job.orderId), job, env).state.tables);
        }
      }
    }
  }

  lemma {:induction false} ExecuteAllPeaks(w: World, ds: seq<Decision>, reasons: map<Id, ExitReason>, deps: Deps,
                                           env: Env, nextClose: Time, from: nat, capital: Cents, day: int)
    requires Paced(deps) && PeaksThroughout(w, from, capital, day)
    ensures PeaksThroughout(ExecuteAll(w, ds, reasons, deps, env, nextClose).world, from, capital, day)
  {
    if ds != [] {
      ExecuteAllPeaks(w, ds[..|ds| - 1], reasons, deps, env, nextClose, from, capital, day);
      ExecuteOnePeaks(ExecuteAll(w, ds[..|ds| - 1], reasons, deps, env, nextClose), ds[|ds| - 1], reasons, deps, env,
                      nextClose, from, capital, day);
    }
  }

  lemma {:induction false} TradePeaks(p: Prepared, cycleId: Id, deps: Deps, env: Env, from: nat, capital: Cents,
                                      day: int)
    requires Paced(deps) && PeaksThroughout(p.world, from, capital, day)
    ensures PeaksThroughout(TradeAndFinish(p, cycleId, deps, env).world, from, capital, day)
  {
    ExecuteAllPeaks(p.world, p.todo, p.reasons, deps, env, p.nextClose, from, capital, day);
    var e := ExecuteAll(p.world, p.todo, p.reasons, deps, env, p.nextClose);
    var t := FinishTables(e.world.working, CycleOutcome(cycleId, p.status, p.count, e.orders, e.fills, p.skipped), env);
    WritePeaks(e.world, from, capital, day, if t.Ok? then t.value else e.world.working);
  }

  /** The risk evaluation stores the next snapshot, or none. */
  lemma {:induction false} RiskPeaks(w: World, h: HoldingsOutcome, deps: Deps, env: Env, from: nat)
    requires PeaksThroughout(w, from, deps.capital, deps.calendar.day(env.now(AtRisk))) && from <= |w.trace|
    ensures var r := EvaluateRiskSpec(w, h, deps, env);
            var w' := if r.GoOn? then r.world else r.prepared.world;
            PeaksThroughout(w', from, deps.capital, deps.calendar.day(env.now(AtRisk)))
  {
    var day := deps.calendar.day(env.now(AtRisk));
    if env.broker.account.Ok? {
      var s := TodaysSnapshot(w.working.snapshots, env.broker.account.value, h, deps, env);
      var t := UpsertSnapshot(w.working, s, env.faults);
      if t.Ok? {
        PutKeepsPeaks(w.working.snapshots, s, deps.capital);
        WritePeaks(w, from, deps.capital, day, t.value);
        var breach := BreachAt(t.value, s, h, deps, env);
        if breach.Some? { TriggerPeaks(w.(working := t.value), breach.value, env, from, deps.capital, day); }
      }
    }
  }

  lemma {:induction false} TriggerPeaks(w: World, kind: LossKind, env: Env, from: nat, capital: Cents, day: int)
    requires PeaksThroughout(w, from, capital, day)
    ensures PeaksThroughout(TriggerSpec(w, kind, env.faults).world, from, capital, day)
  {
    var t := HaltTables(w.working, ReasonText(kind), "", env.faults);
    if t.Ok? { WritePeaks(w, from, capital, day, t.value); }
  }

  lemma {:induction false} BuySidePeaks(w: World, cycleId: Id, held: set<Ticker>, h: HoldingsOutcome, mc: MarketClock,
                                        deps: Deps, env: Env, from: nat, capital: Cents, day: int)
    requires Runnable(deps) && PeaksThroughout(w, from, capital, day)
    ensures PeaksThroughout(BuySide(w, cycleId, held, h, mc, deps, env).world, from, capital, day)
  {
    var ds := DecideCandidates(SettingFor(cycleId, held, mc, deps), env);
    InsertAllRecords(w.working, ds, env.faults);
    WritePeaks(w, from, capital, day, InsertAll(w.working, ds, env.faults).tables);
  }

  lemma {:induction false} StartedPeaks(w: World, cycleId: Id, deps: Deps, env: Env, from: nat)
    requires Runnable(deps) && PeaksThroughout(w, from, deps.capital, deps.calendar.day(env.now(AtRisk)))
             && from <= |w.trace|
    ensures PeaksThroughout(StartedCycle(w, cycleId, deps, env).world, from, deps.capital,
                            deps.calendar.day(env.now(AtRisk)))
  {
    var day := deps.calendar.day(env.now(AtRisk));
    var m := MarkAll(w.working, ListPositions(w.working.positions), deps.rules, cycleId, deps.mode, env);
    HoldingsPrepared(w.working, cycleId, deps, env);
    var w1 := w.(working := m.state.tables);
    WritePeaks(w, from, deps.capital, day, m.state.tables);
    if !IsHalted(w.working) && env.market.clock.Ok? && m.error.None? && m.state.errors == [] {
      RiskPeaks(w1, OutcomeOf(m.state), deps, env, from);
      match EvaluateRiskSpec(w1, OutcomeOf(m.state), deps, env)
      case Stopped(_) =>
      case GoOn(w2) =>
        BuySidePeaks(w2, cycleId, w.working.positions.Keys, OutcomeOf(m.state), env.market.clock.value, deps, env,
                     from, deps.capital, day);
    }
  }

  /** On a day no earlier than the last stored one, a cycle of a fixed capital keeps every stored
      peak the maximum of the capital and the equities so far. */
  lemma {:induction false} CyclePeaks(w: World, deps: Deps, env: Env)
    requires Runnable(deps) && w.committed == w.working
    requires RightPeaks(w.working, deps.capital, deps.calendar.day(env.now(AtRisk)))
    ensures PeaksThroughout(CycleSpec(w, deps, env).world, |w.trace|, deps.capital, deps.calendar.day(env.now(AtRisk)))
  {
    var cycleId := env.uuid(FreshCycle);
    var t := InsertCycle(w.working, cycleId, env.now(Started), deps.mode, env.faults);
    if t.Ok? {
      var w1 := w.(working := t.value);
      StartedPeaks(w1, cycleId, deps, env, |w.trace|);
      TradePeaks(StartedCycle(w1, cycleId, deps, env), cycleId, deps, env, |w.trace|, deps.capital,
                 deps.calendar.day(env.now(AtRisk)));
    }
  }
}
