// The position cap.
module Slots {
  import opened Models
  import opened Ledger
  import opened Environment
  import opened Execution
  import opened Fills
  import opened Settlement
  import opened Polling
  import opened Cycle
  import opened Preparation
  import opened Recording

  /** Only these tickers are held. */
  ghost predicate HoldsOnly(t: Tables, tickers: set<Ticker>) { KeysMatch(t) && t.positions.Keys <= tickers }

  ghost predicate StaysWithin(w: World, from: nat, tickers: set<Ticker>) {
    Throughout(w, from, t => HoldsOnly(t, tickers))
  }

  lemma {:induction false} WriteWithin(w: World, from: nat, tickers: set<Ticker>, t: Tables)
    requires StaysWithin(w, from, tickers) && HoldsOnly(t, tickers)
    ensures StaysWithin(w.(working := t), from, tickers)
    ensures StaysWithin(CommitWorld(w.(working := t)), from, tickers)
  {
  }

  lemma {:induction false} ExecuteWithin(w: World, req: ApprovedOrderRequest, env: Env, mode: Mode, from: nat,
                                         tickers: set<Ticker>)
    requires StaysWithin(w, from, tickers)
    ensures StaysWithin(ExecuteSpec(w, req, env, mode).world, from, tickers)
  {
    var t := RecordOrder(w.working, req, mode, env.faults);
    if t.Ok? { WriteWithin(w, from, tickers, t.value); }
    var w1 := RecordTransaction(w, req, mode, env.faults).0;
    assert StaysWithin(w1, from, tickers);
    var w2 := SendWorld(w1, RequestOf(req));
    assert StaysWithin(w2, from, tickers);
    SubmitWithin(w2, req, env, mode, from, tickers);
  }

  lemma {:induction false} SubmitWithin(w: World, req: ApprovedOrderRequest, env: Env, mode: Mode, from: nat,
                                        tickers: set<Ticker>)
    requires StaysWithin(w, from, tickers)
    ensures StaysWithin(AfterSubmit(w, req, env, mode).world, from, tickers)
  {
    WriteWithin(w, from, tickers, AfterSubmit(w, req, env, mode).world.working);
  }

  lemma {:induction false} Widen(w: World, from: nat, a: set<Ticker>, b: set<Ticker>)
    requires StaysWithin(w, from, a) && a <= b
    ensures StaysWithin(w, from, b)
  {
  }

  lemma {:induction false} PollWithin(w: World, job: PollJob, env: Env, from: nat, tickers: set<Ticker>)
    requires StaysWithin(w, from, tickers) && CanPoll(job.interval, job.timeout)
    ensures var w' := w.(working := Poll(PollStart(w.working, job.orderId), job, env).state.tables);
            StaysWithin(w', from, if job.side.Buy? then tickers + {job.decision.ticker} else tickers)
  {
    PollKeepsFrame(PollStart(w.working, job.orderId), job, env);
    var after := if job.side.Buy? then tickers + {job.decision.ticker} else tickers;
    Widen(w, from, tickers, after);
    WriteWithin(w, from, after, Poll(PollStart(w.working, job.orderId), job, env).state.tables);
  }

  /** Executing and polling one passed decision. */
  lemma {:induction false} PlacedWithin(e: Executions, d: Decision, req: ApprovedOrderRequest,
                                        reasons: map<Id, ExitReason>, deps: Deps, env: Env, from: nat,
                                        tickers: set<Ticker>)
    requires Paced(deps) && StaysWithin(e.world, from, tickers)
    requires req.side.Buy? ==> d.ticker in tickers
    ensures StaysWithin(AfterExecute(ExecuteSpec(e.world, req, env, deps.mode), e, d, reasons, deps, env).world, from,
                        tickers)
  {
    var x := ExecuteSpec(e.world, req, env, deps.mode);
    ExecuteWithin(e.world, req, env, deps.mode, from, tickers);
    if x.result.Ok? {
      assert x.result.value.side == req.side;
      PollWithin(x.world, JobFor(d, x.result.value, reasons, deps), env, from, tickers);
      assert d.ticker in tickers ==> tickers + {d.ticker} == tickers;
    }
  }

  lemma {:induction false} ExecuteOneWithin(e: Executions, d: Decision, reasons: map<Id, ExitReason>, deps: Deps,
                                            env: Env, nextClose: Time, from: nat, tickers: set<Ticker>)
    requires Paced(deps) && StaysWithin(e.world, from, tickers)
    ensures StaysWithin(ExecuteOne(e, d, reasons, deps, env, nextClose).world, from, tickers + Buys([d]))
  {
    Widen(e.world, from, tickers, tickers + Buys([d]));
    if Tradable(d) {
      var approved := ResolveApproval(d, deps.mode, e.world.working, env, nextClose);
      if approved.Ok? {
        ResolvedIsAuthorized(d, deps.mode, e.world.working, env, nextClose);
        if d.action == ActBuy { assert d in [d]; }
        PlacedWithin(e, d, approved.value, reasons, deps, env, from, tickers + Buys([d]));
      }
    }
  }

  /** Executing can add only the tickers of passed buys. */
  lemma {:induction false} ExecuteAllWithin(w: World, ds: seq<Decision>, reasons: map<Id, ExitReason>, deps: Deps,
                                            env: Env, nextClose: Time, from: nat, tickers: set<Ticker>)
    requires Paced(deps) && StaysWithin(w, from, tickers)
    ensures StaysWithin(ExecuteAll(w, ds, reasons, deps, env, nextClose).world, from, tickers + Buys(ds))
  {
    if ds == [] {
      assert tickers + Buys(ds) == tickers;
    } else {
      var front, last := ds[..|ds| - 1], ds[|ds| - 1];
      assert ds == front + [last];
      ExecuteAllWithin(w, front, reasons, deps, env, nextClose, from, tickers);
      var e := ExecuteAll(w, front, reasons, deps, env, nextClose);
      ExecuteOneWithin(e, last, reasons, deps, env, nextClose, from, tickers + Buys(front));
      assert tickers + Buys(front) + Buys([last]) == tickers + Buys(ds);
    }
  }

  lemma {:induction false} FinishWithin(w: World, o: CycleOutcome, env: Env, from: nat, tickers: set<Ticker>)
    requires StaysWithin(w, from, tickers)
    ensures StaysWithin(Finish(w, o, env).world, from, tickers)
  {
    var t := FinishTables(w.working, o, env);
    WriteWithin(w, from, tickers, if t.Ok? then t.value else w.working);
  }

  lemma {:induction false} PreparedWithin(w: World, w': World, tickers: set<Ticker>)
    requires NothingSent(w, w') && HoldsOnly(w.working, tickers) && HoldsOnly(w.committed, tickers)
    ensures StaysWithin(w', |w.trace|, tickers)
  {
  }

  lemma {:induction false} TradeWithin(w: World, p: Prepared, cycleId: Id, deps: Deps, env: Env, tickers: set<Ticker>)
    requires Paced(deps) && NothingSent(w, p.world)
    requires HoldsOnly(w.working, tickers) && HoldsOnly(w.committed, tickers)
    ensures StaysWithin(TradeAndFinish(p, cycleId, deps, env).world, |w.trace|, tickers + Buys(p.todo))
  {
    PreparedWithin(w, p.world, tickers);
    ExecuteAllWithin(p.world, p.todo, p.reasons, deps, env, p.nextClose, |w.trace|, tickers);
    var e := ExecuteAll(p.world, p.todo, p.reasons, deps, env, p.nextClose);
    FinishWithin(e.world, CycleOutcome(cycleId, p.status, p.count, e.orders, e.fills, p.skipped), env, |w.trace|,
                 tickers + Buys(p.todo));
  }

  /** Whatever the broker, the market, the LLM and the database do: at every commit of a
      cycle the tickers held are among those it started with and its passed buys, and
      together those are within the cap, or no more than it started with. */
  lemma {:induction false} CycleWithin(w: World, deps: Deps, env: Env) returns (bought: set<Ticker>)
    requires Runnable(deps) && KeysMatch(w.working) && w.committed == w.working
    ensures var held := w.working.positions.Keys;
            && StaysWithin(CycleSpec(w, deps, env).world, |w.trace|, held + bought)
            && |held + bought| <= Max(|held|, deps.rules.maxConcurrentPositions)
    ensures var t := InsertCycle(w.working, env.uuid(FreshCycle), env.now(Started), deps.mode, env.faults);
            bought == if t.Err? then {}
              else Buys(StartedCycle(w.(working := t.value), env.uuid(FreshCycle), deps, env).todo)
  {
    var cycleId, held := env.uuid(FreshCycle), w.working.positions.Keys;
    var t := InsertCycle(w.working, cycleId, env.now(Started), deps.mode, env.faults);
    if t.Err? {
      bought := {};
      assert held + bought == held;
    } else {
      var w1 := w.(working := t.value);
      var p := StartedCycle(w1, cycleId, deps, env);
      bought := Buys(p.todo);
      StartedPrepared(w1, cycleId, deps, env);
      TradeWithin(w1, p, cycleId, deps, env, held);
    }
  }
}
