// Why positions are closed: every trade a run adds carries the exit rule that its
// position's quote had fired, in the cycle that sold it.
module Reasons {
  import opened Models
  import opened Rules
  import opened TradeCloser
  import opened Ledger
  import opened Environment
  import opened Execution
  import opened Fills
  import opened Settlement
  import opened Polling
  import opened Holdings
  import opened KillSwitch
  import opened Cycle
  import opened Preparation
  import opened Recording
  import opened Conservation
  import opened Judging
  import opened Runs

  /** A trade closes one of these positions, for the reason its quote fired. */
  ghost predicate ClosedForCause(tr: Trade, positions: map<Ticker, Position>, rules: RuleSet, env: Env) {
    tr.ticker in positions && DueFor(positions[tr.ticker], tr.exitReason, rules, env)
  }

  /** Every trade is one of before, or has such a cause. */
  ghost predicate Caused(before: seq<Trade>, u: Tables, positions: map<Ticker, Position>, rules: RuleSet, env: Env) {
    && KeysMatch(u)
    && forall tr :: tr in u.trades ==> tr in before || ClosedForCause(tr, positions, rules, env)
  }

  ghost predicate CausedThroughout(w: World, from: nat, before: seq<Trade>, positions: map<Ticker, Position>,
                                   rules: RuleSet, env: Env) {
    Throughout(w, from, t => Caused(before, t, positions, rules, env))
  }

  /** A sell's reason is what its position's quote fired; a buy needs none. */
  ghost predicate Reasoned(d: Decision, reasons: map<Id, ExitReason>, positions: map<Ticker, Position>, rules: RuleSet,
                           env: Env) {
    Tradable(d) && d.action == ActSell ==>
      d.ticker in positions && d.id in reasons && DueFor(positions[d.ticker], reasons[d.id], rules, env)
  }

  ghost predicate JobReasoned(job: PollJob, positions: map<Ticker, Position>, rules: RuleSet, env: Env) {
    job.side.Sell? ==>
      && job.decision.ticker in positions && job.reason.Some?
      && DueFor(positions[job.decision.ticker], job.reason.value, rules, env)
  }

  /** Settling a fill adds at most one trade: its job's ticker's, for its job's reason. */
  lemma {:induction false} SettleTrades(t: Tables, job: PollJob, f: Fill, faults: Faults)
    requires KeysMatch(t)
    ensures var u := SettleSpec(t, job, f, faults).tables;
            u.trades == t.trades
            || exists tr :: && u.trades == t.trades + [tr] && job.side == Sell && tr.ticker == job.decision.ticker
                            && tr.exitReason == (if job.reason.Some? then job.reason.value else LlmExit)
  {
    var update := ApplyFill(GetPosition(t, job.decision.ticker), f, job.decision, job.side, job.reason,
                            CarriedFor(t, job.decision.ticker, f, job.side));
    var u := SettleSpec(t, job, f, faults).tables;
    if u.trades != t.trades { assert u.trades == t.trades + [update.value.trade]; }
  }

  lemma {:induction false} RecordCaused(s: PollState, job: PollJob, bo: BrokerOrder, env: Env, before: seq<Trade>,
                                        positions: map<Ticker, Position>, rules: RuleSet)
    requires Caused(before, s.tables, positions, rules, env) && JobReasoned(job, positions, rules, env)
    ensures Caused(before, RecordNew(s, job, bo, env).state.tables, positions, rules, env)
  {
    RecordNewFrame(s, job, bo, env);
    var fill := NewFill(s, job, bo, env);
    if fill.Some? && InsertFill(s.tables, fill.value, env.faults).Ok? {
      SettleTrades(InsertFill(s.tables, fill.value, env.faults).value, job, fill.value, env.faults);
    }
  }

  lemma {:induction false} TurnCaused(s: PollState, job: PollJob, env: Env, before: seq<Trade>,
                                      positions: map<Ticker, Position>, rules: RuleSet)
    requires Caused(before, s.tables, positions, rules, env) && JobReasoned(job, positions, rules, env)
    ensures Caused(before, Turn(s, job, env).state.tables, positions, rules, env)
  {
    match env.broker.read(job.clientOrderId, s.polls)
    case Err(_) =>
    case Ok(bo) =>
      var r := RecordNew(s, job, bo, env);
      RecordCaused(s, job, bo, env, before, positions, rules);
      if r.error.None? { NoteOrders(r.state, job, bo, env); }
  }

  lemma {:induction false} PollCaused(s: PollState, job: PollJob, env: Env, before: seq<Trade>,
                                      positions: map<Ticker, Position>, rules: RuleSet)
    requires Ends(s, job)
    requires Caused(before, s.tables, positions, rules, env) && JobReasoned(job, positions, rules, env)
    ensures Caused(before, Poll(s, job, env).state.tables, positions, rules, env)
    decreases job.timeout - s.elapsed
  {
    TurnCaused(s, job, env, before, positions, rules);
    match Turn(s, job, env)
    case Stop(_, _) =>
    case Continue(s') =>
      TurnAdvances(s, job, env);
      PollCaused(s', job, env, before, positions, rules);
  }

  // ---- executing ----

  lemma {:induction false} WriteCaused(w: World, from: nat, before: seq<Trade>, positions: map<Ticker, Position>,
                                       rules: RuleSet, env: Env, t: Tables)
    requires CausedThroughout(w, from, before, positions, rules, env) && Caused(before, t, positions, rules, env)
    ensures CausedThroughout(w.(working := t), from, before, positions, rules, env)
    ensures CausedThroughout(CommitWorld(w.(working := t)), from, before, positions, rules, env)
  {
  }

  lemma {:induction false} ExecuteCaused(w: World, req: ApprovedOrderRequest, env: Env, mode: Mode, from: nat,
                                         before: seq<Trade>, positions: map<Ticker, Position>, rules: RuleSet,
                                         seen: Env)
    requires CausedThroughout(w, from, before, positions, rules, seen)
    ensures CausedThroughout(ExecuteSpec(w, req, env, mode).world, from, before, positions, rules, seen)
  {
    var t := RecordOrder(w.working, req, mode, env.faults);
    if t.Ok? { WriteCaused(w, from, before, positions, rules, seen, t.value); }
    var w2 := SendWorld(RecordTransaction(w, req, mode, env.faults).0, RequestOf(req));
    assert CausedThroughout(w2, from, before, positions, rules, seen);
    SubmitOrders(w2, req, env, mode);
    WriteCaused(w2, from, before, positions, rules, seen, AfterSubmit(w2, req, env, mode).world.working);
  }

  lemma {:induction false} ExecuteOneCaused(e: Executions, d: Decision, reasons: map<Id, ExitReason>, deps: Deps,
                                            env: Env, nextClose: Time, from: nat, before: seq<Trade>,
                                            positions: map<Ticker, Position>)
    requires Paced(deps) && CausedThroughout(e.world, from, before, positions, deps.rules, env)
    requires Reasoned(d, reasons, positions, deps.rules, env)
    ensures CausedThroughout(ExecuteOne(e, d, reasons, deps, env, nextClose).world, from, before, positions, deps.rules,
                             env)
  {
    if Tradable(d) {
      var approved := ResolveApproval(d, deps.mode, e.world.working, env, nextClose);
      if approved.Ok? {
        ResolvedIsAuthorized(d, deps.mode, e.world.working, env, nextClose);
        ExecuteCaused(e.world, approved.value, env, deps.mode, from, before, positions, deps.rules, env);
        var x := ExecuteSpec(e.world, approved.value, env, deps.mode);
        if x.result.Ok? {
          var job := JobFor(d, x.result.value, reasons, deps);
          assert x.result.value.side == approved.value.side;
          PollCaused(PollStart(x.world.working, job.orderId), job, env, before, positions, deps.rules);
          WriteCaused(x.world, from, before, positions, deps.rules, env,
                      Poll(PollStart(x.world.working, job.orderId), job, env).state.tables);
        }
      }
    }
  }

  lemma {:induction false} ExecuteAllCaused(w: World, ds: seq<Decision>, reasons: map<Id, ExitReason>, deps: Deps,
                                            env: Env, nextClose: Time, from: nat, before: seq<Trade>,
                                            positions: map<Ticker, Position>)
    requires Paced(deps) && CausedThroughout(w, from, before, positions, deps.rules, env)
    requires forall d :: d in ds ==> Reasoned(d, reasons, positions, deps.rules, env)
    ensures CausedThroughout(ExecuteAll(w, ds, reasons, deps, env, nextClose).world, from, before, positions,
                             deps.rules, env)
  {
    if ds != [] {
      var front, last := ds[..|ds| - 1], ds[|ds| - 1];
      assert last in ds && forall d :: d in front ==> d in ds;
      ExecuteAllCaused(w, front, reasons, deps, env, nextClose, from, before, positions);
      ExecuteOneCaused(ExecuteAll(w, front, reasons, deps, env, nextClose), last, reasons, deps, env, nextClose, from,
                       before, positions);
    }
  }

  lemma {:induction false} TradeCaused(w: World, p: Prepared, cycleId: Id, deps: Deps, env: Env)
    requires Paced(deps) && NothingSent(w, p.world) && KeysMatch(w.working) && KeysMatch(w.committed)
             && w.committed.trades == w.working.trades
    requires forall d :: d in p.todo ==> Reasoned(d, p.reasons, w.working.positions, deps.rules, env)
    ensures CausedThroughout(TradeAndFinish(p, cycleId, deps, env).world, |w.trace|, w.working.trades,
                             w.working.positions, deps.rules, env)
  {
    var before, positions := w.working.trades, w.working.positions;
    assert CausedThroughout(p.world, |w.trace|, before, positions, deps.rules, env);
    ExecuteAllCaused(p.world, p.todo, p.reasons, deps, env, p.nextClose, |w.trace|, before, positions);
    var e := ExecuteAll(p.world, p.todo, p.reasons, deps, env, p.nextClose);
    var t := FinishTables(e.world.working, CycleOutcome(cycleId, p.status, p.count, e.orders, e.fills, p.skipped), env);
    WriteCaused(e.world, |w.trace|, before, positions, deps.rules, env, if t.Ok? then t.value else e.world.working);
  }

  // ---- what a cycle executes has reasons ----

  lemma {:induction false} DueIsListed(ps: seq<Position>, rules: RuleSet, env: Env)
    ensures forall p :: p in DueOf(ps, rules, env) ==> p in ps
  {
    if ps != [] {
      var front := ps[..|ps| - 1];
      DueIsListed(front, rules, env);
      assert forall p :: p in front ==> p in ps;
    }
  }

  lemma {:induction false} JudgedReasoned(t: Tables, s: HoldState, d: Decision, rules: RuleSet, cycleId: Id, mode: Mode,
                                          env: Env)
    requires KeysMatch(t) && d in s.decisions
    requires Found(t, s, ListPositions(t.positions), rules, cycleId, mode, env)
    ensures Reasoned(d, s.reasons, t.positions, rules, env)
  {
    var ps := ListPositions(t.positions);
    ListsEachOnce(t.positions);
    DueIsListed(ps, rules, env);
    var i :| 0 <= i < |s.decisions| && s.decisions[i] == d;
    var p := DueOf(ps, rules, env)[i];
    assert p in DueOf(ps, rules, env) && ExitOf(d, p, s.reasons[d.id], rules, cycleId, mode, env);
  }

  lemma {:induction false} StartedReasons(w: World, cycleId: Id, deps: Deps, env: Env)
    requires Runnable(deps)
    ensures var p := StartedCycle(w, cycleId, deps, env);
            var m := MarkAll(w.working, ListPositions(w.working.positions), deps.rules, cycleId, deps.mode, env);
            p.todo != [] ==> m.error.None? && p.reasons == m.state.reasons
  {
    if !IsHalted(w.working) && env.market.clock.Ok? {
      var m := MarkAll(w.working, ListPositions(w.working.positions), deps.rules, cycleId, deps.mode, env);
      PricedReasons(w.(working := m.state.tables), cycleId, w.working.positions.Keys, OutcomeOf(m.state),
                    env.market.clock.value, deps, env);
    }
  }

  lemma {:induction false} PricedReasons(w: World, cycleId: Id, held: set<Ticker>, h: HoldingsOutcome, mc: MarketClock,
                                         deps: Deps, env: Env)
    requires Runnable(deps)
    ensures PricedCycle(w, cycleId, held, h, mc, deps, env).todo != [] ==>
              PricedCycle(w, cycleId, held, h, mc, deps, env).reasons == h.reasons
  {
    RiskPrepared(w, h, deps, env);
  }

  lemma {:induction false} StartedReasoned(w: World, cycleId: Id, deps: Deps, env: Env)
    requires Runnable(deps) && KeysMatch(w.working)
    ensures var p := StartedCycle(w, cycleId, deps, env);
            forall d :: d in p.todo ==> Reasoned(d, p.reasons, w.working.positions, deps.rules, env)
  {
    var p := StartedCycle(w, cycleId, deps, env);
    var ps := ListPositions(w.working.positions);
    StartedReasons(w, cycleId, deps, env);
    SellsFromHoldings(w, cycleId, deps, env);
    ListsEachOnce(w.working.positions);
    MarkAllFinds(w.working, ps, deps.rules, cycleId, deps.mode, env);
    forall d | d in p.todo ensures Reasoned(d, p.reasons, w.working.positions, deps.rules, env) {
      if Tradable(d) && d.action == ActSell {
        JudgedReasoned(w.working, MarkAll(w.working, ps, deps.rules, cycleId, deps.mode, env).state, d, deps.rules,
                       cycleId, deps.mode, env);
      }
    }
  }

  /** Every trade a cycle stores is an old one, or closes a position it began with, for the reason its quote fired. */
  lemma {:induction false} CycleTradesCaused(w: World, deps: Deps, env: Env)
    requires Runnable(deps) && KeysMatch(w.working) && w.committed == w.working
    ensures CausedThroughout(CycleSpec(w, deps, env).world, |w.trace|, w.working.trades, w.working.positions,
                             deps.rules, env)
  {
    var cycleId := env.uuid(FreshCycle);
    var t := InsertCycle(w.working, cycleId, env.now(Started), deps.mode, env.faults);
    if t.Ok? {
      var w1 := w.(working := t.value);
      StartedPrepared(w1, cycleId, deps, env);
      StartedReasoned(w1, cycleId, deps, env);
      TradeCaused(w1, StartedCycle(w1, cycleId, deps, env), cycleId, deps, env);
    }
  }

  // ---- every run ----

  /** Some cycle of the run gave the trade its cause, in the world it began in. */
  ghost predicate CausedIn(tr: Trade, w: World, cs: seq<Command>)
    requires AllProper(cs)
  {
    exists n :: 0 <= n < |cs| && CausedBy(tr, w, cs, n)
  }

  /** The cycle that a command runs, killed or not. */
  ghost predicate RunsCycle(c: Command, deps: Deps, env: Env) {
    match c
    case CycleRuns(d, e) => d == deps && e == env
    case Killed(command, _) => RunsCycle(command, deps, env)
    case _ => false
  }

  ghost predicate StepCauses(tr: Trade, w: World, c: Command) {
    exists deps, env :: RunsCycle(c, deps, env) && ClosedForCause(tr, w.working.positions, deps.rules, env)
  }

  ghost predicate CausedBy(tr: Trade, w: World, cs: seq<Command>, n: nat)
    requires AllProper(cs) && n < |cs|
  {
    assert forall c :: c in cs[..n] ==> c in cs;
    StepCauses(tr, Run(w, cs[..n]), cs[n])
  }

  ghost predicate StepCaused(w: World, u: Tables, c: Command) {
    forall tr :: tr in u.trades ==> tr in w.working.trades || StepCauses(tr, w, c)
  }

  lemma {:induction false} CycleStepCaused(w: World, deps: Deps, env: Env)
    requires AtRest(w) && Runnable(deps)
    ensures Throughout(CycleSpec(w, deps, env).world, |w.trace|, t => StepCaused(w, t, CycleRuns(deps, env)))
  {
    CycleTradesCaused(w, deps, env);
    forall u | Caused(w.working.trades, u, w.working.positions, deps.rules, env)
      ensures StepCaused(w, u, CycleRuns(deps, env))
    {
      forall tr | tr in u.trades && tr !in w.working.trades ensures StepCauses(tr, w, CycleRuns(deps, env)) {
        assert RunsCycle(CycleRuns(deps, env), deps, env);
      }
    }
  }

  ghost predicate TradesStay(w: World, from: nat, trades: seq<Trade>) {
    Throughout(w, from, (t: Tables) => t.trades == trades)
  }

  lemma {:induction false} ExecuteAddsNoTrade(w: World, req: ApprovedOrderRequest, env: Env, mode: Mode, from: nat,
                                              trades: seq<Trade>)
    requires TradesStay(w, from, trades)
    ensures TradesStay(CommitWorld(ExecuteSpec(w, req, env, mode).world), from, trades)
  {
    var (w1, failed) := RecordTransaction(w, req, mode, env.faults);
    assert TradesStay(w1, from, trades);
    var w2 := SendWorld(w1, RequestOf(req));
    assert TradesStay(w2, from, trades);
    SubmitOrders(w2, req, env, mode);
  }

  lemma {:induction false} ResubmitCaused(w: World, c: Command)
    requires AtRest(w) && c.Resubmits?
    ensures Throughout(Step(w, c), |w.trace|, t => StepCaused(w, t, c))
  {
    assert TradesStay(w, |w.trace|, w.working.trades);
    if c.decisionId in w.working.decisions {
      var approved := ResolveApproval(w.working.decisions[c.decisionId], c.mode, w.working, c.env, c.nextClose);
      if approved.Ok? { ExecuteAddsNoTrade(w, approved.value, c.env, c.mode, |w.trace|, w.working.trades); }
    }
    assert TradesStay(Step(w, c), |w.trace|, w.working.trades);
  }

  lemma {:induction false} StepIsCaused(w: World, c: Command)
    requires AtRest(w) && Proper(c)
    ensures Throughout(Step(w, c), |w.trace|, t => StepCaused(w, t, c))
    decreases c
  {
    match c
    case CycleRuns(deps, env) => CycleStepCaused(w, deps, env);
    case Resumes(faults) => ResumeGuarded(w, faults);
    case Approves(id, expiresAt, env) => ApprovalGuarded(w, id, expiresAt, env);
    case Resubmits(_, _, _, _) => ResubmitCaused(w, c);
    case Killed(command, after) =>
      StepIsCaused(w, command);
      StepAtRest(w, command);
      KilledIsCaused(w, Step(w, command), command, after);
  }

  lemma {:induction false} KilledIsCaused(w: World, w': World, command: Command, after: nat)
    requires AtRest(w) && Guarded(w') && w.trace <= w'.trace
    requires Throughout(w', |w.trace|, t => StepCaused(w, t, command))
    ensures Throughout(DiesIn(w, w', after), |w.trace|, t => StepCaused(w, t, Killed(command, after)))
  {
    CrashLeaves(w, w', after, t => StepCaused(w, t, command));
    KilledCauses(w, command, after);
  }

  lemma {:induction false} KilledCauses(w: World, command: Command, after: nat)
    ensures forall u :: StepCaused(w, u, command) ==> StepCaused(w, u, Killed(command, after))
  {
    forall u: Tables, tr: Trade | StepCaused(w, u, command) && tr in u.trades && tr !in w.working.trades
      ensures StepCauses(tr, w, Killed(command, after))
    {
      var deps, env :| RunsCycle(command, deps, env) && ClosedForCause(tr, w.working.positions, deps.rules, env);
      assert RunsCycle(Killed(command, after), deps, env);
    }
  }

  /** In every run each new trade closes a position some cycle began with, for the reason its quote fired then. */
  lemma {:induction false} RunTradesCaused(w: World, cs: seq<Command>)
    requires AtRest(w) && AllProper(cs)
    ensures forall tr :: tr in Run(w, cs).working.trades ==> tr in w.working.trades || CausedIn(tr, w, cs)
  {
    if cs != [] {
      var front, n := cs[..|cs| - 1], |cs| - 1;
      assert cs[n] in cs;
      RunTradesCaused(w, front);
      RunIsSafe(w, front);
      StepIsCaused(Run(w, front), cs[n]);
      forall tr | tr in Run(w, cs).working.trades && tr !in w.working.trades ensures CausedIn(tr, w, cs) {
        if tr in Run(w, front).working.trades { StillCaused(tr, w, cs); } else { assert CausedBy(tr, w, cs, n); }
      }
    }
  }

  lemma {:induction false} StillCaused(tr: Trade, w: World, cs: seq<Command>)
    requires cs != [] && AllProper(cs) && AllProper(cs[..|cs| - 1]) && CausedIn(tr, w, cs[..|cs| - 1])
    ensures CausedIn(tr, w, cs)
  {
    var front := cs[..|cs| - 1];
    var k :| 0 <= k < |front| && CausedBy(tr, w, front, k);
    assert front[..k] == cs[..k] && front[k] == cs[k];
    assert CausedBy(tr, w, cs, k);
  }
}
