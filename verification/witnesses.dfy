// Concrete runs: a cycle that loses itself, and an approved live decision that
// cannot be submitted.
module Witnesses {
  import opened Money
  import opened Models
  import opened Rules
  import opened Ledger
  import opened Environment
  import opened Execution
  import opened Protocol
  import opened Settlement
  import opened Holdings
  import opened Cycle
  import opened Preparation
  import opened Reverting
  import opened Runs
  import opened RunLaws
  import opened KillSwitch
  import opened Sending
  import opened Course
  import opened Turns

  // ---- the example: one share of A, bought at a dollar, quoted at a cent ----

  const RULES := RuleSet(100_000, Ratio(10, 1), 1, 10, Ratio(-5, 1), Ratio(20, 1), Ratio(1, 2), Ratio(10, 1),
                         Ratio(2, 1), Ratio(5, 1), 15.0, Ratio(5, 1), 0, {})

  const HELD := Position("A", 1, 10_000, 0, 10_000, false)

  /** The ledger after the buy. */
  const BOUGHT := Tables(
    map["c0" := CycleRow(0, Paper, Some(0), Some(CycleOk))],
    map["b" := Decision("b", "c0", 0, Paper, "A", ActBuy, Llm, Passed, Some(100), Some(10_000))],
    [Approval("ab", "b", System, 0, 1)],
    map["order_b" := Order("order_b", "b", "ab", "order_b", Some("1"), Paper, Buy, 1, Filled, Some(0), None)],
    [Fill("fb", "order_b", 0, 1, 10_000, 0)],
    map["A" := HELD], [], [], map[])

  function Deps1(mode: Mode): Deps {
    Deps(mode, RULES, Limits(10_000, 1_000_000, 1_000_000, 50.0), 0, 60, 2, Calendar(_ => 0, _ => 0))
  }

  function Name(f: Fresh): Id {
    match f
    case FreshCycle => "c"
    case FreshExit(_) => "x"
    case FreshEntry(_) => "e"
    case FreshApproval(_) => "a"
    case FreshFill(_, _) => "f"
  }

  function Env1(faults: Faults): Env {
    Env(Broker(Ok(100_000), Ok(0), _ => Err(""), (_, _) => Err("")),
        Market(Ok(MarketClock(true, 10)), _ => Ok(100), _ => Ok(0)),
        faults, _ => 0, Name, [], None)
  }

  /** The rule exit: stop loss, all of it. */
  function Exit(mode: Mode): Decision {
    Decision("x", "c", 0, mode, "A", ActSell, RuleExit, Passed, Some(1), Some(100))
  }

  function WithRow(mode: Mode): Tables { BOUGHT.(cycles := BOUGHT.cycles["c" := CycleRow(0, mode, None, None)]) }

  lemma {:induction false} OnePosition()
    ensures ListPositions(BOUGHT.positions) == [HELD]
  {
    ListsEachOnce(BOUGHT.positions);
    assert BOUGHT.positions.Keys == {"A"};
  }

  lemma {:induction false} Amounts(mode: Mode, faults: Faults)
    ensures CheckExit(HELD, 100, RULES, 0) == Some(ExitSignal(StopLoss, ALL))
    ensures ExitDecision(HELD, 100, ALL, "c", mode, Env1(faults)) == Exit(mode)
    ensures ToCents(100) == 1 && ToCents(-9_900) == -99
  {
    RoundExact(9_500, 100);
    RoundExact(1, 100);
    RoundExact(-99, 100);
  }

  /** Faults that leave the evaluation alone. */
  predicate SparesEvaluation(faults: Faults) {
    && !faults(UpsertPositionStmt("A", None)) && !faults(InsertDecisionStmt("x")) && !faults(UpsertSnapshotStmt(0))
    && !faults(InsertCycleStmt("c"))
  }

  lemma {:induction false} ExitDecided(mode: Mode, faults: Faults)
    requires SparesEvaluation(faults)
    ensures var t := WithRow(mode);
            MarkAll(t, [HELD], RULES, "c", mode, Env1(faults))
            == Holdings.Marked(HoldState(t.(decisions := t.decisions["x" := Exit(mode)]), 1, -99, [Exit(mode)],
                                         map["x" := StopLoss], []), None)
  {
    var t := WithRow(mode);
    Amounts(mode, faults);
    assert [HELD][..0] == [];
    assert t.positions["A" := HELD] == t.positions;
  }

  /** The cycle goes on to execute exactly that exit. */
  lemma {:induction false} ExitPrepared(mode: Mode, faults: Faults)
    requires SparesEvaluation(faults)
    ensures var p := StartedCycle(World(WithRow(mode), BOUGHT, [Committed(BOUGHT)]), "c", Deps1(mode), Env1(faults));
            && p.todo == [Exit(mode)] && p.nextClose == 10
            && p.world.committed == BOUGHT && p.world.trace == [Committed(BOUGHT)]
            && p.world.working == WithRow(mode).(decisions := BOUGHT.decisions["x" := Exit(mode)],
                                                 snapshots := p.world.working.snapshots)
  {
    OnePosition();
    ExitDecided(mode, faults);
    assert BOUGHT.positions.Keys == {"A"};
    assert Drawdown(100_001, 100_001) == 0.0;
  }

  // ---- a cycle that loses itself ----

  const NO_FAULTS: Faults := _ => false
  const APPROVAL_FAILS: Faults := s => s == InsertApprovalStmt("a")

  lemma {:induction false} Filed1()
    ensures Filed(BOUGHT) && AtRest(Opened(BOUGHT))
  {
    assert OrderId("b") == "order_b";
    OpenedAtRest(BOUGHT);
  }

  lemma {:induction false} ExitResolves(w: World, faults: Faults)
    ensures Attempted(w, Exit(Paper), Paper, Env1(faults), 10)
    ensures faults(InsertApprovalStmt("a")) ==> !CanRecord(w, Exit(Paper), Paper, Env1(faults), 10)
  {
    assert OrderQty(Some(1), Some(100)) == Ok(1);
  }

  /** A cycle whose only order is refused. */
  lemma {:induction false} OnlyOrderRefused(w: World, deps: Deps, env: Env, d: Decision)
    requires Runnable(deps) && KeysMatch(w.working) && w.committed == w.working
    requires var t := InsertCycle(w.working, env.uuid(FreshCycle), env.now(Started), deps.mode, env.faults);
             && t.Ok?
             && var p := StartedCycle(w.(working := t.value), env.uuid(FreshCycle), deps, env);
             && p.todo == [d] && Attempted(p.world, d, deps.mode, env, p.nextClose)
             && !CanRecord(p.world, d, deps.mode, env, p.nextClose)
    ensures var run := CycleSpec(w, deps, env);
            run.result.Err? && run.result.error.NotFinished? && run.world == CommitWorld(w)
  {
    var t := InsertCycle(w.working, env.uuid(FreshCycle), env.now(Started), deps.mode, env.faults).value;
    var p := StartedCycle(w.(working := t), env.uuid(FreshCycle), deps, env);
    SingleAttempt(p.world, d, deps.mode, env, p.nextClose);
    CycleEndsExactly(w, deps, env);
  }

  lemma {:induction false} SingleAttempt(w: World, d: Decision, mode: Mode, env: Env, nextClose: Time)
    requires Attempted(w, d, mode, env, nextClose)
    ensures FirstAttempt(w, [d], mode, env, nextClose) == Some(d)
  {
    assert [d][..0] == [];
  }

  /** One failing insert, of the stop loss's approval: the position is not sold, and the ledger does
      not even know that there was a cycle. */
  lemma {:induction false} LosesItself()
    ensures var run := CycleSpec(Opened(BOUGHT), Deps1(Paper), Env1(APPROVAL_FAILS));
            run.result.Err? && run.result.error.NotFinished? && run.world == CommitWorld(Opened(BOUGHT))
  {
    Filed1();
    ExitPrepared(Paper, APPROVAL_FAILS);
    RowInserted(Paper, APPROVAL_FAILS);
    var p := StartedCycle(World(WithRow(Paper), BOUGHT, [Committed(BOUGHT)]), "c", Deps1(Paper), Env1(APPROVAL_FAILS));
    ExitResolves(p.world, APPROVAL_FAILS);
    OnlyOrderRefused(Opened(BOUGHT), Deps1(Paper), Env1(APPROVAL_FAILS), Exit(Paper));
  }

  lemma {:induction false} RowInserted(mode: Mode, faults: Faults)
    requires SparesEvaluation(faults)
    ensures InsertCycle(BOUGHT, "c", 0, mode, faults) == Ok(WithRow(mode))
    ensures Opened(BOUGHT).(working := WithRow(mode)) == World(WithRow(mode), BOUGHT, [Committed(BOUGHT)])
  {
  }

  /** Where nothing fails, the same stop loss goes out: one share, and nothing else. */
  lemma {:induction false} StopLossGoesOut()
    ensures var run := CycleSpec(Opened(BOUGHT), Deps1(Paper), Env1(NO_FAULTS));
            && 1 <= |run.world.trace|
            && SentSince(run.world.trace, 1) == [OrderRequest("order_x", "A", Sell, 1)]
  {
    var deps, env := Deps1(Paper), Env1(NO_FAULTS);
    var w1 := World(WithRow(Paper), BOUGHT, [Committed(BOUGHT)]);
    Filed1();
    ExitPrepared(Paper, NO_FAULTS);
    RowInserted(Paper, NO_FAULTS);
    StartedAgenda(w1, "c", deps, env);
    var turns := CycleExecutes(Opened(BOUGHT), deps, env);
    ExitOrder(turns[0].world, deps, env);
    OnlyOrder(turns, deps, env);
  }

  lemma {:induction false} OnlyOrder(turns: seq<Executions>, deps: Deps, env: Env)
    requires |turns| == 2
    ensures OrdersOf(turns, [Exit(Paper)], 1, deps, env, 10) == OrderIn(turns[0].world, Exit(Paper), deps, env, 10)
  {
    assert OrdersOf(turns, [Exit(Paper)], 0, deps, env, 10) == [];
  }

  lemma {:induction false} ExitOrder(w: World, deps: Deps, env: Env)
    requires deps.mode == Paper && env == Env1(NO_FAULTS)
    requires w.working == WithRow(Paper).(decisions := BOUGHT.decisions["x" := Exit(Paper)],
                                          snapshots := w.working.snapshots)
    ensures OrderIn(w, Exit(Paper), deps, env, 10) == [OrderRequest("order_x", "A", Sell, 1)]
  {
    assert OrderQty(Some(1), Some(100)) == Ok(1);
    assert OrderId("x") == "order_x";
  }

  // ---- an approved live decision ----

  /** A live cycle stores what it prepared. */
  lemma {:induction false} LiveKeepsPrepared(w: World, cycleId: Id, deps: Deps, env: Env)
    requires Runnable(deps) && Filed(w.working) && deps.mode.Live?
    ensures var p := StartedCycle(w, cycleId, deps, env);
            var w' := TradeAndFinish(p, cycleId, deps, env).world;
            w'.working.decisions == p.world.working.decisions && w'.working.approvals == p.world.working.approvals
  {
    LiveCycleAttemptsNothing(w, cycleId, deps, env);
    var p := StartedCycle(w, cycleId, deps, env);
    FinishKeepsRows(p.world, CycleOutcome(cycleId, p.status, p.count, 0, 0, p.skipped), env);
  }

  lemma {:induction false} FinishKeepsRows(w: World, o: CycleOutcome, env: Env)
    ensures var w' := Finish(w, o, env).world;
            w'.working.decisions == w.working.decisions && w'.working.approvals == w.working.approvals
  {
  }

  /** The same from the world it starts in. */
  lemma {:induction false} LiveCycleKeeps(w: World, t: Tables, deps: Deps, env: Env)
    requires AtRest(w) && Runnable(deps) && deps.mode.Live? && Filed(t)
    requires InsertCycle(w.working, env.uuid(FreshCycle), env.now(Started), deps.mode, env.faults) == Ok(t)
    ensures var p := StartedCycle(w.(working := t), env.uuid(FreshCycle), deps, env);
            var w' := CycleSpec(w, deps, env).world;
            && AtRest(w') && w'.working.decisions == p.world.working.decisions
            && w'.working.approvals == p.world.working.approvals
  {
    CycleAtRest(w, deps, env);
    LiveKeepsPrepared(w.(working := t), env.uuid(FreshCycle), deps, env);
  }

  lemma {:induction false} FiledWithRow()
    ensures Filed(WithRow(Live))
  {
    Filed1();
  }

  /** After a live cycle: the stop loss is stored, passed and unexecuted. */
  lemma {:induction false} LiveStores()
    ensures var w := CycleSpec(Opened(BOUGHT), Deps1(Live), Env1(NO_FAULTS)).world;
            && AtRest(w) && "x" in w.working.decisions && w.working.decisions["x"] == Exit(Live)
            && w.working.approvals == BOUGHT.approvals
  {
    Filed1();
    ExitPrepared(Live, NO_FAULTS);
    RowInserted(Live, NO_FAULTS);
    FiledWithRow();
    LiveCycleKeeps(Opened(BOUGHT), WithRow(Live), Deps1(Live), Env1(NO_FAULTS));
  }

  lemma {:induction false} ApprovalFound(a: Approval, b: Approval)
    requires a.decisionId != b.decisionId && b.expiresAt > 0
    ensures FindValidApproval([a, b], b.decisionId, 0) == Some(b)
  {
    assert [a, b][..1] == [a] && [a][..0] == [];
    assert FindValidApproval([a], b.decisionId, 0) == None;
  }

  lemma {:induction false} Approved(w: World)
    requires "x" in w.working.decisions && w.working.decisions["x"] == Exit(Live)
             && w.working.approvals == BOUGHT.approvals
    ensures var w' := HumanApprovalSpec(w, "x", 10, Env1(NO_FAULTS)).world;
            && "x" in w'.working.decisions && w'.working.decisions["x"] == Exit(Live)
            && w'.working.approvals == [Approval("ab", "b", System, 0, 1), Approval("a", "x", Kyo, 0, 10)]
  {
  }

  lemma {:induction false} Refused(w: World)
    requires "x" in w.working.decisions && w.working.decisions["x"] == Exit(Live)
    requires w.working.approvals == [Approval("ab", "b", System, 0, 1), Approval("a", "x", Kyo, 0, 10)]
    ensures var approved := ResolveApproval(w.working.decisions["x"], Live, w.working, Env1(NO_FAULTS), 10);
            && approved.Ok?
            && ExecuteSpec(w, approved.value, Env1(NO_FAULTS), Live)
              == Executed(RollbackWorld(w), Err(RecordFailed(Duplicate)))
  {
    ApprovalFound(w.working.approvals[0], w.working.approvals[1]);
    assert OrderQty(Some(1), Some(100)) == Ok(1);
    LiveNeverSends(w, Exit(Live), Env1(NO_FAULTS), 10);
  }

  /** Stored by a live cycle, approved by a human and resolved, the decision is refused while
      recording, as a duplicate of its own approval. */
  lemma {:induction false} ApprovedLiveIsRefused()
    ensures var env := Env1(NO_FAULTS);
            var w := Run(Opened(BOUGHT), [CycleRuns(Deps1(Live), env), Approves("x", 10, env)]);
            && "x" in w.working.decisions
            && var approved := ResolveApproval(w.working.decisions["x"], Live, w.working, env, 10);
            && approved.Ok?
            && ExecuteSpec(w, approved.value, env, Live) == Executed(RollbackWorld(w), Err(RecordFailed(Duplicate)))
  {
    var env := Env1(NO_FAULTS);
    LiveStores();
    var w1 := CycleSpec(Opened(BOUGHT), Deps1(Live), env).world;
    Approved(w1);
    TwoCommands(Opened(BOUGHT), CycleRuns(Deps1(Live), env), Approves("x", 10, env));
    Refused(HumanApprovalSpec(w1, "x", 10, env).world);
  }

  lemma {:induction false} TwoCommands(w: World, c: Command, d: Command)
    requires Proper(c) && Proper(d)
    ensures AllProper([c, d]) && Run(w, [c, d]) == Step(Step(w, c), d)
  {
    assert [c, d][..1] == [c] && [c][..0] == [];
    assert Run(w, []) == w;
    assert Run(w, [c]) == Step(w, c);
  }

  // ---- a halted engine ----

  /** The same ledger, halted, with the exit of some earlier cycle stored and never submitted. */
  function HaltedLedger(): Tables {
    BOUGHT.(decisions := BOUGHT.decisions["x" := Exit(Paper)], state := map[HALTED := "true"])
  }

  lemma {:induction false} HaltedAtRest()
    ensures AtRest(Opened(HaltedLedger())) && IsHalted(HaltedLedger())
  {
    assert OrderId("b") == "order_b";
    OpenedAtRest(HaltedLedger());
  }

  /** Submitted again, it is sent, halt or no halt. */
  lemma {:induction false} HaltedResubmitSends()
    ensures var w := Opened(HaltedLedger());
            && AtRest(w) && IsHalted(w.working)
            && !Silent(w.trace, Step(w, Resubmits("x", Paper, 10, Env1(NO_FAULTS))).trace)
  {
    var w := Opened(HaltedLedger());
    HaltedAtRest();
    ExitRecordable(w);
    assert "x" in w.working.decisions && w.working.decisions["x"] == Exit(Paper);
    ResubmitSendsExactly(w, "x", Paper, 10, Env1(NO_FAULTS));
  }

  lemma {:induction false} ExitRecordable(w: World)
    requires w.working == HaltedLedger()
    ensures Attempted(w, Exit(Paper), Paper, Env1(NO_FAULTS), 10)
            && CanRecord(w, Exit(Paper), Paper, Env1(NO_FAULTS), 10)
  {
    ExitResolves(w, NO_FAULTS);
    assert OrderId("x") == "order_x";
  }
}
