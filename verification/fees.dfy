// Fills carry no fee, in any run; so a trade's P&L is its sell proceeds less its buy
// cost, and nothing else, to within the rounding drift.
module Fees {
  import opened Money
  import opened Models
  import opened Accounting
  import opened Ledger
  import opened Environment
  import opened Execution
  import opened Fills
  import opened Settlement
  import opened KillSwitch
  import opened Cycle
  import opened Preparation
  import opened Recording
  import opened Pricing
  import opened Tracking
  import opened Runs
  import opened RunLaws

  ghost predicate NoFees(t: Tables) { forall f :: f in t.fills ==> f.fee == 0 }

  ghost predicate NoFeesThroughout(w: World, from: nat) { Throughout(w, from, NoFees) }

  lemma {:induction false} PollIsFree(s: PollState, job: PollJob, env: Env)
    requires Ends(s, job) && NoFees(s.tables)
    ensures NoFees(Poll(s, job, env).state.tables)
  {
    var rows := PollAddsRows(s, job, env);
    var last, p := LastTurn(s, job, env), Poll(s, job, env);
    RowsAreFree(rows, s.polls, if RowRefused(last, job, env) then p.state.polls else p.state.polls + 1, s.recordedQty,
                s.recordedNotional, job, env);
  }

  lemma {:induction false} WriteFree(w: World, from: nat, t: Tables)
    requires NoFeesThroughout(w, from) && NoFees(t)
    ensures NoFeesThroughout(w.(working := t), from) && NoFeesThroughout(CommitWorld(w.(working := t)), from)
  {
  }

  lemma {:induction false} ExecuteFree(w: World, req: ApprovedOrderRequest, env: Env, mode: Mode, from: nat)
    requires NoFeesThroughout(w, from)
    ensures NoFeesThroughout(ExecuteSpec(w, req, env, mode).world, from)
  {
    var t := RecordOrder(w.working, req, mode, env.faults);
    if t.Ok? { WriteFree(w, from, t.value); }
    var w2 := SendWorld(RecordTransaction(w, req, mode, env.faults).0, RequestOf(req));
    assert NoFeesThroughout(w2, from);
    SubmitOrders(w2, req, env, mode);
    WriteFree(w2, from, AfterSubmit(w2, req, env, mode).world.working);
  }

  lemma {:induction false} ExecuteOneFree(e: Executions, d: Decision, reasons: map<Id, ExitReason>, deps: Deps,
                                          env: Env, nextClose: Time, from: nat)
    requires Paced(deps) && NoFeesThroughout(e.world, from)
    ensures NoFeesThroughout(ExecuteOne(e, d, reasons, deps, env, nextClose).world, from)
  {
    if Tradable(d) {
      var approved := ResolveApproval(d, deps.mode, e.world.working, env, nextClose);
      if approved.Ok? {
        ExecuteFree(e.world, approved.value, env, deps.mode, from);
        var x := ExecuteSpec(e.world, approved.value, env, deps.mode);
        if x.result.Ok? {
          var job := JobFor(d, x.result.value, reasons, deps);
          PollIsFree(PollStart(x.world.working, job.orderId), job, env);
          WriteFree(x.world, from, Poll(PollStart(x.world.working, job.orderId), job, env).state.tables);
        }
      }
    }
  }

  lemma {:induction false} ExecuteAllFree(w: World, ds: seq<Decision>, reasons: map<Id, ExitReason>, deps: Deps,
                                          env: Env, nextClose: Time, from: nat)
    requires Paced(deps) && NoFeesThroughout(w, from)
    ensures NoFeesThroughout(ExecuteAll(w, ds, reasons, deps, env, nextClose).world, from)
  {
    if ds != [] {
      ExecuteAllFree(w, ds[..|ds| - 1], reasons, deps, env, nextClose, from);
      ExecuteOneFree(ExecuteAll(w, ds[..|ds| - 1], reasons, deps, env, nextClose), ds[|ds| - 1], reasons, deps, env,
                     nextClose, from);
    }
  }

  lemma {:induction false} TradeFree(w: World, p: Prepared, cycleId: Id, deps: Deps, env: Env)
    requires Paced(deps) && NothingSent(w, p.world) && NoFees(w.working) && NoFees(w.committed)
    ensures NoFeesThroughout(TradeAndFinish(p, cycleId, deps, env).world, |w.trace|)
  {
    assert NoFeesThroughout(p.world, |w.trace|);
    ExecuteAllFree(p.world, p.todo, p.reasons, deps, env, p.nextClose, |w.trace|);
    var e := ExecuteAll(p.world, p.todo, p.reasons, deps, env, p.nextClose);
    var t := FinishTables(e.world.working, CycleOutcome(cycleId, p.status, p.count, e.orders, e.fills, p.skipped), env);
    WriteFree(e.world, |w.trace|, if t.Ok? then t.value else e.world.working);
  }

  lemma {:induction false} CycleFree(w: World, deps: Deps, env: Env)
    requires Runnable(deps) && KeysMatch(w.working) && w.committed == w.working && NoFees(w.working)
    ensures NoFeesThroughout(CycleSpec(w, deps, env).world, |w.trace|)
  {
    var cycleId := env.uuid(FreshCycle);
    var t := InsertCycle(w.working, cycleId, env.now(Started), deps.mode, env.faults);
    if t.Ok? {
      var w1 := w.(working := t.value);
      StartedPrepared(w1, cycleId, deps, env);
      TradeFree(w1, StartedCycle(w1, cycleId, deps, env), cycleId, deps, env);
    }
  }

  lemma {:induction false} ResubmitFree(w: World, id: Id, mode: Mode, nextClose: Time, env: Env)
    requires AtRest(w) && NoFees(w.working)
    ensures NoFeesThroughout(Resubmit(w, id, mode, nextClose, env), |w.trace|)
  {
    if id in w.working.decisions {
      var approved := ResolveApproval(w.working.decisions[id], mode, w.working, env, nextClose);
      if approved.Ok? { ExecuteFree(w, approved.value, env, mode, |w.trace|); }
    }
  }

  lemma {:induction false} ResumeFree(w: World, faults: Faults)
    requires AtRest(w) && NoFees(w.working)
    ensures NoFeesThroughout(ResumeSpec(w, faults), |w.trace|)
  {
  }

  lemma {:induction false} ApprovalFree(w: World, id: Id, expiresAt: Time, env: Env)
    requires AtRest(w) && NoFees(w.working)
    ensures NoFeesThroughout(HumanApprovalSpec(w, id, expiresAt, env).world, |w.trace|)
  {
  }

  lemma {:induction false} StepFree(w: World, c: Command)
    requires AtRest(w) && Proper(c) && NoFees(w.working)
    ensures NoFeesThroughout(Step(w, c), |w.trace|)
    decreases c
  {
    match c
    case CycleRuns(deps, env) => CycleFree(w, deps, env);
    case Resumes(faults) => ResumeFree(w, faults);
    case Approves(id, expiresAt, env) => ApprovalFree(w, id, expiresAt, env);
    case Resubmits(id, mode, nextClose, env) => ResubmitFree(w, id, mode, nextClose, env);
    case Killed(command, after) =>
      StepFree(w, command);
      StepAtRest(w, command);
      CrashLeaves(w, Step(w, command), after, NoFees);
  }

  /** No run ever stores a fee. */
  lemma {:induction false} RunIsFree(w: World, cs: seq<Command>)
    requires AtRest(w) && AllProper(cs) && NoFees(w.working)
    ensures NoFees(Run(w, cs).working) && NoFees(Run(w, cs).committed)
  {
    if cs != [] {
      var front, last := cs[..|cs| - 1], cs[|cs| - 1];
      assert last in cs;
      RunIsFree(w, front);
      RunIsSafe(w, front);
      StepFree(Run(w, front), last);
    }
  }

  // ---- P&L without fees ----

  /** What the sells of a history brought in, less what its buys cost, in ticks. */
  ghost function Proceeds(h: History): Ticks {
    if h == [] then 0
    else
      var f := h[|h| - 1].fill;
      Proceeds(h[..|h| - 1]) + (if h[|h| - 1].side == Sell then f.qty * f.price else -(f.qty * f.price))
  }

  lemma {:induction false} FreeCash(h: History)
    requires forall c :: c in h ==> c.fill.fee == 0
    ensures Cash(h) == Proceeds(h) && SellFees(h) == 0
  {
    if h != [] {
      var front, last := h[..|h| - 1], h[|h| - 1];
      assert last in h && forall c :: c in front ==> c in h;
      FreeCash(front);
      assert last.fill.qty * last.fill.price == last.fill.price * last.fill.qty;
    }
  }

  lemma {:induction false} ClosingsOfOwnFills(h: History)
    ensures forall c, x :: c in ClosingsOf(h) && x in c.fills ==> x in h
  {
    if h != [] {
      var front, last := h[..|h| - 1], h[|h| - 1];
      assert last in h && forall x :: x in front ==> x in h;
      ClosingsOfOwnFills(front);
      var b := BookOf(front);
      if Closes(b, last) {
        SinceIsTail(front);
        forall x | x in b.since + [last] ensures x in h {
          if x in b.since { assert x in front; }
        }
      }
    }
  }

  lemma {:induction false} ClosingIsFree(t: Tables, k: Ticker, i: nat)
    requires NoFees(t) && i < |ClosingsOf(HistoryOf(t, k))|
    ensures forall x :: x in ClosingsOf(HistoryOf(t, k))[i].fills ==> x.fill.fee == 0
  {
    var c := ClosingsOf(HistoryOf(t, k))[i];
    assert c in ClosingsOf(HistoryOf(t, k));
    ClosingsOfOwnFills(HistoryOf(t, k));
    forall x | x in c.fills ensures x.fill.fee == 0 { JoinedFromFills(t, t.fills, k, x); }
  }

  /** The trade's P&L is its round trip's proceeds, to within the rounding drift, and it has no fees. */
  ghost predicate PaysProceeds(tr: Trade, fills: History) {
    tr.fees == 0 && Within(TICKS_PER_CENT * tr.realizedPnl - Proceeds(fills), TwiceDrift(fills))
  }

  lemma {:induction false} AccountedPays(tr: Trade, c: Closing)
    requires Records(tr, c) && Accounted(c) && forall x :: x in c.fills ==> x.fill.fee == 0
    ensures PaysProceeds(tr, c.fills)
  {
    FreeCash(c.fills);
  }

  /** From a new ledger, in an ordinary world: every trade of every run pays what its round trip brought in, less
      what it cost. */
  lemma {:induction false} RunPaysProceeds(cs: seq<Command>, times: seq<Time>, k: Ticker, i: nat)
    requires AllProper(cs) && UndisturbedRun(Opened(NEW_LEDGER), cs, times)
    requires i < |TradesOf(Run(Opened(NEW_LEDGER), cs).committed.trades, k)|
    ensures var t := Run(Opened(NEW_LEDGER), cs).committed;
            && |ClosingsOf(HistoryOf(t, k))| == |TradesOf(t.trades, k)|
            && PaysProceeds(TradesOf(t.trades, k)[i], ClosingsOf(HistoryOf(t, k))[i].fills)
  {
    var t := Run(Opened(NEW_LEDGER), cs).committed;
    RunConservesShares(cs, times, k);
    NewLedgerIsBalanced(times[0]);
    RunIsFree(Opened(NEW_LEDGER), cs);
    ClosingIsFree(t, k, i);
    AccountedPays(TradesOf(t.trades, k)[i], ClosingsOf(HistoryOf(t, k))[i]);
  }
}
