// What holds over every run, beyond record-before-submit: the kill switch, live
// mode, the position cap, the books and the stored peaks.
module RunLaws {
  import opened Money
  import opened Models
  import opened Accounting
  import opened Ledger
  import opened Environment
  import opened Execution
  import opened Settlement
  import opened KillSwitch
  import opened Cycle
  import opened Preparation
  import opened Recording
  import opened Sending
  import opened Protocol
  import opened Reverting
  import opened Slots
  import opened Conservation
  import opened Report
  import opened Peaks
  import opened Runs

  /** The command a killed process was running. */
  ghost function Bare(c: Command): Command {
    match c
    case Killed(command, _) => Bare(command)
    case _ => c
  }

  lemma {:induction false} SilentTransitive(a: seq<Event>, b: seq<Event>, c: seq<Event>)
    requires Silent(a, b) && Silent(b, c)
    ensures Silent(a, c)
  {
    forall i | |a| <= i < |c| ensures !c[i].Sent? {
      if i < |b| { assert c[i] == b[i]; }
    }
  }

  lemma {:induction false} SilentPrefix(a: seq<Event>, b: seq<Event>, c: seq<Event>)
    requires Silent(a, c) && a <= b <= c
    ensures Silent(a, b)
  {
  }

  // ---- halted until resumed ----

  ghost predicate NoResume(c: Command) { !Bare(c).Resumes? }

  /** A request is the order of a decision that one of the commands submits again. */
  ghost predicate Resubmission(r: OrderRequest, cs: seq<Command>) {
    exists c :: c in cs && Bare(c).Resubmits? && r.clientOrderId == OrderId(Bare(c).decisionId)
  }

  /** Everything sent since `before` is a resubmission. */
  ghost predicate OnlyResubmitted(before: seq<Event>, after: seq<Event>, cs: seq<Command>) {
    before <= after
    && forall i :: |before| <= i < |after| && after[i].Sent? ==> Resubmission(after[i].request, cs)
  }

  lemma {:induction false} ResubmittedTransitive(a: seq<Event>, b: seq<Event>, c: seq<Event>, cs: seq<Command>,
                                                 ds: seq<Command>)
    requires OnlyResubmitted(a, b, cs) && OnlyResubmitted(b, c, ds)
    ensures OnlyResubmitted(a, c, cs + ds)
  {
    forall i | |a| <= i < |c| && c[i].Sent? ensures Resubmission(c[i].request, cs + ds) {
      if i < |b| {
        assert c[i] == b[i];
        var x :| x in cs && Bare(x).Resubmits? && b[i].request.clientOrderId == OrderId(Bare(x).decisionId);
        assert x in cs + ds;
      } else {
        var x :| x in ds && Bare(x).Resubmits? && c[i].request.clientOrderId == OrderId(Bare(x).decisionId);
        assert x in cs + ds;
      }
    }
  }

  lemma {:induction false} ResubmittedPrefix(a: seq<Event>, b: seq<Event>, c: seq<Event>, cs: seq<Command>)
    requires OnlyResubmitted(a, c, cs) && a <= b <= c
    ensures OnlyResubmitted(a, b, cs)
  {
  }

  lemma {:induction false} ExecuteKeepsState(w: World, req: ApprovedOrderRequest, env: Env, mode: Mode)
    requires w.working.state == w.committed.state
    ensures var w' := ExecuteSpec(w, req, env, mode).world;
            w'.working.state == w'.committed.state == w.working.state
  {
    var (w1, failed) := RecordTransaction(w, req, mode, env.faults);
    if failed.None? { SubmitOrders(SendWorld(w1, RequestOf(req)), req, env, mode); }
  }

  lemma {:induction false} HaltedThen(w: World, x: World, r: OrderRequest)
    requires IsHalted(w.working) && x.working.state == x.committed.state == w.working.state
    requires x.trace == w.trace || x.trace == w.trace + [Committed(x.committed), Sent(r)]
    ensures var w' := CommitWorld(x);
            && Throughout(w', |w.trace|, IsHalted) && w.trace <= w'.trace
            && forall i :: |w.trace| <= i < |w'.trace| && w'.trace[i].Sent? ==> w'.trace[i].request == r
  {
  }

  /** Executing keeps the halt, whatever the broker answers, and sends its own request at most. */
  lemma {:induction false} HaltedExecute(w: World, req: ApprovedOrderRequest, env: Env, mode: Mode)
    requires AtRest(w) && Authorized(req) && IsHalted(w.working)
    ensures var w' := CommitWorld(ExecuteSpec(w, req, env, mode).world);
            && Throughout(w', |w.trace|, IsHalted) && w.trace <= w'.trace
            && forall i :: |w.trace| <= i < |w'.trace| && w'.trace[i].Sent? ==> w'.trace[i].request == RequestOf(req)
  {
    SendsExactlyWhenRecorded(w, req, env, mode);
    ExecuteKeepsState(w, req, env, mode);
    HaltedThen(w, ExecuteSpec(w, req, env, mode).world, RequestOf(req));
  }

  /** A resubmission keeps the halt, and what it sends is the order of its decision. */
  lemma {:induction false} OnlyItsRequest(before: seq<Event>, after: seq<Event>, c: Command, r: OrderRequest)
    requires c.Resubmits? && r.clientOrderId == OrderId(c.decisionId) && before <= after
    requires forall i :: |before| <= i < |after| && after[i].Sent? ==> after[i].request == r
    ensures OnlyResubmitted(before, after, [c])
  {
    assert Bare(c) == c && c in [c];
  }

  lemma {:induction false} HaltedResubmit(w: World, c: Command)
    requires AtRest(w) && c.Resubmits? && IsHalted(w.working)
    ensures OnlyResubmitted(w.trace, Step(w, c).trace, [c]) && Throughout(Step(w, c), |w.trace|, IsHalted)
  {
    if c.decisionId in w.working.decisions {
      var d := w.working.decisions[c.decisionId];
      var approved := ResolveApproval(d, c.mode, w.working, c.env, c.nextClose);
      if approved.Ok? {
        ResolvedIsAuthorized(d, c.mode, w.working, c.env, c.nextClose);
        HaltedExecute(w, approved.value, c.env, c.mode);
        OnlyItsRequest(w.trace, Step(w, c).trace, c, RequestOf(approved.value));
      }
    }
  }

  /** A halt survives every command but a resume, a killed one included, and only a resubmission sends. */
  lemma {:induction false} HaltedStep(w: World, c: Command)
    requires AtRest(w) && Proper(c) && IsHalted(w.working) && NoResume(c)
    ensures OnlyResubmitted(w.trace, Step(w, c).trace, [c]) && Throughout(Step(w, c), |w.trace|, IsHalted)
    decreases c
  {
    match c
    case CycleRuns(deps, env) =>
      HaltedCycleSendsNothing(w, deps, env);
      CycleAtRest(w, deps, env);
    case Approves(id, expiresAt, env) => ApprovalGuarded(w, id, expiresAt, env);
    case Resubmits(_, _, _, _) => HaltedResubmit(w, c);
    case Killed(command, after) =>
      HaltedStep(w, command);
      StepAtRest(w, command);
      CrashLeaves(w, Step(w, command), after, IsHalted);
      ResubmittedPrefix(w.trace, Step(w, c).trace, Step(w, command).trace, [command]);
      KilledResubmits(w.trace, Step(w, c).trace, command, c);
  }

  lemma {:induction false} KilledResubmits(a: seq<Event>, b: seq<Event>, command: Command, c: Command)
    requires OnlyResubmitted(a, b, [command]) && Bare(c) == Bare(command)
    ensures OnlyResubmitted(a, b, [c])
  {
    forall i | |a| <= i < |b| && b[i].Sent? ensures Resubmission(b[i].request, [c]) {
      assert Resubmission(b[i].request, [command]);
      assert c in [c];
    }
  }

  /** From w to w': still halted, and only resubmissions sent. */
  ghost predicate HaltedFrom(w: World, w': World, cs: seq<Command>) {
    AtRest(w') && IsHalted(w'.working) && OnlyResubmitted(w.trace, w'.trace, cs)
  }

  lemma {:induction false} HaltedSince(w: World, w': World, cs: seq<Command>, c: Command)
    requires HaltedFrom(w, w', cs) && Proper(c) && NoResume(c)
    ensures HaltedFrom(w, Step(w', c), cs + [c])
  {
    StepAtRest(w', c);
    HaltedStep(w', c);
    ResubmittedTransitive(w.trace, w'.trace, Step(w', c).trace, cs, [c]);
  }

  /** The same of a run. */
  ghost predicate StaysHalted(w: World, cs: seq<Command>) { AllProper(cs) && HaltedFrom(w, Run(w, cs), cs) }

  lemma {:induction false} HaltedStart(w: World)
    requires AtRest(w) && IsHalted(w.working)
    ensures StaysHalted(w, [])
  {
  }

  lemma {:induction false} HaltedMore(w: World, front: seq<Command>, c: Command)
    requires StaysHalted(w, front) && Proper(c) && NoResume(c)
    ensures StaysHalted(w, front + [c])
  {
    HaltedSince(w, Run(w, front), front, c);
    assert (front + [c])[..|front|] == front;
  }

  /** Until a resume a halted run stays halted, and everything it sends is the order of a resubmission:
      a stored decision someone submits again, for which nobody asks whether the engine is halted. */
  lemma {:induction false} HaltedUntilResumed(w: World, cs: seq<Command>)
    requires AtRest(w) && AllProper(cs) && IsHalted(w.working) && forall c :: c in cs ==> NoResume(c)
    ensures StaysHalted(w, cs)
  {
    if cs == [] {
      HaltedStart(w);
    } else {
      var front, last := cs[..|cs| - 1], cs[|cs| - 1];
      assert last in cs;
      HaltedUntilResumed(w, front);
      HaltedMore(w, front, last);
      assert cs == front + [last];
    }
  }

  /** So without resubmissions it sends nothing. */
  lemma {:induction false} HaltedIsSilent(w: World, cs: seq<Command>)
    requires AtRest(w) && AllProper(cs) && IsHalted(w.working)
    requires forall c :: c in cs ==> NoResume(c) && !Bare(c).Resubmits?
    ensures Silent(w.trace, Run(w, cs).trace)
  {
    HaltedUntilResumed(w, cs);
  }

  /** Between commands, halted or not, a resubmission sends exactly when its decision is stored,
      resolves and can be recorded. */
  lemma {:induction false} ResubmitSendsExactly(w: World, id: Id, mode: Mode, nextClose: Time, env: Env)
    requires AtRest(w)
    ensures !Silent(w.trace, Resubmit(w, id, mode, nextClose, env).trace)
            <==> && id in w.working.decisions && Attempted(w, w.working.decisions[id], mode, env, nextClose)
                 && CanRecord(w, w.working.decisions[id], mode, env, nextClose)
  {
    if id in w.working.decisions {
      var d := w.working.decisions[id];
      var approved := ResolveApproval(d, mode, w.working, env, nextClose);
      if approved.Ok? {
        ResolvedIsAuthorized(d, mode, w.working, env, nextClose);
        SendsExactlyWhenRecorded(w, approved.value, env, mode);
        RecordsExactly(w, approved.value, mode, env.faults);
        SentIsHeard(w.trace, ExecuteSpec(w, approved.value, env, mode).world, RequestOf(approved.value));
      }
    }
  }

  lemma {:induction false} SentIsHeard(before: seq<Event>, w: World, r: OrderRequest)
    requires before <= w.trace
    ensures w.trace == before + [Committed(w.committed), Sent(r)] ==> !Silent(before, CommitWorld(w).trace)
  {
    if w.trace == before + [Committed(w.committed), Sent(r)] { assert CommitWorld(w).trace[|before| + 1].Sent?; }
  }

  /** A breached cycle whose halt statements do not fail. */
  ghost predicate HaltsAt(w: World, deps: Deps, env: Env) {
    && !HaltFails(env.faults)
    && var t := InsertCycle(w.working, env.uuid(FreshCycle), env.now(Started), deps.mode, env.faults);
    t.Ok? && Breached(t.value, env.uuid(FreshCycle), deps, env)
  }

  /** From a halt that could be stored on, its own cycle included, nothing but resubmissions is sent
      until a resume: also if the cycle's row cannot be closed, and if the process dies any time after
      the halt's commit. */
  lemma {:induction false} BreachSilences(w: World, deps: Deps, env: Env, cs: seq<Command>, after: nat)
    requires AtRest(w) && Runnable(deps) && HaltsAt(w, deps, env) && after >= 1
    requires AllProper(cs) && forall c :: c in cs ==> NoResume(c)
    ensures OnlyResubmitted(w.trace, Run(CycleSpec(w, deps, env).world, cs).trace, cs)
    ensures OnlyResubmitted(w.trace, Run(DiesIn(w, CycleSpec(w, deps, env).world, after), cs).trace, cs)
  {
    var w' := CycleSpec(w, deps, env).world;
    BreachedCycleStops(w, deps, env);
    CycleAtRest(w, deps, env);
    HaltedAfter(w, w', cs);
    var dead := DiesIn(w, w', after);
    CrashLeaves(w, w', after, _ => true);
    SilentPrefix(w.trace, dead.trace, w'.trace);
    HaltSurvives(w, w', after);
    HaltedAfter(w, dead, cs);
  }

  lemma {:induction false} HaltedAfter(w: World, w': World, cs: seq<Command>)
    requires AtRest(w') && IsHalted(w'.working) && Silent(w.trace, w'.trace)
    requires AllProper(cs) && forall c :: c in cs ==> NoResume(c)
    ensures OnlyResubmitted(w.trace, Run(w', cs).trace, cs)
  {
    HaltedUntilResumed(w', cs);
    ResubmittedTransitive(w.trace, w'.trace, Run(w', cs).trace, [], cs);
    assert [] + cs == cs;
  }

  /** Once the first commit is a halt, what a crash leaves is halted. */
  lemma {:induction false} HaltSurvives(w: World, w': World, after: nat)
    requires w.trace <= w'.trace && |w.trace| < |w'.trace| && after >= 1
    requires forall i :: |w.trace| <= i < |w'.trace| ==> w'.trace[i].Committed? && IsHalted(w'.trace[i].tables)
    ensures IsHalted(DiesIn(w, w', after).working)
  {
    var kept := if |w.trace| + after <= |w'.trace| then |w.trace| + after else |w'.trace|;
    assert w'.trace[..kept][kept - 1] == w'.trace[kept - 1];
  }

  // ---- live mode ----

  ghost predicate LiveOnly(c: Command) {
    match Bare(c)
    case CycleRuns(deps, _) => deps.mode.Live?
    case Resubmits(_, mode, _, _) => mode.Live?
    case _ => true
  }

  lemma {:induction false} LiveStep(w: World, c: Command)
    requires AtRest(w) && Proper(c) && LiveOnly(c)
    ensures Silent(w.trace, Step(w, c).trace)
    decreases c
  {
    match c
    case CycleRuns(deps, env) => CycleSends(w, deps, env);
    case Resumes(faults) => ResumeGuarded(w, faults);
    case Approves(id, expiresAt, env) => ApprovalGuarded(w, id, expiresAt, env);
    case Resubmits(id, mode, nextClose, env) => ResubmitGuarded(w, id, mode, nextClose, env);
    case Killed(command, after) =>
      LiveStep(w, command);
      StepAtRest(w, command);
      CrashLeaves(w, Step(w, command), after, _ => true);
      SilentPrefix(w.trace, Step(w, c).trace, Step(w, command).trace);
  }

  /** No run in live mode ever submits an order, whatever a human approves. */
  lemma {:induction false} LiveRunSendsNothing(w: World, cs: seq<Command>)
    requires AtRest(w) && AllProper(cs) && forall c :: c in cs ==> LiveOnly(c)
    ensures Silent(w.trace, Run(w, cs).trace)
  {
    if cs != [] {
      var front, last := cs[..|cs| - 1], cs[|cs| - 1];
      assert last in cs;
      LiveRunSendsNothing(w, front);
      RunIsSafe(w, front);
      LiveStep(Run(w, front), last);
      SilentTransitive(w.trace, Run(w, front).trace, Run(w, cs).trace);
    }
  }

  // ---- the position cap ----

  ghost predicate CapIs(c: Command, cap: nat) {
    Bare(c).CycleRuns? ==> Bare(c).deps.rules.maxConcurrentPositions == cap
  }

  ghost predicate FitsCap(t: Tables, cap: nat) { |t.positions.Keys| <= cap }

  lemma {:induction false} ResubmitHolds(w: World, id: Id, mode: Mode, nextClose: Time, env: Env)
    requires AtRest(w)
    ensures StaysWithin(Resubmit(w, id, mode, nextClose, env), |w.trace|, w.working.positions.Keys)
  {
    if id in w.working.decisions {
      var approved := ResolveApproval(w.working.decisions[id], mode, w.working, env, nextClose);
      if approved.Ok? { ExecuteWithin(w, approved.value, env, mode, |w.trace|, w.working.positions.Keys); }
    }
  }

  lemma {:induction false} WithinFits(w: World, from: nat, tickers: set<Ticker>, cap: nat)
    requires StaysWithin(w, from, tickers) && |tickers| <= cap
    ensures Throughout(w, from, t => FitsCap(t, cap))
  {
    forall t | HoldsOnly(t, tickers) ensures FitsCap(t, cap) { SubsetSmaller(t.positions.Keys, tickers); }
  }

  lemma {:induction false} CappedCycle(w: World, deps: Deps, env: Env, cap: nat)
    requires AtRest(w) && Runnable(deps) && deps.rules.maxConcurrentPositions == cap && FitsCap(w.working, cap)
    ensures Throughout(CycleSpec(w, deps, env).world, |w.trace|, t => FitsCap(t, cap))
  {
    var bought := CycleWithin(w, deps, env);
    WithinFits(CycleSpec(w, deps, env).world, |w.trace|, w.working.positions.Keys + bought, cap);
  }

  lemma {:induction false} CappedResubmit(w: World, id: Id, mode: Mode, nextClose: Time, env: Env, cap: nat)
    requires AtRest(w) && FitsCap(w.working, cap)
    ensures Throughout(Resubmit(w, id, mode, nextClose, env), |w.trace|, t => FitsCap(t, cap))
  {
    ResubmitHolds(w, id, mode, nextClose, env);
    WithinFits(Resubmit(w, id, mode, nextClose, env), |w.trace|, w.working.positions.Keys, cap);
  }

  lemma {:induction false} CappedStep(w: World, c: Command, cap: nat)
    requires AtRest(w) && Proper(c) && CapIs(c, cap) && FitsCap(w.working, cap)
    ensures Throughout(Step(w, c), |w.trace|, t => FitsCap(t, cap))
    decreases c
  {
    match c
    case CycleRuns(deps, env) => CappedCycle(w, deps, env, cap);
    case Resumes(faults) => ResumeGuarded(w, faults);
    case Approves(id, expiresAt, env) => ApprovalGuarded(w, id, expiresAt, env);
    case Resubmits(id, mode, nextClose, env) => CappedResubmit(w, id, mode, nextClose, env, cap);
    case Killed(command, after) =>
      CappedStep(w, command, cap);
      StepAtRest(w, command);
      KilledFits(w, Step(w, command), after, cap);
  }

  lemma {:induction false} KilledFits(w: World, w': World, after: nat, cap: nat)
    requires AtRest(w) && Guarded(w') && w.trace <= w'.trace && FitsCap(w.working, cap)
    requires Throughout(w', |w.trace|, t => FitsCap(t, cap))
    ensures Throughout(DiesIn(w, w', after), |w.trace|, t => FitsCap(t, cap))
  {
    CrashLeaves(w, w', after, t => FitsCap(t, cap));
  }

  /** With fixed rules no run ever holds more positions than the cap. */
  lemma {:induction false} RunStaysWithinCap(w: World, cs: seq<Command>, cap: nat)
    requires AtRest(w) && AllProper(cs) && FitsCap(w.working, cap) && forall c :: c in cs ==> CapIs(c, cap)
    ensures FitsCap(Run(w, cs).working, cap) && FitsCap(Run(w, cs).committed, cap)
  {
    if cs != [] {
      var front, last := cs[..|cs| - 1], cs[|cs| - 1];
      assert last in cs;
      RunStaysWithinCap(w, front, cap);
      RunIsSafe(w, front);
      CappedStep(Run(w, front), last, cap);
    }
  }

  // ---- the books ----

  /** What a command may expect of the outside between two times. */
  ghost predicate Undisturbing(w: World, c: Command, lo: Time, hi: Time)
    requires Proper(c)
    decreases c
  {
    match c
    case CycleRuns(deps, env) => Ordinary(deps, env, lo, hi) && Honest(env, Step(w, c).trace)
    case Killed(command, _) => Undisturbing(w, command, lo, hi)
    case _ => true
  }

  /** times[i] .. times[i + 1] is when command i runs. */
  ghost predicate UndisturbedRun(w: World, cs: seq<Command>, times: seq<Time>)
    requires AllProper(cs)
  {
    && |times| == |cs| + 1
    && (cs != [] ==>
          var n := |cs| - 1;
          assert cs[n] in cs;
          && UndisturbedRun(w, cs[..n], times[..n + 1])
          && times[n] <= times[n + 1] && Undisturbing(Run(w, cs[..n]), cs[n], times[n], times[n + 1]))
  }

  lemma {:induction false} ResubmitBooks(w: World, id: Id, mode: Mode, nextClose: Time, env: Env, hi: Time)
    requires AtRest(w) && Booked(w.working, hi)
    ensures BookedThroughout(Resubmit(w, id, mode, nextClose, env), |w.trace|, hi)
  {
    if id in w.working.decisions {
      var d := w.working.decisions[id];
      var approved := ResolveApproval(d, mode, w.working, env, nextClose);
      if approved.Ok? {
        ResolvedIsAuthorized(d, mode, w.working, env, nextClose);
        ExecuteBooks(w, approved.value, env, mode, |w.trace|, hi);
      }
    }
  }

  lemma {:induction false} ResumeBooks(w: World, faults: Faults, hi: Time)
    requires AtRest(w) && Booked(w.working, hi)
    ensures BookedThroughout(ResumeSpec(w, faults), |w.trace|, hi)
  {
    ResumeGuarded(w, faults);
    NoSharesMoved(w.working, ResumeSpec(w, faults).working, hi);
  }

  lemma {:induction false} ApprovalBooks(w: World, id: Id, expiresAt: Time, env: Env, hi: Time)
    requires AtRest(w) && Booked(w.working, hi)
    ensures BookedThroughout(HumanApprovalSpec(w, id, expiresAt, env).world, |w.trace|, hi)
  {
    ApprovalGuarded(w, id, expiresAt, env);
    NoSharesMoved(w.working, HumanApprovalSpec(w, id, expiresAt, env).world.working, hi);
  }

  lemma {:induction false} BookedStep(w: World, c: Command, lo: Time, hi: Time)
    requires AtRest(w) && Proper(c) && Booked(w.working, lo) && lo <= hi && Undisturbing(w, c, lo, hi)
    ensures BookedThroughout(Step(w, c), |w.trace|, hi)
    decreases c
  {
    Later(w.working, lo, hi);
    match c
    case CycleRuns(deps, env) => CycleBooks(w, deps, env, lo, hi);
    case Resumes(faults) => ResumeBooks(w, faults, hi);
    case Approves(id, expiresAt, env) => ApprovalBooks(w, id, expiresAt, env, hi);
    case Resubmits(id, mode, nextClose, env) => ResubmitBooks(w, id, mode, nextClose, env, hi);
    case Killed(command, after) =>
      BookedStep(w, command, lo, hi);
      StepAtRest(w, command);
      CrashLeaves(w, Step(w, command), after, t => Booked(t, hi));
  }

  lemma {:induction false} RunIsBooked(w: World, cs: seq<Command>, times: seq<Time>)
    requires AtRest(w) && AllProper(cs) && UndisturbedRun(w, cs, times) && Booked(w.working, times[0])
    ensures Booked(Run(w, cs).working, times[|cs|])
  {
    if cs != [] {
      var n := |cs| - 1;
      assert cs[n] in cs;
      RunIsBooked(w, cs[..n], times[..n + 1]);
      RunIsSafe(w, cs[..n]);
      BookedStep(Run(w, cs[..n]), cs[n], times[n], times[n + 1]);
    }
  }

  const NEW_LEDGER := Tables(map[], map[], [], map[], [], map[], [], [], map[])

  lemma {:induction false} NewLedgerIsBalanced(time: Time)
    ensures Booked(NEW_LEDGER, time) && AtRest(Opened(NEW_LEDGER))
  {
    OpenedAtRest(NEW_LEDGER);
    forall k ensures BalancedFor(NEW_LEDGER, k) { assert HistoryOf(NEW_LEDGER, k) == []; }
  }

  ghost predicate Conserved(t: Tables, k: Ticker) {
    NetShares(HistoryOf(t, k)) == Held(t, k) && (k in t.positions <==> Held(t, k) >= 1)
  }

  ghost predicate Explained(t: Tables, k: Ticker) {
    var trades, closings := TradesOf(t.trades, k), ClosingsOf(HistoryOf(t, k));
    |trades| == |closings|
      && forall i :: 0 <= i < |trades| ==> Records(trades[i], closings[i]) && Accounted(closings[i])
  }

  lemma {:induction false} BalancedExplains(t: Tables, k: Ticker)
    requires Balanced(t)
    ensures Conserved(t, k) && Explained(t, k)
  {
    assert BalancedFor(t, k);
    SharesConserved(t, k);
    forall i: nat | i < |TradesOf(t.trades, k)| ensures Accounted(ClosingsOf(HistoryOf(t, k))[i]) {
      TradesAccounted(t, k, i);
    }
  }

  /** From a new ledger, through any run in an ordinary world, cycles that die anywhere
      included: each ticker's recorded buys less sells are its position, no position is
      empty, and the trades are its completed round trips, in order, each accounting for
      its own fills to within the rounding drift. */
  lemma {:induction false} RunConservesShares(cs: seq<Command>, times: seq<Time>, k: Ticker)
    requires AllProper(cs) && UndisturbedRun(Opened(NEW_LEDGER), cs, times)
    ensures var w := Run(Opened(NEW_LEDGER), cs);
            w.committed == w.working && Conserved(w.committed, k) && Explained(w.committed, k)
  {
    NewLedgerIsBalanced(times[0]);
    RunIsSafe(Opened(NEW_LEDGER), cs);
    RunIsBooked(Opened(NEW_LEDGER), cs, times);
    BalancedExplains(Run(Opened(NEW_LEDGER), cs).working, k);
  }

  // ---- the peaks ----

  /** One capital, and days that never go back. */
  ghost predicate OnDay(c: Command, capital: Cents, lo: int, hi: int) {
    lo <= hi &&
    match Bare(c)
    case CycleRuns(deps, env) => deps.capital == capital && deps.calendar.day(env.now(AtRisk)) == hi
    case _ => true
  }

  lemma {:induction false} LaterPeaks(t: Tables, capital: Cents, lo: int, hi: int)
    requires RightPeaks(t, capital, lo) && lo <= hi
    ensures RightPeaks(t, capital, hi)
  {
  }

  lemma {:induction false} ResubmitPeaks(w: World, id: Id, mode: Mode, nextClose: Time, env: Env, capital: Cents,
                                         day: int)
    requires AtRest(w) && RightPeaks(w.working, capital, day)
    ensures PeaksThroughout(Resubmit(w, id, mode, nextClose, env), |w.trace|, capital, day)
  {
    if id in w.working.decisions {
      var approved := ResolveApproval(w.working.decisions[id], mode, w.working, env, nextClose);
      if approved.Ok? { ExecutePeaks(w, approved.value, env, mode, |w.trace|, capital, day); }
    }
  }

  lemma {:induction false} PeaksStep(w: World, c: Command, capital: Cents, lo: int, hi: int)
    requires AtRest(w) && Proper(c) && RightPeaks(w.working, capital, lo) && OnDay(c, capital, lo, hi)
    ensures PeaksThroughout(Step(w, c), |w.trace|, capital, hi)
    decreases c
  {
    LaterPeaks(w.working, capital, lo, hi);
    match c
    case CycleRuns(deps, env) => CyclePeaks(w, deps, env);
    case Resumes(faults) => ResumeGuarded(w, faults);
    case Approves(id, expiresAt, env) => ApprovalGuarded(w, id, expiresAt, env);
    case Resubmits(id, mode, nextClose, env) => ResubmitPeaks(w, id, mode, nextClose, env, capital, hi);
    case Killed(command, after) =>
      PeaksStep(w, command, capital, lo, hi);
      StepAtRest(w, command);
      CrashLeaves(w, Step(w, command), after, t => RightPeaks(t, capital, hi));
  }

  /** In every run of one capital whose days never go back the stored peaks are the
      running maxima, and the report's worst drawdown is at most the deepest stored one. */
  lemma {:induction false} RunKeepsPeaks(w: World, cs: seq<Command>, capital: Cents, days: seq<int>)
    requires AtRest(w) && AllProper(cs) && |days| == |cs| + 1 && RightPeaks(w.working, capital, days[0])
    requires forall i :: 0 <= i < |cs| ==> OnDay(cs[i], capital, days[i], days[i + 1])
    ensures var t := Run(w, cs).working;
            && RightPeaks(t, capital, days[|cs|])
            && (NoDebt(t.snapshots) ==> Worst(t.snapshots) <= StoredWorst(t.snapshots))
  {
    if cs != [] {
      var n := |cs| - 1;
      assert cs[n] in cs;
      RunKeepsPeaks(w, cs[..n], capital, days[..n + 1]);
      RunIsSafe(w, cs[..n]);
      PeaksStep(Run(w, cs[..n]), cs[n], capital, days[n], days[n + 1]);
    }
    var rows := Run(w, cs).working.snapshots;
    if NoDebt(rows) { ReportWithinStored(rows, capital); }
  }
}
