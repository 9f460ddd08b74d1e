// Every run: any sequence of cycles, resumes, human approvals and repeated
// submissions, each of which may be killed between any two of its steps.
module Runs {
  import opened Models
  import opened Ledger
  import opened Environment
  import opened Execution
  import opened Protocol
  import opened Exits
  import opened KillSwitch
  import opened Cycle
  import opened Preparation
  import opened Recording
  import opened Sending

  datatype Command =
    | CycleRuns(deps: Deps, env: Env)
    | Resumes(faults: Faults)
    | Approves(decisionId: Id, expiresAt: Time, env: Env)
    | Resubmits(decisionId: Id, mode: Mode, nextClose: Time, env: Env)  // resolve and execute a stored decision (again)
    | Killed(command: Command, after: nat)  // dies when so many of its commits and submissions have happened

  predicate Proper(c: Command) {
    match c
    case CycleRuns(deps, _) => Runnable(deps)
    case Killed(command, _) => Proper(command)
    case _ => true
  }

  function Resubmit(w: World, id: Id, mode: Mode, nextClose: Time, env: Env): World {
    if id !in w.working.decisions then w
    else
      var approved := ResolveApproval(w.working.decisions[id], mode, w.working, env, nextClose);
      if approved.Err? then w else CommitWorld(ExecuteSpec(w, approved.value, env, mode).world)
  }

  /** The process dies `after` events into what took w to w'; the next one opens the database. */
  ghost function DiesIn(w: World, w': World, after: nat): World {
    var kept := if |w.trace| + after <= |w'.trace| then |w.trace| + after else |w'.trace|;
    if Durable(w'.trace[..kept]).Some? then Crash(w', kept) else w
  }

  ghost function Step(w: World, c: Command): World
    requires Proper(c)
  {
    match c
    case CycleRuns(deps, env) => CycleSpec(w, deps, env).world
    case Resumes(faults) => ResumeSpec(w, faults)
    case Approves(id, expiresAt, env) => HumanApprovalSpec(w, id, expiresAt, env).world
    case Resubmits(id, mode, nextClose, env) => Resubmit(w, id, mode, nextClose, env)
    case Killed(command, after) => DiesIn(w, Step(w, command), after)
  }

  ghost predicate AllProper(cs: seq<Command>) { forall c :: c in cs ==> Proper(c) }

  ghost function Run(w: World, cs: seq<Command>): World
    requires AllProper(cs)
  {
    if cs == [] then w
    else
      assert cs[|cs| - 1] in cs;
      Step(Run(w, cs[..|cs| - 1]), cs[|cs| - 1])
  }

  /** A connection just opened on a database. */
  function Opened(t: Tables): World { World(t, t, [Committed(t)]) }

  /** Between commands nothing is pending. */
  ghost predicate AtRest(w: World) { Guarded(w) && w.working == w.committed }

  lemma {:induction false} OpenedAtRest(t: Tables)
    requires Filed(t)
    ensures AtRest(Opened(t))
  {
    var trace := [Committed(t)];
    assert trace[..1] == trace && trace[..0] == [];
  }

  // ---- a crash ----

  lemma {:induction false} DurableSince(trace: seq<Event>, n: nat)
    requires n <= |trace| && Durable(trace[..n]).Some?
    ensures Durable(trace).Some?
    ensures Durable(trace) == Durable(trace[..n])
            || exists i :: n <= i < |trace| && trace[i] == Committed(Durable(trace).value)
    decreases |trace|
  {
    if n == |trace| {
      assert trace[..n] == trace;
    } else if !trace[|trace| - 1].Committed? {
      assert trace[..|trace| - 1][..n] == trace[..n];
      DurableSince(trace[..|trace| - 1], n);
    }
  }

  /** A crash leaves a prefix of the trace and the last state stored in it. */
  lemma {:induction false} CrashLeaves(w: World, w': World, after: nat, good: Tables -> bool)
    requires AtRest(w) && Guarded(w') && w.trace <= w'.trace
    requires good(w.committed) && Throughout(w', |w.trace|, good)
    ensures var c := DiesIn(w, w', after);
            AtRest(c) && w.trace <= c.trace <= w'.trace && Throughout(c, |w.trace|, good)
  {
    var kept := if |w.trace| + after <= |w'.trace| then |w.trace| + after else |w'.trace|;
    var prefix := w'.trace[..kept];
    assert prefix[..|w.trace|] == w.trace;
    DurableSince(prefix, |w.trace|);
    GuardedCrash(w', kept);
  }

  // ---- record before submit, at most once ----

  lemma {:induction false} ResubmitGuarded(w: World, id: Id, mode: Mode, nextClose: Time, env: Env)
    requires AtRest(w)
    ensures var w' := Resubmit(w, id, mode, nextClose, env); AtRest(w') && w.trace <= w'.trace
    ensures mode.Live? ==> Silent(w.trace, Resubmit(w, id, mode, nextClose, env).trace)
  {
    if id in w.working.decisions {
      var d := w.working.decisions[id];
      var approved := ResolveApproval(d, mode, w.working, env, nextClose);
      if approved.Ok? {
        ResolvedIsAuthorized(d, mode, w.working, env, nextClose);
        ExecuteGuarded(w, approved.value, env, mode);
        GuardedCommit(ExecuteSpec(w, approved.value, env, mode).world);
        SendsExactlyWhenRecorded(w, approved.value, env, mode);
        if mode.Live? { LiveNeverSends(w, d, env, nextClose); }
      }
    }
  }

  lemma {:induction false} ApprovalGuarded(w: World, id: Id, expiresAt: Time, env: Env)
    requires AtRest(w)
    ensures var w' := HumanApprovalSpec(w, id, expiresAt, env).world;
            && AtRest(w') && Silent(w.trace, w'.trace)
            && w'.working == w.working.(approvals := w'.working.approvals)
  {
    var w' := HumanApprovalSpec(w, id, expiresAt, env).world;
    if w' != w {
      GuardedWrite(w, w'.working);
      GuardedCommit(w.(working := w'.working));
    }
  }

  lemma {:induction false} ResumeGuarded(w: World, faults: Faults)
    requires AtRest(w)
    ensures AtRest(ResumeSpec(w, faults)) && Silent(w.trace, ResumeSpec(w, faults).trace)
    ensures ResumeSpec(w, faults).working == w.working.(state := ResumeSpec(w, faults).working.state)
  {
    var w' := ResumeSpec(w, faults);
    if !faults(CommitStmt(HALTED)) {
      GuardedWrite(w, w'.working);
      GuardedCommit(w.(working := w'.working));
    }
  }

  lemma {:induction false} CycleAtRest(w: World, deps: Deps, env: Env)
    requires AtRest(w) && Runnable(deps)
    ensures var w' := CycleSpec(w, deps, env).world; AtRest(w') && w.trace <= w'.trace
  {
    CycleGuarded(w, deps, env);
    CycleSends(w, deps, env);
  }

  lemma {:induction false} StepAtRest(w: World, c: Command)
    requires AtRest(w) && Proper(c)
    ensures AtRest(Step(w, c)) && w.trace <= Step(w, c).trace
    decreases c
  {
    match c
    case CycleRuns(deps, env) => CycleAtRest(w, deps, env);
    case Resumes(faults) => ResumeGuarded(w, faults);
    case Approves(id, expiresAt, env) => ApprovalGuarded(w, id, expiresAt, env);
    case Resubmits(id, mode, nextClose, env) => ResubmitGuarded(w, id, mode, nextClose, env);
    case Killed(command, after) =>
      StepAtRest(w, command);
      CrashLeaves(w, Step(w, command), after, _ => true);
  }

  /** In every run, whatever fails and wherever processes die: each request was sent with
      its order, its approval and its rule-checked decision already committed, and no
      decision was ever submitted twice. */
  lemma {:induction false} RunIsSafe(w: World, cs: seq<Command>)
    requires AtRest(w) && AllProper(cs)
    ensures AtRest(Run(w, cs)) && w.trace <= Run(w, cs).trace
    ensures RecordedFirst(Run(w, cs).trace) && AtMostOnce(Run(w, cs).trace)
  {
    if cs != [] {
      assert cs[|cs| - 1] in cs;
      RunIsSafe(w, cs[..|cs| - 1]);
      StepAtRest(Run(w, cs[..|cs| - 1]), cs[|cs| - 1]);
    }
  }
}
