// src/trader/engine/kill_switch.py.
module KillSwitch {
  import opened Models
  import opened Rules
  import opened Ledger
  import opened Environment

  const HALTED := "halted"
  const HALTED_REASON := "halted_reason"
  const HALTED_AT := "halted_at"

  predicate IsHalted(t: Tables) { HALTED in t.state && t.state[HALTED] == "true" }

  /** The three engine_state rows of a halt; the reason and the time stand for their text. */
  function HaltTables(t: Tables, reason: string, at: string, faults: Faults): DbResult {
    var t1 := SetState(t, HALTED, "true", faults);
    if t1.Err? then t1
    else
      var t2 := SetState(t1.value, HALTED_REASON, reason, faults);
      if t2.Err? then t2 else SetState(t2.value, HALTED_AT, at, faults)
  }

  function ReasonText(kind: LossKind): string {
    match kind case Daily => "daily" case Weekly => "weekly" case DrawdownLoss => "drawdown"
  }

  datatype Triggered = Triggered(world: World, persisted: bool)

  function TriggerSpec(w: World, kind: LossKind, faults: Faults): Triggered {
    var t := HaltTables(w.working, ReasonText(kind), "", faults);
    if t.Err? || faults(CommitStmt(HALTED)) then Triggered(RollbackWorld(w), false)
    else Triggered(CommitWorld(w.(working := t.value)), true)
  }

  /** Cancels every open order, then persists the halt whether or not that worked. */
  method Trigger(conn: Connection, kind: LossKind, env: Env)
    returns (persisted: bool, canceled: Option<nat>, cancelError: Option<string>)
    modifies conn
    ensures Triggered(conn.State(), persisted) == TriggerSpec(old(conn.State()), kind, env.faults)
    ensures canceled.Some? <==> env.broker.cancelAll.Ok?
    ensures cancelError.Some? <==> env.broker.cancelAll.Err?
  {
    match env.broker.cancelAll {
      case Ok(n) => canceled, cancelError := Some(n), None;
      case Err(message) => canceled, cancelError := None, Some(message);
    }
    var keys := [(HALTED, "true"), (HALTED_REASON, ReasonText(kind)), (HALTED_AT, "")];
    persisted := false;
    var set1 := SetState(conn.working, keys[0].0, keys[0].1, env.faults);
    if set1.Err? { conn.Rollback(); return; }
    conn.working := set1.value;
    var set2 := SetState(conn.working, keys[1].0, keys[1].1, env.faults);
    if set2.Err? { conn.Rollback(); return; }
    conn.working := set2.value;
    var set3 := SetState(conn.working, keys[2].0, keys[2].1, env.faults);
    if set3.Err? { conn.Rollback(); return; }
    conn.working := set3.value;
    if env.faults(CommitStmt(HALTED)) { conn.Rollback(); return; }
    conn.Commit();
    persisted := true;
  }

  function ResumeSpec(w: World, faults: Faults): World {
    if faults(CommitStmt(HALTED)) then RollbackWorld(w)
    else CommitWorld(w.(working := w.working.(state := w.working.state - {HALTED, HALTED_REASON, HALTED_AT})))
  }

  method Resume(conn: Connection, faults: Faults)
    modifies conn
    ensures conn.State() == ResumeSpec(old(conn.State()), faults)
  {
    conn.working := conn.working.(state := conn.working.state - {HALTED, HALTED_REASON, HALTED_AT});
    if faults(CommitStmt(HALTED)) { conn.Rollback(); } else { conn.Commit(); }
  }

  /** One of the four statements that store a halt fails. */
  predicate HaltFails(faults: Faults) {
    faults(SetStateStmt(HALTED)) || faults(SetStateStmt(HALTED_REASON)) || faults(SetStateStmt(HALTED_AT))
    || faults(CommitStmt(HALTED))
  }

  /** A stored resume undoes a stored halt, and nothing else. */
  lemma {:induction false} ResumeUndoesTrigger(w: World, kind: LossKind, faults: Faults, later: Faults)
    requires w.working.state.Keys !! {HALTED, HALTED_REASON, HALTED_AT}
    requires TriggerSpec(w, kind, faults).persisted && !later(CommitStmt(HALTED))
    ensures var r := ResumeSpec(TriggerSpec(w, kind, faults).world, later);
            r.working == r.committed == w.working && !IsHalted(r.working)
  {
    var state := TriggerSpec(w, kind, faults).world.working.state;
    assert state - {HALTED, HALTED_REASON, HALTED_AT} == w.working.state;
  }

  /** A halt is persisted or everything pending is reverted. */
  lemma {:induction false} TriggerHalts(w: World, kind: LossKind, faults: Faults)
    ensures var r := TriggerSpec(w, kind, faults);
            && (r.persisted ==> IsHalted(r.world.working) && r.world.committed == r.world.working)
            && (!r.persisted ==> r.world == RollbackWorld(w))
            && (r.persisted <==> !HaltFails(faults))
  {
  }
}
