// The whole course of a cycle: what it owes, given what its parts decided, that it
// gives every decision its turn in order, and what it has sent and counted at the end.
module Course {
  import opened Models
  import opened Ledger
  import opened Environment
  import opened Settlement
  import opened Holdings
  import opened Proposals
  import opened KillSwitch
  import opened Cycle
  import opened Preparation
  import opened Judging
  import opened Gating
  import opened Equity

  // ---- the agenda ----

  /** The decisions to execute, and what the cycle's row and outcome will say. */
  datatype Agenda = Agenda(owed: seq<Decision>, status: CycleStatus, decisions: nat, skipped: bool)

  ghost predicate AllQuoted(t: Tables, market: Market) { forall k :: k in t.positions ==> market.price(k).Ok? }

  /** Nothing is executed while the market is closed. */
  function IfOpen(ds: seq<Decision>, env: Env): seq<Decision> {
    if env.market.clock.Ok? && env.market.clock.value.isOpen then ds else []
  }

  /** The candidates are evaluated with what was held when the cycle began, and no loss breach. */
  function BuyingFrom(t: Tables, cycleId: Id, deps: Deps, env: Env): Setting {
    Setting(deps.rules, deps.limits, deps.mode, cycleId, t.positions.Keys,
            env.market.clock.Ok? && env.market.clock.value.isOpen, None)
  }

  /** Every way a cycle can go that has priced its holdings; `marked` are the tables by then. */
  ghost function PricedAgendaOf(t: Tables, marked: Tables, exits: seq<Decision>, cycleId: Id, deps: Deps, env: Env)
    : Agenda
    requires Runnable(deps)
  {
    if env.broker.account.Err? then Agenda([], MarketUnavailable, |exits|, false)
    else if env.faults(UpsertSnapshotStmt(deps.calendar.day(env.now(AtRisk)))) then
      Agenda([], CycleFailed, |exits|, false)
    else if LimitReached(t, env.broker.account.value, deps, env) then
      Agenda([], if HaltFails(env.faults) then CycleFailed else CycleHalted, |exits|, false)
    else if |t.positions.Keys| >= deps.rules.maxConcurrentPositions then
      Agenda(IfOpen(exits, env), CycleOk, |exits|, true)
    else
      var entries := DecideCandidates(BuyingFrom(t, cycleId, deps, env), env);
      if exists i :: 0 <= i < |entries| && Uninsertable(marked, entries, i, env.faults) then
        Agenda([], CycleFailed, |exits|, false)
      else Agenda(IfOpen(exits + entries, env), CycleOk, |exits| + |entries|, false)
  }

  /** Every way a cycle can go, from its row on. */
  ghost function AgendaOf(t: Tables, cycleId: Id, deps: Deps, env: Env): Agenda
    requires Runnable(deps)
  {
    var m := MarkAll(t, ListPositions(t.positions), deps.rules, cycleId, deps.mode, env);
    var exits := m.state.decisions;
    if IsHalted(t) then Agenda([], CycleHalted, if m.error.None? then |exits| else 0, false)
    else if env.market.clock.Err? then Agenda([], MarketUnavailable, 0, false)
    else if m.error.Some? then Agenda([], CycleFailed, 0, false)
    else if !AllQuoted(t, env.market) then Agenda(IfOpen(exits, env), MarketUnavailable, |exits|, false)
    else PricedAgendaOf(t, m.state.tables, exits, cycleId, deps, env)
  }

  lemma {:induction false} UnpricedExactly(ps: seq<Position>, market: Market)
    ensures UnpricedOf(ps, market) == [] <==> forall p :: p in ps ==> market.price(p.ticker).Ok?
  {
    if ps != [] {
      var front, last := ps[..|ps| - 1], ps[|ps| - 1];
      assert ps == front + [last];
      UnpricedExactly(front, market);
    }
  }

  lemma {:induction false} QuotedExactly(t: Tables, market: Market)
    requires KeysMatch(t)
    ensures UnpricedOf(ListPositions(t.positions), market) == [] <==> AllQuoted(t, market)
  {
    var ps := ListPositions(t.positions);
    ListsEachOnce(t.positions);
    UnpricedExactly(ps, market);
    forall k | k in t.positions ensures t.positions[k] in ps && t.positions[k].ticker == k {}
  }

  ghost predicate Heads(p: Prepared, a: Agenda, reasons: map<Id, ExitReason>, env: Env) {
    && Agenda(p.todo, p.status, p.count, p.skipped) == a
    && (p.todo != [] ==>
          p.reasons == reasons && env.market.clock.Ok? && p.nextClose == env.market.clock.value.nextClose)
  }

  lemma {:induction false} BuySideAgenda(w: World, t: Tables, cycleId: Id, h: HoldingsOutcome, deps: Deps, env: Env)
    requires Runnable(deps) && env.market.clock.Ok?
    requires w.working.decisions == t.decisions && w.working.cycles == t.cycles
    ensures var mc, c := env.market.clock.value, BuyingFrom(t, cycleId, deps, env);
            var entries := DecideCandidates(c, env);
            var p := BuySide(w, cycleId, t.positions.Keys, h, mc, deps, env);
            Heads(p, if exists i :: 0 <= i < |entries| && Uninsertable(t, entries, i, env.faults)
                        then Agenda([], CycleFailed, |h.decisions|, false)
                        else Agenda(IfOpen(h.decisions + entries, env), CycleOk, |h.decisions| + |entries|, false),
                     h.reasons, env)
  {
    var mc, c := env.market.clock.value, BuyingFrom(t, cycleId, deps, env);
    assert c == SettingFor(cycleId, t.positions.Keys, mc, deps);
    var entries := DecideCandidates(c, env);
    InsertAllExactly(w.working, entries, env.faults);
    forall i | 0 <= i < |entries|
      ensures Uninsertable(w.working, entries, i, env.faults) <==> Uninsertable(t, entries, i, env.faults) {}
  }

  lemma {:induction false} PricedAgenda(w: World, t: Tables, cycleId: Id, h: HoldingsOutcome, deps: Deps, env: Env)
    requires Runnable(deps) && env.market.clock.Ok?
    requires w.working.trades == t.trades && w.working.snapshots == t.snapshots
    requires w.working.positions.Keys == t.positions.Keys
    requires h.value == WorthOf(ListPositions(t.positions), env.market)
             && h.unrealized == GainOf(ListPositions(t.positions), env.market)
    ensures Heads(PricedCycle(w, cycleId, t.positions.Keys, h, env.market.clock.value, deps, env),
                  PricedAgendaOf(t, w.working, h.decisions, cycleId, deps, env), h.reasons, env)
  {
    if env.broker.account.Ok? {
      var cash := env.broker.account.value;
      var s := TodaysSnapshot(t.snapshots, cash, h, deps, env);
      if !env.faults(UpsertSnapshotStmt(s.day)) {
        var w1 := w.(working := w.working.(snapshots := PutSnapshot(w.working.snapshots, s)));
        BreachExactly(t, w1.working, cash, h, deps, env);
        var breach := BreachAt(w1.working, s, h, deps, env);
        if breach.Some? {
          TriggerHalts(w1, breach.value, env.faults);
        } else if |t.positions.Keys| < deps.rules.maxConcurrentPositions {
          assert BuyingFrom(t, cycleId, deps, env) == BuyingFrom(w.working, cycleId, deps, env);
          BuySideAgenda(w1, w.working, cycleId, h, deps, env);
        }
      }
    }
  }

  /** What the evaluation of the holdings leaves to the rest of the cycle. */
  lemma {:induction false} HoldingsFound(t: Tables, cycleId: Id, deps: Deps, env: Env)
    requires KeysMatch(t)
    ensures var ps := ListPositions(t.positions);
            var m := MarkAll(t, ps, deps.rules, cycleId, deps.mode, env);
            && m.state.tables == t.(positions := m.state.tables.positions, decisions := m.state.tables.decisions)
            && m.state.tables.positions.Keys == t.positions.Keys
            && (m.error.None? ==>
                  && m.state.value == WorthOf(ps, env.market) && m.state.unrealized == GainOf(ps, env.market)
                  && (m.state.errors == [] <==> AllQuoted(t, env.market)))
  {
    var ps := ListPositions(t.positions);
    ListsEachOnce(t.positions);
    HoldingsPrepared(t, cycleId, deps, env);
    MarkAllFinds(t, ps, deps.rules, cycleId, deps.mode, env);
    QuotedExactly(t, env.market);
  }

  lemma {:induction false} ActiveAgenda(w: World, cycleId: Id, deps: Deps, env: Env)
    requires Runnable(deps) && KeysMatch(w.working) && env.market.clock.Ok? && !IsHalted(w.working)
    ensures var m := MarkAll(w.working, ListPositions(w.working.positions), deps.rules, cycleId, deps.mode, env);
            Heads(ActiveCycle(w, cycleId, env.market.clock.value, deps, env),
                  AgendaOf(w.working, cycleId, deps, env), m.state.reasons, env)
  {
    var t := w.working;
    var m := MarkAll(t, ListPositions(t.positions), deps.rules, cycleId, deps.mode, env);
    HoldingsFound(t, cycleId, deps, env);
    if m.error.None? && AllQuoted(t, env.market) {
      PricedAgenda(w.(working := m.state.tables), t, cycleId, OutcomeOf(m.state), deps, env);
    }
  }

  /** What a cycle has prepared is its agenda. */
  lemma {:induction false} StartedAgenda(w: World, cycleId: Id, deps: Deps, env: Env)
    requires Runnable(deps) && KeysMatch(w.working)
    ensures var m := MarkAll(w.working, ListPositions(w.working.positions), deps.rules, cycleId, deps.mode, env);
            Heads(StartedCycle(w, cycleId, deps, env), AgendaOf(w.working, cycleId, deps, env), m.state.reasons, env)
  {
    if !IsHalted(w.working) && env.market.clock.Ok? { ActiveAgenda(w, cycleId, deps, env); }
  }
}
