// What a cycle has done, and what it has decided to execute, by the time it
// starts executing.
module Preparation {
  import opened Models
  import opened Ledger
  import opened Environment
  import opened Protocol
  import opened Settlement
  import opened Holdings
  import opened Exits
  import opened Proposals
  import opened KillSwitch
  import opened Cycle

  /** Rows are filed under their own keys, and their foreign keys resolve. */
  ghost predicate Filed(t: Tables) {
    KeysMatch(t) && FiledById(t) && Linked(t) && forall a :: a in t.approvals ==> a.decisionId in t.decisions
  }

  /** Before anything is executed: no order, fill or trade is touched, positions are
      at most marked up, decisions are only added. */
  ghost predicate Prepares(t: Tables, u: Tables) {
    && u == t.(decisions := u.decisions, positions := u.positions, snapshots := u.snapshots, state := u.state)
    && Grows(t, u) && (Filed(t) ==> Filed(u))
    && t.positions.Keys == u.positions.Keys
    && (forall k :: k in t.positions ==> MarkedUp(t.positions[k], u.positions[k]))
  }

  lemma {:induction false} PreparesTransitive(a: Tables, b: Tables, c: Tables)
    requires Prepares(a, b) && Prepares(b, c)
    ensures Prepares(a, c)
  {
  }

  /** Nothing committed or rolled back yet. */
  ghost predicate Pending(w: World, w': World) { w' == w.(working := w'.working) && Prepares(w.working, w'.working) }

  /** Nothing sent: all pending, all committed (a halt), or all reverted (a halt that could not be stored). */
  ghost predicate NothingSent(w: World, w': World) {
    || Pending(w, w')
    || (w' == CommitWorld(w.(working := w'.working)) && Prepares(w.working, w'.working))
    || w' == RollbackWorld(w)
  }

  /** A decision to execute: a new row, explained if it sells a holding, unheld if it buys. */
  ghost predicate Task(t: Tables, u: Tables, reasons: map<Id, ExitReason>, d: Decision) {
    && NewRow(t, u, d)
    && (Tradable(d) && d.action == ActSell ==> d.ticker in t.positions && d.id in reasons)
    && (Tradable(d) && d.action == ActBuy ==> d.ticker !in t.positions)
  }

  ghost predicate Tasks(t: Tables, u: Tables, reasons: map<Id, ExitReason>, ds: seq<Decision>) {
    && (forall i :: 0 <= i < |ds| ==> Task(t, u, reasons, ds[i]))
    && Distinct(ds)
  }

  ghost predicate Distinct(ds: seq<Decision>) {
    forall i, j :: 0 <= i < j < |ds| ==>
      ds[i].id != ds[j].id && (Tradable(ds[i]) && Tradable(ds[j]) ==> ds[i].ticker != ds[j].ticker)
  }

  /** The tickers a cycle is about to buy. */
  ghost function Buys(ds: seq<Decision>): set<Ticker> {
    set d | d in ds && Tradable(d) && d.action == ActBuy :: d.ticker
  }

  ghost predicate WellPrepared(w: World, p: Prepared, cap: nat) {
    && NothingSent(w, p.world) && (p.todo != [] ==> Pending(w, p.world))
    && Tasks(w.working, p.world.working, p.reasons, p.todo)
    && |w.working.positions.Keys + Buys(p.todo)| <= Max(|w.working.positions.Keys|, cap)
  }

  lemma {:induction false} MarkingPrepares(t: Tables, u: Tables)
    requires KeysMatch(t) && MarksOnly(t, u) && (FiledById(t) ==> FiledById(u))
    ensures Prepares(t, u)
  {
  }

  /** Evaluating the holdings, and what it decides to sell. */
  lemma {:induction false} HoldingsPrepared(t: Tables, cycleId: Id, deps: Deps, env: Env)
    requires KeysMatch(t)
    ensures var m := MarkAll(t, ListPositions(t.positions), deps.rules, cycleId, deps.mode, env);
            && Prepares(t, m.state.tables) && MarksOnly(t, m.state.tables)
            && (m.error.None? ==> SoundState(t, m.state, t.positions.Keys))
  {
    var ps := ListPositions(t.positions);
    var m := MarkAll(t, ps, deps.rules, cycleId, deps.mode, env);
    ListsEachOnce(t.positions);
    MarkAllSound(t, ps, deps.rules, cycleId, deps.mode, env);
    if FiledById(t) { MarkAllFiled(t, ps, deps.rules, cycleId, deps.mode, env); }
    MarkingPrepares(t, m.state.tables);
    ListedTickers(t);
  }

  lemma {:induction false} ListedTickers(t: Tables)
    requires KeysMatch(t)
    ensures TickersOf(ListPositions(t.positions)) == t.positions.Keys
  {
    ListsEachOnce(t.positions);
    forall k | k in t.positions ensures k in TickersOf(ListPositions(t.positions)) {
      assert t.positions[k] in ListPositions(t.positions);
    }
  }

  lemma {:induction false} SellsAreTasks(t: Tables, s: HoldState, u: Tables)
    requires SoundState(t, s, t.positions.Keys) && Grows(s.tables, u)
    ensures Tasks(t, u, s.reasons, s.decisions) && Buys(s.decisions) == {}
  {
    forall i | 0 <= i < |s.decisions|
      ensures Task(t, u, s.reasons, s.decisions[i]) && s.decisions[i].action == ActSell {
      assert SoundExit(t, s, s.decisions[i], t.positions.Keys);
    }
  }

  /** Sells and buys together. */
  lemma {:induction false} AllAreTasks(t: Tables, s: HoldState, t1: Tables, ds: seq<Decision>, c: Setting, u: Tables)
    requires SoundState(t, s, t.positions.Keys) && Grows(s.tables, t1) && t1.decisions == s.tables.decisions
    requires Grows(t, t1) && AllNew(t1, u, ds) && Grows(t1, u)
    requires PassedBuysOnly(ds, c) && c.held == t.positions.Keys
    ensures Tasks(t, u, s.reasons, s.decisions + ds)
    ensures Buys(s.decisions + ds) <= PassedTickers(ds)
  {
    SellsAreTasks(t, s, t1);
    var all := s.decisions + ds;
    forall i | 0 <= i < |all| ensures Task(t, u, s.reasons, all[i]) {
      if i < |s.decisions| { assert Task(t, t1, s.reasons, s.decisions[i]); }
      else { assert all[i] in ds && NewRow(t1, u, ds[i - |s.decisions|]); }
    }
    forall i, j | 0 <= i < j < |all|
      ensures all[i].id != all[j].id && (Tradable(all[i]) && Tradable(all[j]) ==> all[i].ticker != all[j].ticker)
    {
      if i < |s.decisions| <= j {
        assert NewRow(t1, u, ds[j - |s.decisions|]) && Task(t, t1, s.reasons, s.decisions[i]);
        assert SoundExit(t, s, s.decisions[i], t.positions.Keys) && all[j] in ds;
      }
    }
    forall d | d in all && Tradable(d) && d.action == ActBuy ensures d in ds {
      assert d in s.decisions ==> d.ticker in Buys(s.decisions);
    }
  }

  /** The risk evaluation: today's snapshot and perhaps a halt; no decision, no position. */
  lemma {:induction false} RiskPrepared(w: World, h: HoldingsOutcome, deps: Deps, env: Env)
    ensures match EvaluateRiskSpec(w, h, deps, env)
            case GoOn(w1) => Pending(w, w1) && w1.working == w.working.(snapshots := w1.working.snapshots)
            case Stopped(p) => p.todo == [] && NothingSent(w, p.world)
  {
  }

  lemma {:induction false} PreparedThrough(w: World, w1: World, w2: World)
    requires Pending(w, w1) && NothingSent(w1, w2)
    ensures NothingSent(w, w2)
    ensures Pending(w1, w2) ==> Pending(w, w2)
  {
  }

  lemma {:induction false} NothingPlanned(w: World, p: Prepared, cap: nat)
    requires NothingSent(w, p.world) && p.todo == []
    ensures WellPrepared(w, p, cap)
  {
    assert w.working.positions.Keys + Buys(p.todo) == w.working.positions.Keys;
  }

  lemma {:induction false} PlannedWell(w: World, w': World, ds: seq<Decision>, h: HoldingsOutcome, status: CycleStatus,
                                       count: nat, skipped: bool, mc: MarketClock, cap: nat)
    requires Pending(w, w') && Tasks(w.working, w'.working, h.reasons, ds)
    requires |w.working.positions.Keys + Buys(ds)| <= Max(|w.working.positions.Keys|, cap)
    ensures WellPrepared(w, Trading(w', ds, h, status, count, skipped, mc), cap)
  {
    if !mc.isOpen { NothingPlanned(w, Trading(w', ds, h, status, count, skipped, mc), cap); }
  }

  lemma {:induction false} SellsPlannedWell(w: World, w': World, s: HoldState, status: CycleStatus, skipped: bool,
                                            mc: MarketClock, cap: nat)
    requires Pending(w, w') && SoundState(w.working, s, w.working.positions.Keys) && Grows(s.tables, w'.working)
    ensures WellPrepared(w, Trading(w', s.decisions, OutcomeOf(s), status, |s.decisions|, skipped, mc), cap)
  {
    SellsAreTasks(w.working, s, w'.working);
    assert w.working.positions.Keys + {} == w.working.positions.Keys;
    PlannedWell(w, w', s.decisions, OutcomeOf(s), status, |s.decisions|, skipped, mc, cap);
  }

  lemma {:induction false} BuySidePrepared(w: World, w2: World, s: HoldState, cycleId: Id, mc: MarketClock, deps: Deps,
                                           env: Env)
    requires Runnable(deps) && Pending(w, w2) && SoundState(w.working, s, w.working.positions.Keys)
    requires Grows(s.tables, w2.working) && w2.working.decisions == s.tables.decisions
    ensures WellPrepared(w, BuySide(w2, cycleId, w.working.positions.Keys, OutcomeOf(s), mc, deps, env),
                         deps.rules.maxConcurrentPositions)
  {
    var held := w.working.positions.Keys;
    var c := SettingFor(cycleId, held, mc, deps);
    var ds := DecideCandidates(c, env);
    var i := InsertAll(w2.working, ds, env.faults);
    CandidatesAreSafe(c, env);
    InsertAllRecords(w2.working, ds, env.faults);
    AddingPrepares(w2.working, i.tables, ds);
    var w3 := w2.(working := i.tables);
    PreparesTransitive(w.working, w2.working, i.tables);
    assert Pending(w, w3);
    if i.error.Some? {
      NothingPlanned(w, BuySide(w2, cycleId, held, OutcomeOf(s), mc, deps, env), c.rules.maxConcurrentPositions);
    } else {
      AllAreTasks(w.working, s, w2.working, ds, c, i.tables);
      SubsetSmaller(held + Buys(s.decisions + ds), held + PassedTickers(ds));
      PlannedWell(w, w3, s.decisions + ds, OutcomeOf(s), CycleOk, |s.decisions| + |ds|, false, mc,
                  c.rules.maxConcurrentPositions);
    }
  }

  lemma {:induction false} AddingPrepares(t: Tables, u: Tables, ds: seq<Decision>)
    requires AddsFrom(t, u, ds)
    ensures Prepares(t, u)
  {
  }

  lemma {:induction false} SubsetSmaller(a: set<Ticker>, b: set<Ticker>)
    requires a <= b
    ensures |a| <= |b|
  {
    assert b == a + (b - a);
  }

  lemma {:induction false} PricedPrepared(w: World, w1: World, s: HoldState, cycleId: Id, mc: MarketClock, deps: Deps,
                                          env: Env)
    requires Runnable(deps) && Pending(w, w1) && w1.working == s.tables
             && SoundState(w.working, s, w.working.positions.Keys)
    ensures WellPrepared(w, PricedCycle(w1, cycleId, w.working.positions.Keys, OutcomeOf(s), mc, deps, env),
                         deps.rules.maxConcurrentPositions)
  {
    RiskPrepared(w1, OutcomeOf(s), deps, env);
    match EvaluateRiskSpec(w1, OutcomeOf(s), deps, env)
    case Stopped(p) =>
      PreparedThrough(w, w1, p.world);
      NothingPlanned(w, p, deps.rules.maxConcurrentPositions);
    case GoOn(w2) =>
      PreparedThrough(w, w1, w2);
      if |w.working.positions.Keys| >= deps.rules.maxConcurrentPositions {
        SellsPlannedWell(w, w2, s, CycleOk, true, mc, deps.rules.maxConcurrentPositions);
      } else {
        BuySidePrepared(w, w2, s, cycleId, mc, deps, env);
      }
  }

  lemma {:induction false} ActivePrepared(w: World, cycleId: Id, mc: MarketClock, deps: Deps, env: Env)
    requires Runnable(deps) && KeysMatch(w.working)
    ensures WellPrepared(w, ActiveCycle(w, cycleId, mc, deps, env), deps.rules.maxConcurrentPositions)
  {
    var m := MarkAll(w.working, ListPositions(w.working.positions), deps.rules, cycleId, deps.mode, env);
    var w1 := w.(working := m.state.tables);
    HoldingsPrepared(w.working, cycleId, deps, env);
    assert Pending(w, w1);
    if m.error.Some? {
      NothingPlanned(w, Idle(w1, CycleFailed, 0), deps.rules.maxConcurrentPositions);
    } else if m.state.errors != [] {
      SellsPlannedWell(w, w1, m.state, MarketUnavailable, false, mc, deps.rules.maxConcurrentPositions);
    } else {
      PricedPrepared(w, w1, m.state, cycleId, mc, deps, env);
    }
  }

  /** Everything before executing, from the cycle's row on. */
  lemma {:induction false} StartedPrepared(w: World, cycleId: Id, deps: Deps, env: Env)
    requires Runnable(deps) && KeysMatch(w.working)
    ensures WellPrepared(w, StartedCycle(w, cycleId, deps, env), deps.rules.maxConcurrentPositions)
  {
    if IsHalted(w.working) {
      HoldingsPrepared(w.working, cycleId, deps, env);
      NothingPlanned(w, HaltedCycle(w, cycleId, deps, env), deps.rules.maxConcurrentPositions);
    } else if env.market.clock.Ok? {
      ActivePrepared(w, cycleId, env.market.clock.value, deps, env);
    } else {
      NothingPlanned(w, Idle(w, MarketUnavailable, 0), deps.rules.maxConcurrentPositions);
    }
  }
}
