// What a cycle delivers: every exit that is due and every buy that passed goes out,
// at its exact size, if it can be recorded; the day's equity is stored; and the
// engine is halted exactly when a loss limit is reached.
module Delivery {
  import opened Money
  import opened Models
  import opened Rules
  import opened Ledger
  import opened Environment
  import opened Execution
  import opened Settlement
  import opened Holdings
  import opened Exits
  import opened Proposals
  import opened KillSwitch
  import opened Cycle
  import opened Reverting
  import opened Sending
  import opened Judging
  import opened Gating
  import opened Ordering
  import opened Equity
  import opened Course
  import opened Turns

  // ---- what is owed ----

  /** The cycle is active, its market open, and no statement that marks or sells fails. */
  ghost predicate Trades(t: Tables, cycleId: Id, deps: Deps, env: Env) {
    && !IsHalted(t) && env.market.clock.Ok? && env.market.clock.value.isOpen
    && MarkAll(t, ListPositions(t.positions), deps.rules, cycleId, deps.mode, env).error.None?
  }

  /** And it has priced everything, stored its snapshot and reached no limit. */
  ghost predicate PassesRisk(t: Tables, deps: Deps, env: Env) {
    && AllQuoted(t, env.market) && env.broker.account.Ok?
    && !env.faults(UpsertSnapshotStmt(deps.calendar.day(env.now(AtRisk))))
    && !LimitReached(t, env.broker.account.value, deps, env)
  }

  /** And it has a slot free, and stores what its candidates' evaluation decides. */
  ghost predicate Buys(t: Tables, cycleId: Id, deps: Deps, env: Env)
    requires Runnable(deps)
  {
    var marked := MarkAll(t, ListPositions(t.positions), deps.rules, cycleId, deps.mode, env).state.tables;
    var entries := DecideCandidates(BuyingFrom(t, cycleId, deps, env), env);
    && |t.positions.Keys| < deps.rules.maxConcurrentPositions
    && forall i :: 0 <= i < |entries| ==> !Uninsertable(marked, entries, i, env.faults)
  }

  /** The exits are owed where a quote is missing, or the risk is passed and nothing keeps the candidates from
      being stored. */
  ghost predicate OwesExits(t: Tables, cycleId: Id, deps: Deps, env: Env)
    requires Runnable(deps)
  {
    && Trades(t, cycleId, deps, env)
    && (|| !AllQuoted(t, env.market)
        || (PassesRisk(t, deps, env)
            && (|t.positions.Keys| >= deps.rules.maxConcurrentPositions || Buys(t, cycleId, deps, env))))
  }

  ghost predicate OwesEntries(t: Tables, cycleId: Id, deps: Deps, env: Env)
    requires Runnable(deps)
  {
    Trades(t, cycleId, deps, env) && PassesRisk(t, deps, env) && Buys(t, cycleId, deps, env)
  }

  /** What is owed is on the agenda, exits first. */
  lemma {:induction false} OwedIsOnAgenda(t: Tables, cycleId: Id, deps: Deps, env: Env)
    requires Runnable(deps)
    ensures var exits := MarkAll(t, ListPositions(t.positions), deps.rules, cycleId, deps.mode, env).state.decisions;
            var entries := DecideCandidates(BuyingFrom(t, cycleId, deps, env), env);
            && (OwesExits(t, cycleId, deps, env) ==> exits <= AgendaOf(t, cycleId, deps, env).owed)
            && (OwesEntries(t, cycleId, deps, env) ==> AgendaOf(t, cycleId, deps, env).owed == exits + entries)
  {
  }

  // ---- exits ----

  lemma {:induction false} FiresOnce(a: ExitReason, b: ExitReason, p: Position, price: Ticks, rules: RuleSet, now: Time)
    requires Fires(a, p, price, rules, now) && Fires(b, p, price, rules, now)
    ensures a == b
  {
  }

  lemma {:induction false} DueHasAll(ps: seq<Position>, p: Position, rules: RuleSet, env: Env)
    requires p in ps && Due(p, rules, env)
    ensures p in DueOf(ps, rules, env)
  {
    var front, last := ps[..|ps| - 1], ps[|ps| - 1];
    assert ps == front + [last];
    if p in front { DueHasAll(front, p, rules, env); }
  }

  /** Every position that is due is sold by one of the exits, for the reason that fired. */
  lemma {:induction false} DueIsDecided(t: Tables, cycleId: Id, deps: Deps, env: Env, k: Ticker, reason: ExitReason)
    returns (n: nat)
    requires KeysMatch(t) && k in t.positions && DueFor(t.positions[k], reason, deps.rules, env)
    requires MarkAll(t, ListPositions(t.positions), deps.rules, cycleId, deps.mode, env).error.None?
    ensures var exits := MarkAll(t, ListPositions(t.positions), deps.rules, cycleId, deps.mode, env).state.decisions;
            n < |exits| && ExitOf(exits[n], t.positions[k], reason, deps.rules, cycleId, deps.mode, env)
  {
    var ps, p := ListPositions(t.positions), t.positions[k];
    var s := MarkAll(t, ps, deps.rules, cycleId, deps.mode, env).state;
    ListsEachOnce(t.positions);
    MarkAllFinds(t, ps, deps.rules, cycleId, deps.mode, env);
    assert Due(p, deps.rules, env);
    DueHasAll(ps, p, deps.rules, env);
    n :| 0 <= n < |DueOf(ps, deps.rules, env)| && DueOf(ps, deps.rules, env)[n] == p;
    var price := env.market.price(p.ticker).value;
    FiresOnce(reason, s.reasons[s.decisions[n].id], Raised(p, price), price, deps.rules, env.now(AtHoldings));
  }

  lemma {:induction false} SharesAtLeastOne(held: nat, fraction: Ratio, shares: int)
    requires SharesIn(held, fraction, shares)
    ensures shares >= 1
  {
    if held * fraction.num >= fraction.den && shares <= 0 {
      MulMonotone(shares + 1, 1, fraction.den);
    }
  }

  /** From a cent up a rule exit is ordered at the exact shares of its fraction. */
  lemma {:induction false} ExitOrdered(d: Decision, p: Position, reason: ExitReason, rules: RuleSet, cycleId: Id,
                                       mode: Mode, env: Env)
    returns (shares: Shares)
    requires ExitOf(d, p, reason, rules, cycleId, mode, env) && env.market.price(p.ticker).value >= TICKS_PER_CENT
    ensures SharesIn(p.qty, FractionOf(reason, rules), shares)
    ensures OrderQty(d.proposedNotional, d.referencePrice) == Ok(shares)
  {
    var price := env.market.price(p.ticker).value;
    var s :| SharesIn(p.qty, FractionOf(reason, rules), s) && d.proposedNotional == Some(ToCents(price * s));
    SharesAtLeastOne(p.qty, FractionOf(reason, rules), s);
    shares := s;
    SizingRoundTrip(shares, price);
  }

  /** A decision in its turn, in paper mode: it asks for its order, and sends it if that can be recorded. */
  ghost predicate GoesOut(w: World, d: Decision, ticker: Ticker, side: Side, shares: Shares, run: CycleRun,
                          from: nat, env: Env)
    requires from <= |run.world.trace|
  {
    var approved := ResolveApproval(d, Paper, w.working, env, NextClose(env));
    && approved.Ok?
    && (Recordable(w.working, approved.value, env.faults) ==>
          OrderRequest("order_" + d.id, ticker, side, shares) in SentSince(run.world.trace, from))
  }

  lemma {:induction false} OrdersHaveAll(turns: seq<Executions>, ds: seq<Decision>, n: nat, i: nat, deps: Deps,
                                         env: Env, nextClose: Time)
    requires i < n <= |ds| < |turns|
    ensures forall r :: r in OrderIn(turns[i].world, ds[i], deps, env, nextClose) ==>
                        r in OrdersOf(turns, ds, n, deps, env, nextClose)
  {
    if i < n - 1 { OrdersHaveAll(turns, ds, n - 1, i, deps, env, nextClose); }
  }

  lemma {:induction false} TurnGoesOut(w: World, run: CycleRun, a: Agenda, turns: seq<Executions>, n: nat, cycleId: Id,
                                       reasons: map<Id, ExitReason>, shares: Shares, deps: Deps, env: Env)
    requires Paced(deps) && deps.mode == Paper && n < |a.owed|
    requires Executes(w, run, a, turns, cycleId, reasons, deps, env)
    requires MayTrade(a.owed[n]) && OrderQty(a.owed[n].proposedNotional, a.owed[n].referencePrice) == Ok(shares)
    ensures var d := a.owed[n];
            GoesOut(turns[n].world, d, d.ticker, if d.action == ActBuy then Buy else Sell, shares, run, |w.trace|, env)
  {
    ResolvesExactly(a.owed[n], Paper, turns[n].world.working, env, NextClose(env));
    OrdersHaveAll(turns, a.owed, |a.owed|, n, deps, env, NextClose(env));
  }

  /** In paper mode, at quotes from a cent up: a position whose quote fires an exit rule is sold at exactly the shares
      of that rule, if the sale can be recorded in its turn. */
  lemma {:induction false} DueIsSent(w: World, deps: Deps, env: Env, k: Ticker, reason: ExitReason)
    returns (turns: seq<Executions>, n: nat, shares: Shares)
    requires Runnable(deps) && deps.mode == Paper && KeysMatch(w.working) && w.committed == w.working
    requires QuotesFromACent(env)
    requires InsertCycle(w.working, env.uuid(FreshCycle), env.now(Started), deps.mode, env.faults).Ok?
    requires var t := InsertCycle(w.working, env.uuid(FreshCycle), env.now(Started), deps.mode, env.faults).value;
             OwesExits(t, env.uuid(FreshCycle), deps, env)
    requires k in w.working.positions && DueFor(w.working.positions[k], reason, deps.rules, env)
    ensures var cycleId, run := env.uuid(FreshCycle), CycleSpec(w, deps, env);
            var t := InsertCycle(w.working, cycleId, env.now(Started), deps.mode, env.faults).value;
            var owed := AgendaOf(t, cycleId, deps, env).owed;
            && n < |owed| < |turns| && |w.trace| <= |run.world.trace|
            && ExitOf(owed[n], w.working.positions[k], reason, deps.rules, cycleId, deps.mode, env)
            && SharesIn(w.working.positions[k].qty, FractionOf(reason, deps.rules), shares)
            && GoesOut(turns[n].world, owed[n], k, Sell, shares, run, |w.trace|, env)
  {
    var cycleId := env.uuid(FreshCycle);
    var t := InsertCycle(w.working, cycleId, env.now(Started), deps.mode, env.faults).value;
    var s := MarkAll(t, ListPositions(t.positions), deps.rules, cycleId, deps.mode, env).state;
    turns := CycleExecutes(w, deps, env);
    OwedIsOnAgenda(t, cycleId, deps, env);
    n := DueIsDecided(t, cycleId, deps, env, k, reason);
    var a := AgendaOf(t, cycleId, deps, env);
    assert a.owed[n] == s.decisions[n];
    shares := ExitOrdered(a.owed[n], t.positions[k], reason, deps.rules, cycleId, deps.mode, env);
    TurnGoesOut(w, CycleSpec(w, deps, env), a, turns, n, cycleId, s.reasons, shares, deps, env);
  }

  // ---- entries ----

  /** The limit pays for so many shares at the quote, and not for one more. */
  ghost predicate MostPaidFor(shares: Shares, quote: Result<Ticks, string>, limit: Cents) {
    quote.Ok? && shares * quote.value <= TICKS_PER_CENT * limit < (shares + 1) * quote.value
  }

  /** What passed is a buy at the quote, of the most shares the limit pays for. */
  lemma {:induction false} EntryOrdered(d: Decision, c: Setting, env: Env) returns (shares: Shares)
    requires PassedAt(d, c, env.market.price(d.ticker)) && env.market.price(d.ticker).value >= TICKS_PER_CENT
    requires env.market.price(d.ticker).value <= TICKS_PER_CENT * c.limits.notional
    ensures MostPaidFor(shares, env.market.price(d.ticker), c.limits.notional)
    ensures OrderQty(d.proposedNotional, d.referencePrice) == Ok(shares)
  {
    var price := env.market.price(d.ticker).value;
    var s :| LargestBuy(s, price, c.limits.notional, d.proposedNotional.value);
    if s <= 0 { MulMonotone(s + 1, 1, price); }
    shares := s;
    HalfEvenUnique(price * shares, TICKS_PER_CENT, d.proposedNotional.value, ToCents(price * shares));
    SizingRoundTrip(shares, price);
  }

  /** Every decision that passed is one of a buy that may enter. */
  lemma {:induction false} PassedMayEnter(c: Setting, env: Env, i: nat)
    requires Sensible(c) && i < |DecideCandidates(c, env)| && DecideCandidates(c, env)[i].ruleCheck == Passed
    ensures var ds := DecideCandidates(c, env);
            && ds[i].action == ActBuy && PassedAt(ds[i], c, env.market.price(ds[i].ticker))
            && MayEnter(ds[i].ticker, c.held + PassedTickers(ds[..i]), c, env.market)
  {
    var chosen, kept := CandidatesDecided(c, env);
    if ps :| Answered(kept, env, ps) {
      var ds := DecideCandidates(c, env);
      assert Answers(ds[i], i, ps[i], c.held + PassedTickers(ds[..i]), c, env);
    }
  }

  lemma {:induction false} EntryOnAgenda(t: Tables, cycleId: Id, deps: Deps, env: Env, i: nat)
    returns (n: nat, shares: Shares)
    requires Runnable(deps) && OwesEntries(t, cycleId, deps, env) && QuotesFromACent(env)
    requires var entries := DecideCandidates(BuyingFrom(t, cycleId, deps, env), env);
             i < |entries| && entries[i].ruleCheck == Passed
    ensures var owed, d := AgendaOf(t, cycleId, deps, env).owed,
                           DecideCandidates(BuyingFrom(t, cycleId, deps, env), env)[i];
            && n < |owed| && owed[n] == d && d.action == ActBuy && MayTrade(d)
            && OrderQty(d.proposedNotional, d.referencePrice) == Ok(shares)
            && MostPaidFor(shares, env.market.price(d.ticker), deps.limits.notional)
  {
    var c := BuyingFrom(t, cycleId, deps, env);
    OwedIsOnAgenda(t, cycleId, deps, env);
    PassedMayEnter(c, env, i);
    n := |MarkAll(t, ListPositions(t.positions), deps.rules, cycleId, deps.mode, env).state.decisions| + i;
    shares := EntryOrdered(DecideCandidates(c, env)[i], c, env);
  }

  /** A candidate that passed is bought, for the most shares the per-ticker limit pays for at its quote, if the order
      can be recorded in its turn. */
  lemma {:induction false} PassedIsSent(w: World, deps: Deps, env: Env, i: nat)
    returns (turns: seq<Executions>, n: nat, shares: Shares)
    requires Runnable(deps) && deps.mode == Paper && KeysMatch(w.working) && w.committed == w.working
    requires QuotesFromACent(env)
    requires InsertCycle(w.working, env.uuid(FreshCycle), env.now(Started), deps.mode, env.faults).Ok?
    requires var t := InsertCycle(w.working, env.uuid(FreshCycle), env.now(Started), deps.mode, env.faults).value;
             var entries := DecideCandidates(BuyingFrom(t, env.uuid(FreshCycle), deps, env), env);
             OwesEntries(t, env.uuid(FreshCycle), deps, env) && i < |entries| && entries[i].ruleCheck == Passed
    ensures var cycleId, run := env.uuid(FreshCycle), CycleSpec(w, deps, env);
            var t := InsertCycle(w.working, cycleId, env.now(Started), deps.mode, env.faults).value;
            var owed, d := AgendaOf(t, cycleId, deps, env).owed,
                           DecideCandidates(BuyingFrom(t, cycleId, deps, env), env)[i];
            && n < |owed| < |turns| && |w.trace| <= |run.world.trace| && owed[n] == d
            && MostPaidFor(shares, env.market.price(d.ticker), deps.limits.notional)
            && GoesOut(turns[n].world, d, d.ticker, Buy, shares, run, |w.trace|, env)
  {
    var cycleId := env.uuid(FreshCycle);
    var t := InsertCycle(w.working, cycleId, env.now(Started), deps.mode, env.faults).value;
    var a := AgendaOf(t, cycleId, deps, env);
    turns := CycleExecutes(w, deps, env);
    n, shares := EntryOnAgenda(t, cycleId, deps, env, i);
    TurnGoesOut(w, CycleSpec(w, deps, env), a, turns, n, cycleId,
                MarkAll(t, ListPositions(t.positions), deps.rules, cycleId, deps.mode, env).state.reasons, shares, deps,
                env);
  }

  // ---- equity and the halt ----

  /** The cycle gets as far as storing its snapshot. */
  ghost predicate Values(t: Tables, cycleId: Id, deps: Deps, env: Env) {
    && !IsHalted(t) && env.market.clock.Ok? && AllQuoted(t, env.market) && env.broker.account.Ok?
    && MarkAll(t, ListPositions(t.positions), deps.rules, cycleId, deps.mode, env).error.None?
    && !env.faults(UpsertSnapshotStmt(deps.calendar.day(env.now(AtRisk))))
  }

  lemma {:induction false} ValuesBreached(t: Tables, cycleId: Id, deps: Deps, env: Env)
    requires KeysMatch(t) && Values(t, cycleId, deps, env)
    ensures Breached(t, cycleId, deps, env) <==> LimitReached(t, env.broker.account.value, deps, env)
  {
    HoldingsFound(t, cycleId, deps, env);
    var m := MarkAll(t, ListPositions(t.positions), deps.rules, cycleId, deps.mode, env);
    BreachExactly(t, t, env.broker.account.value, OutcomeOf(m.state), deps, env);
  }

  /** The snapshot such a cycle has put, and the engine state it has left, when its turns begin. */
  lemma {:induction false} ValuedTables(w: World, cycleId: Id, deps: Deps, env: Env) returns (s: Snapshot)
    requires Runnable(deps) && KeysMatch(w.working) && Values(w.working, cycleId, deps, env)
    ensures SnapshotOf(s, w.working.snapshots, env.broker.account.value,
                       WorthOf(ListPositions(w.working.positions), env.market), deps, env)
    ensures var p := StartedCycle(w, cycleId, deps, env);
            var reached := LimitReached(w.working, env.broker.account.value, deps, env);
            && (reached && HaltFails(env.faults) ==> p.world == RollbackWorld(w) && p.todo == [])
            && (!reached || !HaltFails(env.faults) ==> p.world.working.snapshots == PutSnapshot(w.working.snapshots, s))
            && (!reached ==> p.world.working.state == w.working.state)
            && (reached && !HaltFails(env.faults) ==> IsHalted(p.world.working))
  {
    var t := w.working;
    var m := MarkAll(t, ListPositions(t.positions), deps.rules, cycleId, deps.mode, env);
    HoldingsFound(t, cycleId, deps, env);
    var h := OutcomeOf(m.state);
    s := TodaysSnapshot(t.snapshots, env.broker.account.value, h, deps, env);
    SnapshotExactly(t.snapshots, env.broker.account.value, h, deps, env);
    PricedTables(w.(working := m.state.tables), t, cycleId, h, s, deps, env);
  }

  lemma {:induction false} PricedTables(w: World, t: Tables, cycleId: Id, h: HoldingsOutcome, s: Snapshot, deps: Deps,
                                        env: Env)
    requires Runnable(deps) && env.market.clock.Ok? && env.broker.account.Ok?
    requires w.working.trades == t.trades && w.working.snapshots == t.snapshots && w.working.state == t.state
    requires h.value == WorthOf(ListPositions(t.positions), env.market)
             && h.unrealized == GainOf(ListPositions(t.positions), env.market)
    requires s == TodaysSnapshot(t.snapshots, env.broker.account.value, h, deps, env)
    requires !env.faults(UpsertSnapshotStmt(s.day))
    ensures var p := PricedCycle(w, cycleId, t.positions.Keys, h, env.market.clock.value, deps, env);
            var reached := LimitReached(t, env.broker.account.value, deps, env);
            && (reached && HaltFails(env.faults) ==> p.world == RollbackWorld(w) && p.todo == [])
            && (!reached || !HaltFails(env.faults) ==> p.world.working.snapshots == PutSnapshot(t.snapshots, s))
            && (!reached ==> p.world.working.state == t.state)
            && (reached && !HaltFails(env.faults) ==> IsHalted(p.world.working))
  {
    var w1 := w.(working := w.working.(snapshots := PutSnapshot(w.working.snapshots, s)));
    BreachExactly(t, w1.working, env.broker.account.value, h, deps, env);
    var breach := BreachAt(w1.working, s, h, deps, env);
    if breach.Some? {
      TriggerHalts(w1, breach.value, env.faults);
    } else {
      InsertAllExactly(w1.working, DecideCandidates(SettingFor(cycleId, t.positions.Keys, env.market.clock.value, deps),
                                                    env), env.faults);
    }
  }

  /** Halted, and saying so, exactly where a limit is reached, and then silent. */
  ghost predicate HaltsIf(reached: bool, w: World, run: CycleRun)
    requires run.result.Ok?
  {
    && (run.result.value.status == CycleHalted <==> reached) && (IsHalted(run.world.committed) <==> reached)
    && (reached ==> Silent(w.trace, run.world.trace))
  }

  lemma {:induction false} ReachedHalts(w: World, deps: Deps, env: Env)
    requires Runnable(deps) && KeysMatch(w.working) && w.committed == w.working && CycleSpec(w, deps, env).result.Ok?
    requires var t := InsertCycle(w.working, env.uuid(FreshCycle), env.now(Started), deps.mode, env.faults);
             t.Ok? && Breached(t.value, env.uuid(FreshCycle), deps, env)
    ensures HaltsIf(true, w, CycleSpec(w, deps, env)) && !HaltFails(env.faults)
  {
    BreachedCycleStops(w, deps, env);
    BreachEndsHalted(w, deps, env);
  }

  lemma {:induction false} UnreachedGoesOn(w: World, run: CycleRun, a: Agenda, turns: seq<Executions>, cycleId: Id,
                                           reasons: map<Id, ExitReason>, deps: Deps, env: Env)
    requires Paced(deps) && Executes(w, run, a, turns, cycleId, reasons, deps, env) && run.result.Ok?
    requires !IsHalted(turns[0].world.working) && a.status != CycleHalted
    ensures HaltsIf(false, w, run)
  {
    NotHalted(turns[0].world.working, run.world.working);
  }

  lemma {:induction false} ValuesAgenda(t: Tables, cycleId: Id, deps: Deps, env: Env)
    requires Runnable(deps) && Values(t, cycleId, deps, env)
    ensures AgendaOf(t, cycleId, deps, env).status == CycleHalted ==>
              LimitReached(t, env.broker.account.value, deps, env)
  {
  }

  /** A cycle that gets that far and has an outcome has stored the day's row, with the equity of its cash and its
      holdings at their quotes; it is halted, and says so, exactly if that equity or the P&L reaches a limit, and
      then it has sent nothing. */
  lemma {:induction false} CycleValues(w: World, deps: Deps, env: Env) returns (s: Snapshot)
    requires Runnable(deps) && KeysMatch(w.working) && w.committed == w.working && CycleSpec(w, deps, env).result.Ok?
    requires InsertCycle(w.working, env.uuid(FreshCycle), env.now(Started), deps.mode, env.faults).Ok?
    requires var t := InsertCycle(w.working, env.uuid(FreshCycle), env.now(Started), deps.mode, env.faults).value;
             Values(t, env.uuid(FreshCycle), deps, env)
    ensures SnapshotOf(s, w.working.snapshots, env.broker.account.value,
                       WorthOf(ListPositions(w.working.positions), env.market), deps, env)
    ensures DaysIncrease(w.working.snapshots) ==>
              Replaces(CycleSpec(w, deps, env).world.committed.snapshots, w.working.snapshots, s)
    ensures HaltsIf(LimitReached(w.working, env.broker.account.value, deps, env), w, CycleSpec(w, deps, env))
  {
    var cycleId := env.uuid(FreshCycle);
    var t := InsertCycle(w.working, cycleId, env.now(Started), deps.mode, env.faults).value;
    var turns := CycleExecutes(w, deps, env);
    s := ValuedTables(w.(working := t), cycleId, deps, env);
    ValuesBreached(t, cycleId, deps, env);
    SameStanding(w.working, t, deps, env);
    if LimitReached(t, env.broker.account.value, deps, env) {
      ReachedHalts(w, deps, env);
    } else {
      ValuesAgenda(t, cycleId, deps, env);
      UnreachedGoesOn(w, CycleSpec(w, deps, env), AgendaOf(t, cycleId, deps, env), turns, cycleId,
                      MarkAll(t, ListPositions(t.positions), deps.rules, cycleId, deps.mode, env).state.reasons, deps,
                      env);
    }
    if DaysIncrease(w.working.snapshots) { PutReplaces(w.working.snapshots, s); }
  }

  lemma {:induction false} SameStanding(t: Tables, u: Tables, deps: Deps, env: Env)
    requires u == t.(cycles := u.cycles)
    ensures forall cash :: LimitReached(t, cash, deps, env) <==> LimitReached(u, cash, deps, env)
  {
    forall cash ensures StandingOf(t, cash, deps, env) == StandingOf(u, cash, deps, env) {}
  }

  lemma {:induction false} NotHalted(t: Tables, u: Tables)
    requires u.state - {"last_cycle_id"} == t.state - {"last_cycle_id"} && !IsHalted(t)
    ensures !IsHalted(u)
  {
    assert HALTED in u.state <==> HALTED in u.state - {"last_cycle_id"};
    assert HALTED in t.state <==> HALTED in t.state - {"last_cycle_id"};
    if HALTED in u.state { assert u.state[HALTED] == (u.state - {"last_cycle_id"})[HALTED]; }
  }
}
