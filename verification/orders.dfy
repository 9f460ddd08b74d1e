// Every order a cycle sends, from the rules to the broker: what it may cost and
// what it may sell.
module Orders {
  import opened Money
  import opened Models
  import opened Rules
  import opened Ledger
  import opened Environment
  import opened Settlement
  import opened Holdings
  import opened Exits
  import opened Proposals
  import opened KillSwitch
  import opened Cycle
  import opened Preparation
  import opened Sending
  import opened Conservation

  /** The buys to execute are the candidates that passed. */
  ghost predicate BuysSized(todo: seq<Decision>, limit: Cents, env: Env) {
    forall d :: d in todo && Tradable(d) && d.action == ActBuy ==> LargestWithin(d, limit, env.market)
  }

  lemma {:induction false} BuySideSized(w: World, cycleId: Id, held: set<Ticker>, h: HoldingsOutcome, mc: MarketClock,
                                        deps: Deps, env: Env)
    requires Runnable(deps) && QuotesFromACent(env) && Buys(h.decisions) == {}
    ensures BuysSized(BuySide(w, cycleId, held, h, mc, deps, env).todo, deps.limits.notional, env)
  {
    CandidatesAreSized(SettingFor(cycleId, held, mc, deps), env);
    NoBuysSized(h.decisions, deps.limits.notional, env);
  }

  lemma {:induction false} NoBuysSized(ds: seq<Decision>, limit: Cents, env: Env)
    requires Buys(ds) == {}
    ensures BuysSized(ds, limit, env)
  {
    forall d | d in ds && Tradable(d) ensures d.action != ActBuy { assert d.action == ActBuy ==> d.ticker in Buys(ds); }
  }

  lemma {:induction false} PricedSized(w: World, cycleId: Id, held: set<Ticker>, h: HoldingsOutcome, mc: MarketClock,
                                       deps: Deps, env: Env)
    requires Runnable(deps) && QuotesFromACent(env) && Buys(h.decisions) == {}
    ensures BuysSized(PricedCycle(w, cycleId, held, h, mc, deps, env).todo, deps.limits.notional, env)
  {
    RiskPrepared(w, h, deps, env);
    NoBuysSized(h.decisions, deps.limits.notional, env);
    match EvaluateRiskSpec(w, h, deps, env)
    case Stopped(_) =>
    case GoOn(w1) => BuySideSized(w1, cycleId, held, h, mc, deps, env);
  }

  lemma {:induction false} StartedSized(w: World, cycleId: Id, deps: Deps, env: Env)
    requires Runnable(deps) && KeysMatch(w.working) && QuotesFromACent(env)
    ensures BuysSized(StartedCycle(w, cycleId, deps, env).todo, deps.limits.notional, env)
  {
    if !IsHalted(w.working) && env.market.clock.Ok? {
      var m := MarkAll(w.working, ListPositions(w.working.positions), deps.rules, cycleId, deps.mode, env);
      HoldingsPrepared(w.working, cycleId, deps, env);
      if m.error.None? {
        SellsAreTasks(w.working, m.state, m.state.tables);
        NoBuysSized(m.state.decisions, deps.limits.notional, env);
        PricedSized(w.(working := m.state.tables), cycleId, w.working.positions.Keys, OutcomeOf(m.state),
                    env.market.clock.value, deps, env);
      }
    }
  }

  /** What a request may ask for: a buy is the most the limit pays for at the market's price,
      a sell is within the holding the cycle began with. */
  ghost predicate WellSized(r: OrderRequest, t: Tables, deps: Deps, env: Env) {
    match r.side
    case Buy =>
      && env.market.price(r.ticker).Ok?
      && var price := env.market.price(r.ticker).value;
      r.qty * price <= TICKS_PER_CENT * deps.limits.notional < (r.qty + 1) * price
    case Sell => r.ticker in t.positions && r.qty <= t.positions[r.ticker].qty
  }

  /** At prices from a cent up, every request a cycle sends is well sized. */
  lemma {:induction false} SentAreWellSized(w: World, deps: Deps, env: Env, i: nat)
    requires Runnable(deps) && Admissible(deps.rules) && QuotesFromACent(env) && Balanced(w.working)
    requires var after := CycleSpec(w, deps, env).world.trace; |w.trace| <= i < |after| && after[i].Sent?
    ensures WellSized(CycleSpec(w, deps, env).world.trace[i].request, w.working, deps, env)
  {
    var cycleId := env.uuid(FreshCycle);
    var t := InsertCycle(w.working, cycleId, env.now(Started), deps.mode, env.faults);
    CycleSends(w, deps, env);
    BalancedStable(w.working, t.value);
    var w1 := w.(working := t.value);
    var r := CycleSpec(w, deps, env).world.trace[i].request;
    assert SentForSome(r, StartedCycle(w1, cycleId, deps, env).todo);
    StartedWellSized(w1, cycleId, deps, env, r);
  }

  lemma {:induction false} StartedWellSized(w: World, cycleId: Id, deps: Deps, env: Env, r: OrderRequest)
    requires Runnable(deps) && Admissible(deps.rules) && QuotesFromACent(env) && Balanced(w.working)
    requires SentForSome(r, StartedCycle(w, cycleId, deps, env).todo)
    ensures WellSized(r, w.working, deps, env)
  {
    StartedSized(w, cycleId, deps, env);
    SellsAreCovered(w, cycleId, deps, env);
    SomeWellSized(r, StartedCycle(w, cycleId, deps, env).todo, w.working, deps, env);
  }

  lemma {:induction false} SomeWellSized(r: OrderRequest, todo: seq<Decision>, t: Tables, deps: Deps, env: Env)
    requires SentForSome(r, todo) && BuysSized(todo, deps.limits.notional, env)
    requires forall d :: d in todo && Tradable(d) && d.action == ActSell ==> Covered(t, d)
    ensures WellSized(r, t, deps, env)
  {
    var d :| d in todo && Tradable(d) && SentFor(r, d);
    if d.action == ActBuy { assert LargestWithin(d, deps.limits.notional, env.market); } else { assert Covered(t, d); }
  }
}
