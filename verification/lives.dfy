// The life of a stored position: what cycles, reverts and crashes do to a held
// position is marks at quotes of the market and sells whose fills are stored.
module Lives {
  import opened Money
  import opened Models
  import opened Rules
  import opened Ledger
  import opened Environment
  import opened Execution
  import opened Fills
  import opened Settlement
  import opened Polling
  import opened Holdings
  import opened Exits
  import opened Proposals
  import opened KillSwitch
  import opened Cycle
  import opened Preparation
  import opened Recording
  import opened Runs

  /** A position of `ticker` as it was once stored, with the fills of that time, and the quotes seen since. */
  datatype Life = Life(ticker: Ticker, start: Position, before: seq<Fill>, quotes: set<Ticks>)

  /** What may happen to it: a mark at a quote, a sell whose fill has been stored since. It is never bought. */
  ghost predicate Happened(l: Life, e: LifeEvent, u: Tables) {
    match e
    case MarkedAt(price) => price in l.quotes
    case Bought(_, _) => false
    case Sold(fill, d, _) => fill in u.fills && fill !in l.before && d.ticker == l.ticker
  }

  ghost predicate SoldOnce(es: seq<LifeEvent>) {
    forall i, j :: 0 <= i < j < |es| && es[i].Sold? && es[j].Sold? ==> es[i].fill.id != es[j].fill.id
  }

  ghost predicate Kept(l: Life, es: seq<LifeEvent>, u: Tables) {
    SoldOnce(es) && forall e :: e in es ==> Happened(l, e, u)
  }

  /** The row stored now is the life of the one stored then. */
  ghost predicate Became(l: Life, u: Tables)
    requires l.ticker in u.positions
  {
    exists es :: Exits.Live(l.start, es) == Some(u.positions[l.ticker]) && Kept(l, es, u)
  }

  ghost predicate Continues(l: Life, u: Tables) {
    KeysMatch(u) && l.before <= u.fills && (l.ticker in u.positions ==> Became(l, u))
  }

  ghost predicate GoesOn(w: World, from: nat, l: Life) { Throughout(w, from, t => Continues(l, t)) }

  function Begin(t: Tables, k: Ticker, quotes: set<Ticks>): Life
    requires k in t.positions
  {
    Life(k, t.positions[k], t.fills, quotes)
  }

  lemma {:induction false} Begins(t: Tables, k: Ticker, quotes: set<Ticks>)
    requires KeysMatch(t) && k in t.positions
    ensures Continues(Begin(t, k, quotes), t)
  {
    var l := Begin(t, k, quotes);
    assert Exits.Live(l.start, []) == Some(t.positions[k]) && Kept(l, [], t);
  }

  lemma {:induction false} MoreQuotes(l: Life, quotes: set<Ticks>, u: Tables)
    requires Continues(l, u) && l.quotes <= quotes
    ensures Continues(l.(quotes := quotes), u)
  {
    if l.ticker in u.positions {
      var es :| Exits.Live(l.start, es) == Some(u.positions[l.ticker]) && Kept(l, es, u);
      assert Kept(l.(quotes := quotes), es, u) by {
        forall e | e in es ensures Happened(l.(quotes := quotes), e, u) { assert Happened(l, e, u); }
      }
    }
  }

  /** Its row is not touched. */
  lemma {:induction false} Untouched(l: Life, u: Tables, v: Tables)
    requires Continues(l, u) && KeysMatch(v) && u.fills <= v.fills
    requires l.ticker in v.positions ==> l.ticker in u.positions && v.positions[l.ticker] == u.positions[l.ticker]
    ensures Continues(l, v)
  {
    if l.ticker in v.positions {
      var es :| Exits.Live(l.start, es) == Some(u.positions[l.ticker]) && Kept(l, es, u);
      assert Kept(l, es, v) by {
        forall e | e in es ensures Happened(l, e, v) { assert Happened(l, e, u); }
      }
    }
  }

  ghost predicate IsNew(e: LifeEvent, u: Tables) { e.Sold? ==> forall g :: g in u.fills ==> g.id != e.fill.id }

  /** One more event. */
  lemma {:induction false} OneMore(l: Life, u: Tables, v: Tables, e: LifeEvent)
    requires Continues(l, u) && KeysMatch(v) && u.fills <= v.fills
    requires l.ticker in u.positions && l.ticker in v.positions
    requires LiveOne(u.positions[l.ticker], e) == Some(v.positions[l.ticker]) && Happened(l, e, v) && IsNew(e, u)
    ensures Continues(l, v)
  {
    var es :| Exits.Live(l.start, es) == Some(u.positions[l.ticker]) && Kept(l, es, u);
    var more := es + [e];
    assert more[..|es|] == es;
    assert Exits.Live(l.start, more) == Some(v.positions[l.ticker]);
    forall x | x in more ensures Happened(l, x, v) { if x in es { assert Happened(l, x, u); } }
    forall i, j | 0 <= i < j < |more| && more[i].Sold? && more[j].Sold? ensures more[i].fill.id != more[j].fill.id {
      assert more[i] == es[i] && es[i] in es && Happened(l, es[i], u);
    }
    assert Kept(l, more, v);
  }

  // ---- a poll ----

  /** A settled sell that leaves the row changed is one sell of it. */
  lemma {:induction false} SettledOnce(u: Tables, job: PollJob, f: Fill, faults: Faults)
    requires KeysMatch(u) && job.side.Sell?
    ensures var v, k := SettleSpec(u, job, f, faults).tables, job.decision.ticker;
            k in v.positions ==>
              && k in u.positions
              && (v.positions[k] == u.positions[k]
                  || LiveOne(u.positions[k], Sold(f, job.decision, job.reason)) == Some(v.positions[k]))
  {
  }

  lemma {:induction false} RecordLives(l: Life, s: PollState, job: PollJob, bo: BrokerOrder, env: Env)
    requires Continues(l, s.tables) && (job.side.Buy? ==> job.decision.ticker != l.ticker)
    ensures Continues(l, RecordNew(s, job, bo, env).state.tables)
  {
    var v := RecordNew(s, job, bo, env).state.tables;
    RecordNewFrame(s, job, bo, env);
    var fill := NewFill(s, job, bo, env);
    if fill.Some? && InsertFill(s.tables, fill.value, env.faults).Ok? && job.decision.ticker == l.ticker {
      var u := InsertFill(s.tables, fill.value, env.faults).value;
      SettledLives(l, s.tables, u, v, job, fill.value, env.faults);
    } else {
      Untouched(l, s.tables, v);
    }
  }

  lemma {:induction false} SettledLives(l: Life, t: Tables, u: Tables, v: Tables, job: PollJob, f: Fill, faults: Faults)
    requires Continues(l, t) && job.side.Sell? && job.decision.ticker == l.ticker
    requires InsertFill(t, f, faults) == Ok(u) && v == SettleSpec(u, job, f, faults).tables
    ensures Continues(l, v)
  {
    SettleFrame(u, job, f, faults);
    SettleWrites(u, job, f, faults);
    SettledOnce(u, job, f, faults);
    if l.ticker in v.positions && v.positions[l.ticker] != u.positions[l.ticker] {
      var e := Sold(f, job.decision, job.reason);
      assert f == u.fills[|t.fills|];
      assert f !in t.fills && forall g :: g in l.before ==> g in t.fills;
      OneMore(l, t, v, e);
    } else {
      Untouched(l, t, v);
    }
  }

  lemma {:induction false} TurnLives(l: Life, s: PollState, job: PollJob, env: Env)
    requires Continues(l, s.tables) && (job.side.Buy? ==> job.decision.ticker != l.ticker)
    ensures Continues(l, Turn(s, job, env).state.tables)
  {
    match env.broker.read(job.clientOrderId, s.polls)
    case Err(_) =>
    case Ok(bo) =>
      var r := RecordNew(s, job, bo, env);
      RecordLives(l, s, job, bo, env);
      if r.error.None? {
        NoteOrders(r.state, job, bo, env);
        Untouched(l, r.state.tables, NoteStatus(r.state, job, bo, env).state.tables);
      }
  }

  lemma {:induction false} PollLives(l: Life, s: PollState, job: PollJob, env: Env)
    requires Ends(s, job) && Continues(l, s.tables) && (job.side.Buy? ==> job.decision.ticker != l.ticker)
    ensures Continues(l, Poll(s, job, env).state.tables)
    decreases job.timeout - s.elapsed
  {
    TurnLives(l, s, job, env);
    match Turn(s, job, env)
    case Stop(_, _) =>
    case Continue(s') =>
      TurnAdvances(s, job, env);
      PollLives(l, s', job, env);
  }

  // ---- executing ----

  lemma {:induction false} WriteLives(w: World, from: nat, l: Life, t: Tables)
    requires GoesOn(w, from, l) && Continues(l, t)
    ensures GoesOn(w.(working := t), from, l)
    ensures GoesOn(CommitWorld(w.(working := t)), from, l)
  {
  }

  lemma {:induction false} ExecuteLives(w: World, req: ApprovedOrderRequest, env: Env, mode: Mode, from: nat, l: Life)
    requires GoesOn(w, from, l)
    ensures GoesOn(ExecuteSpec(w, req, env, mode).world, from, l)
  {
    var t := RecordOrder(w.working, req, mode, env.faults);
    if t.Ok? {
      Untouched(l, w.working, t.value);
      WriteLives(w, from, l, t.value);
    }
    var w2 := SendWorld(RecordTransaction(w, req, mode, env.faults).0, RequestOf(req));
    assert GoesOn(w2, from, l);
    SubmitOrders(w2, req, env, mode);
    var u := AfterSubmit(w2, req, env, mode).world.working;
    Untouched(l, w2.working, u);
    WriteLives(w2, from, l, u);
  }

  lemma {:induction false} ExecuteOneLives(e: Executions, d: Decision, reasons: map<Id, ExitReason>, deps: Deps,
                                           env: Env, nextClose: Time, from: nat, l: Life)
    requires Paced(deps) && GoesOn(e.world, from, l) && (Tradable(d) && d.action == ActBuy ==> d.ticker != l.ticker)
    ensures GoesOn(ExecuteOne(e, d, reasons, deps, env, nextClose).world, from, l)
  {
    if Tradable(d) {
      var approved := ResolveApproval(d, deps.mode, e.world.working, env, nextClose);
      if approved.Ok? {
        ResolvedIsAuthorized(d, deps.mode, e.world.working, env, nextClose);
        ExecuteLives(e.world, approved.value, env, deps.mode, from, l);
        var x := ExecuteSpec(e.world, approved.value, env, deps.mode);
        if x.result.Ok? {
          var job := JobFor(d, x.result.value, reasons, deps);
          assert x.result.value.side == approved.value.side;
          PollLives(l, PollStart(x.world.working, job.orderId), job, env);
          WriteLives(x.world, from, l, Poll(PollStart(x.world.working, job.orderId), job, env).state.tables);
        }
      }
    }
  }

  lemma {:induction false} ExecuteAllLives(w: World, ds: seq<Decision>, reasons: map<Id, ExitReason>, deps: Deps,
                                           env: Env, nextClose: Time, from: nat, l: Life)
    requires Paced(deps) && GoesOn(w, from, l) && l.ticker !in Buys(ds)
    ensures GoesOn(ExecuteAll(w, ds, reasons, deps, env, nextClose).world, from, l)
  {
    if ds != [] {
      var front, last := ds[..|ds| - 1], ds[|ds| - 1];
      assert forall d :: d in front ==> d in ds;
      ExecuteAllLives(w, front, reasons, deps, env, nextClose, from, l);
      ExecuteOneLives(ExecuteAll(w, front, reasons, deps, env, nextClose), last, reasons, deps, env, nextClose, from,
                      l);
    }
  }

  lemma {:induction false} TradeLives(p: Prepared, cycleId: Id, deps: Deps, env: Env, from: nat, l: Life)
    requires Paced(deps) && GoesOn(p.world, from, l) && l.ticker !in Buys(p.todo)
    ensures GoesOn(TradeAndFinish(p, cycleId, deps, env).world, from, l)
  {
    ExecuteAllLives(p.world, p.todo, p.reasons, deps, env, p.nextClose, from, l);
    var e := ExecuteAll(p.world, p.todo, p.reasons, deps, env, p.nextClose);
    var t := FinishTables(e.world.working, CycleOutcome(cycleId, p.status, p.count, e.orders, e.fills, p.skipped), env);
    if t.Ok? { Untouched(l, e.world.working, t.value); }
    WriteLives(e.world, from, l, if t.Ok? then t.value else e.world.working);
  }

  // ---- marking ----

  /** The row is as it was, or marked at its quote. */
  ghost predicate MarkedAtQuote(t: Tables, u: Tables, k: Ticker, env: Env)
    requires k in t.positions
  {
    && k in u.positions && u.fills == t.fills
    && (u.positions[k] == t.positions[k]
        || (env.market.price(k).Ok? && u.positions[k] == Mark(t.positions[k], env.market.price(k).value)))
  }

  lemma {:induction false} MarkOneAtQuote(t: Tables, s: HoldState, p: Position, k: Ticker, rules: RuleSet, cycleId: Id,
                                          mode: Mode, env: Env)
    requires k in t.positions && MarkedAtQuote(t, s.tables, k, env)
    requires p.ticker in t.positions && t.positions[p.ticker] == p
    ensures MarkedAtQuote(t, MarkOne(s, p, rules, cycleId, mode, env).state.tables, k, env)
  {
  }

  lemma {:induction false} MarkAllAtQuotes(t: Tables, ps: seq<Position>, k: Ticker, rules: RuleSet, cycleId: Id,
                                           mode: Mode, env: Env)
    requires k in t.positions && ListedIn(t, ps)
    ensures MarkedAtQuote(t, MarkAll(t, ps, rules, cycleId, mode, env).state.tables, k, env)
  {
    if ps != [] {
      var front, p := ps[..|ps| - 1], ps[|ps| - 1];
      assert ps == front + [p];
      FrontListed(t, front, p);
      MarkAllAtQuotes(t, front, k, rules, cycleId, mode, env);
      MarkOneAtQuote(t, MarkAll(t, front, rules, cycleId, mode, env).state, p, k, rules, cycleId, mode, env);
    }
  }

  /** The quotes of k that an environment shows. */
  function QuoteOf(env: Env, k: Ticker): set<Ticks> {
    if env.market.price(k).Ok? then {env.market.price(k).value} else {}
  }

  lemma {:induction false} MarkedLives(l: Life, t: Tables, u: Tables, env: Env)
    requires Continues(l, t) && KeysMatch(u) && QuoteOf(env, l.ticker) <= l.quotes
    requires l.ticker in t.positions && MarkedAtQuote(t, u, l.ticker, env)
    ensures Continues(l, u)
  {
    if u.positions[l.ticker] == t.positions[l.ticker] { Untouched(l, t, u); }
    else { OneMore(l, t, u, MarkedAt(env.market.price(l.ticker).value)); }
  }

  lemma {:induction false} HoldingsLive(l: Life, t: Tables, cycleId: Id, deps: Deps, env: Env)
    requires Continues(l, t) && l.ticker in t.positions && QuoteOf(env, l.ticker) <= l.quotes
    ensures Continues(l, MarkAll(t, ListPositions(t.positions), deps.rules, cycleId, deps.mode, env).state.tables)
  {
    ListsEachOnce(t.positions);
    HoldingsPrepared(t, cycleId, deps, env);
    MarkAllAtQuotes(t, ListPositions(t.positions), l.ticker, deps.rules, cycleId, deps.mode, env);
    MarkedLives(l, t, MarkAll(t, ListPositions(t.positions), deps.rules, cycleId, deps.mode, env).state.tables, env);
  }

  // ---- before executing ----

  lemma {:induction false} RiskLives(w: World, h: HoldingsOutcome, deps: Deps, env: Env, from: nat, l: Life)
    requires GoesOn(w, from, l)
    ensures var r := EvaluateRiskSpec(w, h, deps, env);
            GoesOn(if r.GoOn? then r.world else r.prepared.world, from, l)
  {
    if env.broker.account.Ok? {
      var s := TodaysSnapshot(w.working.snapshots, env.broker.account.value, h, deps, env);
      var t := UpsertSnapshot(w.working, s, env.faults);
      if t.Ok? {
        Untouched(l, w.working, t.value);
        WriteLives(w, from, l, t.value);
        var breach := BreachAt(t.value, s, h, deps, env);
        if breach.Some? { TriggerLives(w.(working := t.value), breach.value, env, from, l); }
      }
    }
  }

  lemma {:induction false} TriggerLives(w: World, kind: LossKind, env: Env, from: nat, l: Life)
    requires GoesOn(w, from, l)
    ensures GoesOn(TriggerSpec(w, kind, env.faults).world, from, l)
  {
    var t := HaltTables(w.working, ReasonText(kind), "", env.faults);
    if t.Ok? {
      Untouched(l, w.working, t.value);
      WriteLives(w, from, l, t.value);
    }
  }

  lemma {:induction false} BuySideLives(w: World, cycleId: Id, held: set<Ticker>, h: HoldingsOutcome, mc: MarketClock,
                                        deps: Deps, env: Env, from: nat, l: Life)
    requires Runnable(deps) && GoesOn(w, from, l)
    ensures GoesOn(BuySide(w, cycleId, held, h, mc, deps, env).world, from, l)
  {
    var ds := DecideCandidates(SettingFor(cycleId, held, mc, deps), env);
    var i := InsertAll(w.working, ds, env.faults);
    InsertAllRecords(w.working, ds, env.faults);
    Untouched(l, w.working, i.tables);
    WriteLives(w, from, l, i.tables);
  }

  lemma {:induction false} StartedLives(w: World, cycleId: Id, deps: Deps, env: Env, from: nat, l: Life)
    requires Runnable(deps) && GoesOn(w, from, l) && l.ticker in w.working.positions
    requires QuoteOf(env, l.ticker) <= l.quotes
    ensures GoesOn(StartedCycle(w, cycleId, deps, env).world, from, l)
  {
    var m := MarkAll(w.working, ListPositions(w.working.positions), deps.rules, cycleId, deps.mode, env);
    HoldingsLive(l, w.working, cycleId, deps, env);
    var w1 := w.(working := m.state.tables);
    WriteLives(w, from, l, m.state.tables);
    if !IsHalted(w.working) && env.market.clock.Ok? && m.error.None? && m.state.errors == [] {
      RiskLives(w1, OutcomeOf(m.state), deps, env, from, l);
      match EvaluateRiskSpec(w1, OutcomeOf(m.state), deps, env)
      case Stopped(_) =>
      case GoOn(w2) =>
        BuySideLives(w2, cycleId, w.working.positions.Keys, OutcomeOf(m.state), env.market.clock.value, deps, env,
                     from, l);
    }
  }

  /** At every commit of a cycle the row it started with is gone or lives on: marks at the cycle's own
      quote and sells with stored fills, whatever it reverts. */
  lemma {:induction false} CycleLives(w: World, deps: Deps, env: Env, l: Life)
    requires Runnable(deps) && w.committed == w.working && Continues(l, w.working)
    requires l.ticker in w.working.positions && QuoteOf(env, l.ticker) <= l.quotes
    ensures GoesOn(CycleSpec(w, deps, env).world, |w.trace|, l)
  {
    var cycleId := env.uuid(FreshCycle);
    var t := InsertCycle(w.working, cycleId, env.now(Started), deps.mode, env.faults);
    assert GoesOn(w, |w.trace|, l);
    if t.Ok? {
      var w1 := w.(working := t.value);
      Untouched(l, w.working, t.value);
      WriteLives(w, |w.trace|, l, t.value);
      StartedLives(w1, cycleId, deps, env, |w.trace|, l);
      StartedPrepared(w1, cycleId, deps, env);
      NeverBought(w1, StartedCycle(w1, cycleId, deps, env), deps.rules.maxConcurrentPositions, l.ticker);
      TradeLives(StartedCycle(w1, cycleId, deps, env), cycleId, deps, env, |w.trace|, l);
    }
  }

  lemma {:induction false} NeverBought(w: World, p: Prepared, cap: nat, k: Ticker)
    requires WellPrepared(w, p, cap) && k in w.working.positions
    ensures k !in Buys(p.todo)
  {
    forall d | d in p.todo && Tradable(d) && d.action == ActBuy ensures d.ticker != k {
      assert Task(w.working, p.world.working, p.reasons, d);
    }
  }

  // ---- every run ----

  lemma {:induction false} ResubmitLives(w: World, id: Id, mode: Mode, nextClose: Time, env: Env, l: Life)
    requires AtRest(w) && Continues(l, w.working)
    ensures GoesOn(Resubmit(w, id, mode, nextClose, env), |w.trace|, l)
  {
    assert GoesOn(w, |w.trace|, l);
    if id in w.working.decisions {
      var approved := ResolveApproval(w.working.decisions[id], mode, w.working, env, nextClose);
      if approved.Ok? { ExecuteLives(w, approved.value, env, mode, |w.trace|, l); }
    }
  }

  /** The quotes of k in a command's environment, if it is a cycle. */
  function QuotesOf(c: Command, k: Ticker): set<Ticks> {
    match c
    case CycleRuns(_, env) => QuoteOf(env, k)
    case Killed(command, _) => QuotesOf(command, k)
    case _ => {}
  }

  function QuotesIn(cs: seq<Command>, k: Ticker): set<Ticks> {
    if cs == [] then {} else QuotesIn(cs[..|cs| - 1], k) + QuotesOf(cs[|cs| - 1], k)
  }

  lemma {:induction false} StepLives(w: World, c: Command, l: Life)
    requires AtRest(w) && Proper(c) && Continues(l, w.working)
    requires l.ticker in w.working.positions && QuotesOf(c, l.ticker) <= l.quotes
    ensures GoesOn(Step(w, c), |w.trace|, l)
    decreases c
  {
    match c
    case CycleRuns(deps, env) => CycleLives(w, deps, env, l);
    case Resumes(faults) =>
      ResumeGuarded(w, faults);
      Untouched(l, w.working, ResumeSpec(w, faults).working);
    case Approves(id, expiresAt, env) =>
      ApprovalGuarded(w, id, expiresAt, env);
      Untouched(l, w.working, HumanApprovalSpec(w, id, expiresAt, env).world.working);
    case Resubmits(id, mode, nextClose, env) => ResubmitLives(w, id, mode, nextClose, env, l);
    case Killed(command, after) =>
      StepLives(w, command, l);
      StepAtRest(w, command);
      CrashLeaves(w, Step(w, command), after, t => Continues(l, t));
  }

  /** k is held before, between and after the commands. */
  ghost predicate HeldOn(w: World, cs: seq<Command>, k: Ticker)
    requires AllProper(cs)
  {
    k in Run(w, cs).working.positions && (cs != [] ==> HeldOn(w, cs[..|cs| - 1], k))
  }

  /** In every run, for as long as k is held: its row is the life of the row it started as. What has
      happened to it is marks at quotes of the run's cycles, and sells with fills stored in the run, each
      settled once; reverts and crashes take back whole events and nothing else. */
  lemma {:induction false} RunLives(w: World, cs: seq<Command>, k: Ticker)
    requires AtRest(w) && AllProper(cs) && HeldOn(w, cs, k) && k in w.working.positions
    ensures Continues(Begin(w.working, k, QuotesIn(cs, k)), Run(w, cs).working)
  {
    if cs == [] {
      Begins(w.working, k, {});
    } else {
      var front, last := cs[..|cs| - 1], cs[|cs| - 1];
      assert last in cs;
      RunLives(w, front, k);
      RunIsSafe(w, front);
      MoreQuotes(Begin(w.working, k, QuotesIn(front, k)), QuotesIn(cs, k), Run(w, front).working);
      StepLives(Run(w, front), last, Begin(w.working, k, QuotesIn(cs, k)));
    }
  }

  // ---- what a row cannot do ----

  function SoldQty(es: seq<LifeEvent>): nat {
    if es == [] then 0
    else SoldQty(es[..|es| - 1]) + (if es[|es| - 1].Sold? then es[|es| - 1].fill.qty else 0)
  }

  /** Without buys the cost stays, and the shares go by sells alone. */
  lemma {:induction false} UnboughtLife(p: Position, es: seq<LifeEvent>)
    requires Exits.Live(p, es).Some? && forall e :: e in es ==> !e.Bought?
    ensures var q := Exits.Live(p, es).value;
            q.avgCost == p.avgCost && q.qty == p.qty - SoldQty(es) && (p.partialTpDone ==> q.partialTpDone)
  {
    if es != [] {
      var front, last := es[..|es| - 1], es[|es| - 1];
      assert es == front + [last];
      assert last in es && forall e :: e in front ==> e in es;
      UnboughtLife(p, front);
    }
  }

  /** In every run a held row keeps its opening and its average cost, holds no more shares, never lowers
      its watermark, raises it only to a quote of k, and keeps a done partial take-profit done. */
  lemma {:induction false} HeldRow(w: World, cs: seq<Command>, k: Ticker)
    requires AtRest(w) && AllProper(cs) && HeldOn(w, cs, k) && k in w.working.positions
    ensures var p, q := w.working.positions[k], Run(w, cs).working.positions[k];
            && q.openedAt == p.openedAt && q.avgCost == p.avgCost && q.qty <= p.qty
            && p.highWatermark <= q.highWatermark
            && (q.highWatermark == p.highWatermark || q.highWatermark in QuotesIn(cs, k))
            && (p.partialTpDone ==> q.partialTpDone)
  {
    var l, u := Begin(w.working, k, QuotesIn(cs, k)), Run(w, cs).working;
    RunLives(w, cs, k);
    var es :| Exits.Live(l.start, es) == Some(u.positions[k]) && Kept(l, es, u);
    forall e | e in es ensures Happened(l, e, u) && !e.Bought? { assert Happened(l, e, u); }
    WatermarkIsMaximum(l.start, es);
    UnboughtLife(l.start, es);
  }
}
