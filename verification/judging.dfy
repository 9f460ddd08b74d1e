// Exactly what evaluating the holdings finds: the value, the gain, the missing
// quotes, the raised watermarks, and one sell for each position an exit rule fires on.
module Judging {
  import opened Money
  import opened Models
  import opened Rules
  import opened Ledger
  import opened Environment
  import opened Holdings
  import opened Exits

  /** A position after it was shown a quote. */
  function Raised(p: Position, price: Ticks): Position { p.(highWatermark := Max(p.highWatermark, price)) }

  /** The position's quote makes this exit rule fire. */
  ghost predicate DueFor(p: Position, reason: ExitReason, rules: RuleSet, env: Env) {
    && env.market.price(p.ticker).Ok?
    && var price := env.market.price(p.ticker).value;
    Fires(reason, Raised(p, price), price, rules, env.now(AtHoldings))
  }

  ghost predicate Due(p: Position, rules: RuleSet, env: Env) {
    exists reason: ExitReason :: DueFor(p, reason, rules, env)
  }

  /** The positions to sell, in the order they are listed. */
  ghost function DueOf(ps: seq<Position>, rules: RuleSet, env: Env): seq<Position> {
    if ps == [] then []
    else
      var front, last := DueOf(ps[..|ps| - 1], rules, env), ps[|ps| - 1];
      if Due(last, rules, env) then front + [last] else front
  }

  ghost function DueIds(ps: seq<Position>, rules: RuleSet, env: Env): set<Id> {
    set p | p in ps && Due(p, rules, env) :: env.uuid(FreshExit(p.ticker))
  }

  /** What the priced positions are worth, each to the nearest cent. */
  ghost function WorthOf(ps: seq<Position>, market: Market): Cents {
    if ps == [] then 0
    else
      var p, quote := ps[|ps| - 1], market.price(ps[|ps| - 1].ticker);
      WorthOf(ps[..|ps| - 1], market) + (if quote.Ok? then ToCents(quote.value * p.qty) else 0)
  }

  /** What they have gained over their cost, each to the nearest cent. */
  ghost function GainOf(ps: seq<Position>, market: Market): Cents {
    if ps == [] then 0
    else
      var p, quote := ps[|ps| - 1], market.price(ps[|ps| - 1].ticker);
      GainOf(ps[..|ps| - 1], market) + (if quote.Ok? then ToCents((quote.value - p.avgCost) * p.qty) else 0)
  }

  ghost function UnpricedOf(ps: seq<Position>, market: Market): seq<Ticker> {
    if ps == [] then []
    else
      UnpricedOf(ps[..|ps| - 1], market)
      + (if market.price(ps[|ps| - 1].ticker).Err? then [ps[|ps| - 1].ticker] else [])
  }

  function FractionOf(reason: ExitReason, rules: RuleSet): Ratio {
    if reason == PartialTakeProfit then rules.takeProfitFraction else Ratio(1, 1)
  }

  /** d sells the fraction its reason says, at the quote. */
  ghost predicate ExitOf(d: Decision, p: Position, reason: ExitReason, rules: RuleSet, cycleId: Id, mode: Mode,
                         env: Env) {
    && DueFor(p, reason, rules, env)
    && d.id == env.uuid(FreshExit(p.ticker)) && d.cycleId == cycleId && d.decidedAt == env.now(AtHoldings)
    && d.mode == mode && d.ticker == p.ticker && d.action == ActSell && d.origin == RuleExit && d.ruleCheck == Passed
    && var price := env.market.price(p.ticker).value;
    && d.referencePrice == Some(price)
    && exists shares :: SharesIn(p.qty, FractionOf(reason, rules), shares)
                        && d.proposedNotional == Some(ToCents(price * shares))
  }

  /** One sell for each due position, in order, filed under the reason that fired. */
  ghost predicate Judged(ds: seq<Decision>, reasons: map<Id, ExitReason>, due: seq<Position>, rules: RuleSet,
                         cycleId: Id, mode: Mode, env: Env) {
    && |ds| == |due|
    && forall i :: 0 <= i < |ds| ==>
         ds[i].id in reasons && ExitOf(ds[i], due[i], reasons[ds[i].id], rules, cycleId, mode, env)
  }

  /** A position's row: raised by its quote, if it has one. */
  ghost predicate RowShown(u: Tables, p: Position, market: Market) {
    && p.ticker in u.positions
    && u.positions[p.ticker]
       == if market.price(p.ticker).Ok? then Raised(p, market.price(p.ticker).value) else p
  }

  ghost predicate RowsShown(u: Tables, ps: seq<Position>, market: Market) {
    forall p :: p in ps ==> RowShown(u, p, market)
  }

  /** Beside the positions' rows, just these decisions are new. */
  ghost predicate Stored(t: Tables, u: Tables, ds: seq<Decision>, ids: set<Id>) {
    && u == t.(positions := u.positions, decisions := u.decisions)
    && u.decisions.Keys == t.decisions.Keys + ids
    && forall d :: d in ds ==> d.id in u.decisions && u.decisions[d.id] == d
  }

  ghost predicate Totals(s: HoldState, ps: seq<Position>, market: Market) {
    s.value == WorthOf(ps, market) && s.unrealized == GainOf(ps, market) && s.errors == UnpricedOf(ps, market)
  }

  /** What the evaluation of ps has found. */
  ghost predicate Found(t: Tables, s: HoldState, ps: seq<Position>, rules: RuleSet, cycleId: Id, mode: Mode, env: Env) {
    && Totals(s, ps, env.market)
    && Judged(s.decisions, s.reasons, DueOf(ps, rules, env), rules, cycleId, mode, env)
    && Stored(t, s.tables, s.decisions, DueIds(ps, rules, env)) && RowsShown(s.tables, ps, env.market)
  }

  lemma {:induction false} RaisedIsMark(p: Position, price: Ticks)
    ensures Mark(p, price) == Raised(p, price)
  {
  }

  /** What DecideExit does is what the rules make due. */
  lemma {:induction false} SignalIsDue(p: Position, price: Ticks, rules: RuleSet, env: Env)
    requires env.market.price(p.ticker) == Ok(price)
    ensures var signal := CheckExit(Mark(p, price), price, rules, env.now(AtHoldings));
            && (signal.Some? <==> Due(p, rules, env))
            && (signal.Some? ==> DueFor(p, signal.value.reason, rules, env)
                                 && signal.value.fraction == FractionOf(signal.value.reason, rules))
  {
    var signal := CheckExit(Mark(p, price), price, rules, env.now(AtHoldings));
    ExitExactly(Mark(p, price), price, rules, env.now(AtHoldings));
    if signal.Some? { assert DueFor(p, signal.value.reason, rules, env); }
    if Due(p, rules, env) {
      var reason: ExitReason :| DueFor(p, reason, rules, env);
      assert Fires(reason, Mark(p, price), price, rules, env.now(AtHoldings));
    }
  }

  lemma {:induction false} ExitIsOf(p: Position, price: Ticks, signal: ExitSignal, rules: RuleSet, cycleId: Id,
                                    mode: Mode, env: Env)
    requires env.market.price(p.ticker) == Ok(price) && DueFor(p, signal.reason, rules, env)
    requires signal.fraction == FractionOf(signal.reason, rules)
    ensures ExitOf(ExitDecision(Mark(p, price), price, signal.fraction, cycleId, mode, env), p, signal.reason, rules,
                   cycleId, mode, env)
  {
    SellQtyExactly(p.qty, signal.fraction);
    assert SharesIn(p.qty, FractionOf(signal.reason, rules), SellQty(p.qty, signal.fraction));
  }

  lemma {:induction false} DueSnoc(ps: seq<Position>, p: Position, rules: RuleSet, env: Env)
    ensures DueOf(ps + [p], rules, env) == DueOf(ps, rules, env) + (if Due(p, rules, env) then [p] else [])
    ensures DueIds(ps + [p], rules, env)
            == DueIds(ps, rules, env) + (if Due(p, rules, env) then {env.uuid(FreshExit(p.ticker))} else {})
  {
    assert (ps + [p])[..|ps|] == ps;
    assert forall q :: q in ps + [p] <==> q in ps || q == p;
    if Due(p, rules, env) { assert p in ps + [p]; }
  }

  lemma {:induction false} TotalsShown(s: HoldState, s': HoldState, ps: seq<Position>, p: Position, price: Ticks,
                                       market: Market)
    requires Totals(s, ps, market) && market.price(p.ticker) == Ok(price)
    requires s'.value == Valued(s, p, price).value && s'.unrealized == Valued(s, p, price).unrealized
             && s'.errors == s.errors
    ensures Totals(s', ps + [p], market)
  {
    assert (ps + [p])[..|ps|] == ps;
  }

  lemma {:induction false} TotalsUnpriced(s: HoldState, s': HoldState, ps: seq<Position>, p: Position, market: Market)
    requires Totals(s, ps, market) && market.price(p.ticker).Err?
    requires s'.value == s.value && s'.unrealized == s.unrealized && s'.errors == s.errors + [p.ticker]
    ensures Totals(s', ps + [p], market)
  {
    assert (ps + [p])[..|ps|] == ps;
  }

  lemma {:induction false} JudgedMore(ds: seq<Decision>, reasons: map<Id, ExitReason>, due: seq<Position>, d: Decision,
                                      reason: ExitReason, p: Position, rules: RuleSet, cycleId: Id, mode: Mode,
                                      env: Env)
    requires Judged(ds, reasons, due, rules, cycleId, mode, env) && ExitOf(d, p, reason, rules, cycleId, mode, env)
    requires forall x :: x in ds ==> x.id != d.id
    ensures Judged(ds + [d], reasons[d.id := reason], due + [p], rules, cycleId, mode, env)
  {
  }

  /** The statement that marks or sells p fails. */
  ghost predicate Refused(t: Tables, seen: set<Id>, p: Position, rules: RuleSet, cycleId: Id, env: Env) {
    && env.market.price(p.ticker).Ok?
    && (|| env.faults(UpsertPositionStmt(p.ticker, None))
        || (&& Due(p, rules, env)
            && var id := env.uuid(FreshExit(p.ticker));
            env.faults(InsertDecisionStmt(id)) || id in t.decisions || id in seen || cycleId !in t.cycles))
  }

  lemma {:induction false} MarkOneFinds(t: Tables, s: HoldState, ps: seq<Position>, p: Position, rules: RuleSet,
                                        cycleId: Id, mode: Mode, env: Env)
    requires Found(t, s, ps, rules, cycleId, mode, env)
    requires p.ticker in s.tables.positions && s.tables.positions[p.ticker] == p && p.ticker !in TickersOf(ps)
    ensures var m := MarkOne(s, p, rules, cycleId, mode, env);
            && (m.error.Some? <==> Refused(t, DueIds(ps, rules, env), p, rules, cycleId, env))
            && (m.error.None? ==> Found(t, m.state, ps + [p], rules, cycleId, mode, env))
  {
    match env.market.price(p.ticker)
    case Ok(price) => PricedFinds(t, s, ps, p, price, rules, cycleId, mode, env);
    case Err(_) => FoundUnpriced(t, s, s.(errors := s.errors + [p.ticker]), ps, p, rules, cycleId, mode, env);
  }

  lemma {:induction false} FoundUnpriced(t: Tables, s: HoldState, s': HoldState, ps: seq<Position>, p: Position,
                                         rules: RuleSet, cycleId: Id, mode: Mode, env: Env)
    requires Found(t, s, ps, rules, cycleId, mode, env) && env.market.price(p.ticker).Err?
    requires p.ticker in s.tables.positions && s.tables.positions[p.ticker] == p
    requires s' == s.(errors := s.errors + [p.ticker])
    ensures Found(t, s', ps + [p], rules, cycleId, mode, env)
  {
    assert !Due(p, rules, env);
    DueSnoc(ps, p, rules, env);
    TotalsUnpriced(s, s', ps, p, env.market);
    assert forall q :: q in ps + [p] <==> q in ps || q == p;
    assert RowsShown(s.tables, ps + [p], env.market);
  }

  /** What is found once p is shown its quote and is not due. */
  lemma {:induction false} FoundShown(t: Tables, s: HoldState, s': HoldState, ps: seq<Position>, p: Position,
                                      price: Ticks, rules: RuleSet, cycleId: Id, mode: Mode, env: Env)
    requires Found(t, s, ps, rules, cycleId, mode, env) && env.market.price(p.ticker) == Ok(price)
    requires p.ticker !in TickersOf(ps) && !Due(p, rules, env)
    requires s' == Valued(s, p, price).(tables := s.tables.(positions :=
                                                              s.tables.positions[p.ticker := Mark(p, price)]))
    ensures Found(t, s', ps + [p], rules, cycleId, mode, env)
  {
    DueSnoc(ps, p, rules, env);
    TotalsShown(s, s', ps, p, price, env.market);
    OneMoreShown(s.tables, s'.tables, ps, p, price, env.market);
  }

  /** And once its exit is stored, if it is. */
  lemma {:induction false} FoundExit(t: Tables, s: HoldState, s': HoldState, ps: seq<Position>, p: Position,
                                     price: Ticks, d: Decision, reason: ExitReason, rules: RuleSet, cycleId: Id,
                                     mode: Mode, env: Env)
    requires Found(t, s, ps, rules, cycleId, mode, env) && env.market.price(p.ticker) == Ok(price)
    requires p.ticker !in TickersOf(ps) && ExitOf(d, p, reason, rules, cycleId, mode, env)
    requires d.id !in s.tables.decisions
    requires s' == Valued(s, p, price).(tables := s.tables.(positions := s.tables.positions[p.ticker := Mark(p, price)],
                                                            decisions := s.tables.decisions[d.id := d]),
                                        decisions := s.decisions + [d], reasons := s.reasons[d.id := reason])
    ensures Found(t, s', ps + [p], rules, cycleId, mode, env)
  {
    assert Due(p, rules, env);
    DueSnoc(ps, p, rules, env);
    TotalsShown(s, s', ps, p, price, env.market);
    OneMoreShown(s.tables, s'.tables, ps, p, price, env.market);
    OneMoreStored(t, s.tables, s'.tables, s.decisions, d, DueIds(ps, rules, env));
    JudgedMore(s.decisions, s.reasons, DueOf(ps, rules, env), d, reason, p, rules, cycleId, mode, env);
  }

  lemma {:induction false} OneMoreShown(t: Tables, u: Tables, ps: seq<Position>, p: Position, price: Ticks,
                                        market: Market)
    requires market.price(p.ticker) == Ok(price) && p.ticker !in TickersOf(ps)
    requires u.positions == t.positions[p.ticker := Mark(p, price)] && RowsShown(t, ps, market)
    ensures RowsShown(u, ps + [p], market)
  {
    forall q | q in ps + [p] ensures RowShown(u, q, market) {
      if q in ps { assert q.ticker in TickersOf(ps) && RowShown(t, q, market); } else { assert q == p; }
    }
  }

  lemma {:induction false} OneMoreStored(t: Tables, u: Tables, u': Tables, ds: seq<Decision>, d: Decision, ids: set<Id>)
    requires Stored(t, u, ds, ids) && d.id !in u.decisions
    requires u' == u.(positions := u'.positions, decisions := u.decisions[d.id := d])
    ensures Stored(t, u', ds + [d], ids + {d.id})
  {
  }

  lemma {:induction false} PricedFinds(t: Tables, s: HoldState, ps: seq<Position>, p: Position, price: Ticks,
                                       rules: RuleSet, cycleId: Id, mode: Mode, env: Env)
    requires Found(t, s, ps, rules, cycleId, mode, env) && env.market.price(p.ticker) == Ok(price)
    requires p.ticker !in TickersOf(ps)
    ensures var m := MarkOne(s, p, rules, cycleId, mode, env);
            && (m.error.Some? <==> Refused(t, DueIds(ps, rules, env), p, rules, cycleId, env))
            && (m.error.None? ==> Found(t, m.state, ps + [p], rules, cycleId, mode, env))
  {
    SignalIsDue(p, price, rules, env);
    var signal := CheckExit(Mark(p, price), price, rules, env.now(AtHoldings));
    var m := MarkOne(s, p, rules, cycleId, mode, env);
    if env.faults(UpsertPositionStmt(p.ticker, None)) {
    } else if signal.None? {
      FoundShown(t, s, m.state, ps, p, price, rules, cycleId, mode, env);
    } else {
      var d := ExitDecision(Mark(p, price), price, signal.value.fraction, cycleId, mode, env);
      ExitIsOf(p, price, signal.value, rules, cycleId, mode, env);
      if m.error.None? { FoundExit(t, s, m.state, ps, p, price, d, signal.value.reason, rules, cycleId, mode, env); }
    }
  }

  /** Some statement of the evaluation is refused. */
  ghost predicate SomeRefused(t: Tables, ps: seq<Position>, rules: RuleSet, cycleId: Id, env: Env) {
    exists i :: 0 <= i < |ps| && Refused(t, DueIds(ps[..i], rules, env), ps[i], rules, cycleId, env)
  }

  lemma {:induction false} RefusedSnoc(t: Tables, ps: seq<Position>, p: Position, rules: RuleSet, cycleId: Id, env: Env)
    ensures SomeRefused(t, ps + [p], rules, cycleId, env)
            <==> SomeRefused(t, ps, rules, cycleId, env) || Refused(t, DueIds(ps, rules, env), p, rules, cycleId, env)
  {
    var all := ps + [p];
    assert all[..|ps|] == ps && all[|ps|] == p;
    assert forall i :: 0 <= i < |ps| ==> all[..i] == ps[..i] && all[i] == ps[i];
    if Refused(t, DueIds(ps, rules, env), p, rules, cycleId, env) {
      assert Refused(t, DueIds(all[..|ps|], rules, env), all[|ps|], rules, cycleId, env);
    }
    if SomeRefused(t, ps, rules, cycleId, env) {
      var i :| 0 <= i < |ps| && Refused(t, DueIds(ps[..i], rules, env), ps[i], rules, cycleId, env);
      assert Refused(t, DueIds(all[..i], rules, env), all[i], rules, cycleId, env);
    }
  }

  /** All that an evaluation finds: everything, or a refused statement. */
  ghost predicate AllFound(t: Tables, m: Holdings.Marked, ps: seq<Position>, rules: RuleSet, cycleId: Id, mode: Mode,
                           env: Env) {
    && (m.error.None? ==> Found(t, m.state, ps, rules, cycleId, mode, env))
    && (m.error.Some? <==> SomeRefused(t, ps, rules, cycleId, env))
  }

  /** p's row is as it was listed. */
  ghost predicate Untouched(m: Holdings.Marked, p: Position) {
    p.ticker in m.state.tables.positions && m.state.tables.positions[p.ticker] == p
  }

  /** One more position judged. */
  ghost predicate MarksNext(m: Holdings.Marked, m': Holdings.Marked, p: Position, rules: RuleSet, cycleId: Id,
                            mode: Mode, env: Env) {
    m' == if m.error.Some? then m else MarkOne(m.state, p, rules, cycleId, mode, env)
  }

  lemma {:induction false} OneMoreFound(t: Tables, m: Holdings.Marked, m': Holdings.Marked, ps: seq<Position>,
                                        p: Position, rules: RuleSet, cycleId: Id, mode: Mode, env: Env)
    requires AllFound(t, m, ps, rules, cycleId, mode, env) && MarksNext(m, m', p, rules, cycleId, mode, env)
    requires Untouched(m, p) && p.ticker !in TickersOf(ps)
    ensures AllFound(t, m', ps + [p], rules, cycleId, mode, env)
  {
    RefusedSnoc(t, ps, p, rules, cycleId, env);
    if m.error.None? { MarkOneFinds(t, m.state, ps, p, rules, cycleId, mode, env); }
  }

  lemma {:induction false} MarksLast(t: Tables, ps: seq<Position>, rules: RuleSet, cycleId: Id, mode: Mode, env: Env)
    requires ps != []
    ensures MarksNext(MarkAll(t, ps[..|ps| - 1], rules, cycleId, mode, env), MarkAll(t, ps, rules, cycleId, mode, env),
                      ps[|ps| - 1], rules, cycleId, mode, env)
  {
  }

  /** Evaluating a listing finds exactly its value, its gain, its missing quotes and its due exits, and fails
      exactly at a refused statement. */
  lemma {:induction false} MarkAllFinds(t: Tables, ps: seq<Position>, rules: RuleSet, cycleId: Id, mode: Mode, env: Env)
    requires ListedIn(t, ps) && DistinctTickers(ps)
    ensures AllFound(t, MarkAll(t, ps, rules, cycleId, mode, env), ps, rules, cycleId, mode, env)
  {
    if ps == [] {
      NothingFound(t, rules, cycleId, mode, env);
    } else {
      var front := ps[..|ps| - 1];
      FrontIsListed(t, ps);
      MarkAllFinds(t, front, rules, cycleId, mode, env);
      MarksLast(t, ps, rules, cycleId, mode, env);
      UntouchedYet(t, front, ps[|ps| - 1], rules, cycleId, mode, env);
      LastFound(t, MarkAll(t, front, rules, cycleId, mode, env), MarkAll(t, ps, rules, cycleId, mode, env), ps, rules,
                cycleId, mode, env);
    }
  }

  lemma {:induction false} LastFound(t: Tables, m: Holdings.Marked, m': Holdings.Marked, ps: seq<Position>,
                                     rules: RuleSet, cycleId: Id, mode: Mode, env: Env)
    requires ListedIn(t, ps) && DistinctTickers(ps) && ps != []
    requires AllFound(t, m, ps[..|ps| - 1], rules, cycleId, mode, env)
    requires MarksNext(m, m', ps[|ps| - 1], rules, cycleId, mode, env) && Untouched(m, ps[|ps| - 1])
    ensures AllFound(t, m', ps, rules, cycleId, mode, env)
  {
    var front, p := ps[..|ps| - 1], ps[|ps| - 1];
    FrontIsListed(t, ps);
    OneMoreFound(t, m, m', front, p, rules, cycleId, mode, env);
    assert ps == front + [p];
  }

  lemma {:induction false} FrontIsListed(t: Tables, ps: seq<Position>)
    requires ListedIn(t, ps) && DistinctTickers(ps) && ps != []
    ensures var front, p := ps[..|ps| - 1], ps[|ps| - 1];
            && ListedIn(t, front) && DistinctTickers(front) && p.ticker !in TickersOf(front)
            && p.ticker in t.positions && t.positions[p.ticker] == p
  {
    var front, p := ps[..|ps| - 1], ps[|ps| - 1];
    assert ps == front + [p];
    TickersSnoc(front, p);
    FrontListed(t, front, p);
  }

  lemma {:induction false} NothingFound(t: Tables, rules: RuleSet, cycleId: Id, mode: Mode, env: Env)
    ensures AllFound(t, Holdings.Marked(HoldState(t, 0, 0, [], map[], []), None), [], rules, cycleId, mode, env)
  {
    assert DueIds([], rules, env) == {};
  }

  lemma {:induction false} UntouchedYet(t: Tables, front: seq<Position>, p: Position, rules: RuleSet, cycleId: Id,
                                        mode: Mode, env: Env)
    requires ListedIn(t, front) && DistinctTickers(front) && p.ticker !in TickersOf(front)
    requires p.ticker in t.positions && t.positions[p.ticker] == p
    ensures Untouched(MarkAll(t, front, rules, cycleId, mode, env), p)
  {
    MarkAllSound(t, front, rules, cycleId, mode, env);
  }
}
