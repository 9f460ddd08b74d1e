// What evaluating the holdings guarantees: marks move no shares, every sell is
// recorded, unique to its ticker and within the holding; and the life of one
// position under marks and fills.
module Exits {
  import opened Money
  import opened Models
  import opened Rules
  import opened TradeCloser
  import opened Ledger
  import opened Environment
  import opened Protocol
  import opened Settlement
  import opened Holdings

  // ---- the frame ----

  /** Positions may only be marked up, decisions only added. */
  ghost predicate MarksOnly(t: Tables, u: Tables) {
    && u == t.(decisions := u.decisions, positions := u.positions)
    && Grows(t, u)
    && t.positions.Keys == u.positions.Keys
    && (forall k :: k in t.positions ==> MarkedUp(t.positions[k], u.positions[k]))
  }

  ghost predicate MarkedUp(p: Position, q: Position) {
    q == p.(highWatermark := q.highWatermark) && p.highWatermark <= q.highWatermark
  }

  lemma {:induction false} MarksOnlyTransitive(a: Tables, b: Tables, c: Tables)
    requires MarksOnly(a, b) && MarksOnly(b, c)
    ensures MarksOnly(a, c)
  {
  }

  // ---- the decisions ----

  ghost predicate ListedIn(t: Tables, ps: seq<Position>) {
    forall p :: p in ps ==> p.ticker in t.positions && t.positions[p.ticker] == p
  }

  ghost function TickersOf(ps: seq<Position>): set<Ticker> { set p | p in ps :: p.ticker }

  /** A sell decision of this cycle: new, recorded as it is in hand, passed and explained. */
  ghost predicate SoundExit(t: Tables, s: HoldState, d: Decision, seen: set<Ticker>) {
    && d.id !in t.decisions && d.id in s.tables.decisions && s.tables.decisions[d.id] == d
    && d.ruleCheck == Passed && d.action == ActSell && d.id in s.reasons && d.ticker in seen
  }

  ghost predicate Separate(ds: seq<Decision>) {
    forall i, j :: 0 <= i < j < |ds| ==> ds[i].ticker != ds[j].ticker && ds[i].id != ds[j].id
  }

  ghost predicate SoundState(t: Tables, s: HoldState, seen: set<Ticker>) {
    && MarksOnly(t, s.tables) && Separate(s.decisions)
    && forall i :: 0 <= i < |s.decisions| ==> SoundExit(t, s, s.decisions[i], seen)
  }

  lemma {:induction false} DecideExitSound(t: Tables, s: HoldState, p: Position, seen: set<Ticker>, price: Ticks,
                                           rules: RuleSet, cycleId: Id, mode: Mode, env: Env)
    requires SoundState(t, s, seen) && p.ticker !in seen
    ensures var m := DecideExit(s, p, price, rules, cycleId, mode, env);
            && MarksOnly(t, m.state.tables) && m.state.tables.positions == s.tables.positions
            && (m.error.None? ==> SoundState(t, m.state, seen + {p.ticker}))
  {
    var m := DecideExit(s, p, price, rules, cycleId, mode, env);
    if m.error.None? && m.state != s {
      var d := m.state.decisions[|s.decisions|];
      AddExitSound(t, s, d, m.state.reasons[d.id], p.ticker, seen);
    }
  }

  lemma {:induction false} AddExitSound(t: Tables, s: HoldState, d: Decision, reason: ExitReason, ticker: Ticker,
                                        seen: set<Ticker>)
    requires SoundState(t, s, seen) && ticker !in seen && d.ticker == ticker
    requires d.id !in s.tables.decisions && d.ruleCheck == Passed && d.action == ActSell
    ensures SoundState(t, s.(tables := s.tables.(decisions := s.tables.decisions[d.id := d]),
                             decisions := s.decisions + [d], reasons := s.reasons[d.id := reason]), seen + {ticker})
  {
    var s' := s.(tables := s.tables.(decisions := s.tables.decisions[d.id := d]),
                 decisions := s.decisions + [d], reasons := s.reasons[d.id := reason]);
    assert MarksOnly(s.tables, s'.tables);
    MarksOnlyTransitive(t, s.tables, s'.tables);
    forall i | 0 <= i < |s'.decisions| ensures SoundExit(t, s', s'.decisions[i], seen + {ticker}) {
      if i < |s.decisions| { assert SoundExit(t, s, s.decisions[i], seen); }
    }
    forall i | 0 <= i < |s.decisions| ensures s.decisions[i].ticker != d.ticker && s.decisions[i].id != d.id {
      assert SoundExit(t, s, s.decisions[i], seen);
    }
  }

  ghost predicate RestUntouched(t: Tables, u: Tables, seen: set<Ticker>) {
    forall k :: k in t.positions && k !in seen ==> k in u.positions && u.positions[k] == t.positions[k]
  }

  lemma {:induction false} MarkOneSound(t: Tables, s: HoldState, p: Position, seen: set<Ticker>, rules: RuleSet,
                                        cycleId: Id, mode: Mode, env: Env)
    requires SoundState(t, s, seen) && p.ticker !in seen && RestUntouched(t, s.tables, seen)
    requires p.ticker in t.positions && t.positions[p.ticker] == p
    ensures var m := MarkOne(s, p, rules, cycleId, mode, env);
            && MarksOnly(t, m.state.tables) && RestUntouched(t, m.state.tables, seen + {p.ticker})
            && (m.error.None? ==> SoundState(t, m.state, seen + {p.ticker}))
  {
    if env.market.price(p.ticker).Ok? {
      var price := env.market.price(p.ticker).value;
      var u := UpsertPosition(s.tables, Mark(p, price), None, env.faults);
      if u.Ok? {
        var valued := Valued(s, p, price).(tables := u.value);
        MarkedSound(t, s, valued, p, price, seen);
        var m := DecideExit(valued, Mark(p, price), price, rules, cycleId, mode, env);
        DecideExitSound(t, valued, Mark(p, price), seen, price, rules, cycleId, mode, env);
        assert MarkOne(s, p, rules, cycleId, mode, env) == m;
        OneTouched(t, s.tables, m.state.tables, p.ticker, seen);
      }
    } else {
      WiderSound(t, s, s.(errors := s.errors + [p.ticker]), seen, p.ticker);
    }
  }

  lemma {:induction false} OneTouched(t: Tables, a: Tables, b: Tables, ticker: Ticker, seen: set<Ticker>)
    requires RestUntouched(t, a, seen) && OnlyTicker(a, b, ticker)
    ensures RestUntouched(t, b, seen + {ticker})
  {
  }

  lemma {:induction false} MarkedSound(t: Tables, s: HoldState, s': HoldState, p: Position, price: Ticks,
                                       seen: set<Ticker>)
    requires SoundState(t, s, seen) && p.ticker in t.positions && t.positions[p.ticker] == p
    requires s'.tables == s.tables.(positions := s.tables.positions[p.ticker := Mark(p, price)])
    requires s'.decisions == s.decisions && s'.reasons == s.reasons
    ensures SoundState(t, s', seen)
  {
    forall i | 0 <= i < |s'.decisions| ensures SoundExit(t, s', s'.decisions[i], seen) {
      assert SoundExit(t, s, s.decisions[i], seen);
    }
  }

  lemma {:induction false} WiderSound(t: Tables, s: HoldState, s': HoldState, seen: set<Ticker>, ticker: Ticker)
    requires SoundState(t, s, seen)
    requires s'.tables == s.tables && s'.decisions == s.decisions && s'.reasons == s.reasons
    ensures SoundState(t, s', seen + {ticker})
  {
    forall i | 0 <= i < |s'.decisions| ensures SoundExit(t, s', s'.decisions[i], seen + {ticker}) {
      assert SoundExit(t, s, s.decisions[i], seen);
    }
  }

  lemma {:induction false} TickersSnoc(ps: seq<Position>, p: Position)
    ensures TickersOf(ps + [p]) == TickersOf(ps) + {p.ticker}
    ensures DistinctTickers(ps + [p]) ==> p.ticker !in TickersOf(ps) && DistinctTickers(ps)
    ensures p in ps + [p] && forall q :: q in ps ==> q in ps + [p]
  {
    assert forall q :: q in ps + [p] <==> q in ps || q == p;
    forall i | 0 <= i < |ps| ensures (ps + [p])[i] == ps[i] && (ps + [p])[|ps|] == p {}
  }

  lemma {:induction false} FrontListed(t: Tables, ps: seq<Position>, p: Position)
    requires ListedIn(t, ps + [p])
    ensures ListedIn(t, ps) && p.ticker in t.positions && t.positions[p.ticker] == p
  {
    assert p in ps + [p] && forall q :: q in ps ==> q in ps + [p];
  }

  /** Evaluating any listing of the positions keeps the frame, and its decisions are sound. */
  lemma {:induction false} MarkAllSound(t: Tables, ps: seq<Position>, rules: RuleSet, cycleId: Id, mode: Mode, env: Env)
    requires ListedIn(t, ps) && DistinctTickers(ps)
    ensures var m := MarkAll(t, ps, rules, cycleId, mode, env);
            && MarksOnly(t, m.state.tables) && RestUntouched(t, m.state.tables, TickersOf(ps))
            && (m.error.None? ==> SoundState(t, m.state, TickersOf(ps)))
  {
    if ps != [] {
      var front, p := ps[..|ps| - 1], ps[|ps| - 1];
      assert ps == front + [p];
      TickersSnoc(front, p);
      FrontListed(t, front, p);
      MarkAllSound(t, front, rules, cycleId, mode, env);
      var m := MarkAll(t, front, rules, cycleId, mode, env);
      if m.error.None? { MarkOneSound(t, m.state, p, TickersOf(front), rules, cycleId, mode, env); }
    }
  }

  /** A decision row is filed under its own id. */
  ghost predicate FiledById(t: Tables) { forall id :: id in t.decisions ==> t.decisions[id].id == id }

  lemma {:induction false} MarkOneFiled(s: HoldState, p: Position, rules: RuleSet, cycleId: Id, mode: Mode, env: Env)
    requires FiledById(s.tables)
    ensures FiledById(MarkOne(s, p, rules, cycleId, mode, env).state.tables)
  {
  }

  lemma {:induction false} MarkAllFiled(t: Tables, ps: seq<Position>, rules: RuleSet, cycleId: Id, mode: Mode, env: Env)
    requires FiledById(t)
    ensures FiledById(MarkAll(t, ps, rules, cycleId, mode, env).state.tables)
  {
    if ps != [] {
      MarkAllFiled(t, ps[..|ps| - 1], rules, cycleId, mode, env);
      MarkOneFiled(MarkAll(t, ps[..|ps| - 1], rules, cycleId, mode, env).state, ps[|ps| - 1], rules, cycleId, mode,
                   env);
    }
  }

  // ---- sizes ----

  /** The market never quotes under a cent. */
  ghost predicate QuotesFromACent(env: Env) {
    forall k :: env.market.price(k).Ok? ==> env.market.price(k).value >= TICKS_PER_CENT
  }

  /** What approval will order for a sell decision is at most what is held. */
  ghost predicate Covered(t: Tables, d: Decision) {
    && d.ticker in t.positions
    && var q := OrderQty(d.proposedNotional, d.referencePrice);
    q.Ok? && q.value <= t.positions[d.ticker].qty
  }

  /** A rule exit is ordered at exactly `_sell_qty`: all of it for a full exit, and less
      than the holding for a partial one on two shares or more. */
  lemma {:induction false} ExitSized(p: Position, price: Ticks, rules: RuleSet, signal: ExitSignal, cycleId: Id,
                                     mode: Mode, now: Time, env: Env)
    requires Admissible(rules) && p.qty >= 1 && price >= TICKS_PER_CENT
    requires CheckExit(p, price, rules, now) == Some(signal)
    ensures var d := ExitDecision(p, price, signal.fraction, cycleId, mode, env);
            var q := OrderQty(d.proposedNotional, d.referencePrice);
            && q == Ok(SellQty(p.qty, signal.fraction)) && 1 <= q.value <= p.qty
            && (signal.reason != PartialTakeProfit ==> q.value == p.qty)
            && (signal.reason == PartialTakeProfit && p.qty >= 2 ==> q.value < p.qty)
  {
    SizingRoundTrip(SellQty(p.qty, signal.fraction), price);
    SellQtyWithinHolding(p.qty, signal.fraction);
  }

  lemma {:induction false} MarkOneCovered(t: Tables, s: HoldState, p: Position, rules: RuleSet, cycleId: Id, mode: Mode,
                                          env: Env)
    requires Admissible(rules) && QuotesFromACent(env) && p.qty >= 1
    requires p.ticker in t.positions && t.positions[p.ticker] == p
    requires forall d :: d in s.decisions ==> Covered(t, d)
    ensures forall d :: d in MarkOne(s, p, rules, cycleId, mode, env).state.decisions ==> Covered(t, d)
  {
    if env.market.price(p.ticker).Ok? {
      var price := env.market.price(p.ticker).value;
      var signal := CheckExit(Mark(p, price), price, rules, env.now(AtHoldings));
      if signal.Some? {
        ExitSized(Mark(p, price), price, rules, signal.value, cycleId, mode, env.now(AtHoldings), env);
      }
    }
  }

  lemma {:induction false} MarkAllCovered(t: Tables, ps: seq<Position>, rules: RuleSet, cycleId: Id, mode: Mode,
                                          env: Env)
    requires Admissible(rules) && QuotesFromACent(env) && ListedIn(t, ps) && forall p :: p in ps ==> p.qty >= 1
    ensures forall d :: d in MarkAll(t, ps, rules, cycleId, mode, env).state.decisions ==> Covered(t, d)
  {
    if ps != [] {
      var front, p := ps[..|ps| - 1], ps[|ps| - 1];
      assert p in ps && forall q :: q in front ==> q in ps;
      MarkAllCovered(t, front, rules, cycleId, mode, env);
      MarkOneCovered(t, MarkAll(t, front, rules, cycleId, mode, env).state, p, rules, cycleId, mode, env);
    }
  }

  // ---- value ----

  /** What the priced holdings cost, in ticks. */
  ghost function CostOf(ps: seq<Position>, env: Env): Ticks {
    if ps == [] then 0
    else
      var p := ps[|ps| - 1];
      CostOf(ps[..|ps| - 1], env) + (if env.market.price(p.ticker).Ok? then p.avgCost * p.qty else 0)
  }

  lemma {:induction false} ValuedCost(price: Ticks, avg: Ticks, qty: nat)
    ensures var gap := TICKS_PER_CENT * (ToCents(price * qty) - ToCents((price - avg) * qty)) - avg * qty;
            -TICKS_PER_CENT <= gap <= TICKS_PER_CENT
  {
    assert (price - avg) * qty == price * qty - avg * qty;
  }

  /** The market value less the unrealized P&L is what the holdings cost, to within a cent each. */
  lemma {:induction false} ValueLessGainIsCost(t: Tables, ps: seq<Position>, rules: RuleSet, cycleId: Id, mode: Mode,
                                               env: Env)
    requires MarkAll(t, ps, rules, cycleId, mode, env).error.None?
    ensures var s := MarkAll(t, ps, rules, cycleId, mode, env).state;
            var gap := TICKS_PER_CENT * (s.value - s.unrealized) - CostOf(ps, env);
            -TICKS_PER_CENT * |ps| <= gap <= TICKS_PER_CENT * |ps|
  {
    if ps != [] {
      var front, p := ps[..|ps| - 1], ps[|ps| - 1];
      ValueLessGainIsCost(t, front, rules, cycleId, mode, env);
      if env.market.price(p.ticker).Ok? { ValuedCost(env.market.price(p.ticker).value, p.avgCost, p.qty); }
      MarkOneValues(MarkAll(t, front, rules, cycleId, mode, env).state, p, rules, cycleId, mode, env);
    }
  }

  lemma {:induction false} MarkOneValues(s: HoldState, p: Position, rules: RuleSet, cycleId: Id, mode: Mode, env: Env)
    ensures var s' := MarkOne(s, p, rules, cycleId, mode, env).state;
            && (env.market.price(p.ticker).Err? ==> s'.value == s.value && s'.unrealized == s.unrealized)
            && (env.market.price(p.ticker).Ok? ==>
                  var price := env.market.price(p.ticker).value;
                  && s'.value == s.value + ToCents(price * p.qty)
                  && s'.unrealized == s.unrealized + ToCents((price - p.avgCost) * p.qty))
  {
  }

  // ---- the life of one position ----

  datatype LifeEvent =
    | MarkedAt(price: Ticks)
    | Bought(fill: Fill, decision: Decision)
    | Sold(fill: Fill, decision: Decision, reason: Option<ExitReason>)

  /** The position after one event; None once a sell closes it or is refused. */
  function LiveOne(p: Position, e: LifeEvent): Option<Position> {
    match e
    case MarkedAt(price) => Some(Mark(p, price))
    case Bought(fill, d) => Some(ApplyBuy(Some(p), fill, d))
    case Sold(fill, d, reason) =>
      var r := ApplySell(Some(p), fill, d, reason, NOTHING_CARRIED);
      if r.Ok? && r.value.OpenPosition? then Some(r.value.position) else None
  }

  function Live(p: Position, es: seq<LifeEvent>): Option<Position> {
    if es == [] then Some(p)
    else
      var q := Live(p, es[..|es| - 1]);
      if q.None? then None else LiveOne(q.value, es[|es| - 1])
  }

  /** The price an event shows the watermark. */
  function Shown(e: LifeEvent): Option<Ticks> {
    match e
    case MarkedAt(price) => Some(price)
    case Bought(fill, _) => Some(fill.price)
    case Sold(_, _, _) => None
  }

  ghost predicate IsMaximum(m: Ticks, start: Ticks, es: seq<LifeEvent>) {
    && start <= m && (forall e :: e in es && Shown(e).Some? ==> Shown(e).value <= m)
    && (m == start || exists e :: e in es && Shown(e) == Some(m))
  }

  /** While a position stays open its watermark is the highest price bought or marked,
      and its opening never changes. */
  lemma {:induction false} WatermarkIsMaximum(p: Position, es: seq<LifeEvent>)
    requires Live(p, es).Some?
    ensures var q := Live(p, es).value;
            && IsMaximum(q.highWatermark, p.highWatermark, es)
            && q.openedAt == p.openedAt && q.ticker == p.ticker
  {
    if es != [] {
      var front, last := es[..|es| - 1], es[|es| - 1];
      WatermarkIsMaximum(p, front);
      assert es == front + [last];
      assert last in es && forall e :: e in front ==> e in es;
      assert forall e :: e in es ==> e in front || e == last;
    }
  }

  /** The partial take-profit is never forgotten and never signalled twice. */
  lemma {:induction false} PartialOnlyOnce(p: Position, es: seq<LifeEvent>, k: nat, price: Ticks, rules: RuleSet,
                                           now: Time)
    requires k <= |es| && Live(p, es).Some?
    requires Live(p, es[..k]).Some? && Live(p, es[..k]).value.partialTpDone
    ensures Live(p, es).value.partialTpDone
    ensures var s := CheckExit(Live(p, es).value, price, rules, now);
            s.Some? ==> s.value.reason != PartialTakeProfit
    decreases |es|
  {
    if k < |es| {
      var front := es[..|es| - 1];
      assert front[..k] == es[..k];
      PartialOnlyOnce(p, front, k, price, rules, now);
    } else {
      assert es[..k] == es;
    }
  }

  /** A settled partial take-profit is remembered, and no sell moves the average cost. */
  lemma {:induction false} SellRemembers(p: Position, fill: Fill, d: Decision, reason: Option<ExitReason>)
    requires LiveOne(p, Sold(fill, d, reason)).Some?
    ensures var q := LiveOne(p, Sold(fill, d, reason)).value;
            && q.avgCost == p.avgCost && q.qty == p.qty - fill.qty >= 1
            && (q.partialTpDone <==> p.partialTpDone || reason == Some(PartialTakeProfit))
  {
  }
}
