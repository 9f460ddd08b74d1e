// src/trader/engine/holdings.py: mark every position, raise its watermark, and
// decide the rule-driven sells.
module Holdings {
  import opened Money
  import opened Models
  import opened Rules
  import opened Ledger
  import opened Environment

  // ---- list_positions: ORDER BY ticker ----

  /** Code-point order, the order of Python strings and of SQLite's BINARY collation. */
  predicate Below(a: string, b: string) {
    if b == "" then false
    else if a == "" then true
    else a[0] < b[0] || (a[0] == b[0] && Below(a[1..], b[1..]))
  }

  /** a and b agree up to i, where a ends or has the smaller character. */
  ghost predicate DiffersAt(a: string, b: string, i: nat) {
    i <= |a| && i < |b| && a[..i] == b[..i] && (i == |a| || a[i] < b[i])
  }

  lemma {:induction false} SameStart(a: string, b: string, i: nat)
    requires DiffersAt(a, b, i) && i > 0
    ensures a != "" && b != "" && a[0] == b[0]
  {
    assert a[0] == a[..i][0] && b[0] == b[..i][0];
  }

  lemma {:induction false} BelowExactly(a: string, b: string)
    ensures Below(a, b) <==> exists i: nat :: DiffersAt(a, b, i)
  {
    if a == "" || b == "" || a[0] != b[0] {
      if Below(a, b) { assert DiffersAt(a, b, 0); }
      forall i: nat | DiffersAt(a, b, i) ensures Below(a, b) {
        if i > 0 { SameStart(a, b, i); }
      }
    } else {
      BelowExactly(a[1..], b[1..]);
      forall i: nat | DiffersAt(a[1..], b[1..], i) ensures DiffersAt(a, b, i + 1) {
        assert a[..i + 1] == [a[0]] + a[1..][..i] && b[..i + 1] == [b[0]] + b[1..][..i];
      }
      forall i: nat | DiffersAt(a, b, i) ensures exists j: nat :: DiffersAt(a[1..], b[1..], j) {
        assert a[1..][..i - 1] == a[..i][1..] && b[1..][..i - 1] == b[..i][1..];
        assert DiffersAt(a[1..], b[1..], i - 1);
      }
    }
  }

  lemma {:induction false} BelowTotal(a: string, b: string)
    ensures a == b || Below(a, b) || Below(b, a)
  {
    if a != "" && b != "" && a[0] == b[0] {
      BelowTotal(a[1..], b[1..]);
      assert a == [a[0]] + a[1..] && b == [b[0]] + b[1..];
    }
  }

  lemma {:induction false} BelowTransitive(a: string, b: string, c: string)
    requires Below(a, b) && Below(b, c)
    ensures Below(a, c)
  {
    if a != "" && a[0] == b[0] && b[0] == c[0] { BelowTransitive(a[1..], b[1..], c[1..]); }
  }

  lemma {:induction false} BelowIrreflexive(a: string)
    ensures !Below(a, a)
  {
    if a != "" { BelowIrreflexive(a[1..]); }
  }

  predicate IsFirst(m: string, s: set<string>) { m in s && forall k :: k in s && k != m ==> Below(m, k) }

  lemma {:induction false} FirstExists(s: set<string>) returns (m: string)
    requires s != {}
    ensures IsFirst(m, s)
  {
    m :| m in s;
    if s != {m} {
      var n := FirstExists(s - {m});
      BelowTotal(m, n);
      forall k | k in s && k != m && k != n && Below(m, n) ensures Below(m, k) { BelowTransitive(m, n, k); }
      if !Below(m, n) { m := n; }
    }
  }

  lemma {:induction false} FirstUnique(m: string, n: string, s: set<string>)
    requires IsFirst(m, s) && IsFirst(n, s)
    ensures m == n
  {
    if m != n {
      BelowTransitive(m, n, m);
      BelowIrreflexive(m);
    }
  }

  lemma {:induction false} SomeFirst(s: set<string>)
    requires s != {}
    ensures exists m :: IsFirst(m, s)
    ensures forall a, b :: IsFirst(a, s) && IsFirst(b, s) ==> a == b
  {
    var m := FirstExists(s);
    forall a, b | IsFirst(a, s) && IsFirst(b, s) ensures a == b { FirstUnique(a, b, s); }
  }

  function First(s: set<string>): (m: string)
    requires s != {}
    ensures IsFirst(m, s)
  {
    SomeFirst(s);
    var m :| m in s && IsFirst(m, s);
    m
  }

  function ListPositions(m: map<Ticker, Position>): seq<Position>
    decreases m.Keys
  {
    if m.Keys == {} then []
    else
      var k := First(m.Keys);
      [m[k]] + ListPositions(m - {k})
  }

  /** The listing has every row once. */
  lemma {:induction false} ListsEachOnce(m: map<Ticker, Position>)
    requires forall k :: k in m ==> m[k].ticker == k
    ensures var ps := ListPositions(m);
            && |ps| == |m.Keys|
            && (forall p :: p in ps ==> p.ticker in m && m[p.ticker] == p)
            && (forall k :: k in m ==> m[k] in ps)
            && DistinctTickers(ps)
    decreases m.Keys
  {
    if m.Keys != {} {
      var k := First(m.Keys);
      var rest := m - {k};
      ListsEachOnce(rest);
      ListsOneMore(m, k, rest, ListPositions(rest));
      assert m.Keys == rest.Keys + {k};
      forall x | x in m ensures m[x] in ListPositions(m) {
        if x != k { assert rest[x] in ListPositions(rest); }
      }
    }
  }

  lemma {:induction false} ListsOneMore(m: map<Ticker, Position>, k: Ticker, rest: map<Ticker, Position>,
                                        ps: seq<Position>)
    requires k in m && m[k].ticker == k && rest == m - {k}
    requires DistinctTickers(ps) && forall p :: p in ps ==> p.ticker in rest && rest[p.ticker] == p
    ensures DistinctTickers([m[k]] + ps) && forall p :: p in [m[k]] + ps ==> p.ticker in m && m[p.ticker] == p
  {
    forall j | 0 <= j < |ps| ensures ps[j].ticker != k { assert ps[j] in ps; }
  }

  /** And in ticker order. */
  lemma {:induction false} ListsInOrder(m: map<Ticker, Position>)
    requires forall k :: k in m ==> m[k].ticker == k
    ensures var ps := ListPositions(m); forall i, j :: 0 <= i < j < |ps| ==> Below(ps[i].ticker, ps[j].ticker)
    decreases m.Keys
  {
    if m.Keys != {} {
      var k := First(m.Keys);
      var rest := m - {k};
      ListsInOrder(rest);
      ListsEachOnce(rest);
      var ps := ListPositions(rest);
      forall j | 0 <= j < |ps| ensures Below(k, ps[j].ticker) { assert ps[j] in ps && ps[j].ticker in m.Keys; }
    }
  }

  ghost predicate DistinctTickers(ps: seq<Position>) {
    forall i, j :: 0 <= i < j < |ps| ==> ps[i].ticker != ps[j].ticker
  }

  // ---- evaluate_holdings ----

  datatype HoldState = HoldState(
    tables: Tables, value: Cents, unrealized: Cents, decisions: seq<Decision>,
    reasons: map<Id, ExitReason>, errors: seq<Ticker>)

  datatype Marked = Marked(state: HoldState, error: Option<LedgerError>)

  function Mark(p: Position, price: Ticks): Position {
    p.(highWatermark := if price > p.highWatermark then price else p.highWatermark)
  }

  function ExitDecision(p: Position, price: Ticks, fraction: Ratio, cycleId: Id, mode: Mode, env: Env): Decision {
    Decision(env.uuid(FreshExit(p.ticker)), cycleId, env.now(AtHoldings), mode, p.ticker, ActSell, RuleExit, Passed,
             Some(ToCents(price * SellQty(p.qty, fraction))), Some(price))
  }

  function Valued(s: HoldState, p: Position, price: Ticks): HoldState {
    s.(value := s.value + ToCents(price * p.qty), unrealized := s.unrealized + ToCents((price - p.avgCost) * p.qty))
  }

  function DecideExit(s: HoldState, p: Position, price: Ticks, rules: RuleSet, cycleId: Id, mode: Mode, env: Env)
    : Marked
  {
    var signal := CheckExit(p, price, rules, env.now(AtHoldings));
    if signal.None? then Marked(s, None)
    else
      var d := ExitDecision(p, price, signal.value.fraction, cycleId, mode, env);
      var u := InsertDecision(s.tables, d, env.faults);
      if u.Err? then Marked(s, Some(u.error))
      else Marked(s.(tables := u.value, decisions := s.decisions + [d],
                     reasons := s.reasons[d.id := signal.value.reason]), None)
  }

  function MarkOne(s: HoldState, p: Position, rules: RuleSet, cycleId: Id, mode: Mode, env: Env): Marked {
    match env.market.price(p.ticker)
    case Err(_) => Marked(s.(errors := s.errors + [p.ticker]), None)
    case Ok(price) =>
      var u := UpsertPosition(s.tables, Mark(p, price), None, env.faults);
      if u.Err? then Marked(Valued(s, p, price), Some(u.error))
      else DecideExit(Valued(s, p, price).(tables := u.value), Mark(p, price), price, rules, cycleId, mode, env)
  }

  function MarkAll(t: Tables, ps: seq<Position>, rules: RuleSet, cycleId: Id, mode: Mode, env: Env): Marked {
    if ps == [] then Marked(HoldState(t, 0, 0, [], map[], []), None)
    else
      var m := MarkAll(t, ps[..|ps| - 1], rules, cycleId, mode, env);
      if m.error.Some? then m else MarkOne(m.state, ps[|ps| - 1], rules, cycleId, mode, env)
  }

  datatype HoldingsOutcome = HoldingsOutcome(
    value: Cents, unrealized: Cents, decisions: seq<Decision>, reasons: map<Id, ExitReason>, errors: seq<Ticker>)

  function OutcomeOf(s: HoldState): HoldingsOutcome {
    HoldingsOutcome(s.value, s.unrealized, s.decisions, s.reasons, s.errors)
  }

  /** The body of the loop. */
  method EvaluateOne(conn: Connection, p: Position, value: Cents, unrealized: Cents, decisions: seq<Decision>,
                     reasons: map<Id, ExitReason>, errors: seq<Ticker>,
                     rules: RuleSet, cycleId: Id, mode: Mode, env: Env)
    returns (value': Cents, unrealized': Cents, decisions': seq<Decision>, reasons': map<Id, ExitReason>,
             errors': seq<Ticker>, error: Option<LedgerError>)
    modifies conn`working
    ensures MarkOne(HoldState(old(conn.working), value, unrealized, decisions, reasons, errors), p, rules, cycleId,
                    mode, env)
            == Marked(HoldState(conn.working, value', unrealized', decisions', reasons', errors'), error)
  {
    value', unrealized', decisions', reasons', errors', error := value, unrealized, decisions, reasons, errors, None;
    var got := env.market.price(p.ticker);
    if got.Err? {
      errors' := errors + [p.ticker];
      return;
    }
    var price := got.value;
    value' := value + ToCents(price * p.qty);
    unrealized' := unrealized + ToCents((price - p.avgCost) * p.qty);
    var marked := Mark(p, price);
    var upserted := UpsertPosition(conn.working, marked, None, env.faults);
    if upserted.Err? {
      error := Some(upserted.error);
      return;
    }
    conn.working := upserted.value;
    var signal := CheckExit(marked, price, rules, env.now(AtHoldings));
    if signal.Some? {
      var d := ExitDecision(marked, price, signal.value.fraction, cycleId, mode, env);
      var inserted := InsertDecision(conn.working, d, env.faults);
      if inserted.Err? {
        error := Some(inserted.error);
        return;
      }
      conn.working := inserted.value;
      decisions', reasons' := decisions + [d], reasons[d.id := signal.value.reason];
    }
  }

  method EvaluateHoldings(conn: Connection, ps: seq<Position>, rules: RuleSet, cycleId: Id, mode: Mode, env: Env)
    returns (r: Result<HoldingsOutcome, LedgerError>)
    modifies conn`working
    ensures var m := MarkAll(old(conn.working), ps, rules, cycleId, mode, env);
            && conn.working == m.state.tables
            && r == if m.error.Some? then Err(m.error.value) else Ok(OutcomeOf(m.state))
  {
    var value: Cents, unrealized: Cents, decisions, reasons, errors := 0, 0, [], map[], [];
    for i := 0 to |ps|
      invariant MarkAll(old(conn.working), ps[..i], rules, cycleId, mode, env)
                == Marked(HoldState(conn.working, value, unrealized, decisions, reasons, errors), None)
    {
      MarkAllSnoc(old(conn.working), ps, i, rules, cycleId, mode, env);
      var error;
      value, unrealized, decisions, reasons, errors, error :=
        EvaluateOne(conn, ps[i], value, unrealized, decisions, reasons, errors, rules, cycleId, mode, env);
      if error.Some? {
        MarkAllStops(old(conn.working), ps, i + 1, rules, cycleId, mode, env);
        return Err(error.value);
      }
    }
    assert ps[..|ps|] == ps;
    return Ok(HoldingsOutcome(value, unrealized, decisions, reasons, errors));
  }

  lemma {:induction false} MarkAllSnoc(t: Tables, ps: seq<Position>, i: nat, rules: RuleSet, cycleId: Id, mode: Mode,
                                       env: Env)
    requires i < |ps|
    ensures var m := MarkAll(t, ps[..i], rules, cycleId, mode, env);
            MarkAll(t, ps[..i + 1], rules, cycleId, mode, env)
            == if m.error.Some? then m else MarkOne(m.state, ps[i], rules, cycleId, mode, env)
  {
    assert ps[..i + 1][..i] == ps[..i];
  }

  /** An error ends the loop: the remaining positions are not looked at. */
  lemma {:induction false} MarkAllStops(t: Tables, ps: seq<Position>, i: nat, rules: RuleSet, cycleId: Id, mode: Mode,
                                        env: Env)
    requires i <= |ps| && MarkAll(t, ps[..i], rules, cycleId, mode, env).error.Some?
    ensures MarkAll(t, ps, rules, cycleId, mode, env) == MarkAll(t, ps[..i], rules, cycleId, mode, env)
    decreases |ps|
  {
    if i == |ps| {
      assert ps[..i] == ps;
    } else {
      assert ps[..|ps| - 1][..i] == ps[..i];
      MarkAllStops(t, ps[..|ps| - 1], i, rules, cycleId, mode, env);
    }
  }
}
