// Exactly what the risk evaluation stores and when it stops a cycle: the day's
// equity, its peak and its drawdown, and the three loss limits.
module Equity {
  import opened Money
  import opened Models
  import opened Rules
  import opened Ledger
  import opened Environment
  import opened Holdings
  import opened Cycle
  import opened Judging

  /** The realized P&L of the trades that count. */
  ghost function PnlOf(trades: seq<Trade>, counts: Trade -> bool): Cents {
    if trades == [] then 0
    else
      var last := trades[|trades| - 1];
      PnlOf(trades[..|trades| - 1], counts) + (if counts(last) then last.realizedPnl else 0)
  }

  /** Those closed on a trading day, and those closed on a day or after. */
  function ClosedOn(c: Calendar, day: int): Trade -> bool { (tr: Trade) => c.day(tr.closedAt) == day }

  function ClosedSince(c: Calendar, day: int): Trade -> bool { (tr: Trade) => day <= c.day(tr.closedAt) }

  lemma {:induction false} RealizedExactly(trades: seq<Trade>, c: Calendar, day: int)
    ensures RealizedOn(trades, c, day) == PnlOf(trades, ClosedOn(c, day))
    ensures RealizedSince(trades, c, day) == PnlOf(trades, ClosedSince(c, day))
  {
    if trades != [] { RealizedExactly(trades[..|trades| - 1], c, day); }
  }

  // ---- the snapshot ----

  /** Row i is the last one before a day. */
  ghost predicate LastRowBefore(rows: seq<Snapshot>, i: nat, day: int)
    requires i < |rows|
  {
    rows[i].day < day && forall j :: i < j < |rows| ==> rows[j].day >= day
  }

  ghost predicate NoRowBefore(rows: seq<Snapshot>, day: int) { forall j :: 0 <= j < |rows| ==> rows[j].day >= day }

  /** The peak of the last row before a day, or the capital where there is none. */
  ghost predicate IsPriorPeak(peak: Cents, rows: seq<Snapshot>, capital: Cents, day: int) {
    || (NoRowBefore(rows, day) && peak == capital)
    || exists i :: 0 <= i < |rows| && LastRowBefore(rows, i, day) && rows[i].peakEquity == peak
  }

  lemma {:induction false} LastBeforeExactly(rows: seq<Snapshot>, day: int) returns (i: nat)
    ensures match LastBefore(rows, day)
            case None => NoRowBefore(rows, day)
            case Some(s) => i < |rows| && LastRowBefore(rows, i, day) && rows[i] == s
  {
    i := 0;
    if rows != [] {
      var front, n := rows[..|rows| - 1], |rows| - 1;
      if rows[n].day < day { i := n; } else { i := LastBeforeExactly(front, day); }
    }
  }

  lemma {:induction false} PriorPeakExactly(rows: seq<Snapshot>, capital: Cents, day: int)
    ensures IsPriorPeak(PriorPeak(rows, capital, day), rows, capital, day)
  {
    var i := LastBeforeExactly(rows, day);
  }

  /** A row of a day on which the account held `cash` and the priced positions were worth `worth`. */
  ghost predicate SnapshotOf(s: Snapshot, rows: seq<Snapshot>, cash: Cents, worth: Cents, deps: Deps, env: Env) {
    && s.day == deps.calendar.day(env.now(AtRisk)) && s.mode == deps.mode && s.takenAt == env.now(AtRisk)
    && s.cash == cash && s.positionsValue == worth && s.equity == cash + worth
    && (exists prior :: IsPriorPeak(prior, rows, deps.capital, s.day) && s.peakEquity == Max(prior, s.equity))
    && (if s.peakEquity > 0 then s.drawdownPct * s.peakEquity as real == 100.0 * (s.peakEquity - s.equity) as real
        else s.drawdownPct == 0.0)
  }

  lemma {:induction false} DrawdownDefined(peak: Cents, equity: Cents)
    requires peak > 0
    ensures Drawdown(peak, equity) * peak as real == 100.0 * (peak - equity) as real
  {
    var gap, p := (peak - equity) as real, peak as real;
    assert gap / p * p == gap;
    assert gap / p * 100.0 * p == 100.0 * (gap / p * p);
  }

  lemma {:induction false} SnapshotExactly(rows: seq<Snapshot>, cash: Cents, h: HoldingsOutcome, deps: Deps, env: Env)
    ensures SnapshotOf(TodaysSnapshot(rows, cash, h, deps, env), rows, cash, h.value, deps, env)
  {
    var s := TodaysSnapshot(rows, cash, h, deps, env);
    PriorPeakExactly(rows, deps.capital, s.day);
    if s.peakEquity > 0 { DrawdownDefined(s.peakEquity, s.equity); }
  }

  ghost predicate DaysIncrease(rows: seq<Snapshot>) { forall i, j :: 0 <= i < j < |rows| ==> rows[i].day < rows[j].day }

  /** The rows with s in place of its day's. */
  ghost predicate Replaces(now: seq<Snapshot>, rows: seq<Snapshot>, s: Snapshot) {
    DaysIncrease(now) && forall r :: r in now <==> r == s || (r in rows && r.day != s.day)
  }

  lemma {:induction false} PutHas(rows: seq<Snapshot>, s: Snapshot)
    requires DaysIncrease(rows)
    ensures forall r :: r in PutSnapshot(rows, s) <==> r == s || (r in rows && r.day != s.day)
  {
    if rows != [] {
      var front, n := rows[..|rows| - 1], |rows| - 1;
      assert rows == front + [rows[n]];
      forall r | r in front ensures r.day < rows[n].day { EarlierRow(rows, r); }
      if rows[n].day > s.day { PutHas(front, s); }
    }
  }

  lemma {:induction false} EarlierRow(rows: seq<Snapshot>, r: Snapshot)
    requires rows != [] && DaysIncrease(rows) && r in rows[..|rows| - 1]
    ensures r.day < rows[|rows| - 1].day
  {
    var i :| 0 <= i < |rows| - 1 && rows[..|rows| - 1][i] == r;
    assert rows[i] == r;
  }

  lemma {:induction false} LaterRow(rows: seq<Snapshot>, s: Snapshot)
    requires DaysIncrease(rows) && forall r :: r in rows ==> r.day < s.day
    ensures DaysIncrease(rows + [s])
  {
    forall i | 0 <= i < |rows| ensures rows[i].day < s.day { assert rows[i] in rows; }
  }

  lemma {:induction false} PutReplaces(rows: seq<Snapshot>, s: Snapshot)
    requires DaysIncrease(rows)
    ensures Replaces(PutSnapshot(rows, s), rows, s)
  {
    PutHas(rows, s);
    if rows == [] {
      LaterRow([], s);
      assert [] + [s] == [s];
    } else {
      var front, last := rows[..|rows| - 1], rows[|rows| - 1];
      forall r | r in front ensures r.day < last.day { EarlierRow(rows, r); }
      if last.day < s.day {
        forall r | r in rows ensures r.day < s.day { if r != last { assert r in front; } }
        LaterRow(rows, s);
      } else if last.day == s.day {
        LaterRow(front, s);
      } else {
        PutReplaces(front, s);
        LaterRow(PutSnapshot(front, s), last);
      }
    }
  }

  // ---- the limits ----

  /** Today's, the week's and the open P&L, and the equity and its peak, as the loss limits see them. */
  datatype Standing = Standing(today: Cents, week: Cents, gain: Cents, equity: Cents, peak: Cents)

  /** The first of the three limits that is reached. */
  ghost predicate Reaches(kind: LossKind, l: Limits, s: Standing) {
    match kind
    case Daily => s.today + s.gain <= -l.dailyLoss
    case Weekly => s.today + s.gain > -l.dailyLoss && s.week + s.gain <= -l.weeklyLoss
    case DrawdownLoss =>
      && s.today + s.gain > -l.dailyLoss && s.week + s.gain > -l.weeklyLoss
      && s.peak > 0 && 100.0 * (s.peak - s.equity) as real >= l.drawdownPct * s.peak as real
  }

  lemma {:induction false} ReachesExactly(l: Limits, s: Standing)
    ensures forall kind :: LossBreach(l, s.today, s.gain, s.week, s.equity, s.peak) == Some(kind) <==>
                           Reaches(kind, l, s)
  {
    if s.peak > 0 { ShareAtLeast((s.peak - s.equity) as real, s.peak as real, l.drawdownPct); }
  }

  /** Where the account stands when the positions of t are priced. */
  ghost function StandingOf(t: Tables, cash: Cents, deps: Deps, env: Env): Standing {
    var c, now, ps := deps.calendar, env.now(AtRisk), ListPositions(t.positions);
    var equity := cash + WorthOf(ps, env.market);
    Standing(PnlOf(t.trades, ClosedOn(c, c.day(now))), PnlOf(t.trades, ClosedSince(c, c.weekStart(now))),
             GainOf(ps, env.market), equity, Max(PriorPeak(t.snapshots, deps.capital, c.day(now)), equity))
  }

  ghost predicate LimitReached(t: Tables, cash: Cents, deps: Deps, env: Env) {
    exists kind :: Reaches(kind, deps.limits, StandingOf(t, cash, deps, env))
  }

  /** The loss check finds exactly the limits that are reached. */
  lemma {:induction false} BreachExactly(t: Tables, u: Tables, cash: Cents, h: HoldingsOutcome, deps: Deps, env: Env)
    requires u.trades == t.trades
    requires h.value == WorthOf(ListPositions(t.positions), env.market)
             && h.unrealized == GainOf(ListPositions(t.positions), env.market)
    ensures var s := TodaysSnapshot(t.snapshots, cash, h, deps, env);
            && (forall kind :: BreachAt(u, s, h, deps, env) == Some(kind) <==>
                               Reaches(kind, deps.limits, StandingOf(t, cash, deps, env)))
            && (BreachAt(u, s, h, deps, env).Some? <==> LimitReached(t, cash, deps, env))
  {
    var c, now := deps.calendar, env.now(AtRisk);
    RealizedExactly(t.trades, c, c.day(now));
    RealizedExactly(t.trades, c, c.weekStart(now));
    ReachesExactly(deps.limits, StandingOf(t, cash, deps, env));
    var s := TodaysSnapshot(t.snapshots, cash, h, deps, env);
    var b := BreachAt(u, s, h, deps, env);
    if b.Some? { assert Reaches(b.value, deps.limits, StandingOf(t, cash, deps, env)); }
  }
}
