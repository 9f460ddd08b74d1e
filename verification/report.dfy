// The peaks a cycle stores (src/trader/engine/cycle.py) against the drawdown the
// report recomputes (src/trader/report/metrics.py).
module Report {
  import opened Money
  import opened Models
  import opened Rules
  import opened Ledger
  import opened Cycle

  // ---- stored peaks ----

  ghost function RunningPeak(rows: seq<Snapshot>, capital: Cents): Cents {
    if rows == [] then capital else Max(RunningPeak(rows[..|rows| - 1], capital), rows[|rows| - 1].equity)
  }

  /** One row a day, each with the running peak and its drawdown. */
  ghost predicate Peaked(rows: seq<Snapshot>, capital: Cents) {
    rows == [] ||
    var front, last := rows[..|rows| - 1], rows[|rows| - 1];
    && Peaked(front, capital)
    && (front != [] ==> front[|front| - 1].day < last.day)
    && last.peakEquity == RunningPeak(rows, capital) && last.drawdownPct == Drawdown(last.peakEquity, last.equity)
  }

  /** Row i's peak is the largest of the capital and the equities up to row i. */
  ghost predicate IsPeakAt(rows: seq<Snapshot>, capital: Cents, i: nat)
    requires i < |rows|
  {
    var peak := rows[i].peakEquity;
    && capital <= peak && (forall j :: 0 <= j <= i ==> rows[j].equity <= peak)
    && (peak == capital || exists j :: 0 <= j <= i && rows[j].equity == peak)
  }

  lemma {:induction false} PeaksAreMaxima(rows: seq<Snapshot>, capital: Cents)
    requires Peaked(rows, capital)
    ensures forall i :: 0 <= i < |rows| ==> IsPeakAt(rows, capital, i)
    ensures forall i, j :: 0 <= i < j < |rows| ==> rows[i].day < rows[j].day
  {
    if rows != [] {
      var front, n := rows[..|rows| - 1], |rows| - 1;
      PeaksAreMaxima(front, capital);
      forall i | 0 <= i < n ensures IsPeakAt(rows, capital, i) {
        assert IsPeakAt(front, capital, i);
        if front[i].peakEquity != capital {
          var j :| 0 <= j <= i && front[j].equity == front[i].peakEquity;
          assert rows[j].equity == rows[i].peakEquity;
        }
      }
      LastIsPeak(rows, capital);
    }
  }

  lemma {:induction false} LastIsPeak(rows: seq<Snapshot>, capital: Cents)
    requires rows != [] && Peaked(rows, capital)
    requires |rows| > 1 ==> IsPeakAt(rows[..|rows| - 1], capital, |rows| - 2)
    ensures IsPeakAt(rows, capital, |rows| - 1)
  {
    var front, n := rows[..|rows| - 1], |rows| - 1;
    assert rows[n].peakEquity == Max(RunningPeak(front, capital), rows[n].equity);
    if n == 0 {
      assert front == [] && RunningPeak(front, capital) == capital;
    } else {
      assert front[n - 1].peakEquity == RunningPeak(front, capital);
      forall j | 0 <= j < n ensures rows[j].equity <= rows[n].peakEquity { assert rows[j] == front[j]; }
      if rows[n].peakEquity != rows[n].equity && rows[n].peakEquity != capital {
        var j :| 0 <= j <= n - 1 && front[j].equity == front[n - 1].peakEquity;
        assert rows[j].equity == rows[n].peakEquity;
      }
    }
  }

  ghost predicate NotAfter(rows: seq<Snapshot>, day: int) { rows != [] ==> rows[|rows| - 1].day <= day }

  /** A snapshot as `_evaluate_risk` computes it. */
  ghost predicate NextSnapshot(rows: seq<Snapshot>, s: Snapshot, capital: Cents) {
    s.peakEquity == Max(PriorPeak(rows, capital, s.day), s.equity) && s.drawdownPct == Drawdown(s.peakEquity, s.equity)
  }

  /** Storing it, as a new row or over today's, keeps every peak right. */
  lemma {:induction false} PutKeepsPeaks(rows: seq<Snapshot>, s: Snapshot, capital: Cents)
    requires Peaked(rows, capital) && NotAfter(rows, s.day) && NextSnapshot(rows, s, capital)
    ensures Peaked(PutSnapshot(rows, s), capital) && NotAfter(PutSnapshot(rows, s), s.day)
  {
    if rows != [] {
      var kept := if rows[|rows| - 1].day == s.day then rows[..|rows| - 1] else rows;
      assert PutSnapshot(rows, s) == kept + [s] && (kept + [s])[..|kept|] == kept;
      assert Peaked(kept, capital) && (kept != [] ==> kept[|kept| - 1].day < s.day);
      assert LastBefore(kept, s.day) == if kept == [] then None else Some(kept[|kept| - 1]);
      assert PriorPeak(rows, capital, s.day) == RunningPeak(kept, capital);
    } else {
      assert [s][..0] == [];
    }
  }

  // ---- the report ----

  /** The largest equity so far; the report starts from the first row, not from the capital. */
  function HighestEquity(rows: seq<Snapshot>): Cents
    requires rows != []
  {
    if |rows| == 1 then rows[0].equity else Max(HighestEquity(rows[..|rows| - 1]), rows[|rows| - 1].equity)
  }

  function Larger(a: real, b: real): real { if a >= b then a else b }

  /** The worst drawdown, before it is quantized. */
  function Worst(rows: seq<Snapshot>): real {
    if rows == [] then 0.0
    else Larger(Worst(rows[..|rows| - 1]), Drawdown(HighestEquity(rows), rows[|rows| - 1].equity))
  }

  /** q hundredths of a percent are the nearest to x percent, the even ones on a tie. */
  predicate IsNearestPct(x: real, q: int) {
    var err := 2.0 * (q as real - 100.0 * x);
    -1.0 <= err <= 1.0 && (err == 1.0 || err == -1.0 ==> q % 2 == 0)
  }

  function QuantizePct(x: real): (q: int)
    ensures IsNearestPct(x, q)
  {
    var f := (100.0 * x).Floor;
    var r := 100.0 * x - f as real;
    if r < 0.5 then f else if r > 0.5 then f + 1 else if f % 2 == 0 then f else f + 1
  }

  method MaxDrawdownPct(rows: seq<Snapshot>) returns (hundredths: int)
    ensures IsNearestPct(Worst(rows), hundredths)
  {
    if rows == [] { return 0; }
    var peak, worst := rows[0].equity, 0.0;
    for i := 0 to |rows|
      invariant worst == Worst(rows[..i]) && worst >= 0.0
      invariant peak == if i == 0 then rows[0].equity else HighestEquity(rows[..i])
    {
      assert rows[..i + 1][..i] == rows[..i];
      peak := Max(peak, rows[i].equity);
      if peak > 0 {
        worst := Larger(worst, (peak - rows[i].equity) as real / peak as real * 100.0);
      }
    }
    assert rows[..|rows|] == rows;
    return QuantizePct(worst);
  }

  function StoredWorst(rows: seq<Snapshot>): real {
    if rows == [] then 0.0 else Larger(StoredWorst(rows[..|rows| - 1]), rows[|rows| - 1].drawdownPct)
  }

  /** For an equity that is not negative, a higher peak is a deeper drawdown. */
  lemma {:induction false} DeeperFromHigher(low: Cents, high: Cents, equity: Cents)
    requires 0 <= equity <= high && low <= high
    ensures Drawdown(low, equity) <= Drawdown(high, equity)
  {
    if low > 0 {
      var l, h, e := low as real, high as real, equity as real;
      DrawdownAsShare(low, equity);
      DrawdownAsShare(high, equity);
      ShareShrinks(e, l, h);
    } else if high > 0 {
      DrawdownAsShare(high, equity);
      ShareAtMostOne(equity as real, high as real);
    }
  }

  lemma {:induction false} DrawdownAsShare(peak: Cents, equity: Cents)
    requires peak > 0
    ensures Drawdown(peak, equity) == 100.0 * (1.0 - equity as real / peak as real)
  {
    var p, e := peak as real, equity as real;
    ShareOf(p, e, (peak - equity) as real);
  }

  lemma {:induction false} ShareOf(p: real, e: real, gap: real)
    requires p > 0.0 && gap == p - e
    ensures gap / p * 100.0 == 100.0 * (1.0 - e / p)
  {
    var q, x := e / p, gap / p;
    assert q * p == e && x * p == gap;
    SameFactor(x, 1.0 - q, p);
  }

  lemma {:induction false} SameFactor(x: real, y: real, p: real)
    requires p > 0.0 && x * p == y * p
    ensures x == y
  {
    assert (x - y) * p == 0.0;
  }

  lemma {:induction false} ShareShrinks(e: real, l: real, h: real)
    requires 0.0 <= e && 0.0 < l <= h
    ensures e / h <= e / l
  {
    var x, y := e / h, e / l;
    assert x * h == y * l == e;
  }

  lemma {:induction false} ShareAtMostOne(e: real, h: real)
    requires e <= h && 0.0 < h
    ensures e / h <= 1.0
  {
    var x := e / h;
    assert x * h == e;
  }

  /** The report's peak is the stored one without the capital. */
  lemma {:induction false} PeaksCompared(rows: seq<Snapshot>, capital: Cents)
    requires rows != []
    ensures RunningPeak(rows, capital) == Max(capital, HighestEquity(rows))
    ensures HighestEquity(rows) >= rows[0].equity
  {
    if |rows| > 1 { PeaksCompared(rows[..|rows| - 1], capital); }
    else { assert rows[..0] == []; }
  }

  ghost predicate NoDebt(rows: seq<Snapshot>) { forall s :: s in rows ==> s.equity >= 0 }

  /** The report never shows more than the deepest stored drawdown. */
  lemma {:induction false} ReportWithinStored(rows: seq<Snapshot>, capital: Cents)
    requires Peaked(rows, capital) && NoDebt(rows)
    ensures Worst(rows) <= StoredWorst(rows)
  {
    if rows != [] {
      var front, last := rows[..|rows| - 1], rows[|rows| - 1];
      assert last in rows && forall s :: s in front ==> s in rows;
      ReportWithinStored(front, capital);
      PeaksCompared(rows, capital);
      DeeperFromHigher(HighestEquity(rows), last.peakEquity, last.equity);
    }
  }

  /** And exactly that where the first equity is at least the capital. */
  lemma {:induction false} ReportEqualsStored(rows: seq<Snapshot>, capital: Cents)
    requires Peaked(rows, capital) && (rows != [] ==> rows[0].equity >= capital)
    ensures Worst(rows) == StoredWorst(rows)
  {
    if rows != [] {
      ReportEqualsStored(rows[..|rows| - 1], capital);
      PeaksCompared(rows, capital);
    }
  }

  // ---- exactly when the report shows more than any stored row ----

  /** A drawdown measured from a lower peak is deeper only for a debt, and then always. */
  lemma {:induction false} DeeperFromLower(low: Cents, high: Cents, equity: Cents)
    requires equity <= low <= high
    ensures Drawdown(low, equity) > Drawdown(high, equity) <==> equity < 0 < low < high
  {
    if equity >= 0 {
      DeeperFromHigher(low, high, equity);
    } else if low > 0 {
      DrawdownsCompared(low, equity, high, equity);
      if low < high { NegativeScaled(equity, low, high); }
    } else if high > 0 {
      DrawdownAsShare(high, equity);
      ShareAtMostOne(equity as real, high as real);
    }
  }

  lemma {:induction false} NegativeScaled(e: int, low: int, high: int)
    requires e < 0 && low < high
    ensures e * low > e * high
  {
    assert e * (high - low) < 0;
  }

  /** Two drawdowns from positive peaks compare as their cross products. */
  lemma {:induction false} DrawdownsCompared(p: Cents, e: Cents, q: Cents, f: Cents)
    requires p > 0 && q > 0
    ensures Drawdown(p, e) > Drawdown(q, f) <==> e * q < f * p
  {
    DrawdownAsShare(p, e);
    DrawdownAsShare(q, f);
    SharesCompared(e as real, p as real, f as real, q as real);
    assert (e as real) * (q as real) == (e * q) as real && (f as real) * (p as real) == (f * p) as real;
  }

  lemma {:induction false} SharesCompared(e: real, p: real, f: real, q: real)
    requires p > 0.0 && q > 0.0
    ensures e / p < f / q <==> e * q < f * p
  {
    var x, y := e / p, f / q;
    assert x * p == e && y * q == f;
    assert e * q == x * (p * q) && f * p == y * (p * q);
    if x < y { RealMulStrict(x, y, p * q); }
    if y < x { RealMulStrict(y, x, p * q); }
  }

  /** Row i's drawdown as the report measures it. */
  ghost function ReportedAt(rows: seq<Snapshot>, i: nat): real
    requires i < |rows|
  {
    Drawdown(HighestEquity(rows[..i + 1]), rows[i].equity)
  }

  lemma {:induction false} PrefixPeaked(rows: seq<Snapshot>, capital: Cents, n: nat)
    requires Peaked(rows, capital) && n <= |rows|
    ensures Peaked(rows[..n], capital)
    decreases |rows|
  {
    if n == |rows| {
      assert rows[..n] == rows;
    } else {
      assert rows[..|rows| - 1][..n] == rows[..n];
      PrefixPeaked(rows[..|rows| - 1], capital, n);
    }
  }

  lemma {:induction false} HighestHasLast(rows: seq<Snapshot>)
    requires rows != []
    ensures rows[|rows| - 1].equity <= HighestEquity(rows)
  {
  }

  /** The report shows more of a row than its stored drawdown exactly when the row is a debt and
      the highest equity so far is positive and below the capital. */
  lemma {:induction false} RowExceedsExactly(rows: seq<Snapshot>, capital: Cents, i: nat)
    requires Peaked(rows, capital) && i < |rows|
    ensures ReportedAt(rows, i) > rows[i].drawdownPct <==> rows[i].equity < 0 < HighestEquity(rows[..i + 1]) < capital
  {
    var prefix := rows[..i + 1];
    PrefixPeaked(rows, capital, i + 1);
    PeaksCompared(prefix, capital);
    HighestHasLast(prefix);
    DeeperFromLower(HighestEquity(prefix), rows[i].peakEquity, rows[i].equity);
  }

  /** Row i: a debt measured from a positive high below the capital, and deeper, by cross products
      of equities and peaks, than every stored drawdown. */
  ghost predicate Exceeds(rows: seq<Snapshot>, capital: Cents, i: nat)
    requires i < |rows|
  {
    var low := HighestEquity(rows[..i + 1]);
    && rows[i].equity < 0 < low < capital
    && forall j :: 0 <= j < |rows| && rows[j].peakEquity > 0 ==>
      rows[i].equity * rows[j].peakEquity < rows[j].equity * low
  }

  lemma {:induction false} WorstIsReported(rows: seq<Snapshot>)
    ensures forall i :: 0 <= i < |rows| ==> ReportedAt(rows, i) <= Worst(rows)
    ensures Worst(rows) == 0.0 || exists i :: 0 <= i < |rows| && ReportedAt(rows, i) == Worst(rows)
    ensures Worst(rows) >= 0.0
  {
    if rows != [] {
      var front, n := rows[..|rows| - 1], |rows| - 1;
      WorstIsReported(front);
      assert rows[..n + 1] == rows;
      forall i | 0 <= i < n ensures ReportedAt(rows, i) == ReportedAt(front, i) {
        assert rows[..i + 1] == front[..i + 1];
      }
      assert Worst(rows) == Larger(Worst(front), ReportedAt(rows, n));
    }
  }

  lemma {:induction false} StoredWorstIsStored(rows: seq<Snapshot>)
    ensures forall j :: 0 <= j < |rows| ==> rows[j].drawdownPct <= StoredWorst(rows)
    ensures StoredWorst(rows) == 0.0 || exists j :: 0 <= j < |rows| && rows[j].drawdownPct == StoredWorst(rows)
    ensures StoredWorst(rows) >= 0.0
  {
    if rows != [] {
      StoredWorstIsStored(rows[..|rows| - 1]);
      assert forall j :: 0 <= j < |rows| - 1 ==> rows[..|rows| - 1][j] == rows[j];
    }
  }

  lemma {:induction false} StoredDrawdown(rows: seq<Snapshot>, capital: Cents, j: nat)
    requires Peaked(rows, capital) && j < |rows|
    ensures rows[j].drawdownPct == Drawdown(rows[j].peakEquity, rows[j].equity)
  {
    PrefixPeaked(rows, capital, j + 1);
  }

  lemma {:induction false} ExceedingShows(rows: seq<Snapshot>, capital: Cents, i: nat)
    requires Peaked(rows, capital) && i < |rows| && Exceeds(rows, capital, i)
    ensures ReportedAt(rows, i) > StoredWorst(rows)
  {
    var low := HighestEquity(rows[..i + 1]);
    RowExceedsExactly(rows, capital, i);
    DrawdownAsShare(low, rows[i].equity);
    StoredWorstIsStored(rows);
    if StoredWorst(rows) == 0.0 {
      DrawdownsCompared(low, rows[i].equity, low, low);
    } else {
      var j :| 0 <= j < |rows| && rows[j].drawdownPct == StoredWorst(rows);
      StoredDrawdown(rows, capital, j);
      DrawdownsCompared(low, rows[i].equity, rows[j].peakEquity, rows[j].equity);
    }
  }

  lemma {:induction false} ShownExceeds(rows: seq<Snapshot>, capital: Cents, i: nat)
    requires Peaked(rows, capital) && i < |rows| && ReportedAt(rows, i) > StoredWorst(rows)
    ensures Exceeds(rows, capital, i)
  {
    var low := HighestEquity(rows[..i + 1]);
    StoredWorstIsStored(rows);
    RowExceedsExactly(rows, capital, i);
    forall j | 0 <= j < |rows| && rows[j].peakEquity > 0
      ensures rows[i].equity * rows[j].peakEquity < rows[j].equity * low
    {
      StoredDrawdown(rows, capital, j);
      DrawdownsCompared(low, rows[i].equity, rows[j].peakEquity, rows[j].equity);
    }
  }

  /** The report shows more than every stored drawdown if and only if some row exceeds them all. */
  lemma {:induction false} ReportExceedsExactly(rows: seq<Snapshot>, capital: Cents)
    requires Peaked(rows, capital)
    ensures Worst(rows) > StoredWorst(rows) <==> exists i :: 0 <= i < |rows| && Exceeds(rows, capital, i)
  {
    WorstIsReported(rows);
    StoredWorstIsStored(rows);
    if Worst(rows) > StoredWorst(rows) {
      var i :| 0 <= i < |rows| && ReportedAt(rows, i) == Worst(rows);
      ShownExceeds(rows, capital, i);
    }
    forall i: nat | i < |rows| && Exceeds(rows, capital, i) ensures Worst(rows) > StoredWorst(rows) {
      ExceedingShows(rows, capital, i);
    }
  }

  /** Such rows exist: 200% reported where 150% is the deepest stored. */
  lemma {:induction false} DebtBreaksTheBound()
    ensures exists rows, capital :: Peaked(rows, capital) && Worst(rows) == 200.0 && StoredWorst(rows) == 150.0
  {
    var a := Snapshot(1, Paper, 100, 0, 100, 200, 50.0, 0);
    var b := Snapshot(2, Paper, -100, 0, -100, 200, 150.0, 0);
    var rows := [a, b];
    assert rows[..1] == [a] && [a][..0] == [];
    assert RunningPeak([], 200) == 200 && RunningPeak([a], 200) == 200;
    assert Drawdown(200, 100) == 50.0 && Drawdown(200, -100) == 150.0;
    assert Peaked([], 200) && Peaked([a], 200);
    assert RunningPeak(rows, 200) == 200;
    assert Peaked(rows, 200);
    WorstOfTwo(a, b);
    StoredWorstOfTwo(a, b);
  }

  lemma {:induction false} WorstOfTwo(a: Snapshot, b: Snapshot)
    ensures Worst([a, b]) == Larger(Larger(0.0, Drawdown(a.equity, a.equity)),
                                    Drawdown(Max(a.equity, b.equity), b.equity))
  {
    assert [a, b][..1] == [a] && [a][..0] == [];
    assert HighestEquity([a]) == a.equity && HighestEquity([a, b]) == Max(a.equity, b.equity);
    assert Worst([]) == 0.0 && Worst([a]) == Larger(0.0, Drawdown(a.equity, a.equity));
  }

  lemma {:induction false} StoredWorstOfTwo(a: Snapshot, b: Snapshot)
    ensures StoredWorst([a, b]) == Larger(Larger(0.0, a.drawdownPct), b.drawdownPct)
  {
    assert [a, b][..1] == [a] && [a][..0] == [];
    assert StoredWorst([a]) == Larger(0.0, a.drawdownPct);
  }
}
