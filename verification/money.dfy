// Amounts. A `Cents` is a Money amount in cents, a `Ticks` is a Price in
// ten-thousandths of a dollar; both are what `Decimal.quantize` with
// ROUND_HALF_EVEN leaves behind. Decimal's 28-digit context is not modelled:
// a quotient is the exact rational until it is quantized.
module Money {

  type Cents = int
  type Ticks = int
  const TICKS_PER_CENT := 100

  /** An exact Decimal read from the rules file: num / den. */
  datatype RawRatio = Ratio(num: int, den: int)
  type Ratio = r: RawRatio | r.den > 0 witness Ratio(0, 1)

  /** q is the integer nearest to n / d, and the even one of the two when n / d is a tie. */
  predicate IsHalfEven(n: int, d: int, q: int) {
    var err := 2 * (q * d - n);
    -d <= err <= d && (err == d || err == -d ==> q % 2 == 0)
  }

  function RoundHalfEven(n: int, d: int): (q: int)
    requires d > 0
    ensures IsHalfEven(n, d, q)
  {
    var f, r := n / d, n % d;
    assert n == f * d + r && (f + 1) * d == f * d + d;
    if 2 * r < d then f
    else if 2 * r > d then f + 1
    else if f % 2 == 0 then f else f + 1
  }

  /** The quotient of two Decimals, quantized. The source raises where d is zero. */
  function QuotHalfEven(n: int, d: int): int
    requires d != 0
  {
    if d > 0 then RoundHalfEven(n, d) else RoundHalfEven(-n, -d)
  }

  /** `Money(...)` of an amount held in ticks. */
  function ToCents(ticks: int): Cents { RoundHalfEven(ticks, TICKS_PER_CENT) }

  /** `pct_of`: capital * pct / 100, quantized to the cent. */
  function PctOf(capital: Cents, pct: Ratio): Cents { RoundHalfEven(capital * pct.num, 100 * pct.den) }

  /** `price * (1 + pct / 100)`, quantized to the tick. */
  function ScalePrice(price: Ticks, pct: Ratio): Ticks {
    RoundHalfEven(price * (100 * pct.den + pct.num), 100 * pct.den)
  }

  lemma {:induction false} MulMonotone(a: int, b: int, d: int)
    requires a <= b && 0 <= d
    ensures a * d <= b * d
  {
    assert (b - a) * d >= 0;
  }

  lemma {:induction false} FloorUnique(n: int, d: int, q: int)
    requires d > 0 && q * d <= n < q * d + d
    ensures n / d == q
  {
    Separated(q, n / d, d, n);
  }

  lemma {:induction false} QuotientBounds(n: int, d: int)
    requires d > 0
    ensures n / d * d <= n < n / d * d + d
    ensures d <= n ==> n / d >= 1
  {
    assert n == n / d * d + n % d;
  }

  lemma {:induction false} QuotientBelow(n: int, d: int, q: int)
    requires d > 0 && n < q * d
    ensures n / d < q
  {
    QuotientBounds(n, d);
    if q <= n / d { MulMonotone(q, n / d, d); }
  }

  /** Two floors of one quotient agree. */
  lemma {:induction false} Separated(p: int, q: int, d: int, n: int)
    requires d > 0 && p * d <= n < p * d + d && q * d <= n < q * d + d
    ensures p == q
  {
    var k := p - q;
    assert k * d == p * d - q * d;
    assert -d < k * d < d;
    UnitFactor(k, d);
  }

  lemma {:induction false} UnitFactor(k: int, d: int)
    requires d > 0 && -d < k * d < d
    ensures k == 0
  {
    if k != 0 {
      MulMonotone(1, if k > 0 then k else -k, d);
    }
  }

  lemma {:induction false} EvenFactor(k: int, d: int)
    requires d > 0 && k % 2 == 0 && -d <= k * d <= d
    ensures k == 0
  {
    if k != 0 {
      MulMonotone(2, if k > 0 then k else -k, d);
    }
  }

  /** Half-even rounding is a function: the definition above admits one value. */
  lemma {:induction false} HalfEvenUnique(n: int, d: int, p: int, q: int)
    requires d > 0 && IsHalfEven(n, d, p) && IsHalfEven(n, d, q)
    ensures p == q
  {
    assert (p - q) * d == (p * d - n) - (q * d - n);
    ErrorsAgree(p, q, d, p * d - n, q * d - n);
  }

  lemma {:induction false} ErrorsAgree(p: int, q: int, d: int, e: int, f: int)
    requires d > 0 && (p - q) * d == e - f
    requires -d <= 2 * e <= d && (2 * e == d || 2 * e == -d ==> p % 2 == 0)
    requires -d <= 2 * f <= d && (2 * f == d || 2 * f == -d ==> q % 2 == 0)
    ensures p == q
  {
    if -d < e - f < d {
      UnitFactor(p - q, d);
    } else {
      // Opposite half units: a tie, so both are even.
      EvenFactor(p - q, d);
    }
  }

  lemma {:induction false} RoundExact(k: int, d: int)
    requires d > 0
    ensures RoundHalfEven(k * d, d) == k
  {
    HalfEvenUnique(k * d, d, RoundHalfEven(k * d, d), k);
  }

  lemma {:induction false} HalfEvenOdd(n: int, d: int, q: int)
    requires IsHalfEven(n, d, q)
    ensures IsHalfEven(-n, d, -q)
  {
    assert (-q) * d == -(q * d);
  }

  lemma {:induction false} RoundOdd(n: int, d: int)
    requires d > 0
    ensures RoundHalfEven(-n, d) == -RoundHalfEven(n, d)
  {
    HalfEvenOdd(n, d, RoundHalfEven(n, d));
    HalfEvenUnique(-n, d, RoundHalfEven(-n, d), -RoundHalfEven(n, d));
  }

  lemma {:induction false} RoundMonotone(m: int, n: int, d: int)
    requires d > 0 && m <= n
    ensures RoundHalfEven(m, d) <= RoundHalfEven(n, d)
  {
    Ordered(m, n, d, RoundHalfEven(m, d), RoundHalfEven(n, d));
  }

  lemma {:induction false} Ordered(m: int, n: int, d: int, p: int, q: int)
    requires d > 0 && m <= n && IsHalfEven(m, d, p) && IsHalfEven(n, d, q)
    ensures p <= q
  {
    if m == n {
      HalfEvenUnique(m, d, p, q);
    } else if q < p {
      MulMonotone(1, p - q, d);
    }
  }

  /** How q compares to n / d rounded half-even, told from n and d alone. */
  predicate AtMostRounded(q: int, n: int, d: int) {
    var gap := 2 * (q * d - n);
    gap < d || (gap == d && q % 2 == 0)
  }

  predicate AtLeastRounded(q: int, n: int, d: int) {
    var gap := 2 * (q * d - n);
    gap > -d || (gap == -d && q % 2 == 0)
  }

  lemma {:induction false} RoundedCompares(q: int, n: int, d: int)
    requires d > 0
    ensures q <= RoundHalfEven(n, d) <==> AtMostRounded(q, n, d)
    ensures q >= RoundHalfEven(n, d) <==> AtLeastRounded(q, n, d)
  {
    var r := RoundHalfEven(n, d);
    FactorSteps(q - r, d);
    Distribute(q, r, d);
    GapCompares(q, r, r * d - n, q * d - r * d, d);
  }

  lemma {:induction false} Distribute(q: int, r: int, d: int)
    ensures (q - r) * d == q * d - r * d
  {
  }

  /** kd is as far from zero as k times d must be. */
  ghost predicate Steps(k: int, kd: int, d: int) {
    && (k == 0 ==> kd == 0) && (k >= 1 ==> kd >= d) && (k >= 2 ==> kd >= 2 * d)
    && (k <= -1 ==> kd <= -d) && (k <= -2 ==> kd <= -2 * d)
  }

  lemma {:induction false} FactorSteps(k: int, d: int)
    requires d > 0
    ensures Steps(k, k * d, d)
  {
    if k >= 1 { MulMonotone(1, k, d); }
    if k >= 2 { MulMonotone(2, k, d); }
    if k <= -1 { MulMonotone(k, -1, d); }
    if k <= -2 { MulMonotone(k, -2, d); }
  }

  lemma {:induction false} GapCompares(q: int, r: int, err: int, apart: int, d: int)
    requires d > 0 && -d <= 2 * err <= d && (2 * err == d || 2 * err == -d ==> r % 2 == 0) && Steps(q - r, apart, d)
    ensures var gap := 2 * (apart + err);
            && (q <= r <==> gap < d || (gap == d && q % 2 == 0))
            && (q >= r <==> gap > -d || (gap == -d && q % 2 == 0))
  {
  }

  /** A quantized average lies between the bounds of what was averaged. */
  lemma {:induction false} RoundBetween(n: int, d: int, lo: int, hi: int)
    requires d > 0 && lo * d <= n <= hi * d
    ensures lo <= RoundHalfEven(n, d) <= hi
  {
    RoundExact(lo, d);
    RoundExact(hi, d);
    RoundMonotone(lo * d, n, d);
    RoundMonotone(n, hi * d, d);
  }
}
