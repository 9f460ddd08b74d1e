// src/trader/rules: what may be bought, when a holding is sold, when to stop.
module Rules {
  import opened Money
  import opened Models

  datatype RuleSet = RuleSet(
    capital: Cents,
    maxNotionalPct: Ratio, maxConcurrentPositions: nat, maxHoldingDays: int,
    stopLossPct: Ratio, takeProfitPct: Ratio, takeProfitFraction: Ratio, trailingStopPct: Ratio,
    maxDailyLossPct: Ratio, maxWeeklyLossPct: Ratio, maxDrawdownPct: real,
    minPrice: Ratio, minAvgVolume: int, excluded: set<Ticker>)

  /** What the schema of the rules file admits (`RuleSet`, `PositionRules`, `ExitRules`, ...). */
  predicate Admissible(r: RuleSet) {
    && r.capital >= 0
    && r.maxConcurrentPositions >= 1 && r.maxHoldingDays >= 1
    && Percentage(r.maxNotionalPct) && Percentage(r.takeProfitPct) && Percentage(r.trailingStopPct)
    && Percentage(r.maxDailyLossPct) && Percentage(r.maxWeeklyLossPct)
    && -100 * r.stopLossPct.den < r.stopLossPct.num < 0
    && 0 < r.takeProfitFraction.num < r.takeProfitFraction.den
    && 0.0 < r.maxDrawdownPct <= 100.0
    && r.minPrice.num > 0 && r.minAvgVolume >= 0
  }

  predicate Percentage(p: Ratio) { 0 < p.num <= 100 * p.den }

  datatype Limits = Limits(notional: Cents, dailyLoss: Cents, weeklyLoss: Cents, drawdownPct: real)

  function DeriveLimits(r: RuleSet): Limits {
    Limits(PctOf(r.capital, r.maxNotionalPct), PctOf(r.capital, r.maxDailyLossPct),
           PctOf(r.capital, r.maxWeeklyLossPct), r.maxDrawdownPct)
  }

  /** Each limit is its own percentage of the capital, to the nearest cent. */
  lemma {:induction false} LimitsDerived(r: RuleSet)
    ensures var l := DeriveLimits(r);
            && IsHalfEven(r.capital * r.maxNotionalPct.num, 100 * r.maxNotionalPct.den, l.notional)
            && IsHalfEven(r.capital * r.maxDailyLossPct.num, 100 * r.maxDailyLossPct.den, l.dailyLoss)
            && IsHalfEven(r.capital * r.maxWeeklyLossPct.num, 100 * r.maxWeeklyLossPct.den, l.weeklyLoss)
            && l.drawdownPct == r.maxDrawdownPct
  {
  }

  /** No derived limit is negative or above the capital, rounding included. */
  lemma {:induction false} LimitsWithinCapital(r: RuleSet)
    requires Admissible(r)
    ensures var l := DeriveLimits(r);
            0 <= l.notional <= r.capital && 0 <= l.dailyLoss <= r.capital && 0 <= l.weeklyLoss <= r.capital
  {
    PctWithin(r.capital, r.maxNotionalPct);
    PctWithin(r.capital, r.maxDailyLossPct);
    PctWithin(r.capital, r.maxWeeklyLossPct);
  }

  lemma {:induction false} PctWithin(capital: Cents, pct: Ratio)
    requires capital >= 0 && Percentage(pct)
    ensures 0 <= PctOf(capital, pct) <= capital
  {
    MulMonotone(0, pct.num, capital);
    MulMonotone(pct.num, 100 * pct.den, capital);
    RoundBetween(capital * pct.num, 100 * pct.den, 0, capital);
  }

  // ---- loss_limits.py ----

  datatype LossKind = Daily | Weekly | DrawdownLoss

  /** 100 * (peak - equity) / peak, and 0 for a peak that is not positive. */
  function Drawdown(peak: Cents, equity: Cents): real {
    if peak > 0 then (peak - equity) as real / peak as real * 100.0 else 0.0
  }

  function LossBreach(l: Limits, realizedToday: Cents, unrealized: Cents, realizedWeek: Cents,
                      equity: Cents, peak: Cents): Option<LossKind> {
    if realizedToday + unrealized <= -l.dailyLoss then Some(Daily)
    else if realizedWeek + unrealized <= -l.weeklyLoss then Some(Weekly)
    else if peak > 0 && Drawdown(peak, equity) >= l.drawdownPct then Some(DrawdownLoss)
    else None
  }

  /** The largest equity, below a positive peak, whose drawdown breaches the limit. */
  function BreachEquity(l: Limits, peak: Cents): Cents { (peak as real * (100.0 - l.drawdownPct) / 100.0).Floor }

  lemma {:induction false} DrawdownAtEquity(l: Limits, equity: Cents, peak: Cents)
    requires peak > 0
    ensures Drawdown(peak, equity) >= l.drawdownPct <==> equity <= BreachEquity(l, peak)
  {
    var p, e, gap := peak as real, equity as real, (peak - equity) as real;
    ShareAtLeast(gap, p, l.drawdownPct);
    assert gap == p - e && p * (100.0 - l.drawdownPct) == 100.0 * p - l.drawdownPct * p;
  }

  lemma {:induction false} ShareAtLeast(gap: real, p: real, limit: real)
    requires p > 0.0
    ensures gap / p * 100.0 >= limit <==> 100.0 * gap >= limit * p
  {
    var x := gap / p * 100.0;
    assert gap / p * p == gap;
    assert x * p == 100.0 * gap;
    if x < limit { RealMulStrict(x, limit, p); }
    if x > limit { RealMulStrict(limit, x, p); }
  }

  /** How much more the open positions may lose before each limit is reached. */
  datatype Headroom = Headroom(daily: Cents, weekly: Cents, drawdown: Option<Cents>)

  function HeadroomOf(l: Limits, today: Cents, unrealized: Cents, week: Cents, equity: Cents, peak: Cents): Headroom {
    Headroom(l.dailyLoss + today + unrealized, l.weeklyLoss + week + unrealized,
             if peak > 0 then Some(equity - BreachEquity(l, peak)) else None)
  }

  /** A further loss halts exactly when it uses up a headroom, and what is reported is the
      first of the daily, the weekly and the drawdown limit whose headroom is gone. */
  lemma {:induction false} BreachAtLimit(l: Limits, today: Cents, unrealized: Cents, week: Cents, equity: Cents,
                                         peak: Cents, loss: Cents)
    ensures var room := HeadroomOf(l, today, unrealized, week, equity, peak);
            var b := LossBreach(l, today, unrealized - loss, week, equity - loss, peak);
            && (b == Some(Daily) <==> room.daily <= loss)
            && (b == Some(Weekly) <==> room.weekly <= loss < room.daily)
            && (b == Some(DrawdownLoss) <==>
                  room.drawdown.Some? && room.drawdown.value <= loss < room.daily && loss < room.weekly)
  {
    if peak > 0 { DrawdownAtEquity(l, equity - loss, peak); }
  }

  /** A breach is never lifted by a larger unrealized loss or a smaller equity. */
  lemma {:induction false} WorseStillBreaches(l: Limits, today: Cents, unrealized: Cents, week: Cents, equity: Cents,
                                              peak: Cents, worse: Cents, lower: Cents)
    requires LossBreach(l, today, unrealized, week, equity, peak).Some? && worse <= unrealized && lower <= equity
    ensures LossBreach(l, today, worse, week, lower, peak).Some?
  {
    if peak > 0 { DrawdownGrows(peak, equity, lower); }
  }

  lemma {:induction false} DrawdownGrows(peak: Cents, equity: Cents, lower: Cents)
    requires peak > 0 && lower <= equity
    ensures Drawdown(peak, equity) <= Drawdown(peak, lower)
  {
    var p, x, y := peak as real, (peak - equity) as real, (peak - lower) as real;
    assert x / p * p == x && y / p * p == y;
    if y / p < x / p { RealMulStrict(y / p, x / p, p); }
  }

  lemma {:induction false} RealMulStrict(a: real, b: real, p: real)
    requires a < b && p > 0.0
    ensures a * p < b * p
  {
    assert (b - a) * p > 0.0;
  }

  // ---- entry_checks.py ----

  datatype EntryPlan = EntryPlan(ticker: Ticker, qty: Shares, notional: Cents, limit: Cents, referencePrice: Ticks)

  datatype Rejection =
    | ExcludedTicker | AlreadyHeld | TooManyPositions | MarketClosed | LossLimitReached
    | BelowMinPrice | BelowMinVolume | PriceOverLimit

  function CheckEntry(ticker: Ticker, rules: RuleSet, limits: Limits, holdings: set<Ticker>, marketOpen: bool,
                      price: Ticks, avgVolume: int, loss: Option<LossKind>): Result<EntryPlan, Rejection>
    requires rules.minPrice.num > 0
  {
    if ticker in rules.excluded then Err(ExcludedTicker)
    else if ticker in holdings then Err(AlreadyHeld)
    else if |holdings| >= rules.maxConcurrentPositions then Err(TooManyPositions)
    else if !marketOpen then Err(MarketClosed)
    else if loss.Some? then Err(LossLimitReached)
    else if price * rules.minPrice.den < rules.minPrice.num * 10_000 then Err(BelowMinPrice)
    else if avgVolume < rules.minAvgVolume then Err(BelowMinVolume)
    else if price > TICKS_PER_CENT * limits.notional then Err(PriceOverLimit)
    else
      PricePositive(price, rules.minPrice);
      QuotientBounds(TICKS_PER_CENT * limits.notional, price);
      var shares := TICKS_PER_CENT * limits.notional / price;
      Ok(EntryPlan(ticker, shares, ToCents(price * shares), limits.notional, price))
  }

  /** In whatever order they are looked at, the rules accept exactly what meets all of them. */
  lemma {:induction false} AcceptedExactly(ticker: Ticker, rules: RuleSet, limits: Limits, holdings: set<Ticker>,
                                           marketOpen: bool, price: Ticks, avgVolume: int, loss: Option<LossKind>)
    requires rules.minPrice.num > 0
    ensures CheckEntry(ticker, rules, limits, holdings, marketOpen, price, avgVolume, loss).Ok? <==>
              && marketOpen && loss.None? && ticker !in rules.excluded + holdings
              && |holdings + {ticker}| <= rules.maxConcurrentPositions
              && rules.minPrice.num * 10_000 <= price * rules.minPrice.den && price <= TICKS_PER_CENT * limits.notional
              && rules.minAvgVolume <= avgVolume
  {
    if ticker !in holdings { assert |holdings + {ticker}| == |holdings| + 1; }
  }

  /** The rule a rejection names is not met. */
  predicate Unmet(why: Rejection, ticker: Ticker, rules: RuleSet, limits: Limits, holdings: set<Ticker>,
                  marketOpen: bool, price: Ticks, avgVolume: int, loss: Option<LossKind>)
  {
    match why
    case ExcludedTicker => ticker in rules.excluded
    case AlreadyHeld => ticker in holdings
    case TooManyPositions => |holdings| >= rules.maxConcurrentPositions
    case MarketClosed => !marketOpen
    case LossLimitReached => loss.Some?
    case BelowMinPrice => price * rules.minPrice.den < 10_000 * rules.minPrice.num
    case BelowMinVolume => avgVolume < rules.minAvgVolume
    case PriceOverLimit => price > TICKS_PER_CENT * limits.notional
  }

  /** The order in which the rules are documented. */
  predicate Precedes(a: Rejection, b: Rejection) {
    match b
    case ExcludedTicker => false
    case AlreadyHeld => a.ExcludedTicker?
    case TooManyPositions => a.ExcludedTicker? || a.AlreadyHeld?
    case MarketClosed => a.ExcludedTicker? || a.AlreadyHeld? || a.TooManyPositions?
    case LossLimitReached => !a.LossLimitReached? && !a.BelowMinPrice? && !a.BelowMinVolume? && !a.PriceOverLimit?
    case BelowMinPrice => !a.BelowMinPrice? && !a.BelowMinVolume? && !a.PriceOverLimit?
    case BelowMinVolume => !a.BelowMinVolume? && !a.PriceOverLimit?
    case PriceOverLimit => !a.PriceOverLimit?
  }

  /** A rejection names the first rule that is not met. */
  lemma {:induction false} RejectsInOrder(ticker: Ticker, rules: RuleSet, limits: Limits, holdings: set<Ticker>,
                                          marketOpen: bool, price: Ticks, avgVolume: int, loss: Option<LossKind>,
                                          why: Rejection)
    requires rules.minPrice.num > 0
    ensures CheckEntry(ticker, rules, limits, holdings, marketOpen, price, avgVolume, loss) == Err(why)
            <==> && Unmet(why, ticker, rules, limits, holdings, marketOpen, price, avgVolume, loss)
                 && forall earlier :: Precedes(earlier, why) ==>
                      !Unmet(earlier, ticker, rules, limits, holdings, marketOpen, price, avgVolume, loss)
  {
    var r := CheckEntry(ticker, rules, limits, holdings, marketOpen, price, avgVolume, loss);
    if r.Err? && r.error != why {
      assert Precedes(r.error, why) || Precedes(why, r.error);
      assert Unmet(r.error, ticker, rules, limits, holdings, marketOpen, price, avgVolume, loss);
    }
  }

  /** s shares are the most the limit pays for, and `notional` is their price to the nearest cent. */
  predicate LargestBuy(s: int, price: Ticks, limit: Cents, notional: Cents) {
    s * price <= TICKS_PER_CENT * limit < (s + 1) * price && IsHalfEven(price * s, TICKS_PER_CENT, notional)
  }

  /** The plan of an accepted buy, whatever the price. */
  lemma {:induction false} PlanIsLargest(ticker: Ticker, rules: RuleSet, limits: Limits, holdings: set<Ticker>,
                                         marketOpen: bool, price: Ticks, avgVolume: int, loss: Option<LossKind>)
    requires rules.minPrice.num > 0
    requires CheckEntry(ticker, rules, limits, holdings, marketOpen, price, avgVolume, loss).Ok?
    ensures var plan := CheckEntry(ticker, rules, limits, holdings, marketOpen, price, avgVolume, loss).value;
            && LargestBuy(plan.qty, price, limits.notional, plan.notional)
            && plan.ticker == ticker && plan.referencePrice == price && plan.limit == limits.notional
  {
    var plan := CheckEntry(ticker, rules, limits, holdings, marketOpen, price, avgVolume, loss).value;
    PricePositive(price, rules.minPrice);
    QuotientBounds(TICKS_PER_CENT * limits.notional, price);
    assert (plan.qty + 1) * price == plan.qty * price + price;
  }

  lemma {:induction false} PricePositive(price: Ticks, min: Ratio)
    requires min.num > 0 && price * min.den >= min.num * 10_000
    ensures price > 0
  {
    if price <= 0 { MulMonotone(price, 0, min.den); }
  }

  // ---- exit_checks.py ----

  datatype ExitSignal = ExitSignal(reason: ExitReason, fraction: Ratio)
  const ALL: Ratio := Ratio(1, 1)

  function CheckExit(p: Position, price: Ticks, rules: RuleSet, now: Time): Option<ExitSignal> {
    if price <= ScalePrice(p.avgCost, rules.stopLossPct) then Some(ExitSignal(StopLoss, ALL))
    else if (now - p.openedAt) / DAY >= rules.maxHoldingDays then Some(ExitSignal(MaxHoldingDays, ALL))
    else if !p.partialTpDone then
      if price >= ScalePrice(p.avgCost, rules.takeProfitPct)
      then Some(ExitSignal(PartialTakeProfit, rules.takeProfitFraction)) else None
    else
      if price <= ScalePrice(p.highWatermark, Ratio(-rules.trailingStopPct.num, rules.trailingStopPct.den))
      then Some(ExitSignal(TrailingStop, ALL)) else None
  }

  /** price is at most base * (1 + num / (100 * den)), quantized to the tick. */
  predicate AtMostPct(price: Ticks, base: Ticks, num: int, den: int) {
    AtMostRounded(price, base * (100 * den + num), 100 * den)
  }

  predicate AtLeastPct(price: Ticks, base: Ticks, num: int, den: int) {
    AtLeastRounded(price, base * (100 * den + num), 100 * den)
  }

  /** At or under the cost plus the (negative) stop loss percentage. */
  predicate StopsOut(p: Position, price: Ticks, rules: RuleSet) {
    AtMostPct(price, p.avgCost, rules.stopLossPct.num, rules.stopLossPct.den)
  }

  /** Held for at least so many times 24 hours. */
  predicate HeldTooLong(p: Position, rules: RuleSet, now: Time) { p.openedAt + 86_400 * rules.maxHoldingDays <= now }

  predicate TakesProfit(p: Position, price: Ticks, rules: RuleSet) {
    AtLeastPct(price, p.avgCost, rules.takeProfitPct.num, rules.takeProfitPct.den)
  }

  /** At or under the watermark less the trailing percentage. */
  predicate TrailsOff(p: Position, price: Ticks, rules: RuleSet) {
    AtMostPct(price, p.highWatermark, -rules.trailingStopPct.num, rules.trailingStopPct.den)
  }

  /** The one reason that applies: a stop loss before anything, a full holding period before any profit, and a
      profit taken in part before a trailing stop. */
  predicate Fires(reason: ExitReason, p: Position, price: Ticks, rules: RuleSet, now: Time) {
    match reason
    case StopLoss => StopsOut(p, price, rules)
    case MaxHoldingDays => !StopsOut(p, price, rules) && HeldTooLong(p, rules, now)
    case PartialTakeProfit =>
      !StopsOut(p, price, rules) && !HeldTooLong(p, rules, now) && !p.partialTpDone && TakesProfit(p, price, rules)
    case TrailingStop =>
      !StopsOut(p, price, rules) && !HeldTooLong(p, rules, now) && p.partialTpDone && TrailsOff(p, price, rules)
    case LlmExit => false
  }

  /** How much of a position a reason sells. */
  predicate SellsFraction(reason: ExitReason, rules: RuleSet, fraction: Ratio) {
    if reason == PartialTakeProfit then fraction == rules.takeProfitFraction else fraction == Ratio(1, 1)
  }

  /** Every exit rule fires exactly when it is its turn, and sells its own fraction. */
  lemma {:induction false} ExitExactly(p: Position, price: Ticks, rules: RuleSet, now: Time)
    ensures var s := CheckExit(p, price, rules, now);
            && (forall reason: ExitReason :: s.Some? && s.value.reason == reason <==>
                                             Fires(reason, p, price, rules, now))
            && (s.Some? ==> SellsFraction(s.value.reason, rules, s.value.fraction))
  {
    RoundedCompares(price, p.avgCost * (100 * rules.stopLossPct.den + rules.stopLossPct.num),
                    100 * rules.stopLossPct.den);
    RoundedCompares(price, p.avgCost * (100 * rules.takeProfitPct.den + rules.takeProfitPct.num),
                    100 * rules.takeProfitPct.den);
    RoundedCompares(price, p.highWatermark * (100 * rules.trailingStopPct.den - rules.trailingStopPct.num),
                    100 * rules.trailingStopPct.den);
    WholeDays(now - p.openedAt, rules.maxHoldingDays);
  }

  lemma {:induction false} WholeDays(seconds: int, days: int)
    ensures seconds / DAY >= days <==> seconds >= 86_400 * days
  {
  }

  /** A full holding period sells everything at every price above the stop. */
  lemma {:induction false} HoldingPeriodSells(p: Position, price: Ticks, rules: RuleSet, now: Time)
    requires HeldTooLong(p, rules, now)
    ensures CheckExit(p, price, rules, now)
            == Some(ExitSignal(if StopsOut(p, price, rules) then StopLoss else MaxHoldingDays, Ratio(1, 1)))
  {
    ExitExactly(p, price, rules, now);
    assert Fires(if StopsOut(p, price, rules) then StopLoss else MaxHoldingDays, p, price, rules, now);
  }

  /** Scaling by a percentage moves a price in that percentage's direction, rounding included. */
  lemma {:induction false} ScaledSide(price: Ticks, pct: Ratio)
    requires price >= 0
    ensures pct.num <= 0 ==> ScalePrice(price, pct) <= price
    ensures pct.num >= 0 ==> ScalePrice(price, pct) >= price
  {
    var whole := 100 * pct.den;
    RoundExact(price, whole);
    if pct.num <= 0 {
      MulMonotone(whole + pct.num, whole, price);
      RoundMonotone(price * (whole + pct.num), price * whole, whole);
    }
    if pct.num >= 0 {
      MulMonotone(whole, whole + pct.num, price);
      RoundMonotone(price * whole, price * (whole + pct.num), whole);
    }
  }

  /** A stop loss never sells above the average cost, a partial take-profit never below it, a
      trailing stop never above the watermark and only after a partial take-profit; and where
      a price stops a position out, so does every lower one. */
  lemma {:induction false} ExitsOnTheirSide(p: Position, price: Ticks, lower: Ticks, rules: RuleSet, now: Time)
    requires Admissible(rules) && p.avgCost >= 0 && p.highWatermark >= 0 && lower <= price
    ensures var s := CheckExit(p, price, rules, now);
            && (s.Some? && s.value.reason == StopLoss ==>
                  price <= p.avgCost && CheckExit(p, lower, rules, now) == Some(ExitSignal(StopLoss, ALL)))
            && (s.Some? && s.value.reason == PartialTakeProfit ==> price >= p.avgCost && !p.partialTpDone)
            && (s.Some? && s.value.reason == TrailingStop ==> price <= p.highWatermark && p.partialTpDone)
  {
    ScaledSide(p.avgCost, rules.stopLossPct);
    ScaledSide(p.avgCost, rules.takeProfitPct);
    ScaledSide(p.highWatermark, Ratio(-rules.trailingStopPct.num, rules.trailingStopPct.den));
  }

  // ---- sizing: shares -> cents -> shares (holdings.py, approval.py) ----

  function SellQty(held: nat, fraction: Ratio): Shares {
    var floored := held * fraction.num / fraction.den;
    if floored >= 1 then floored else 1
  }

  /** The whole shares in a fraction of a holding, or one share if there are none. */
  predicate SharesIn(held: nat, fraction: Ratio, s: int) {
    if held * fraction.num < fraction.den then s == 1
    else s * fraction.den <= held * fraction.num < (s + 1) * fraction.den
  }

  lemma {:induction false} SellQtyExactly(held: nat, fraction: Ratio)
    ensures SharesIn(held, fraction, SellQty(held, fraction))
  {
    var n, d := held * fraction.num, fraction.den;
    QuotientBounds(n, d);
    assert (n / d + 1) * d == n / d * d + d;
    if n < d { QuotientBelow(n, d, 1); }
  }

  datatype SizeError = Unsized | PriceNotPositive | ZeroShares

  function OrderQty(notional: Option<Cents>, price: Option<Ticks>): Result<Shares, SizeError> {
    if notional.None? || price.None? then Err(Unsized)
    else if price.value <= 0 then Err(PriceNotPositive)
    else
      var shares := (TICKS_PER_CENT * notional.value + TICKS_PER_CENT / 2) / price.value;
      if shares <= 0 then Err(ZeroShares) else Ok(shares)
  }

  /** The shares whose price is at most half a cent above the notional, and one more is not. */
  predicate SizesTo(notional: Cents, price: Ticks, s: int) {
    2 * s * price <= 2 * TICKS_PER_CENT * notional + TICKS_PER_CENT < 2 * (s + 1) * price
  }

  lemma {:induction false} OrderQtyExactly(notional: Option<Cents>, price: Option<Ticks>)
    ensures var r := OrderQty(notional, price);
            && (r == Err(Unsized) <==> notional.None? || price.None?)
            && (r == Err(PriceNotPositive) <==> notional.Some? && price.Some? && price.value <= 0)
            && (r.Ok? ==>
                  notional.Some? && price.Some? && price.value > 0 && SizesTo(notional.value, price.value, r.value))
            && (notional.Some? && price.Some? && price.value > 0 ==>
                  (r.Ok? <==> 2 * price.value <= 2 * TICKS_PER_CENT * notional.value + TICKS_PER_CENT))
  {
    if notional.Some? && price.Some? && price.value > 0 {
      var n, p := TICKS_PER_CENT * notional.value + TICKS_PER_CENT / 2, price.value;
      QuotientBounds(n, p);
      var s := n / p;
      assert (s + 1) * p == s * p + p && 2 * s * p == 2 * (s * p) && 2 * (s + 1) * p == 2 * ((s + 1) * p);
      if n < p { QuotientBelow(n, p, 1); }
    }
  }

  /** From a cent up, the cent-rounded notional of s shares sizes back to s shares. */
  lemma {:induction false} SizingRoundTrip(s: Shares, price: Ticks)
    requires price >= TICKS_PER_CENT
    ensures OrderQty(Some(ToCents(price * s)), Some(price)) == Ok(s)
  {
    var padded := TICKS_PER_CENT * ToCents(price * s) + TICKS_PER_CENT / 2;
    if price == TICKS_PER_CENT { RoundExact(s, TICKS_PER_CENT); }
    FloorUnique(padded, price, s);
  }

  /** Below a cent some share count always comes back larger than it went in. */
  lemma {:induction false} SubCentOversizes(price: Ticks) returns (s: Shares)
    requires 1 <= price < TICKS_PER_CENT
    ensures var r := OrderQty(Some(ToCents(price * s)), Some(price)); r.Ok? && r.value > s
  {
    if 2 * price <= TICKS_PER_CENT {
      s := 100;
      RoundExact(price, TICKS_PER_CENT);
      OversizedBy(price, s, price);
    } else {
      // With gap c below a cent, s = floor(49 / c) shares round up to s whole cents.
      var c := TICKS_PER_CENT - price;
      s := (TICKS_PER_CENT / 2 - 1) / c;
      QuotientBounds(TICKS_PER_CENT / 2 - 1, c);
      assert s * c <= 49 < s * c + c;
      assert price * s == 100 * s - s * c;
      HalfEvenUnique(price * s, TICKS_PER_CENT, ToCents(price * s), s);
      OversizedBy(price, s, s);
    }
  }

  lemma {:induction false} OversizedBy(price: Ticks, s: Shares, cents: Cents)
    requires price > 0 && ToCents(price * s) == cents
    requires price * s + price <= TICKS_PER_CENT * cents + TICKS_PER_CENT / 2
    ensures var r := OrderQty(Some(cents), Some(price)); r.Ok? && r.value > s
  {
    var padded := TICKS_PER_CENT * cents + TICKS_PER_CENT / 2;
    QuotientBounds(padded, price);
    if padded / price <= s { MulMonotone(padded / price, s, price); }
  }

  ghost predicate RoundTrips(s: Shares, price: Ticks) {
    OrderQty(Some(ToCents(price * s)), Some(price)) == Ok(s)
  }

  /** The round trip holds for every share count exactly from a cent up. */
  lemma {:induction false} RoundTripExactly(price: Ticks)
    requires price >= 1
    ensures (forall s: Shares :: RoundTrips(s, price)) <==> price >= TICKS_PER_CENT
  {
    if price >= TICKS_PER_CENT {
      forall s: Shares ensures RoundTrips(s, price) { SizingRoundTrip(s, price); }
    } else {
      var s := SubCentOversizes(price);
      assert !RoundTrips(s, price);
    }
  }

  /** An accepted buy is ordered at the largest share count the per-ticker limit pays for. */
  lemma {:induction false} BuyIsMaximal(ticker: Ticker, rules: RuleSet, limits: Limits, holdings: set<Ticker>,
                                        marketOpen: bool, price: Ticks, avgVolume: int, loss: Option<LossKind>)
    requires rules.minPrice.num > 0 && price >= TICKS_PER_CENT
    requires CheckEntry(ticker, rules, limits, holdings, marketOpen, price, avgVolume, loss).Ok?
    ensures var plan := CheckEntry(ticker, rules, limits, holdings, marketOpen, price, avgVolume, loss).value;
            var ordered := OrderQty(Some(plan.notional), Some(plan.referencePrice));
            && ordered == Ok(plan.qty)
            && plan.referencePrice == price
            && plan.qty * price <= TICKS_PER_CENT * limits.notional < (plan.qty + 1) * price
            && plan.notional <= limits.notional
  {
    var plan := CheckEntry(ticker, rules, limits, holdings, marketOpen, price, avgVolume, loss).value;
    SizingRoundTrip(plan.qty, price);
    QuotientBounds(TICKS_PER_CENT * limits.notional, price);
    assert (plan.qty + 1) * price == plan.qty * price + price;
    RoundMonotone(price * plan.qty, TICKS_PER_CENT * limits.notional, TICKS_PER_CENT);
    RoundExact(limits.notional, TICKS_PER_CENT);
  }

  /** A rule exit never asks for more than is held, and a partial one leaves a share whenever it can. */
  lemma {:induction false} SellQtyWithinHolding(held: nat, fraction: Ratio)
    requires held >= 1 && 0 < fraction.num <= fraction.den
    ensures SellQty(held, fraction) <= held
    ensures fraction.num == fraction.den ==> SellQty(held, fraction) == held
    ensures fraction.num < fraction.den && held >= 2 ==> SellQty(held, fraction) < held
  {
    var n, d := fraction.num, fraction.den;
    if n == d {
      FloorUnique(held * n, d, held);
    } else {
      LessProduct(held, n, d);
      QuotientBelow(held * n, d, held);
    }
  }

  lemma {:induction false} LessProduct(k: int, a: int, b: int)
    requires k >= 1 && a < b
    ensures k * a < k * b
  {
    MulMonotone(1, k, b - a);
    assert k * (b - a) == k * b - k * a;
  }
}
