// The history side of src/trader/engine/fills.py. `Replay` rebuilds, from fill
// rows alone, what the `positions` table does not store. `BookOf` is the
// reference it is held against: a bookkeeper that sees every fill once, in
// order, and never forgets what it has carried.
module Accounting {
  import opened Money
  import opened Models
  import opened TradeCloser

  datatype FillContext = FillContext(fill: Fill, side: Side, decisionId: Id)
  type History = seq<FillContext>

  // ---- the engine's replay ----

  datatype ReplayState = ReplayState(carried: Carried, qty: int, avg: Option<Ticks>)
  const EMPTY_REPLAY := ReplayState(NOTHING_CARRIED, 0, None)

  function ReplayBuy(s: ReplayState, c: FillContext): ReplayState {
    if s.avg.None? then
      s.(carried := s.carried.(entry := Some(c.decisionId)), qty := c.fill.qty, avg := Some(c.fill.price))
    else
      var total := s.qty + c.fill.qty;
      // The source divides by `total` and would raise on zero, which only an
      // oversold history reaches; the old average stands in for that crash.
      var avg := if total == 0 then s.avg.value
                 else QuotHalfEven(s.avg.value * s.qty + c.fill.price * c.fill.qty, total);
      s.(qty := total, avg := Some(avg))
  }

  function ReplaySell(s: ReplayState, c: FillContext): ReplayState {
    var avg := if s.avg.Some? then s.avg.value else 0;
    s.(carried := s.carried.(exits := s.carried.exits + [c.decisionId],
                             realized := s.carried.realized + SellPnl(avg, c.fill.price, c.fill.qty, c.fill.fee),
                             fees := s.carried.fees + c.fill.fee),
       qty := s.qty - c.fill.qty)
  }

  function ReplayStep(s: ReplayState, c: FillContext): ReplayState {
    if c.side.Buy? then ReplayBuy(s, c) else ReplaySell(s, c)
  }

  function Replay(h: History): ReplayState {
    if h == [] then EMPTY_REPLAY else ReplayStep(Replay(h[..|h| - 1]), h[|h| - 1])
  }

  /** The loop of `_replay_prior_fills`, over the rows already selected. */
  method ReplayPriorFills(rows: History, exclude: Id) returns (s: ReplayState)
    ensures s == Replay(Without(rows, exclude))
  {
    s := EMPTY_REPLAY;
    for i := 0 to |rows|
      invariant s == Replay(Without(rows[..i], exclude))
    {
      assert rows[..i + 1][..i] == rows[..i];
      if rows[i].fill.id != exclude {
        s := if rows[i].side.Buy? then ReplayBuy(s, rows[i]) else ReplaySell(s, rows[i]);
        var kept := Without(rows[..i], exclude);
        assert (kept + [rows[i]])[..|kept|] == kept;
      }
    }
    assert rows[..|rows|] == rows;
  }

  /** The rows of h other than the fill being settled. */
  function Without(h: History, id: Id): History {
    if h == [] then []
    else
      var front, last := Without(h[..|h| - 1], id), h[|h| - 1];
      if last.fill.id == id then front else front + [last]
  }

  // ---- the reference bookkeeper ----

  /** A ticker after some fills: flat, holding since an opening buy, or oversold. */
  datatype Book =
    | Flat
    | Open(qty: nat, avg: Ticks, openedAt: Time, carried: Carried, since: History)
    | Broken

  function StepBook(b: Book, c: FillContext): Book {
    match (b, c.side)
    case (Flat, Buy) =>
      Open(c.fill.qty, c.fill.price, c.fill.filledAt, NOTHING_CARRIED.(entry := Some(c.decisionId)), [c])
    case (Open(qty, avg, openedAt, carried, since), Buy) =>
      Open(qty + c.fill.qty, Average(avg, qty, c.fill.price, c.fill.qty), openedAt, carried, since + [c])
    case (Open(qty, avg, openedAt, carried, since), Sell) =>
      if c.fill.qty > qty then Broken
      else if c.fill.qty == qty then Flat
      else Open(qty - c.fill.qty, avg, openedAt, CarrySell(b, c), since + [c])
    case (_, _) => Broken
  }

  /** What is carried past one more sell. */
  function CarrySell(b: Book, c: FillContext): Carried
    requires b.Open?
  {
    Carried(b.carried.entry, b.carried.exits + [c.decisionId],
            b.carried.realized + SellPnl(b.avg, c.fill.price, c.fill.qty, c.fill.fee),
            b.carried.fees + c.fill.fee)
  }

  function BookOf(h: History): Book {
    if h == [] then Flat else StepBook(BookOf(h[..|h| - 1]), h[|h| - 1])
  }

  /** One round trip of a ticker: the fills that opened and closed it, and what they amount to. */
  datatype Closing = Closing(openedAt: Time, closedAt: Time, carried: Carried, fills: History)

  ghost predicate Closes(b: Book, c: FillContext) { b.Open? && c.side.Sell? && c.fill.qty == b.qty }

  /** Every round trip completed in h, in order. */
  ghost function ClosingsOf(h: History): seq<Closing> {
    if h == [] then []
    else
      var front, last := h[..|h| - 1], h[|h| - 1];
      var b := BookOf(front);
      if Closes(b, last) then
        ClosingsOf(front) + [Closing(b.openedAt, last.fill.filledAt, CarrySell(b, last), b.since + [last])]
      else ClosingsOf(front)
  }

  lemma {:induction false} BookSnoc(h: History, c: FillContext)
    ensures BookOf(h + [c]) == StepBook(BookOf(h), c)
    ensures ClosingsOf(h + [c]) ==
            if Closes(BookOf(h), c)
            then ClosingsOf(h) + [Closing(BookOf(h).openedAt, c.fill.filledAt, CarrySell(BookOf(h), c),
                                          BookOf(h).since + [c])]
            else ClosingsOf(h)
  {
    assert (h + [c])[..|h|] == h;
  }

  // ---- the two folds agree ----

  ghost predicate Increasing(h: History) {
    forall i, j :: 0 <= i < j < |h| ==> h[i].fill.filledAt < h[j].fill.filledAt
  }

  /** The opening's fills are the tail of the history, and start at `openedAt`. */
  ghost predicate IsTail(h: History, b: Book)
    requires b.Open?
  {
    && 0 < |b.since| <= |h| && b.since == h[|h| - |b.since|..]
    && b.since[0].fill.filledAt == b.openedAt
  }

  lemma {:induction false} TailFollows(h: History, b: Book, c: FillContext)
    requires b.Open? && IsTail(h, b) && StepBook(b, c).Open?
    ensures IsTail(h + [c], StepBook(b, c))
  {
    var k := |h| - |b.since|;
    assert (h + [c])[k..] == h[k..] + [c];
  }

  lemma {:induction false} SinceIsTail(h: History)
    requires BookOf(h).Open?
    ensures IsTail(h, BookOf(h))
  {
    var front, last := h[..|h| - 1], h[|h| - 1];
    assert h == front + [last];
    if BookOf(front).Open? {
      SinceIsTail(front);
      TailFollows(front, BookOf(front), last);
    }
  }

  function From(h: History, since: Time): History {
    if h == [] then []
    else
      var front, last := From(h[..|h| - 1], since), h[|h| - 1];
      if last.fill.filledAt >= since then front + [last] else front
  }

  /** Selecting by `filled_at >= opened_at` finds exactly the current opening. */
  lemma {:induction false} SelectsCurrentOpening(h: History)
    requires BookOf(h).Open? && Increasing(h)
    ensures From(h, BookOf(h).openedAt) == BookOf(h).since
  {
    SinceIsTail(h);
    FromSuffix(h, |h| - |BookOf(h).since|);
  }

  lemma {:induction false} FromSuffix(h: History, k: nat)
    requires k < |h| && Increasing(h)
    ensures From(h, h[k].fill.filledAt) == h[k..]
  {
    var front := h[..|h| - 1];
    if k < |front| {
      FromSuffix(front, k);
      assert h[k..] == front[k..] + [h[|h| - 1]];
    } else {
      FromNothing(front, h[k].fill.filledAt);
      assert h[k..] == [h[k]];
    }
  }

  lemma {:induction false} FromNothing(h: History, t: Time)
    requires forall i :: 0 <= i < |h| ==> h[i].fill.filledAt < t
    ensures From(h, t) == []
  {
    if h != [] { FromNothing(h[..|h| - 1], t); }
  }

  ghost predicate ReplaysTo(b: Book)
    requires b.Open?
  {
    Replay(b.since) == ReplayState(b.carried, b.qty, Some(b.avg))
  }

  lemma {:induction false} ReplaySnoc(h: History, c: FillContext)
    ensures Replay(h + [c]) == ReplayStep(Replay(h), c)
  {
    assert (h + [c])[..|h|] == h;
  }

  lemma {:induction false} ReplayFollows(b: Book, c: FillContext)
    requires b.Open? && ReplaysTo(b) && StepBook(b, c).Open?
    ensures ReplaysTo(StepBook(b, c))
  {
    ReplaySnoc(b.since, c);
  }

  /** Replaying the current opening rebuilds exactly what the bookkeeper carried. */
  lemma {:induction false} ReplayAgrees(h: History)
    requires BookOf(h).Open?
    ensures ReplaysTo(BookOf(h))
  {
    var front, last := h[..|h| - 1], h[|h| - 1];
    if BookOf(front).Open? {
      ReplayAgrees(front);
      ReplayFollows(BookOf(front), last);
    } else {
      ReplaySnoc([], last);
      assert [] + [last] == [last];
    }
  }

  /** What is carried, stated on the opening's own fills: ids and fees. */
  function SellIds(h: History): seq<Id> {
    if h == [] then []
    else SellIds(h[..|h| - 1]) + (if h[|h| - 1].side.Sell? then [h[|h| - 1].decisionId] else [])
  }

  function SellFees(h: History): Cents {
    if h == [] then 0
    else SellFees(h[..|h| - 1]) + (if h[|h| - 1].side.Sell? then h[|h| - 1].fill.fee else 0)
  }

  function NetShares(h: History): int {
    if h == [] then 0
    else NetShares(h[..|h| - 1]) + (if h[|h| - 1].side.Buy? then h[|h| - 1].fill.qty else 0 - h[|h| - 1].fill.qty)
  }

  lemma {:induction false} NetSharesSplit(a: History, b: History)
    ensures NetShares(a + b) == NetShares(a) + NetShares(b)
  {
    if b == [] {
      assert a + b == a;
    } else {
      assert (a + b)[..|a + b| - 1] == a + b[..|b| - 1];
      NetSharesSplit(a, b[..|b| - 1]);
    }
  }

  /** Shares are conserved: a history that never oversells nets to what is held. */
  lemma {:induction false} BookConservesShares(h: History)
    requires !BookOf(h).Broken?
    ensures NetShares(h) == if BookOf(h).Open? then BookOf(h).qty else 0
    ensures BookOf(h).Open? ==> BookOf(h).qty >= 1
  {
    if h != [] { BookConservesShares(h[..|h| - 1]); }
  }

  ghost predicate Means(b: Book)
    requires b.Open?
  {
    && 0 < |b.since| && b.since[0].side.Buy?
    && b.carried.entry == Some(b.since[0].decisionId)
    && b.carried.exits == SellIds(b.since)
    && b.carried.fees == SellFees(b.since)
    && b.qty == NetShares(b.since)
  }

  lemma {:induction false} Snoc(h: History, c: FillContext)
    ensures SellIds(h + [c]) == SellIds(h) + (if c.side.Sell? then [c.decisionId] else [])
    ensures SellFees(h + [c]) == SellFees(h) + (if c.side.Sell? then c.fill.fee else 0)
    ensures NetShares(h + [c]) == NetShares(h) + (if c.side.Buy? then c.fill.qty else 0 - c.fill.qty)
  {
    assert (h + [c])[..|h|] == h;
  }

  lemma {:induction false} MeansFollows(b: Book, c: FillContext)
    requires b.Open? && Means(b) && StepBook(b, c).Open?
    ensures Means(StepBook(b, c))
  {
    Snoc(b.since, c);
  }

  /** What the bookkeeper carries, read off the opening's own fills. */
  lemma {:induction false} CarriedMeans(h: History)
    requires BookOf(h).Open?
    ensures Means(BookOf(h))
  {
    var front, last := h[..|h| - 1], h[|h| - 1];
    if BookOf(front).Open? {
      CarriedMeans(front);
      MeansFollows(BookOf(front), last);
    } else {
      Snoc([], last);
      assert [] + [last] == [last];
    }
  }

  // ---- money: realized P&L against the raw cash flows ----

  /** Sell proceeds less buy cost less sell fees, exact, in ticks. */
  function Cash(h: History): Ticks {
    if h == [] then 0
    else
      var f := h[|h| - 1].fill;
      Cash(h[..|h| - 1]) +
      (if h[|h| - 1].side.Buy? then -(f.price * f.qty) else f.price * f.qty - TICKS_PER_CENT * f.fee)
  }

  /** Twice the drift three roundings may cause: a cent per sell, and for every
      buy but the first a tick for each share held after it. */
  function TwiceDrift(h: History): nat {
    if h == [] then 0
    else
      TwiceDrift(h[..|h| - 1]) +
      (if h[|h| - 1].side.Sell? then TICKS_PER_CENT
       else if |h| == 1 then 0
       else Max(0, NetShares(h)))
  }

  ghost predicate Within(gap: int, twice: nat) { 0 - twice <= 2 * gap <= twice }

  /** At every prefix, realized P&L less the cost of what is held tracks the cash. */
  lemma {:induction false} DriftBounded(h: History)
    requires BookOf(h).Open?
    ensures var b := BookOf(h);
            Within(TICKS_PER_CENT * b.carried.realized - b.avg * b.qty - Cash(b.since), TwiceDrift(b.since))
  {
    var front, last := h[..|h| - 1], h[|h| - 1];
    var p, b := BookOf(front), BookOf(h);
    if p.Open? {
      DriftBounded(front);
      CarriedMeans(front);
      CarriedMeans(h);
      assert b.since[..|p.since|] == p.since;
      if last.side.Buy? {
        BuyDrift(p.avg, p.qty, last.fill.price, last.fill.qty);
      } else {
        SellDrift(p.avg, p.qty, last.fill);
      }
    } else {
      assert b.since == [last] && b.since[..0] == [];
    }
  }

  lemma {:induction false} BuyDrift(avg: Ticks, qty: nat, price: Ticks, bought: Shares)
    ensures Within(Average(avg, qty, price, bought) * (qty + bought) - (avg * qty + price * bought), qty + bought)
  {
  }

  lemma {:induction false} SellDrift(avg: Ticks, qty: nat, f: Fill)
    requires f.qty <= qty
    ensures Within(TICKS_PER_CENT * SellPnl(avg, f.price, f.qty, f.fee)
                   - (f.price * f.qty - TICKS_PER_CENT * f.fee - avg * qty + avg * (qty - f.qty)),
                   TICKS_PER_CENT)
  {
    assert (f.price - avg) * f.qty == f.price * f.qty - avg * f.qty;
    assert avg * (qty - f.qty) == avg * qty - avg * f.qty;
  }

  /** What one completed round trip records. */
  ghost predicate Accounted(c: Closing) {
    var fs := c.fills;
    && 0 < |fs| && fs[0].side.Buy? && NetShares(fs) == 0
    && c.openedAt == fs[0].fill.filledAt && c.closedAt == fs[|fs| - 1].fill.filledAt
    && c.carried.entry == Some(fs[0].decisionId)
    && c.carried.exits == SellIds(fs)
    && c.carried.fees == SellFees(fs)
    && Within(TICKS_PER_CENT * c.carried.realized - Cash(fs), TwiceDrift(fs))
  }

  /** Every round trip of every history accounts for its own fills. */
  lemma {:induction false} ClosingsAccounted(h: History)
    ensures forall c :: c in ClosingsOf(h) ==> Accounted(c)
  {
    if h != [] {
      var front, last := h[..|h| - 1], h[|h| - 1];
      ClosingsAccounted(front);
      if Closes(BookOf(front), last) { ClosingAccounted(front, last); }
    }
  }

  lemma {:induction false} ClosingAccounted(h: History, c: FillContext)
    requires Closes(BookOf(h), c)
    ensures var b := BookOf(h);
            Accounted(Closing(b.openedAt, c.fill.filledAt, CarrySell(b, c), b.since + [c]))
  {
    var b := BookOf(h);
    var fs := b.since + [c];
    assert fs[..|b.since|] == b.since;
    SinceIsTail(h);
    CarriedMeans(h);
    DriftBounded(h);
    SellDrift(b.avg, b.qty, c.fill);
    assert b.avg * (b.qty - c.fill.qty) == 0;
  }

  /** Quantized after every buy, the average cost still never leaves the range of the buy prices. */
  lemma {:induction false} AverageWithinBuyPrices(h: History, lo: Ticks, hi: Ticks)
    requires BookOf(h).Open?
    requires forall c :: c in BookOf(h).since && c.side.Buy? ==> lo <= c.fill.price <= hi
    ensures lo <= BookOf(h).avg <= hi
  {
    var front, last := h[..|h| - 1], h[|h| - 1];
    var p, b := BookOf(front), BookOf(h);
    if p.Open? {
      assert forall c :: c in p.since ==> c in b.since;
      assert last in b.since;
      AverageWithinBuyPrices(front, lo, hi);
      if last.side.Buy? {
        AverageBetween(p.avg, p.qty, last.fill.price, last.fill.qty, lo, hi);
      }
    } else {
      assert b.since == [last];
    }
  }

  lemma {:induction false} AverageBetween(avg: Ticks, qty: nat, price: Ticks, bought: Shares, lo: Ticks, hi: Ticks)
    requires lo <= avg <= hi && lo <= price <= hi
    ensures lo <= Average(avg, qty, price, bought) <= hi
  {
    MulMonotone(lo, avg, qty);
    MulMonotone(avg, hi, qty);
    MulMonotone(lo, price, bought);
    MulMonotone(price, hi, bought);
    assert lo * (qty + bought) == lo * qty + lo * bought;
    assert hi * (qty + bought) == hi * qty + hi * bought;
    RoundBetween(avg * qty + price * bought, qty + bought, lo, hi);
  }

  // ---- the position table follows the bookkeeper ----

  ghost predicate Mirrors(position: Option<Position>, b: Book) {
    match b
    case Flat => position.None?
    case Open(qty, avg, openedAt, _, _) =>
      && position.Some? && position.value.qty == qty
      && position.value.avgCost == avg && position.value.openedAt == openedAt
    case Broken => false
  }

  /** A trade row records a round trip. */
  ghost predicate Records(t: Trade, c: Closing) {
    && t.openedAt == c.openedAt && t.closedAt == c.closedAt
    && c.carried.entry == Some(t.entryDecisionId) && t.exitDecisionIds == c.carried.exits
    && t.realizedPnl == c.carried.realized && t.fees == c.carried.fees
    && t.holdingDays == c.closedAt / DAY - c.openedAt / DAY
  }

  lemma {:induction false} BuyFollowsBook(position: Option<Position>, b: Book, fill: Fill, d: Decision)
    requires Mirrors(position, b)
    ensures Mirrors(Some(ApplyBuy(position, fill, d)), StepBook(b, FillContext(fill, Buy, d.id)))
  {
  }

  /** A sell fails exactly when it oversells, or closes out with nothing to explain it;
      otherwise the position, or the trade, is the bookkeeper's. */
  lemma {:induction false} SellFollowsBook(position: Option<Position>, b: Book, fill: Fill, d: Decision,
                                           reason: Option<ExitReason>, carried: Carried)
    requires Mirrors(position, b) && (b.Open? ==> b.carried == carried && carried.entry.Some?)
    ensures var r := ApplySell(position, fill, d, reason, carried);
            var c := FillContext(fill, Sell, d.id);
            match StepBook(b, c)
            case Broken => r.Err?
            case Open(_, _, _, _, _) =>
              && r.Ok? && r.value.OpenPosition? && Mirrors(Some(r.value.position), StepBook(b, c))
            case Flat =>
              if Resolve(reason, d.origin).None? then r == Err(Unexplained)
              else
                && b.Open? && r.Ok? && r.value.ClosedTrade?
                && Records(r.value.trade, Closing(b.openedAt, fill.filledAt, CarrySell(b, c), b.since + [c]))
                && r.value.trade.exitReason == (if reason.Some? then reason.value else LlmExit)
                && (reason.None? ==> d.origin == Llm)
  {
  }
}
