// The books balance: what settling fills keeps true of the tables.
module Settlement {
  import opened Models
  import opened TradeCloser
  import opened Accounting
  import opened Ledger
  import opened Protocol
  import opened Fills

  // ---- the invariant ----

  /** A row is filed under its own ticker. */
  ghost predicate KeysMatch(t: Tables) { forall k :: k in t.positions ==> t.positions[k].ticker == k }

  /** The foreign keys of fills and orders resolve. */
  ghost predicate Linked(t: Tables) {
    && (forall f :: f in t.fills ==> f.orderId in t.orders)
    && (forall id :: id in t.orders ==> t.orders[id].decisionId in t.decisions)
  }

  ghost predicate BalancedFor(t: Tables, ticker: Ticker) {
    && Increasing(HistoryOf(t, ticker))
    && Mirrors(GetPosition(t, ticker), BookOf(HistoryOf(t, ticker)))
    && TradesMatch(TradesOf(t.trades, ticker), ClosingsOf(HistoryOf(t, ticker)))
  }

  ghost function TradesOf(trades: seq<Trade>, ticker: Ticker): seq<Trade> {
    if trades == [] then []
    else
      var front, last := TradesOf(trades[..|trades| - 1], ticker), trades[|trades| - 1];
      if last.ticker == ticker then front + [last] else front
  }

  /** The trade rows are the completed round trips, one for one and in order. */
  ghost predicate TradesMatch(trades: seq<Trade>, closings: seq<Closing>) {
    |trades| == |closings| && forall i :: 0 <= i < |trades| ==> Records(trades[i], closings[i])
  }

  /** A trade was closed by a decision that has an order. */
  ghost predicate TradesFromOrders(t: Tables) {
    forall tr :: tr in t.trades ==> LastExit(tr).Some? && OrderId(LastExit(tr).value) in t.orders
  }

  ghost predicate Balanced(t: Tables) {
    KeysMatch(t) && Linked(t) && TradesFromOrders(t) && forall ticker :: BalancedFor(t, ticker)
  }

  // ---- histories under change ----

  lemma {:induction false} JoinedStable(t: Tables, u: Tables, fills: seq<Fill>, ticker: Ticker)
    requires Grows(t, u)
    requires forall f :: f in fills ==> f.orderId in t.orders && t.orders[f.orderId].decisionId in t.decisions
    ensures Joined(t, fills, ticker) == Joined(u, fills, ticker)
  {
    if fills != [] {
      assert fills[|fills| - 1] in fills;
      JoinedStable(t, u, fills[..|fills| - 1], ticker);
    }
  }

  lemma {:induction false} HistoryStable(t: Tables, u: Tables, ticker: Ticker)
    requires Linked(t) && Grows(t, u) && u.fills == t.fills
    ensures HistoryOf(u, ticker) == HistoryOf(t, ticker)
  {
    JoinedStable(t, u, t.fills, ticker);
  }

  lemma {:induction false} HistorySnoc(t: Tables, f: Fill, ticker: Ticker)
    ensures var u := t.(fills := t.fills + [f]);
            HistoryOf(u, ticker) ==
            if Joins(t, f, ticker)
            then HistoryOf(t, ticker) + [FillContext(f, t.orders[f.orderId].side, t.orders[f.orderId].decisionId)]
            else HistoryOf(t, ticker)
  {
    var u := t.(fills := t.fills + [f]);
    assert (t.fills + [f])[..|t.fills|] == t.fills;
    JoinedSame(t, u, t.fills, ticker);
  }

  lemma {:induction false} JoinedSame(t: Tables, u: Tables, fills: seq<Fill>, ticker: Ticker)
    requires u.orders == t.orders && u.decisions == t.decisions
    ensures Joined(t, fills, ticker) == Joined(u, fills, ticker)
  {
    if fills != [] { JoinedSame(t, u, fills[..|fills| - 1], ticker); }
  }

  lemma {:induction false} JoinedFromFills(t: Tables, fills: seq<Fill>, ticker: Ticker, c: FillContext)
    requires c in Joined(t, fills, ticker)
    ensures c.fill in fills
  {
    var front := fills[..|fills| - 1];
    if c in Joined(t, front, ticker) { JoinedFromFills(t, front, ticker, c); }
  }

  /** The positions as the bookkeeper sees them: marks and flags aside. */
  ghost predicate SameHoldings(t: Tables, u: Tables) {
    && t.positions.Keys == u.positions.Keys
    && forall k :: k in t.positions ==>
         var p, q := t.positions[k], u.positions[k];
         p.ticker == q.ticker && p.qty == q.qty && p.avgCost == q.avgCost && p.openedAt == q.openedAt
  }

  /** Recording decisions, approvals and orders, and marking positions, moves no shares. */
  lemma {:induction false} BalancedStable(t: Tables, u: Tables)
    requires Balanced(t) && Grows(t, u) && Linked(u)
    requires u.fills == t.fills && u.trades == t.trades && SameHoldings(t, u)
    ensures Balanced(u)
  {
    forall ticker ensures BalancedFor(u, ticker) {
      HistoryStable(t, u, ticker);
      assert BalancedFor(t, ticker);
    }
  }

  // ---- one fill ----

  /** The order row a job polls. */
  ghost predicate JobRecorded(t: Tables, job: PollJob) {
    && job.orderId == OrderId(job.decision.id) && job.orderId in t.orders
    && t.orders[job.orderId].decisionId == job.decision.id && t.orders[job.orderId].side == job.side
    && job.decision.id in t.decisions && t.decisions[job.decision.id] == job.decision
  }

  ghost predicate NeverClosed(t: Tables, id: Id) { forall tr :: tr in t.trades ==> LastExit(tr) != Some(id) }

  ghost predicate Earlier(h: History, time: Time) { forall c :: c in h ==> c.fill.filledAt < time }

  lemma {:induction false} FromSnoc(h: History, c: FillContext, since: Time)
    requires c.fill.filledAt >= since
    ensures From(h + [c], since) == From(h, since) + [c]
  {
    assert (h + [c])[..|h|] == h;
  }

  lemma {:induction false} WithoutFresh(h: History, id: Id)
    requires forall c :: c in h ==> c.fill.id != id
    ensures Without(h, id) == h
  {
    if h != [] {
      WithoutFresh(h[..|h| - 1], id);
      assert h == h[..|h| - 1] + [h[|h| - 1]];
    }
  }

  lemma {:induction false} IncreasingSnoc(h: History, c: FillContext)
    requires Increasing(h) && Earlier(h, c.fill.filledAt)
    ensures Increasing(h + [c])
  {
    assert forall i :: 0 <= i < |h| ==> h[i] in h;
  }

  /** The query of a closing sell finds the current opening and the sell itself. */
  lemma {:induction false} QueryFindsOpening(t: Tables, u: Tables, ticker: Ticker, c: FillContext)
    requires BookOf(HistoryOf(t, ticker)).Open? && Increasing(HistoryOf(t, ticker))
    requires HistoryOf(u, ticker) == HistoryOf(t, ticker) + [c]
    requires Earlier(HistoryOf(t, ticker), c.fill.filledAt)
    ensures var b := BookOf(HistoryOf(t, ticker)); ListFillContextSince(u, ticker, b.openedAt) == b.since + [c]
  {
    var h := HistoryOf(t, ticker);
    var b := BookOf(h);
    SinceIsTail(h);
    assert b.since[0] in h;
    FromSnoc(h, c, b.openedAt);
    SelectsCurrentOpening(h);
    TailSorted(h, b.since, c);
  }

  /** None of the opening's fills is the one being settled. */
  lemma {:induction false} OpeningIsOthers(t: Tables, ticker: Ticker, id: Id)
    requires BookOf(HistoryOf(t, ticker)).Open? && forall f :: f in t.fills ==> f.id != id
    ensures forall x :: x in BookOf(HistoryOf(t, ticker)).since ==> x.fill.id != id
  {
    var h := HistoryOf(t, ticker);
    SinceIsTail(h);
    forall x | x in BookOf(h).since ensures x.fill.id != id {
      assert x in h;
      JoinedFromFills(t, t.fills, ticker, x);
    }
  }

  /** So what the engine replays, the fill being settled left out, is what a bookkeeper
      would have carried. */
  lemma {:induction false} ReplayFindsCarried(t: Tables, u: Tables, ticker: Ticker, c: FillContext)
    requires BookOf(HistoryOf(t, ticker)).Open? && Increasing(HistoryOf(t, ticker))
    requires HistoryOf(u, ticker) == HistoryOf(t, ticker) + [c]
    requires Earlier(HistoryOf(t, ticker), c.fill.filledAt)
    requires forall f :: f in t.fills ==> f.id != c.fill.id
    ensures var b := BookOf(HistoryOf(t, ticker));
            Replay(Without(ListFillContextSince(u, ticker, b.openedAt), c.fill.id))
            == ReplayState(b.carried, b.qty, Some(b.avg))
  {
    var h := HistoryOf(t, ticker);
    QueryFindsOpening(t, u, ticker, c);
    OpeningIsOthers(t, ticker, c.fill.id);
    WithoutSnoc(BookOf(h).since, c);
    ReplayAgrees(h);
  }

  lemma {:induction false} WithoutSnoc(h: History, c: FillContext)
    requires forall x :: x in h ==> x.fill.id != c.fill.id
    ensures Without(h + [c], c.fill.id) == h
  {
    assert (h + [c])[..|h|] == h;
    WithoutFresh(h, c.fill.id);
  }

  lemma {:induction false} TailSorted(h: History, tail: History, c: FillContext)
    requires Increasing(h) && Earlier(h, c.fill.filledAt) && |tail| <= |h| && tail == h[|h| - |tail|..]
    ensures ByTime(tail + [c]) == tail + [c]
  {
    SuffixIncreasing(h, |h| - |tail|);
    IncreasingSnoc(tail, c);
    ByTimeKeepsSorted(tail + [c]);
  }

  lemma {:induction false} SuffixIncreasing(h: History, k: nat)
    requires Increasing(h) && k <= |h|
    ensures Increasing(h[k..]) && forall x :: x in h[k..] ==> x in h
  {
  }

  lemma {:induction false} TradesSnoc(trades: seq<Trade>, tr: Trade, ticker: Ticker)
    ensures TradesOf(trades + [tr], ticker) ==
            if tr.ticker == ticker then TradesOf(trades, ticker) + [tr] else TradesOf(trades, ticker)
  {
    assert (trades + [tr])[..|trades|] == trades;
  }

  /** The database does what it is told while fills are settled. */
  ghost predicate SettlesCleanly(faults: Faults) {
    && (forall k, id :: !faults(UpsertPositionStmt(k, Some(id))))
    && (forall a, b :: !faults(InsertTradeStmt(a, b)))
  }

  /** A fill of a known order, later than its ticker's other fills. */
  ghost predicate Timely(t: Tables, job: PollJob, f: Fill) {
    JobRecorded(t, job) && f.orderId == job.orderId && Earlier(HistoryOf(t, job.decision.ticker), f.filledAt)
  }

  /** A fill that can be settled: recorded against a known order, later than its
      ticker's other fills, and, if it sells, within the holding and explained. */
  ghost predicate Settleable(t: Tables, job: PollJob, f: Fill) {
    && Timely(t, job, f)
    && (job.side.Sell? ==>
          && job.decision.ticker in t.positions && f.qty <= t.positions[job.decision.ticker].qty
          && Resolve(job.reason, job.decision.origin).Some?
          && (f.qty == t.positions[job.decision.ticker].qty ==> NeverClosed(t, job.decision.id)))
  }

  ghost predicate OnlyTicker(t: Tables, u: Tables, ticker: Ticker) {
    forall k :: k != ticker ==>
      (k in t.positions <==> k in u.positions) && (k in t.positions ==> t.positions[k] == u.positions[k])
  }

  ghost function Held(t: Tables, ticker: Ticker): nat {
    if ticker in t.positions then t.positions[ticker].qty else 0
  }

  ghost function Holding(t: Tables, ticker: Ticker, p: Position): Tables {
    t.(positions := t.positions[ticker := p])
  }

  ghost function ClosedOut(t: Tables, ticker: Ticker, tr: Trade): Tables {
    t.(positions := t.positions - {ticker}, trades := t.trades + [tr])
  }

  lemma {:induction false} SettleBuy(t: Tables, job: PollJob, f: Fill, faults: Faults)
    requires Balanced(t) && Timely(t, job, f) && InsertFill(t, f, faults).Ok? && job.side.Buy?
    requires !faults(UpsertPositionStmt(job.decision.ticker, Some(f.id)))
    ensures var s := SettleSpec(InsertFill(t, f, faults).value, job, f, faults);
            && s.error.None? && Balanced(s.tables) && OnlyTicker(t, s.tables, job.decision.ticker)
            && HistoryOf(s.tables, job.decision.ticker)
               == HistoryOf(t, job.decision.ticker) + [FillContext(f, Buy, job.decision.id)]
            && Held(s.tables, job.decision.ticker) == Held(t, job.decision.ticker) + f.qty
  {
    var t1 := InsertFill(t, f, faults).value;
    var ticker, c := job.decision.ticker, FillContext(f, Buy, job.decision.id);
    var p := ApplyBuy(GetPosition(t, ticker), f, job.decision);
    assert p.ticker == ticker;
    assert BalancedFor(t, ticker);
    BuyFollowsBook(GetPosition(t, ticker), BookOf(HistoryOf(t, ticker)), f, job.decision);
    BuyKeepsInvariant(t, t1, ticker, c, p);
  }

  lemma {:induction false} BuyKeepsInvariant(t: Tables, t1: Tables, ticker: Ticker, c: FillContext, p: Position)
    requires Balanced(t) && Earlier(HistoryOf(t, ticker), c.fill.filledAt)
    requires t1 == t.(fills := t.fills + [c.fill]) && Joins(t, c.fill, ticker) && c.side.Buy?
    requires c.side == t.orders[c.fill.orderId].side && c.decisionId == t.orders[c.fill.orderId].decisionId
    requires p.ticker == ticker && Mirrors(Some(p), StepBook(BookOf(HistoryOf(t, ticker)), c))
    ensures var u := Holding(t1, ticker, p);
            Balanced(u) && OnlyTicker(t, u, ticker) && HistoryOf(u, ticker) == HistoryOf(t, ticker) + [c]
  {
    var u := Holding(t1, ticker, p);
    HistorySnoc(t, c.fill, ticker);
    JoinedSame(t1, u, t1.fills, ticker);
    forall k ensures BalancedFor(u, k) {
      assert BalancedFor(t, k);
      if k == ticker {
        BoughtBalances(t, u, k, c, p);
      } else {
        HistorySnoc(t, c.fill, k);
        JoinedSame(t1, u, t1.fills, k);
        assert GetPosition(u, k) == GetPosition(t, k);
      }
    }
  }

  lemma {:induction false} BoughtBalances(t: Tables, u: Tables, ticker: Ticker, c: FillContext, p: Position)
    requires BalancedFor(t, ticker) && Earlier(HistoryOf(t, ticker), c.fill.filledAt) && c.side.Buy?
    requires HistoryOf(u, ticker) == HistoryOf(t, ticker) + [c] && GetPosition(u, ticker) == Some(p)
    requires u.trades == t.trades && Mirrors(Some(p), StepBook(BookOf(HistoryOf(t, ticker)), c))
    ensures BalancedFor(u, ticker)
  {
    BookSnoc(HistoryOf(t, ticker), c);
    IncreasingSnoc(HistoryOf(t, ticker), c);
  }

  /** What a sell of a held ticker leaves: a smaller position, or no position and a trade. */
  ghost predicate SellStored(b: Book, c: FillContext, t: Tables, ticker: Ticker, update: PositionUpdate, u: Tables) {
    match update
    case OpenPosition(p) =>
      p.ticker == ticker && Mirrors(Some(p), StepBook(b, c)) && u == Holding(t, ticker, p)
    case ClosedTrade(tr) =>
      && tr.ticker == ticker && LastExit(tr) == Some(c.decisionId) && Closes(b, c)
      && Records(tr, Closing(b.openedAt, c.fill.filledAt, CarrySell(b, c), b.since + [c]))
      && u == ClosedOut(t, ticker, tr)
  }

  /** What the engine computes for a sell is the bookkeeper's step. */
  lemma {:induction false} SellComputed(t: Tables, job: PollJob, f: Fill, faults: Faults)
    requires Balanced(t) && Timely(t, job, f) && InsertFill(t, f, faults).Ok? && job.side.Sell?
    ensures var t1 := InsertFill(t, f, faults).value;
            var ticker, c, h := job.decision.ticker, FillContext(f, Sell, job.decision.id),
              HistoryOf(t, job.decision.ticker);
            var r := ApplySell(GetPosition(t, ticker), f, job.decision, job.reason, CarriedFor(t1, ticker, f, Sell));
            && HistoryOf(t1, ticker) == h + [c]
            && (r.Ok? ==> SellStored(BookOf(h), c, t1, ticker, r.value, StoredUpdate(t1, ticker, r.value)))
            && (r.Ok? && r.value.ClosedTrade? ==> r.value.trade.entryDecisionId in t.decisions)
  {
    var t1 := InsertFill(t, f, faults).value;
    var ticker, c := job.decision.ticker, FillContext(f, Sell, job.decision.id);
    var h := HistoryOf(t, ticker);
    assert BalancedFor(t, ticker);
    var b := BookOf(h);
    HistorySnoc(t, f, ticker);
    var carried := CarriedFor(t1, ticker, f, Sell);
    if b.Open? {
      ReplayFindsCarried(t, t1, ticker, c);
      CarriedMeans(h);
      EntryIsDecision(t, ticker);
      assert carried == b.carried;
    }
    SellFollowsBook(GetPosition(t, ticker), b, f, job.decision, job.reason, carried);
  }

  /** The tables once an update's statements have all succeeded. */
  ghost function StoredUpdate(t: Tables, ticker: Ticker, update: PositionUpdate): Tables {
    match update
    case OpenPosition(p) => Holding(t, ticker, p)
    case ClosedTrade(tr) => ClosedOut(t, ticker, tr)
  }

  /** A sell within the holding, explained, and not yet closed out, is never refused. */
  lemma {:induction false} SellAccepted(t: Tables, job: PollJob, f: Fill, faults: Faults)
    requires Balanced(t) && Settleable(t, job, f) && InsertFill(t, f, faults).Ok? && SettlesCleanly(faults)
             && job.side.Sell?
    ensures SettleSpec(InsertFill(t, f, faults).value, job, f, faults).error.None?
  {
    SellComputed(t, job, f, faults);
  }

  lemma {:induction false} JoinedDecisions(t: Tables, fills: seq<Fill>, ticker: Ticker)
    ensures forall c :: c in Joined(t, fills, ticker) ==> c.decisionId in t.decisions
  {
    if fills != [] { JoinedDecisions(t, fills[..|fills| - 1], ticker); }
  }

  lemma {:induction false} EntryIsDecision(t: Tables, ticker: Ticker)
    requires BookOf(HistoryOf(t, ticker)).Open?
    ensures var e := BookOf(HistoryOf(t, ticker)).carried.entry; e.Some? && e.value in t.decisions
  {
    var h := HistoryOf(t, ticker);
    CarriedMeans(h);
    SinceIsTail(h);
    JoinedDecisions(t, t.fills, ticker);
    assert BookOf(h).since[0] in h;
  }

  /** The sold ticker's history, position and trades move together. */
  lemma {:induction false} SoldBalances(t: Tables, t1: Tables, u: Tables, ticker: Ticker, c: FillContext,
                                        update: PositionUpdate)
    requires BalancedFor(t, ticker) && Earlier(HistoryOf(t, ticker), c.fill.filledAt)
    requires t1.positions == t.positions && t1.trades == t.trades
    requires HistoryOf(u, ticker) == HistoryOf(t, ticker) + [c]
    requires SellStored(BookOf(HistoryOf(t, ticker)), c, t1, ticker, update, u)
    ensures BalancedFor(u, ticker)
  {
    var h := HistoryOf(t, ticker);
    BookSnoc(h, c);
    IncreasingSnoc(h, c);
    match update
    case OpenPosition(p) =>
      assert GetPosition(u, ticker) == Some(p) && u.trades == t.trades;
    case ClosedTrade(tr) => ClosedBalances(t, u, ticker, c, tr);
  }

  lemma {:induction false} ClosedBalances(t: Tables, u: Tables, ticker: Ticker, c: FillContext, tr: Trade)
    requires BalancedFor(t, ticker) && Increasing(HistoryOf(u, ticker))
    requires HistoryOf(u, ticker) == HistoryOf(t, ticker) + [c] && Closes(BookOf(HistoryOf(t, ticker)), c)
    requires ticker !in u.positions && u.trades == t.trades + [tr] && tr.ticker == ticker
    requires var b := BookOf(HistoryOf(t, ticker));
             Records(tr, Closing(b.openedAt, c.fill.filledAt, CarrySell(b, c), b.since + [c]))
    ensures BalancedFor(u, ticker)
  {
    var h := HistoryOf(t, ticker);
    BookSnoc(h, c);
    TradesSnoc(t.trades, tr, ticker);
    assert GetPosition(u, ticker) == None && BookOf(h + [c]) == Flat;
  }

  /** No other ticker moves. */
  lemma {:induction false} UnsoldBalances(t: Tables, t1: Tables, u: Tables, ticker: Ticker, c: FillContext,
                                          update: PositionUpdate, k: Ticker)
    requires BalancedFor(t, k) && k != ticker
    requires t1.positions == t.positions && t1.trades == t.trades
    requires HistoryOf(u, k) == HistoryOf(t, k)
    requires SellStored(BookOf(HistoryOf(t, ticker)), c, t1, ticker, update, u)
    ensures BalancedFor(u, k)
  {
    if update.ClosedTrade? { TradesSnoc(t.trades, update.trade, k); }
    assert GetPosition(u, k) == GetPosition(t, k);
  }

  lemma {:induction false} SettleSell(t: Tables, job: PollJob, f: Fill, faults: Faults)
    requires Balanced(t) && Timely(t, job, f) && InsertFill(t, f, faults).Ok? && job.side.Sell?
    requires SettleSpec(InsertFill(t, f, faults).value, job, f, faults).error.None?
    ensures var s := SettleSpec(InsertFill(t, f, faults).value, job, f, faults);
            && Balanced(s.tables) && OnlyTicker(t, s.tables, job.decision.ticker)
            && HistoryOf(s.tables, job.decision.ticker)
               == HistoryOf(t, job.decision.ticker) + [FillContext(f, Sell, job.decision.id)]
            && Held(s.tables, job.decision.ticker) == Held(t, job.decision.ticker) - f.qty
            && (f.qty < Held(t, job.decision.ticker) ==> s.tables.trades == t.trades)
            && (f.qty == Held(t, job.decision.ticker) ==> job.decision.ticker !in s.tables.positions)
  {
    var t1 := InsertFill(t, f, faults).value;
    var ticker, c := job.decision.ticker, FillContext(f, Sell, job.decision.id);
    SellComputed(t, job, f, faults);
    var r := ApplySell(GetPosition(t, ticker), f, job.decision, job.reason, CarriedFor(t1, ticker, f, Sell));
    SellKeepsInvariant(t, t1, SettleSpec(t1, job, f, faults).tables, ticker, c, r.value);
  }

  lemma {:induction false} SellKeepsInvariant(t: Tables, t1: Tables, u: Tables, ticker: Ticker, c: FillContext,
                                              update: PositionUpdate)
    requires Balanced(t) && Earlier(HistoryOf(t, ticker), c.fill.filledAt)
    requires t1 == t.(fills := t.fills + [c.fill]) && Joins(t, c.fill, ticker)
    requires c.side == t.orders[c.fill.orderId].side && c.decisionId == t.orders[c.fill.orderId].decisionId
    requires OrderId(c.decisionId) in t.orders
    requires SellStored(BookOf(HistoryOf(t, ticker)), c, t1, ticker, update, u)
    ensures Balanced(u) && OnlyTicker(t, u, ticker)
    ensures HistoryOf(u, ticker) == HistoryOf(t, ticker) + [c]
  {
    HistorySnoc(t, c.fill, ticker);
    JoinedSame(t1, u, t1.fills, ticker);
    forall k ensures BalancedFor(u, k) {
      assert BalancedFor(t, k);
      if k == ticker {
        SoldBalances(t, t1, u, ticker, c, update);
      } else {
        HistorySnoc(t, c.fill, k);
        JoinedSame(t1, u, t1.fills, k);
        UnsoldBalances(t, t1, u, ticker, c, update, k);
      }
    }
    SoldLinked(t, t1, u, ticker, c, update);
  }

  lemma {:induction false} SoldLinked(t: Tables, t1: Tables, u: Tables, ticker: Ticker, c: FillContext,
                                      update: PositionUpdate)
    requires KeysMatch(t) && Linked(t) && TradesFromOrders(t) && t1 == t.(fills := t.fills + [c.fill])
    requires c.fill.orderId in t.orders && OrderId(c.decisionId) in t.orders
    requires SellStored(BookOf(HistoryOf(t, ticker)), c, t1, ticker, update, u)
    ensures KeysMatch(u) && Linked(u) && TradesFromOrders(u)
  {
  }

  /** The decision of a held ticker's opening buy. */
  function Opener(t: Tables, ticker: Ticker): Id
    requires ticker in t.positions
  {
    var rows := ListFillContextSince(t, ticker, t.positions[ticker].openedAt);
    if rows == [] then "" else rows[0].decisionId
  }

  lemma {:induction false} OpenerIsEntry(t: Tables, ticker: Ticker)
    requires Balanced(t) && ticker in t.positions
    ensures BookOf(HistoryOf(t, ticker)).Open? && BookOf(HistoryOf(t, ticker)).carried.entry == Some(Opener(t, ticker))
  {
    var h := HistoryOf(t, ticker);
    assert BalancedFor(t, ticker);
    var b := BookOf(h);
    SelectsCurrentOpening(h);
    CarriedMeans(h);
    SinceIsTail(h);
    SuffixIncreasing(h, |h| - |b.since|);
    ByTimeKeepsSorted(b.since);
  }

  /** What can be known before a fill is settled: a buy needs its upsert; a sell a large enough
      position, and then its upsert, or where it sells out a reason and a trade row to be had. */
  predicate CanSettle(t: Tables, job: PollJob, f: Fill, faults: Faults) {
    var k := job.decision.ticker;
    match job.side
    case Buy => !faults(UpsertPositionStmt(k, Some(f.id)))
    case Sell =>
      && k in t.positions && f.qty <= t.positions[k].qty
      && if f.qty < t.positions[k].qty then !faults(UpsertPositionStmt(k, Some(f.id)))
         else
           && Resolve(job.reason, job.decision.origin).Some?
           && !faults(InsertTradeStmt(Opener(t, k), job.decision.id))
           && forall u :: u in t.trades ==> !(u.entryDecisionId == Opener(t, k) && LastExit(u) == Some(job.decision.id))
  }

  /** A sell's result before it is stored. */
  lemma {:induction false} SellOutcome(position: Option<Position>, f: Fill, d: Decision, reason: Option<ExitReason>,
                                       carried: Carried)
    ensures var r := ApplySell(position, f, d, reason, carried);
            && (r.Ok? <==> position.Some? && f.qty <= position.value.qty
                           && (f.qty < position.value.qty || Resolve(reason, d.origin).Some?))
            && (r.Ok? ==> (r.value.OpenPosition? <==> f.qty < position.value.qty))
            && (r.Ok? && r.value.OpenPosition? ==> r.value.position.ticker == position.value.ticker)
  {
  }

  lemma {:induction false} StoresExactly(t: Tables, ticker: Ticker, update: PositionUpdate, fill: Id, faults: Faults,
                                         entry: Id, exit: Id)
    requires update.OpenPosition? ==> update.position.ticker == ticker
    requires update.ClosedTrade? ==>
               entry in t.decisions && update.trade.entryDecisionId == entry && LastExit(update.trade) == Some(exit)
    ensures StoreUpdate(t, ticker, update, fill, faults).error.None?
            <==> match update
                 case OpenPosition(_) => !faults(UpsertPositionStmt(ticker, Some(fill)))
                 case ClosedTrade(_) =>
                   && !faults(InsertTradeStmt(entry, exit))
                   && forall u :: u in t.trades ==> !(u.entryDecisionId == entry && LastExit(u) == Some(exit))
  {
  }

  lemma {:induction false} SoldEntry(t: Tables, t1: Tables, ticker: Ticker, c: FillContext, trade: Trade, u: Tables)
    requires Balanced(t) && ticker in t.positions
    requires SellStored(BookOf(HistoryOf(t, ticker)), c, t1, ticker, ClosedTrade(trade), u)
    ensures trade.entryDecisionId == Opener(t, ticker) && LastExit(trade) == Some(c.decisionId)
  {
    OpenerIsEntry(t, ticker);
  }

  lemma {:induction false} SellSettlesExactly(t: Tables, job: PollJob, f: Fill, faults: Faults)
    requires Balanced(t) && Timely(t, job, f) && InsertFill(t, f, faults).Ok? && job.side.Sell?
    ensures SettleSpec(InsertFill(t, f, faults).value, job, f, faults).error.None? <==> CanSettle(t, job, f, faults)
  {
    var t1, k := InsertFill(t, f, faults).value, job.decision.ticker;
    var carried := CarriedFor(t1, k, f, Sell);
    var r := ApplySell(GetPosition(t, k), f, job.decision, job.reason, carried);
    assert KeysMatch(t);
    SellComputed(t, job, f, faults);
    SellOutcome(GetPosition(t, k), f, job.decision, job.reason, carried);
    if r.Ok? {
      if r.value.ClosedTrade? {
        SoldEntry(t, t1, k, FillContext(f, Sell, job.decision.id), r.value.trade, StoredUpdate(t1, k, r.value));
      }
      StoresExactly(t1, k, r.value, f.id, faults, Opener(t, k), job.decision.id);
    }
  }

  lemma {:induction false} SettlesExactly(t: Tables, job: PollJob, f: Fill, faults: Faults)
    requires Balanced(t) && Timely(t, job, f) && InsertFill(t, f, faults).Ok?
    ensures SettleSpec(InsertFill(t, f, faults).value, job, f, faults).error.None? <==> CanSettle(t, job, f, faults)
  {
    var k := job.decision.ticker;
    if job.side.Buy? {
      assert ApplyBuy(GetPosition(t, k), f, job.decision).ticker == k by { assert KeysMatch(t); }
    } else {
      SellSettlesExactly(t, job, f, faults);
    }
  }

  /** The fill row is written first: whatever then stops its settlement, the books are off
      by it. They stay balanced exactly when the fill could be settled. */
  lemma {:induction false} BalancedExactlyWhenSettled(t: Tables, job: PollJob, f: Fill, faults: Faults)
    requires Balanced(t) && Timely(t, job, f) && InsertFill(t, f, faults).Ok?
    ensures Balanced(SettleSpec(InsertFill(t, f, faults).value, job, f, faults).tables)
            <==> CanSettle(t, job, f, faults)
  {
    SettlesExactly(t, job, f, faults);
    if CanSettle(t, job, f, faults) {
      if job.side.Buy? { SettleBuy(t, job, f, faults); } else { SettleSell(t, job, f, faults); }
    } else {
      UnsettledOff(t, job, f, faults);
    }
  }

  /** A ledger with an order to sell one share of what is not held, and a fill of it. */
  lemma {:induction false} OversellUnbalances() returns (t: Tables, job: PollJob, f: Fill)
    ensures Balanced(t) && Timely(t, job, f) && job.side.Sell? && InsertFill(t, f, _ => false).Ok?
    ensures var s := SettleSpec(InsertFill(t, f, _ => false).value, job, f, _ => false);
            s.error == Some(NotSettled(NoPosition)) && !Balanced(s.tables)
  {
    var d := Decision("d", "c", 0, Paper, "A", ActSell, RuleExit, Passed, Some(1), Some(100));
    var a := Approval("a", "d", System, 0, 1);
    var o := Order("order_d", "d", "a", "order_d", None, Paper, Sell, 1, Submitted, None, None);
    t := Tables(map["c" := CycleRow(0, Paper, None, None)], map["d" := d], [a], map["order_d" := o], [], map[], [], [],
                map[]);
    job := PollJob("order_d", "order_d", d, Sell, Some(StopLoss), 60, 2);
    f := Fill("f", "order_d", 1, 1, 100, 0);
    forall k ensures BalancedFor(t, k) { assert HistoryOf(t, k) == []; }
    assert OrderId("d") == "order_d";
    BalancedExactlyWhenSettled(t, job, f, _ => false);
  }

  lemma {:induction false} UnsettledOff(t: Tables, job: PollJob, f: Fill, faults: Faults)
    requires Balanced(t) && Timely(t, job, f) && InsertFill(t, f, faults).Ok?
    requires SettleSpec(InsertFill(t, f, faults).value, job, f, faults).error.Some?
    ensures !Balanced(SettleSpec(InsertFill(t, f, faults).value, job, f, faults).tables)
  {
    var t1 := InsertFill(t, f, faults).value;
    var u, ticker := SettleSpec(t1, job, f, faults).tables, job.decision.ticker;
    var c := FillContext(f, job.side, job.decision.id);
    HistorySnoc(t, f, ticker);
    FailedStore(t1, job, f, faults);
    if u == t1 {
      UnmovedOff(t, u, ticker, c);
    } else {
      SellComputed(t, job, f, faults);
      JoinedSame(t1, u, t1.fills, ticker);
      UnrecordedOff(t, u, ticker, c);
    }
  }

  /** A failed settlement left the tables alone, or had only deleted the position it closes. */
  lemma {:induction false} FailedStore(t: Tables, job: PollJob, f: Fill, faults: Faults)
    requires SettleSpec(t, job, f, faults).error.Some?
    ensures var u, ticker := SettleSpec(t, job, f, faults).tables, job.decision.ticker;
            var r := ApplySell(GetPosition(t, ticker), f, job.decision, job.reason, CarriedFor(t, ticker, f, Sell));
            u == t || (u == DeletePosition(t, ticker) && job.side.Sell? && r.Ok? && r.value.ClosedTrade?)
  {
  }

  /** A fill that moves no shares. */
  lemma {:induction false} UnmovedOff(t: Tables, u: Tables, ticker: Ticker, c: FillContext)
    requires Balanced(t) && HistoryOf(u, ticker) == HistoryOf(t, ticker) + [c] && u.positions == t.positions
    ensures !Balanced(u)
  {
    Snoc(HistoryOf(t, ticker), c);
    SharesConserved(t, ticker);
    if Balanced(u) { SharesConserved(u, ticker); }
  }

  /** A round trip that leaves no trade. */
  lemma {:induction false} UnrecordedOff(t: Tables, u: Tables, ticker: Ticker, c: FillContext)
    requires Balanced(t) && HistoryOf(u, ticker) == HistoryOf(t, ticker) + [c] && u.trades == t.trades
    requires Closes(BookOf(HistoryOf(t, ticker)), c)
    ensures !Balanced(u)
  {
    assert BalancedFor(t, ticker);
    BookSnoc(HistoryOf(t, ticker), c);
    assert !BalancedFor(u, ticker);
  }

  /** In balanced books the recorded buys less sells of a ticker are its position,
      and a position row holds at least one share. */
  lemma {:induction false} SharesConserved(t: Tables, ticker: Ticker)
    requires Balanced(t)
    ensures NetShares(HistoryOf(t, ticker)) == Held(t, ticker)
    ensures ticker in t.positions <==> Held(t, ticker) >= 1
  {
    assert BalancedFor(t, ticker);
    BookConservesShares(HistoryOf(t, ticker));
  }

  /** In balanced books every trade row is a completed round trip of its ticker, and
      its P&L is within the rounding drift of those fills' cash. */
  lemma {:induction false} TradesAccounted(t: Tables, ticker: Ticker, i: nat)
    requires Balanced(t) && i < |TradesOf(t.trades, ticker)|
    ensures var tr, cs := TradesOf(t.trades, ticker)[i], ClosingsOf(HistoryOf(t, ticker));
            i < |cs| && Records(tr, cs[i]) && Accounted(cs[i])
  {
    assert BalancedFor(t, ticker);
    ClosingsAccounted(HistoryOf(t, ticker));
  }
}
