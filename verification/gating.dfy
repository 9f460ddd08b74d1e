// Exactly what the candidates' evaluation decides: which tickers it looks at, what
// each proposal becomes, and on what grounds it passes.
module Gating {
  import opened Money
  import opened Models
  import opened Rules
  import opened Ledger
  import opened Environment
  import opened Candidates
  import opened Proposals

  /** Everything a buy must meet, given what is held by then. */
  predicate MayEnter(ticker: Ticker, held: set<Ticker>, c: Setting, market: Market) {
    && c.marketOpen && c.loss.None? && ticker !in c.rules.excluded
    && ticker !in held && |held| < c.rules.maxConcurrentPositions
    && market.price(ticker).Ok? && market.volume(ticker).Ok?
    && 10_000 * c.rules.minPrice.num <= market.price(ticker).value * c.rules.minPrice.den
    && market.price(ticker).value <= TICKS_PER_CENT * c.limits.notional
    && c.rules.minAvgVolume <= market.volume(ticker).value
  }

  /** A decision of this evaluation, its n-th, on a ticker. */
  ghost predicate Decided(d: Decision, n: nat, ticker: Ticker, action: Action, c: Setting, env: Env) {
    && d.id == env.uuid(FreshEntry(n)) && d.cycleId == c.cycleId && d.decidedAt == env.now(AtCandidates)
    && d.mode == c.mode && d.ticker == ticker && d.action == action && d.origin == Llm
  }

  /** It passed, for the most shares the per-ticker limit pays for at the quote. */
  ghost predicate PassedAt(d: Decision, c: Setting, quote: Result<Ticks, string>) {
    && d.ruleCheck == Passed && quote.Ok? && d.referencePrice == Some(quote.value) && d.proposedNotional.Some?
    && exists shares :: LargestBuy(shares, quote.value, c.limits.notional, d.proposedNotional.value)
  }

  ghost predicate NotPassed(d: Decision) {
    d.ruleCheck == Rejected && d.proposedNotional.None? && d.referencePrice.None?
  }

  predicate Proposes(a: ProposedAction, action: Action) {
    match a
    case ProposeBuy => action == ActBuy
    case ProposeHold => action == ActHold
    case ProposeSkip => action == ActSkip
  }

  /** What a proposal becomes: it passes exactly if it is a buy that meets every rule. */
  ghost predicate Answers(d: Decision, n: nat, p: Proposal, held: set<Ticker>, c: Setting, env: Env) {
    && Decided(d, n, p.ticker, d.action, c, env) && Proposes(p.action, d.action)
    && if p.action == ProposeBuy && MayEnter(p.ticker, held, c, env.market)
       then PassedAt(d, c, env.market.price(p.ticker)) else NotPassed(d)
  }

  lemma {:induction false} GateOneAnswers(b: Batch, p: Proposal, c: Setting, env: Env)
    requires Sensible(c) && Priced(env.market, p.ticker)
    ensures var b' := GateOne(b, p, c, env);
            && |b'.decisions| == |b.decisions| + 1
            && Answers(b'.decisions[|b.decisions|], |b.decisions|, p, b.held, c, env)
  {
    var price, volume := env.market.price(p.ticker).value, env.market.volume(p.ticker).value;
    AcceptedExactly(p.ticker, c.rules, c.limits, b.held, c.marketOpen, price, volume, c.loss);
    var r := CheckEntry(p.ticker, c.rules, c.limits, b.held, c.marketOpen, price, volume, c.loss);
    if r.Ok? { PlanIsLargest(p.ticker, c.rules, c.limits, b.held, c.marketOpen, price, volume, c.loss); }
  }

  /** Each proposal gets one decision, in order, judged with what was held and what passed before it. */
  lemma {:induction false} GateExactly(ps: seq<Proposal>, c: Setting, env: Env, i: nat)
    requires Sensible(c) && AllPriced(env.market, ps) && i < |ps|
    ensures var ds := Gate(ps, c, env).decisions;
            |ds| == |ps| && Answers(ds[i], i, ps[i], c.held + PassedTickers(ds[..i]), c, env)
  {
    GatePrefix(ps, c, env, i);
    GatePrefix(ps, c, env, i + 1);
    GateHolds(ps[..i], c, env);
    assert ps[..i + 1][..i] == ps[..i] && ps[..i + 1][i] == ps[i] && ps[i] in ps;
    var b := Gate(ps[..i], c, env);
    assert Gate(ps[..i + 1], c, env) == GateOne(b, ps[i], c, env);
    GateOneAnswers(b, ps[i], c, env);
    var ds := Gate(ps, c, env).decisions;
    assert ds[..i + 1][i] == ds[i];
  }

  /** Without a usable answer every candidate is skipped. */
  lemma {:induction false} SkipAllExactly(tickers: seq<Ticker>, c: Setting, env: Env)
    ensures var ds := SkipAll(tickers, c, env);
            && |ds| == |tickers|
            && forall i :: 0 <= i < |ds| ==> Decided(ds[i], i, tickers[i], ActSkip, c, env) && NotPassed(ds[i])
  {
    if tickers != [] { SkipAllExactly(tickers[..|tickers| - 1], c, env); }
  }

  ghost function IdsOf(ds: seq<Decision>): set<Id> { set d | d in ds :: d.id }

  /** Decision i of a batch cannot be inserted after those before it. */
  ghost predicate Uninsertable(t: Tables, ds: seq<Decision>, i: nat, faults: Faults)
    requires i < |ds|
  {
    || faults(InsertDecisionStmt(ds[i].id)) || ds[i].cycleId !in t.cycles
    || ds[i].id in t.decisions || ds[i].id in IdsOf(ds[..i])
  }

  /** Storing the batch fails exactly where one of it cannot be inserted. */
  lemma {:induction false} InsertAllExactly(t: Tables, ds: seq<Decision>, faults: Faults)
    ensures InsertAll(t, ds, faults).error.Some? <==> exists i :: 0 <= i < |ds| && Uninsertable(t, ds, i, faults)
    ensures InsertAll(t, ds, faults).tables == t.(decisions := InsertAll(t, ds, faults).tables.decisions)
    ensures InsertAll(t, ds, faults).error.None? ==>
              InsertAll(t, ds, faults).tables.decisions.Keys == t.decisions.Keys + IdsOf(ds)
  {
    if ds == [] {
      assert IdsOf(ds) == {};
    } else {
      var front, n := ds[..|ds| - 1], |ds| - 1;
      InsertAllExactly(t, front, faults);
      forall i | 0 <= i < n ensures Uninsertable(t, front, i, faults) <==> Uninsertable(t, ds, i, faults) {
        assert ds[..i] == front[..i];
      }
      IdsSnoc(front, ds[n]);
      assert ds == front + [ds[n]];
      var u := InsertAll(t, front, faults);
      if u.error.None? {
        assert InsertAll(t, ds, faults).error.Some? <==> Uninsertable(t, ds, n, faults);
      }
    }
  }

  lemma {:induction false} IdsSnoc(ds: seq<Decision>, d: Decision)
    ensures IdsOf(ds + [d]) == IdsOf(ds) + {d.id}
  {
    assert forall x :: x in ds + [d] <==> x in ds || x == d;
    assert d in ds + [d];
  }

  // ---- the candidates ----

  ghost predicate Ranking(ms: seq<Mention>, now: Time, tickers: seq<Ticker>) {
    forall i, j :: 0 <= i < j < |tickers| ==> tickers[i] != tickers[j] && Outranks(ms, now, tickers[i], tickers[j])
  }

  lemma {:induction false} PricedOnlyRanking(ms: seq<Mention>, now: Time, market: Market, tickers: seq<Ticker>)
    requires Ranking(ms, now, tickers)
    ensures Ranking(ms, now, PricedOnly(market, tickers))
  {
    if tickers != [] {
      var front, last := tickers[..|tickers| - 1], tickers[|tickers| - 1];
      PricedOnlyRanking(ms, now, market, front);
      PricedOnlyPriced(market, front);
      forall k | k in front ensures k != last && Outranks(ms, now, k, last) {
        var i :| 0 <= i < |front| && front[i] == k;
        assert tickers[i] == k;
      }
    }
  }

  /** The top twenty, less those without a price or a volume, still in order of their mentions. */
  ghost predicate KeptFrom(chosen: seq<Ticker>, kept: seq<Ticker>, c: Setting, env: Env) {
    && TopTwenty(env.mentions, env.now(AtCandidates), c.held, c.rules.excluded, chosen)
    && Ranking(env.mentions, env.now(AtCandidates), kept)
    && forall k :: k in kept <==> k in chosen && env.market.price(k).Ok? && env.market.volume(k).Ok?
  }

  /** The LLM was asked about the kept candidates and proposed these, and nothing else. */
  ghost predicate Answered(kept: seq<Ticker>, env: Env, ps: seq<Proposal>) {
    kept != [] && env.llm.Some? && env.llm.value(kept) == Ok(ps) && forall p :: p in ps ==> p.ticker in kept
  }

  /** The whole evaluation: one decision for each proposal, or a skip for each candidate. */
  lemma {:induction false} CandidatesDecided(c: Setting, env: Env) returns (chosen: seq<Ticker>, kept: seq<Ticker>)
    requires Sensible(c)
    ensures KeptFrom(chosen, kept, c, env)
    ensures var ds := DecideCandidates(c, env);
            && (forall ps :: Answered(kept, env, ps) ==>
                  && |ds| == |ps|
                  && forall i :: 0 <= i < |ds| ==> Answers(ds[i], i, ps[i], c.held + PassedTickers(ds[..i]), c, env))
            && ((forall ps :: !Answered(kept, env, ps)) ==>
                  && |ds| == |kept|
                  && forall i :: 0 <= i < |ds| ==> Decided(ds[i], i, kept[i], ActSkip, c, env) && NotPassed(ds[i]))
  {
    var now := env.now(AtCandidates);
    chosen := SelectCandidates(EvidencesOf(env.mentions, Candidates.Sorted(Mentioned(env.mentions)), now), c.held,
                               c.rules.excluded);
    kept := CandidatesFor(c, env);
    CandidatesAreTopTwenty(env.mentions, now, c.held, c.rules.excluded);
    PricedOnlyRanking(env.mentions, now, env.market, chosen);
    PricedOnlyPriced(env.market, chosen);
    KeptDecided(kept, c, env);
  }

  lemma {:induction false} KeptDecided(kept: seq<Ticker>, c: Setting, env: Env)
    requires Sensible(c) && kept == CandidatesFor(c, env)
    ensures var ds := DecideCandidates(c, env);
            && (forall ps :: Answered(kept, env, ps) ==>
                  && |ds| == |ps|
                  && forall i :: 0 <= i < |ds| ==> Answers(ds[i], i, ps[i], c.held + PassedTickers(ds[..i]), c, env))
            && ((forall ps :: !Answered(kept, env, ps)) ==>
                  && |ds| == |kept|
                  && forall i :: 0 <= i < |ds| ==> Decided(ds[i], i, kept[i], ActSkip, c, env) && NotPassed(ds[i]))
  {
    var ds, proposed := DecideCandidates(c, env), Proposed(env, kept);
    forall ps | Answered(kept, env, ps)
      ensures |ds| == |ps|
      ensures forall i :: 0 <= i < |ds| ==> Answers(ds[i], i, ps[i], c.held + PassedTickers(ds[..i]), c, env)
    {
      assert proposed == Some(ps);
      ProposedArePriced(c, env);
      forall i | 0 <= i < |ps|
        ensures |ds| == |ps| && Answers(ds[i], i, ps[i], c.held + PassedTickers(ds[..i]), c, env)
      {
        GateExactly(ps, c, env, i);
      }
      GateHolds(ps, c, env);
    }
    if forall ps :: !Answered(kept, env, ps) {
      if kept != [] && proposed.Some? { assert Answered(kept, env, proposed.value); }
      SkipAllExactly(kept, c, env);
    }
  }
}
