// src/trader/engine/candidates.py, from priced candidates on: the LLM's batch of
// proposals against a held set that grows as buys pass.
module Proposals {
  import opened Money
  import opened Models
  import opened Rules
  import opened Ledger
  import opened Environment
  import opened Candidates

  /** What `evaluate_candidates` is called with, apart from the tables. */
  datatype Setting = Setting(
    rules: RuleSet, limits: Limits, mode: Mode, cycleId: Id, held: set<Ticker>, marketOpen: bool,
    loss: Option<LossKind>)

  /** The part of the rules schema the entry check relies on. */
  predicate Sensible(c: Setting) { c.rules.minPrice.num > 0 }

  predicate Priced(market: Market, ticker: Ticker) { market.price(ticker).Ok? && market.volume(ticker).Ok? }

  function PricedOnly(market: Market, tickers: seq<Ticker>): seq<Ticker> {
    if tickers == [] then []
    else
      var front, last := PricedOnly(market, tickers[..|tickers| - 1]), tickers[|tickers| - 1];
      if Priced(market, last) then front + [last] else front
  }

  lemma {:induction false} PricedOnlyPriced(market: Market, tickers: seq<Ticker>)
    ensures forall k :: k in PricedOnly(market, tickers) <==> k in tickers && Priced(market, k)
  {
    if tickers != [] {
      PricedOnlyPriced(market, tickers[..|tickers| - 1]);
      assert tickers == tickers[..|tickers| - 1] + [tickers[|tickers| - 1]];
    }
  }

  /** `_price_candidates`, and the dicts it fills. */
  method PriceCandidates(market: Market, tickers: seq<Ticker>)
    returns (prices: map<Ticker, Ticks>, volumes: map<Ticker, int>, kept: seq<Ticker>)
    ensures kept == PricedOnly(market, tickers)
    ensures forall k :: k in kept ==> k in prices && k in volumes && Priced(market, k)
                                      && prices[k] == market.price(k).value && volumes[k] == market.volume(k).value
  {
    prices, volumes, kept := map[], map[], [];
    for i := 0 to |tickers|
      invariant kept == PricedOnly(market, tickers[..i])
      invariant forall k :: k in kept ==> k in prices && k in volumes && Priced(market, k)
                                          && prices[k] == market.price(k).value && volumes[k] == market.volume(k).value
    {
      var k := tickers[i];
      assert tickers[..i + 1][..i] == tickers[..i];
      var price, volume := market.price(k), market.volume(k);
      if price.Err? || volume.Err? { continue; }
      prices, volumes, kept := prices[k := price.value], volumes[k := volume.value], kept + [k];
    }
    assert tickers[..|tickers|] == tickers;
  }

  // ---- decisions ----

  function CandidateDecision(n: nat, c: Setting, env: Env, ticker: Ticker, action: Action, plan: Option<EntryPlan>)
    : Decision
  {
    Decision(env.uuid(FreshEntry(n)), c.cycleId, env.now(AtCandidates), c.mode, ticker, action, Llm,
             if plan.Some? then Passed else Rejected,
             if plan.Some? then Some(plan.value.notional) else None,
             if plan.Some? then Some(plan.value.referencePrice) else None)
  }

  function ActionOf(a: ProposedAction): Action {
    match a
    case ProposeBuy => ActBuy
    case ProposeHold => ActHold
    case ProposeSkip => ActSkip
  }

  /** What the rules make of a proposal, given what is held by then. */
  function Plan(p: Proposal, c: Setting, market: Market, held: set<Ticker>): Option<EntryPlan>
    requires Sensible(c) && Priced(market, p.ticker)
  {
    if p.action != ProposeBuy then None
    else
      var r := CheckEntry(p.ticker, c.rules, c.limits, held, c.marketOpen,
                          market.price(p.ticker).value, market.volume(p.ticker).value, c.loss);
      if r.Ok? then Some(r.value) else None
  }

  datatype Batch = Batch(decisions: seq<Decision>, held: set<Ticker>)

  function GateOne(b: Batch, p: Proposal, c: Setting, env: Env): Batch
    requires Sensible(c) && Priced(env.market, p.ticker)
  {
    var plan := Plan(p, c, env.market, b.held);
    Batch(b.decisions + [CandidateDecision(|b.decisions|, c, env, p.ticker, ActionOf(p.action), plan)],
          if plan.Some? then b.held + {p.ticker} else b.held)
  }

  ghost predicate AllPriced(market: Market, ps: seq<Proposal>) { forall p :: p in ps ==> Priced(market, p.ticker) }

  function Gate(ps: seq<Proposal>, c: Setting, env: Env): Batch
    requires Sensible(c) && AllPriced(env.market, ps)
  {
    if ps == [] then Batch([], c.held)
    else
      assert ps[|ps| - 1] in ps;
      GateOne(Gate(ps[..|ps| - 1], c, env), ps[|ps| - 1], c, env)
  }

  /** `_record_skip_all`. */
  function SkipAll(tickers: seq<Ticker>, c: Setting, env: Env): seq<Decision> {
    if tickers == [] then []
    else
      SkipAll(tickers[..|tickers| - 1], c, env)
      + [CandidateDecision(|tickers| - 1, c, env, tickers[|tickers| - 1], ActSkip, None)]
  }

  /** The validated proposals; None where every candidate is skipped instead. */
  function Proposed(env: Env, kept: seq<Ticker>): Option<seq<Proposal>> {
    if env.llm.None? then None
    else
      var answer := env.llm.value(kept);
      if answer.Err? then None
      else if exists p :: p in answer.value && p.ticker !in kept then None
      else Some(answer.value)
  }

  function CandidatesFor(c: Setting, env: Env): seq<Ticker> {
    PricedOnly(env.market,
               SelectCandidates(EvidencesOf(env.mentions, Candidates.Sorted(Mentioned(env.mentions)),
                                            env.now(AtCandidates)),
                                c.held, c.rules.excluded))
  }

  function DecideCandidates(c: Setting, env: Env): seq<Decision>
    requires Sensible(c)
  {
    var kept := CandidatesFor(c, env);
    if kept == [] then []
    else
      var proposed := Proposed(env, kept);
      if proposed.None? then SkipAll(kept, c, env)
      else
        ProposedArePriced(c, env);
        Gate(proposed.value, c, env).decisions
  }

  lemma {:induction false} ProposedArePriced(c: Setting, env: Env)
    requires Proposed(env, CandidatesFor(c, env)).Some?
    ensures AllPriced(env.market, Proposed(env, CandidatesFor(c, env)).value)
  {
    PricedOnlyPriced(env.market,
                     SelectCandidates(EvidencesOf(env.mentions, Candidates.Sorted(Mentioned(env.mentions)),
                                                  env.now(AtCandidates)),
                                      c.held, c.rules.excluded));
  }

  datatype Inserted = Inserted(tables: Tables, error: Option<LedgerError>)

  function InsertAll(t: Tables, ds: seq<Decision>, faults: Faults): Inserted {
    if ds == [] then Inserted(t, None)
    else
      var front := InsertAll(t, ds[..|ds| - 1], faults);
      if front.error.Some? then front
      else
        var u := InsertDecision(front.tables, ds[|ds| - 1], faults);
        if u.Err? then Inserted(front.tables, Some(u.error)) else Inserted(u.value, None)
  }

  /** Only decisions are added, and only from the batch. */
  ghost predicate AddsFrom(t: Tables, u: Tables, ds: seq<Decision>) {
    && u == t.(decisions := u.decisions)
    && (forall id :: id in t.decisions ==> id in u.decisions && u.decisions[id] == t.decisions[id])
    && (forall id :: id in u.decisions && id !in t.decisions ==> u.decisions[id] in ds && u.decisions[id].id == id)
  }

  lemma {:induction false} AddsOne(t: Tables, a: Tables, ds: seq<Decision>, d: Decision)
    requires AddsFrom(t, a, ds) && d.id !in a.decisions
    ensures AddsFrom(t, a.(decisions := a.decisions[d.id := d]), ds + [d])
    ensures AllNew(t, a, ds) ==> AllNew(t, a.(decisions := a.decisions[d.id := d]), ds + [d])
  {
    var u := a.(decisions := a.decisions[d.id := d]);
    assert d in ds + [d] && forall x :: x in ds ==> x in ds + [d];
    if AllNew(t, a, ds) {
      forall i | 0 <= i < |ds + [d]| ensures NewRow(t, u, (ds + [d])[i]) {
        if i < |ds| { assert NewRow(t, a, ds[i]); }
      }
      forall i | 0 <= i < |ds| ensures ds[i].id != d.id { assert NewRow(t, a, ds[i]); }
    }
  }

  /** Part of the batch becomes rows, and on success all of it, each new and as it is in hand. */
  lemma {:induction false} InsertAllRecords(t: Tables, ds: seq<Decision>, faults: Faults)
    ensures AddsFrom(t, InsertAll(t, ds, faults).tables, ds)
    ensures InsertAll(t, ds, faults).error.None? ==> AllNew(t, InsertAll(t, ds, faults).tables, ds)
  {
    if ds != [] {
      var front, last := ds[..|ds| - 1], ds[|ds| - 1];
      assert ds == front + [last];
      InsertAllRecords(t, front, faults);
      var i := InsertAll(t, front, faults);
      if i.error.None? && last.id !in i.tables.decisions { AddsOne(t, i.tables, front, last); }
    }
  }

  /** Each decision is a new row of its own. */
  ghost predicate AllNew(t: Tables, u: Tables, ds: seq<Decision>) {
    && (forall i :: 0 <= i < |ds| ==> NewRow(t, u, ds[i]))
    && (forall i, j :: 0 <= i < j < |ds| ==> ds[i].id != ds[j].id)
  }

  ghost predicate NewRow(t: Tables, u: Tables, d: Decision) {
    d.id !in t.decisions && d.id in u.decisions && u.decisions[d.id] == d
  }

  lemma {:induction false} InsertAllStops(t: Tables, ds: seq<Decision>, i: nat, faults: Faults)
    requires i <= |ds| && InsertAll(t, ds[..i], faults).error.Some?
    ensures InsertAll(t, ds, faults) == InsertAll(t, ds[..i], faults)
    decreases |ds|
  {
    if i == |ds| {
      assert ds[..i] == ds;
    } else {
      assert ds[..|ds| - 1][..i] == ds[..i];
      InsertAllStops(t, ds[..|ds| - 1], i, faults);
    }
  }

  method InsertDecisions(conn: Connection, ds: seq<Decision>, faults: Faults) returns (error: Option<LedgerError>)
    modifies conn`working
    ensures Inserted(conn.working, error) == InsertAll(old(conn.working), ds, faults)
  {
    for i := 0 to |ds|
      invariant InsertAll(old(conn.working), ds[..i], faults) == Inserted(conn.working, None)
    {
      assert ds[..i + 1][..i] == ds[..i];
      var u := InsertDecision(conn.working, ds[i], faults);
      if u.Err? {
        InsertAllStops(old(conn.working), ds, i + 1, faults);
        return Some(u.error);
      }
      conn.working := u.value;
    }
    assert ds[..|ds|] == ds;
    return None;
  }

  method GateProposals(ps: seq<Proposal>, c: Setting, env: Env, prices: map<Ticker, Ticks>, volumes: map<Ticker, int>)
    returns (decisions: seq<Decision>)
    requires Sensible(c)
    requires forall p :: p in ps ==> p.ticker in prices && p.ticker in volumes && Priced(env.market, p.ticker)
                                     && prices[p.ticker] == env.market.price(p.ticker).value
                                     && volumes[p.ticker] == env.market.volume(p.ticker).value
    ensures decisions == Gate(ps, c, env).decisions
  {
    decisions := [];
    var batchHeld := c.held;
    for i := 0 to |ps|
      invariant AllPriced(env.market, ps[..i]) && Gate(ps[..i], c, env) == Batch(decisions, batchHeld)
    {
      var p := ps[i];
      assert ps[..i + 1][..i] == ps[..i] && p in ps;
      if p.action != ProposeBuy {
        decisions := decisions + [CandidateDecision(|decisions|, c, env, p.ticker, ActionOf(p.action), None)];
        continue;
      }
      var r := CheckEntry(p.ticker, c.rules, c.limits, batchHeld, c.marketOpen, prices[p.ticker], volumes[p.ticker],
                          c.loss);
      var plan := if r.Ok? then Some(r.value) else None;
      decisions := decisions + [CandidateDecision(|decisions|, c, env, p.ticker, ActBuy, plan)];
      if r.Ok? { batchHeld := batchHeld + {p.ticker}; }
    }
    assert ps[..|ps|] == ps;
  }

  method EvaluateCandidates(conn: Connection, c: Setting, env: Env) returns (r: Result<seq<Decision>, LedgerError>)
    requires Sensible(c)
    modifies conn`working
    ensures var ds := DecideCandidates(c, env);
            var i := InsertAll(old(conn.working), ds, env.faults);
            conn.working == i.tables && r == if i.error.Some? then Err(i.error.value) else Ok(ds)
  {
    var evidences := BuildEvidence(env.mentions, env.now(AtCandidates));
    var selected := SelectCandidates(evidences, c.held, c.rules.excluded);
    var prices, volumes, kept := PriceCandidates(env.market, selected);
    if kept == [] { return Ok([]); }
    var proposed := Proposed(env, kept);
    var decisions: seq<Decision>;
    if proposed.None? {
      decisions := SkipAll(kept, c, env);
    } else {
      ProposedArePriced(c, env);
      decisions := GateProposals(proposed.value, c, env, prices, volumes);
    }
    var error := InsertDecisions(conn, decisions, env.faults);
    if error.Some? { return Err(error.value); }
    return Ok(decisions);
  }

  // ---- the gate ----

  /** The tickers of the decisions that passed. */
  function PassedTickers(ds: seq<Decision>): set<Ticker> {
    set d | d in ds && d.ruleCheck == Passed :: d.ticker
  }

  /** Proposal i became decision i: it passed exactly when it is a buy the rules accept
      with everything held and everything that passed before it. */
  ghost predicate GatedAt(ps: seq<Proposal>, ds: seq<Decision>, c: Setting, env: Env, i: nat)
    requires i < |ps| == |ds| && Sensible(c) && Priced(env.market, ps[i].ticker)
  {
    var plan := Plan(ps[i], c, env.market, c.held + PassedTickers(ds[..i]));
    && ds[i].ticker == ps[i].ticker && ds[i].action == ActionOf(ps[i].action) && ds[i].origin == Llm
    && (ds[i].ruleCheck == Passed <==> plan.Some?)
    && (plan.Some? ==>
          ds[i].proposedNotional == Some(plan.value.notional)
            && ds[i].referencePrice == Some(plan.value.referencePrice))
  }

  lemma {:induction false} PassedSnoc(ds: seq<Decision>, d: Decision)
    ensures PassedTickers(ds + [d]) == if d.ruleCheck == Passed then PassedTickers(ds) + {d.ticker}
            else PassedTickers(ds)
  {
    assert forall x :: x in ds + [d] <==> x in ds || x == d;
    if d.ruleCheck == Passed { assert d in ds + [d]; }
  }

  lemma {:induction false} GateHolds(ps: seq<Proposal>, c: Setting, env: Env)
    requires Sensible(c) && AllPriced(env.market, ps)
    ensures var b := Gate(ps, c, env);
            |b.decisions| == |ps| && b.held == c.held + PassedTickers(b.decisions)
  {
    if ps != [] {
      assert ps[|ps| - 1] in ps;
      GateHolds(ps[..|ps| - 1], c, env);
      var b := Gate(ps[..|ps| - 1], c, env);
      PassedSnoc(b.decisions, Gate(ps, c, env).decisions[|ps| - 1]);
    }
  }

  lemma {:induction false} GatePrefix(ps: seq<Proposal>, c: Setting, env: Env, k: nat)
    requires Sensible(c) && AllPriced(env.market, ps) && k <= |ps|
    ensures |Gate(ps, c, env).decisions| == |ps|
    ensures AllPriced(env.market, ps[..k]) && Gate(ps, c, env).decisions[..k] == Gate(ps[..k], c, env).decisions
    decreases |ps|
  {
    GateHolds(ps, c, env);
    if k == |ps| {
      assert ps[..k] == ps;
    } else {
      assert ps[|ps| - 1] in ps;
      assert ps[..|ps| - 1][..k] == ps[..k];
      GatePrefix(ps[..|ps| - 1], c, env, k);
      var front := Gate(ps[..|ps| - 1], c, env).decisions;
      assert Gate(ps, c, env).decisions[..k] == front[..k];
    }
  }

  /** One decision for each proposal, in order, each judged with what passed before it. */
  lemma {:induction false} GateDecidesInOrder(ps: seq<Proposal>, c: Setting, env: Env, i: nat)
    requires Sensible(c) && AllPriced(env.market, ps) && i < |ps|
    ensures |Gate(ps, c, env).decisions| == |ps| && ps[i] in ps && GatedAt(ps, Gate(ps, c, env).decisions, c, env, i)
  {
    GatePrefix(ps, c, env, i);
    GatePrefix(ps, c, env, i + 1);
    GateHolds(ps[..i], c, env);
    assert ps[..i + 1][..i] == ps[..i] && ps[..i + 1][i] == ps[i];
    assert ps[i] in ps;
    assert Gate(ps[..i + 1], c, env) == GateOne(Gate(ps[..i], c, env), ps[i], c, env);
  }

  ghost predicate PassedBuysOnly(ds: seq<Decision>, c: Setting) {
    && (forall d :: d in ds && d.ruleCheck == Passed ==>
          d.action == ActBuy && d.ticker !in c.held && d.ticker !in c.rules.excluded && c.marketOpen && c.loss.None?)
    && (forall i, j :: 0 <= i < j < |ds| && ds[i].ruleCheck == Passed && ds[j].ruleCheck == Passed ==>
          ds[i].ticker != ds[j].ticker)
  }

  /** What it takes to pass: a buy of an unheld, permitted ticker, with a slot free. */
  ghost predicate MayPass(d: Decision, c: Setting, held: set<Ticker>) {
    && d.action == ActBuy && d.ticker !in held && d.ticker !in c.rules.excluded && c.marketOpen && c.loss.None?
    && |held| < c.rules.maxConcurrentPositions
  }

  lemma {:induction false} GateOnePasses(b: Batch, p: Proposal, c: Setting, env: Env)
    requires Sensible(c) && Priced(env.market, p.ticker)
    ensures var b' := GateOne(b, p, c, env);
            && |b'.decisions| == |b.decisions| + 1 && b'.decisions[..|b.decisions|] == b.decisions
            && var d := b'.decisions[|b.decisions|];
            && b'.decisions == b.decisions + [d]
            && (d.ruleCheck == Passed ==> MayPass(d, c, b.held))
  {
  }

  lemma {:induction false} PassOneDistinct(ds: seq<Decision>, d: Decision, c: Setting)
    requires PassedBuysOnly(ds, c) && (d.ruleCheck == Passed ==> MayPass(d, c, c.held + PassedTickers(ds)))
    ensures PassedBuysOnly(ds + [d], c)
  {
    forall i | 0 <= i < |ds| && ds[i].ruleCheck == Passed ensures ds[i].ticker in PassedTickers(ds) {
      assert ds[i] in ds;
    }
  }

  lemma {:induction false} PassOneFits(ds: seq<Decision>, d: Decision, c: Setting)
    requires d.ruleCheck == Passed ==> MayPass(d, c, c.held + PassedTickers(ds))
    requires |c.held + PassedTickers(ds)| <= Max(|c.held|, c.rules.maxConcurrentPositions)
    ensures |c.held + PassedTickers(ds + [d])| <= Max(|c.held|, c.rules.maxConcurrentPositions)
  {
    PassedSnoc(ds, d);
    var was := c.held + PassedTickers(ds);
    if d.ruleCheck == Passed {
      assert c.held + PassedTickers(ds + [d]) == was + {d.ticker} && |was + {d.ticker}| <= |was| + 1;
    }
  }

  /** Whatever the LLM proposes, duplicates included: what passes are buys of distinct,
      unheld, permitted tickers, and never more than there are slots. */
  lemma {:induction false} GateIsSafe(ps: seq<Proposal>, c: Setting, env: Env)
    requires Sensible(c) && AllPriced(env.market, ps)
    ensures var ds := Gate(ps, c, env).decisions;
            && PassedBuysOnly(ds, c)
            && |c.held + PassedTickers(ds)| <= Max(|c.held|, c.rules.maxConcurrentPositions)
  {
    if ps == [] {
      assert c.held + PassedTickers([]) == c.held;
    } else {
      assert ps[|ps| - 1] in ps;
      GateIsSafe(ps[..|ps| - 1], c, env);
      GateHolds(ps[..|ps| - 1], c, env);
      var b := Gate(ps[..|ps| - 1], c, env);
      GateOnePasses(b, ps[|ps| - 1], c, env);
      PassOneDistinct(b.decisions, Gate(ps, c, env).decisions[|b.decisions|], c);
      PassOneFits(b.decisions, Gate(ps, c, env).decisions[|b.decisions|], c);
    }
  }

  lemma {:induction false} SkipAllPassesNone(tickers: seq<Ticker>, c: Setting, env: Env)
    ensures forall d :: d in SkipAll(tickers, c, env) ==> d.ruleCheck == Rejected
  {
    if tickers != [] { SkipAllPassesNone(tickers[..|tickers| - 1], c, env); }
  }

  /** The same of whatever `evaluate_candidates` decides, with or without an LLM. */
  lemma {:induction false} CandidatesAreSafe(c: Setting, env: Env)
    requires Sensible(c)
    ensures var ds := DecideCandidates(c, env);
            && PassedBuysOnly(ds, c)
            && |c.held + PassedTickers(ds)| <= Max(|c.held|, c.rules.maxConcurrentPositions)
  {
    var kept, ds := CandidatesFor(c, env), DecideCandidates(c, env);
    if kept != [] && Proposed(env, kept).Some? {
      ProposedArePriced(c, env);
      GateIsSafe(Proposed(env, kept).value, c, env);
    } else {
      SkipAllPassesNone(kept, c, env);
      assert c.held + PassedTickers(ds) == c.held;
    }
  }

  /** The order a decision will be sized to spends at most the per-ticker limit, and one more share would not fit. */
  ghost predicate LargestWithin(d: Decision, limit: Cents, market: Market) {
    && market.price(d.ticker).Ok?
    && var price, q := market.price(d.ticker).value, OrderQty(d.proposedNotional, d.referencePrice);
    && q.Ok? && q.value * price <= TICKS_PER_CENT * limit < (q.value + 1) * price
  }

  lemma {:induction false} GateOneSized(b: Batch, p: Proposal, c: Setting, env: Env)
    requires Sensible(c) && Priced(env.market, p.ticker) && env.market.price(p.ticker).value >= TICKS_PER_CENT
    ensures var d := GateOne(b, p, c, env).decisions[|b.decisions|];
            d.ruleCheck == Passed ==> LargestWithin(d, c.limits.notional, env.market)
  {
    if Plan(p, c, env.market, b.held).Some? {
      BuyIsMaximal(p.ticker, c.rules, c.limits, b.held, c.marketOpen, env.market.price(p.ticker).value,
                   env.market.volume(p.ticker).value, c.loss);
    }
  }

  lemma {:induction false} GateIsSized(ps: seq<Proposal>, c: Setting, env: Env)
    requires Sensible(c) && AllPriced(env.market, ps)
    requires forall k :: env.market.price(k).Ok? ==> env.market.price(k).value >= TICKS_PER_CENT
    ensures forall d :: d in Gate(ps, c, env).decisions && d.ruleCheck == Passed ==>
              LargestWithin(d, c.limits.notional, env.market)
  {
    if ps != [] {
      assert ps[|ps| - 1] in ps;
      GateIsSized(ps[..|ps| - 1], c, env);
      GateOneSized(Gate(ps[..|ps| - 1], c, env), ps[|ps| - 1], c, env);
    }
  }

  /** Every buy a cycle lets pass is sized that way. */
  lemma {:induction false} CandidatesAreSized(c: Setting, env: Env)
    requires Sensible(c) && forall k :: env.market.price(k).Ok? ==> env.market.price(k).value >= TICKS_PER_CENT
    ensures forall d :: d in DecideCandidates(c, env) && d.ruleCheck == Passed ==>
              LargestWithin(d, c.limits.notional, env.market)
  {
    var kept := CandidatesFor(c, env);
    if kept != [] && Proposed(env, kept).Some? {
      ProposedArePriced(c, env);
      GateIsSized(Proposed(env, kept).value, c, env);
    } else {
      SkipAllPassesNone(kept, c, env);
    }
  }
}
