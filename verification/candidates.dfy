// src/trader/sources/evidence.py and engine/candidates.py: from mentions to at
// most twenty candidates, and from the LLM's proposals to gated buy decisions.
module Candidates {
  import opened Models
  import opened Environment
  import opened Holdings

  // ---- evidence.py ----

  const WINDOW := 14 * DAY

  const MAX_EXCERPTS := 3

  datatype Evidence = Evidence(
    ticker: Ticker, total: nat, recent: nat, prior: nat,
    firstSeen: Time, lastSeen: Time, excerpts: seq<string>, mentionIds: seq<Id>)

  predicate Posted(m: Mention, ticker: Ticker, after: Option<Time>, upTo: Option<Time>) {
    m.ticker == ticker && (after.Some? ==> m.postedAt > after.value) && (upTo.Some? ==> m.postedAt <= upTo.value)
  }

  /** Mentions of a ticker posted in (after, upTo]. */
  function Count(ms: seq<Mention>, ticker: Ticker, after: Option<Time>, upTo: Option<Time>): nat {
    if ms == [] then 0
    else
      var m := ms[|ms| - 1];
      Count(ms[..|ms| - 1], ticker, after, upTo) +
      (if Posted(m, ticker, after, upTo) then 1 else 0)
  }

  /** Oldest first, or newest first. */
  predicate InTurn(a: Mention, b: Mention, newest: bool) {
    if newest then a.postedAt >= b.postedAt else a.postedAt <= b.postedAt
  }

  function Insert(ms: seq<Mention>, m: Mention, newest: bool): seq<Mention> {
    if ms == [] || InTurn(ms[|ms| - 1], m, newest) then ms + [m]
    else Insert(ms[..|ms| - 1], m, newest) + [ms[|ms| - 1]]
  }

  /** `sorted` by posting time, which keeps mentions of equal time in their order. */
  function ByPosting(ms: seq<Mention>, newest: bool): seq<Mention> {
    if ms == [] then [] else Insert(ByPosting(ms[..|ms| - 1], newest), ms[|ms| - 1], newest)
  }

  function Excerpts(ms: seq<Mention>): seq<string> { seq(|ms|, i requires 0 <= i < |ms| => ms[i].excerpt) }

  function Ids(ms: seq<Mention>): seq<Id> { seq(|ms|, i requires 0 <= i < |ms| => ms[i].id) }

  function Top(ms: seq<Mention>, n: nat): seq<Mention> { if |ms| <= n then ms else ms[..n] }

  /** An entry is only made for a ticker that is mentioned, so nobody sees these zeros. */
  function PostedFirst(ms: seq<Mention>): Time { if ms == [] then 0 else ms[0].postedAt }

  function PostedLast(ms: seq<Mention>): Time { if ms == [] then 0 else ms[|ms| - 1].postedAt }

  function EvidenceOf(ms: seq<Mention>, ticker: Ticker, now: Time): Evidence {
    var oldest, newest := ByPosting(Of(ms, ticker), false), ByPosting(Of(ms, ticker), true);
    Evidence(ticker, Count(ms, ticker, None, None), Count(ms, ticker, Some(now - WINDOW), None),
             Count(ms, ticker, Some(now - 2 * WINDOW), Some(now - WINDOW)),
             PostedFirst(oldest), PostedLast(oldest), Excerpts(Top(newest, MAX_EXCERPTS)), Ids(oldest))
  }

  function Mentioned(ms: seq<Mention>): set<Ticker> { set m | m in ms :: m.ticker }

  function Sorted(s: set<Ticker>): seq<Ticker>
    decreases s
  {
    if s == {} then [] else var k := First(s); [k] + Sorted(s - {k})
  }

  function EvidencesOf(ms: seq<Mention>, tickers: seq<Ticker>, now: Time): seq<Evidence> {
    if tickers == [] then []
    else EvidencesOf(ms, tickers[..|tickers| - 1], now) + [EvidenceOf(ms, tickers[|tickers| - 1], now)]
  }

  function Of(ms: seq<Mention>, ticker: Ticker): seq<Mention> {
    if ms == [] then []
    else
      var front, last := Of(ms[..|ms| - 1], ticker), ms[|ms| - 1];
      if last.ticker == ticker then front + [last] else front
  }

  lemma {:induction false} CountSnoc(ms: seq<Mention>, m: Mention, ticker: Ticker, after: Option<Time>,
                                     upTo: Option<Time>)
    ensures Count(ms + [m], ticker, after, upTo)
            == Count(ms, ticker, after, upTo) + (if Posted(m, ticker, after, upTo) then 1 else 0)
  {
    assert (ms + [m])[..|ms|] == ms;
  }

  lemma {:induction false} CountGroup(ms: seq<Mention>, ticker: Ticker, after: Option<Time>, upTo: Option<Time>)
    ensures Count(Of(ms, ticker), ticker, after, upTo) == Count(ms, ticker, after, upTo)
  {
    if ms != [] {
      var front, last := ms[..|ms| - 1], ms[|ms| - 1];
      assert ms == front + [last];
      CountGroup(front, ticker, after, upTo);
      CountSnoc(front, last, ticker, after, upTo);
      CountSnoc(Of(front, ticker), last, ticker, after, upTo);
    }
  }

  lemma {:induction false} GroupOfGroup(ms: seq<Mention>, ticker: Ticker)
    ensures Of(Of(ms, ticker), ticker) == Of(ms, ticker)
  {
    if ms != [] {
      GroupOfGroup(ms[..|ms| - 1], ticker);
      var front, last := Of(ms[..|ms| - 1], ticker), ms[|ms| - 1];
      if last.ticker == ticker { assert (front + [last])[..|front|] == front; }
    }
  }

  function OwnOf(groups: map<Ticker, seq<Mention>>, k: Ticker): seq<Mention> {
    if k in groups then groups[k] else []
  }

  /** The dict of lists: each mentioned ticker's own mentions. */
  ghost predicate Grouped(groups: map<Ticker, seq<Mention>>, ms: seq<Mention>) {
    && groups.Keys == Mentioned(ms)
    && forall k :: Of(ms, k) == OwnOf(groups, k)
  }

  function Grown(groups: map<Ticker, seq<Mention>>, m: Mention): map<Ticker, seq<Mention>> {
    groups[m.ticker := OwnOf(groups, m.ticker) + [m]]
  }

  lemma {:induction false} GroupedSnoc(groups: map<Ticker, seq<Mention>>, ms: seq<Mention>, m: Mention)
    requires Grouped(groups, ms)
    ensures Grouped(Grown(groups, m), ms + [m])
  {
    assert (ms + [m])[..|ms|] == ms;
    assert forall x :: x in ms + [m] <==> x in ms || x == m;
  }

  method GroupByTicker(ms: seq<Mention>) returns (groups: map<Ticker, seq<Mention>>)
    ensures Grouped(groups, ms)
  {
    groups := map[];
    for i := 0 to |ms|
      invariant Grouped(groups, ms[..i])
    {
      GroupedSnoc(groups, ms[..i], ms[i]);
      assert ms[..i + 1] == ms[..i] + [ms[i]];
      groups := Grown(groups, ms[i]);
    }
    assert ms[..|ms|] == ms;
  }

  lemma {:induction false} EvidenceOfGroup(ms: seq<Mention>, ticker: Ticker, now: Time)
    ensures EvidenceOf(Of(ms, ticker), ticker, now) == EvidenceOf(ms, ticker, now)
  {
    GroupOfGroup(ms, ticker);
    CountGroup(ms, ticker, None, None);
    CountGroup(ms, ticker, Some(now - WINDOW), None);
    CountGroup(ms, ticker, Some(now - 2 * WINDOW), Some(now - WINDOW));
  }

  lemma {:induction false} EvidenceOfOwn(groups: map<Ticker, seq<Mention>>, ms: seq<Mention>, k: Ticker, now: Time)
    requires Grouped(groups, ms) && k in groups
    ensures EvidenceOf(groups[k], k, now) == EvidenceOf(ms, k, now)
  {
    assert Of(ms, k) == OwnOf(groups, k);
    EvidenceOfGroup(ms, k, now);
  }

  lemma {:induction false} SortedWithin(s: set<Ticker>)
    ensures forall i :: 0 <= i < |Sorted(s)| ==> Sorted(s)[i] in s
  {
    SortedHasAll(s);
    forall i | 0 <= i < |Sorted(s)| ensures Sorted(s)[i] in s { assert Sorted(s)[i] in Sorted(s); }
  }

  lemma {:induction false} EvidencesSnoc(ms: seq<Mention>, tickers: seq<Ticker>, k: Ticker, now: Time)
    ensures EvidencesOf(ms, tickers + [k], now) == EvidencesOf(ms, tickers, now) + [EvidenceOf(ms, k, now)]
  {
    assert (tickers + [k])[..|tickers|] == tickers;
  }

  /** One more ticker's entry, read off its own list. */
  lemma {:induction false} OneMoreEntry(groups: map<Ticker, seq<Mention>>, ms: seq<Mention>, tickers: seq<Ticker>,
                                        i: nat, now: Time)
    requires Grouped(groups, ms) && i < |tickers| && tickers[i] in groups
    ensures EvidencesOf(ms, tickers[..i + 1], now)
            == EvidencesOf(ms, tickers[..i], now) + [EvidenceOf(groups[tickers[i]], tickers[i], now)]
  {
    assert tickers[..i + 1] == tickers[..i] + [tickers[i]];
    EvidencesSnoc(ms, tickers[..i], tickers[i], now);
    EvidenceOfOwn(groups, ms, tickers[i], now);
  }

  lemma {:induction false} WholeListing(tickers: seq<Ticker>)
    ensures tickers[..|tickers|] == tickers
  {
  }

  method BuildEvidence(ms: seq<Mention>, now: Time) returns (es: seq<Evidence>)
    ensures es == EvidencesOf(ms, Sorted(Mentioned(ms)), now)
  {
    var groups := GroupByTicker(ms);
    var tickers := Sorted(groups.Keys);
    SortedWithin(groups.Keys);
    es := [];
    for i := 0 to |tickers|
      invariant es == EvidencesOf(ms, tickers[..i], now)
    {
      OneMoreEntry(groups, ms, tickers, i, now);
      es := es + [EvidenceOf(groups[tickers[i]], tickers[i], now)];
    }
    WholeListing(tickers);
  }

  /** Listing a set in order names each element once. */
  lemma {:induction false} SortedHasAll(s: set<Ticker>)
    ensures forall k :: k in Sorted(s) <==> k in s
    ensures forall i, j :: 0 <= i < j < |Sorted(s)| ==> Sorted(s)[i] != Sorted(s)[j]
    decreases s
  {
    if s != {} { SortedHasAll(s - {First(s)}); }
  }

  // ---- what an entry tells ----

  ghost predicate Ordered(ms: seq<Mention>, newest: bool) {
    forall i, j :: 0 <= i < j < |ms| ==> InTurn(ms[i], ms[j], newest)
  }

  /** The mentions of one time, in their order. */
  ghost function PostedAt(ms: seq<Mention>, time: Time): seq<Mention> {
    if ms == [] then []
    else
      var front, last := PostedAt(ms[..|ms| - 1], time), ms[|ms| - 1];
      if last.postedAt == time then front + [last] else front
  }

  lemma {:induction false} PostedSnoc(ms: seq<Mention>, m: Mention, time: Time)
    ensures PostedAt(ms + [m], time) == PostedAt(ms, time) + (if m.postedAt == time then [m] else [])
  {
    assert (ms + [m])[..|ms|] == ms;
  }

  lemma {:induction false} InsertKeepsAll(ms: seq<Mention>, m: Mention, newest: bool)
    ensures multiset(Insert(ms, m, newest)) == multiset(ms) + multiset{m}
    ensures forall x :: x in Insert(ms, m, newest) <==> x in ms || x == m
  {
    if ms != [] && !InTurn(ms[|ms| - 1], m, newest) {
      var front, last := ms[..|ms| - 1], ms[|ms| - 1];
      assert ms == front + [last];
      InsertKeepsAll(front, m, newest);
    }
  }

  lemma {:induction false} OrderedSnoc(ms: seq<Mention>, m: Mention, newest: bool)
    requires Ordered(ms, newest) && forall x :: x in ms ==> InTurn(x, m, newest)
    ensures Ordered(ms + [m], newest)
  {
  }

  lemma {:induction false} InsertSorts(ms: seq<Mention>, m: Mention, newest: bool)
    requires Ordered(ms, newest)
    ensures Ordered(Insert(ms, m, newest), newest)
  {
    if ms != [] {
      var front, last := ms[..|ms| - 1], ms[|ms| - 1];
      forall x | x in front ensures InTurn(x, last, newest) {
        var i :| 0 <= i < |front| && front[i] == x;
        assert InTurn(ms[i], ms[|ms| - 1], newest);
      }
      if InTurn(last, m, newest) {
        assert forall x :: x in ms ==> x in front || x == last;
        OrderedSnoc(ms, m, newest);
      } else {
        InsertSorts(front, m, newest);
        InsertKeepsAll(front, m, newest);
        OrderedSnoc(Insert(front, m, newest), last, newest);
      }
    }
  }

  lemma {:induction false} InsertIsStable(ms: seq<Mention>, m: Mention, newest: bool, time: Time)
    ensures PostedAt(Insert(ms, m, newest), time) == PostedAt(ms + [m], time)
  {
    if ms != [] && !InTurn(ms[|ms| - 1], m, newest) {
      var front, last := ms[..|ms| - 1], ms[|ms| - 1];
      assert ms == front + [last];
      InsertIsStable(front, m, newest, time);
      PostedSnoc(Insert(front, m, newest), last, time);
      PostedSnoc(front, m, time);
      PostedSnoc(front, last, time);
      PostedSnoc(ms, m, time);
    }
  }

  /** Sorting orders the mentions, loses none, and keeps those of equal time as they came. */
  lemma {:induction false} ByPostingSorts(ms: seq<Mention>, newest: bool)
    ensures Ordered(ByPosting(ms, newest), newest) && multiset(ByPosting(ms, newest)) == multiset(ms)
    ensures forall time :: PostedAt(ByPosting(ms, newest), time) == PostedAt(ms, time)
  {
    if ms != [] {
      var front, last := ms[..|ms| - 1], ms[|ms| - 1];
      assert ms == front + [last];
      ByPostingSorts(front, newest);
      InsertSorts(ByPosting(front, newest), last, newest);
      InsertKeepsAll(ByPosting(front, newest), last, newest);
      forall time ensures PostedAt(ByPosting(ms, newest), time) == PostedAt(ms, time) {
        InsertIsStable(ByPosting(front, newest), last, newest, time);
        PostedSnoc(ByPosting(front, newest), last, time);
        PostedSnoc(front, last, time);
      }
    }
  }

  lemma {:induction false} GroupHasOwn(ms: seq<Mention>, ticker: Ticker)
    ensures forall m :: m in Of(ms, ticker) <==> m in ms && m.ticker == ticker
    ensures |Of(ms, ticker)| == Count(ms, ticker, None, None)
  {
    if ms != [] {
      var front, last := ms[..|ms| - 1], ms[|ms| - 1];
      assert ms == front + [last];
      GroupHasOwn(front, ticker);
    }
  }

  /** first..last is the exact span of the ticker's mentions. */
  ghost predicate Spans(ms: seq<Mention>, ticker: Ticker, first: Time, last: Time) {
    && (forall m :: m in ms && m.ticker == ticker ==> first <= m.postedAt <= last)
    && (exists m :: m in ms && m.ticker == ticker && m.postedAt == first)
    && (exists m :: m in ms && m.ticker == ticker && m.postedAt == last)
  }

  lemma {:induction false} SortingKeepsAll(ms: seq<Mention>, newest: bool)
    ensures |ByPosting(ms, newest)| == |ms| && forall m :: m in ByPosting(ms, newest) <==> m in ms
  {
    var sorted := ByPosting(ms, newest);
    ByPostingSorts(ms, newest);
    assert |multiset(sorted)| == |multiset(ms)|;
    forall m ensures m in sorted <==> m in ms {
      assert m in sorted <==> m in multiset(sorted);
      assert m in ms <==> m in multiset(ms);
    }
  }

  lemma {:induction false} SortedSpans(ms: seq<Mention>, ticker: Ticker, oldest: seq<Mention>)
    requires Ordered(oldest, false) && oldest != [] && forall m :: m in oldest <==> m in ms && m.ticker == ticker
    ensures Spans(ms, ticker, oldest[0].postedAt, oldest[|oldest| - 1].postedAt)
  {
    assert oldest[0] in oldest && oldest[|oldest| - 1] in oldest;
    forall m | m in ms && m.ticker == ticker ensures oldest[0].postedAt <= m.postedAt <= oldest[|oldest| - 1].postedAt {
      assert m in oldest;
    }
  }

  /** An entry spans exactly its ticker's mentions. */
  lemma {:induction false} EvidenceSpans(ms: seq<Mention>, ticker: Ticker, now: Time)
    requires ticker in Mentioned(ms)
    ensures Spans(ms, ticker, EvidenceOf(ms, ticker, now).firstSeen, EvidenceOf(ms, ticker, now).lastSeen)
  {
    var mine := Of(ms, ticker);
    GroupHasOwn(ms, ticker);
    ByPostingSorts(mine, false);
    SortingKeepsAll(mine, false);
    var m :| m in ms && m.ticker == ticker;
    assert m in ByPosting(mine, false);
    SortedSpans(ms, ticker, ByPosting(mine, false));
  }

  lemma {:induction false} TopIsNewest(newest: seq<Mention>, n: nat)
    requires Ordered(newest, true)
    ensures var top := Top(newest, n);
            && |top| == (if |newest| < n then |newest| else n) && top == newest[..|top|]
            && forall i, j :: 0 <= i < |top| <= j < |newest| ==> newest[i].postedAt >= newest[j].postedAt
  {
    forall i, j | 0 <= i < |Top(newest, n)| <= j < |newest| ensures newest[i].postedAt >= newest[j].postedAt {
      assert InTurn(newest[i], newest[j], true);
    }
  }

  lemma {:induction false} ExcerptsOf(ms: seq<Mention>)
    ensures |Excerpts(ms)| == |Ids(ms)| == |ms|
    ensures forall i :: 0 <= i < |ms| ==> Excerpts(ms)[i] == ms[i].excerpt
  {
  }

  /** It names each of them once, and quotes three, or all if they are fewer, none older than one it does not quote. */
  lemma {:induction false} EvidenceQuotes(ms: seq<Mention>, ticker: Ticker, now: Time)
    ensures var e, newest := EvidenceOf(ms, ticker, now), ByPosting(Of(ms, ticker), true);
            && |e.mentionIds| == |newest| == e.total && e.mentionIds == Ids(ByPosting(Of(ms, ticker), false))
            && |e.excerpts| == (if e.total < MAX_EXCERPTS then e.total else MAX_EXCERPTS)
            && (forall i :: 0 <= i < |e.excerpts| ==> e.excerpts[i] == newest[i].excerpt)
            && (forall i, j :: 0 <= i < |e.excerpts| <= j < |newest| ==> newest[i].postedAt >= newest[j].postedAt)
  {
    var oldest, newest := ByPosting(Of(ms, ticker), false), ByPosting(Of(ms, ticker), true);
    GroupHasOwn(ms, ticker);
    ByPostingSorts(Of(ms, ticker), true);
    SortingKeepsAll(Of(ms, ticker), true);
    SortingKeepsAll(Of(ms, ticker), false);
    TopIsNewest(newest, MAX_EXCERPTS);
    ExcerptsOf(Top(newest, MAX_EXCERPTS));
    ExcerptsOf(oldest);
  }

  // ---- _select_candidates ----

  const MAX_CANDIDATES := 20

  predicate Eligible(e: Evidence, held: set<Ticker>, excluded: set<Ticker>) {
    e.recent > 0 && e.ticker !in held && e.ticker !in excluded
  }

  /** The sort key (-count, ticker). */
  predicate RanksBefore(a: Evidence, b: Evidence) {
    a.recent > b.recent || (a.recent == b.recent && Below(a.ticker, b.ticker))
  }

  function Place(es: seq<Evidence>, e: Evidence): seq<Evidence> {
    if es == [] || RanksBefore(es[|es| - 1], e) then es + [e]
    else Place(es[..|es| - 1], e) + [es[|es| - 1]]
  }

  function Ranked(es: seq<Evidence>, held: set<Ticker>, excluded: set<Ticker>): seq<Evidence> {
    if es == [] then []
    else
      var front, last := Ranked(es[..|es| - 1], held, excluded), es[|es| - 1];
      if Eligible(last, held, excluded) then Place(front, last) else front
  }

  function Chosen(es: seq<Evidence>, held: set<Ticker>, excluded: set<Ticker>): seq<Evidence> {
    var ranked := Ranked(es, held, excluded);
    if |ranked| <= MAX_CANDIDATES then ranked else ranked[..MAX_CANDIDATES]
  }

  function Names(es: seq<Evidence>): seq<Ticker> {
    if es == [] then [] else Names(es[..|es| - 1]) + [es[|es| - 1].ticker]
  }

  function SelectCandidates(es: seq<Evidence>, held: set<Ticker>, excluded: set<Ticker>): seq<Ticker> {
    Names(Chosen(es, held, excluded))
  }

  ghost predicate InOrder(es: seq<Evidence>) { forall i, j :: 0 <= i < j < |es| ==> RanksBefore(es[i], es[j]) }

  ghost predicate DistinctNames(es: seq<Evidence>) { forall i, j :: 0 <= i < j < |es| ==> es[i].ticker != es[j].ticker }

  lemma {:induction false} RanksTotal(a: Evidence, b: Evidence)
    requires a.ticker != b.ticker && !RanksBefore(a, b)
    ensures RanksBefore(b, a)
  {
    BelowTotal(a.ticker, b.ticker);
  }

  lemma {:induction false} RanksTransitive(a: Evidence, b: Evidence, c: Evidence)
    requires RanksBefore(a, b) && RanksBefore(b, c)
    ensures RanksBefore(a, c)
  {
    if a.recent == c.recent { BelowTransitive(a.ticker, b.ticker, c.ticker); }
  }

  lemma {:induction false} PlaceInOrder(es: seq<Evidence>, e: Evidence)
    requires InOrder(es) && forall x :: x in es ==> x.ticker != e.ticker
    ensures InOrder(Place(es, e)) && |Place(es, e)| == |es| + 1
    ensures forall x :: x in Place(es, e) <==> x in es || x == e
  {
    if es != [] {
      var front, last := es[..|es| - 1], es[|es| - 1];
      assert es == front + [last];
      if RanksBefore(last, e) {
        forall i | 0 <= i < |es| ensures RanksBefore(es[i], e) {
          if i < |front| { RanksTransitive(es[i], last, e); }
        }
      } else {
        RanksTotal(last, e);
        PlaceInOrder(front, e);
        var p := Place(front, e);
        forall i | 0 <= i < |p| ensures RanksBefore(p[i], last) {
          assert p[i] in p;
          if p[i] != e { assert p[i] in front; }
        }
      }
    }
  }

  /** Ranking keeps exactly the eligible evidence, strictly ordered. */
  lemma {:induction false} RankedIsOrdered(es: seq<Evidence>, held: set<Ticker>, excluded: set<Ticker>)
    requires DistinctNames(es)
    ensures InOrder(Ranked(es, held, excluded))
    ensures forall x :: x in Ranked(es, held, excluded) <==> x in es && Eligible(x, held, excluded)
  {
    if es != [] {
      var front, last := es[..|es| - 1], es[|es| - 1];
      assert es == front + [last];
      RankedIsOrdered(front, held, excluded);
      if Eligible(last, held, excluded) { PlaceInOrder(Ranked(front, held, excluded), last); }
    }
  }

  /** The selection is the true top twenty: what is left out ranks after all that is in. */
  lemma {:induction false} SelectionIsTop(es: seq<Evidence>, held: set<Ticker>, excluded: set<Ticker>)
    requires DistinctNames(es)
    ensures var chosen := Chosen(es, held, excluded);
            && |chosen| <= MAX_CANDIDATES && InOrder(chosen)
            && (forall x :: x in chosen ==> x in es && Eligible(x, held, excluded))
            && (forall x, y :: x in es && Eligible(x, held, excluded) && x !in chosen && y in chosen ==>
                  RanksBefore(y, x))
            && (|chosen| < MAX_CANDIDATES ==> forall x :: x in es && Eligible(x, held, excluded) ==> x in chosen)
  {
    RankedIsOrdered(es, held, excluded);
    var ranked, chosen := Ranked(es, held, excluded), Chosen(es, held, excluded);
    forall x, y | x in es && Eligible(x, held, excluded) && x !in chosen && y in chosen ensures RanksBefore(y, x) {
      assert x in ranked;
      var i :| 0 <= i < |ranked| && ranked[i] == x;
      var j :| 0 <= j < |chosen| && chosen[j] == y;
      assert forall k :: 0 <= k < |chosen| ==> chosen[k] in chosen && chosen[k] == ranked[k];
    }
  }

  lemma {:induction false} EvidencesByTicker(ms: seq<Mention>, tickers: seq<Ticker>, now: Time)
    ensures |EvidencesOf(ms, tickers, now)| == |tickers|
    ensures forall i :: 0 <= i < |tickers| ==> EvidencesOf(ms, tickers, now)[i] == EvidenceOf(ms, tickers[i], now)
  {
    if tickers != [] { EvidencesByTicker(ms, tickers[..|tickers| - 1], now); }
  }

  lemma {:induction false} EvidencesNamed(ms: seq<Mention>, tickers: seq<Ticker>, es: seq<Evidence>, now: Time)
    requires |es| == |tickers| && forall i :: 0 <= i < |es| ==> es[i] == EvidenceOf(ms, tickers[i], now)
    requires forall i, j :: 0 <= i < j < |tickers| ==> tickers[i] != tickers[j]
    ensures DistinctNames(es) && forall e :: e in es ==> e == EvidenceOf(ms, e.ticker, now)
    ensures forall k :: k in tickers ==> EvidenceOf(ms, k, now) in es
  {
    forall i | 0 <= i < |es| ensures es[i].ticker == tickers[i] {}
  }

  /** What `build_evidence` hands on: one entry for each mentioned ticker, with its exact counts. */
  lemma {:induction false} EvidenceComplete(ms: seq<Mention>, now: Time)
    ensures var es := EvidencesOf(ms, Sorted(Mentioned(ms)), now);
            && DistinctNames(es)
            && (forall e :: e in es ==> e == EvidenceOf(ms, e.ticker, now))
            && (forall m :: m in ms ==> EvidenceOf(ms, m.ticker, now) in es)
  {
    SortedHasAll(Mentioned(ms));
    EvidencesByTicker(ms, Sorted(Mentioned(ms)), now);
    EvidencesNamed(ms, Sorted(Mentioned(ms)), EvidencesOf(ms, Sorted(Mentioned(ms)), now), now);
    forall m | m in ms ensures m.ticker in Sorted(Mentioned(ms)) { assert m.ticker in Mentioned(ms); }
  }

  ghost function PostedIn(ms: seq<Mention>, ticker: Ticker, after: Option<Time>, upTo: Option<Time>): set<int> {
    set i | 0 <= i < |ms| && Posted(ms[i], ticker, after, upTo)
  }

  /** A count is the number of mentions in its window. */
  lemma {:induction false} CountsMentions(ms: seq<Mention>, ticker: Ticker, after: Option<Time>, upTo: Option<Time>)
    ensures Count(ms, ticker, after, upTo) == |PostedIn(ms, ticker, after, upTo)|
  {
    if ms != [] {
      var front, n := ms[..|ms| - 1], |ms| - 1;
      CountsMentions(front, ticker, after, upTo);
      assert ms == front + [ms[n]];
      CountSnoc(front, ms[n], ticker, after, upTo);
      var was, now := PostedIn(front, ticker, after, upTo), PostedIn(ms, ticker, after, upTo);
      assert now == if Posted(ms[n], ticker, after, upTo) then was + {n} else was;
    }
  }

  /** The mentions of a ticker posted at least `least` and less than `most` seconds before now. */
  ghost function PostedBefore(ms: seq<Mention>, ticker: Ticker, now: Time, least: int, most: int): set<int> {
    set i | 0 <= i < |ms| && ms[i].ticker == ticker && now - most < ms[i].postedAt <= now - least
  }

  ghost function MentionsOf(ms: seq<Mention>, ticker: Ticker): set<int> {
    set i | 0 <= i < |ms| && ms[i].ticker == ticker
  }

  ghost function PostedSince(ms: seq<Mention>, ticker: Ticker, now: Time, most: int): set<int> {
    set i | 0 <= i < |ms| && ms[i].ticker == ticker && now - most < ms[i].postedAt
  }

  /** The three counts of an entry: all mentions, those of the last 14 days, and those of the 14 days before. */
  lemma {:induction false} EvidenceCounts(ms: seq<Mention>, ticker: Ticker, now: Time)
    ensures var e := EvidenceOf(ms, ticker, now);
            && e.ticker == ticker && e.total == |MentionsOf(ms, ticker)|
            && e.recent == |PostedSince(ms, ticker, now, 1_209_600)| == Recent(ms, ticker, now)
            && e.prior == |PostedBefore(ms, ticker, now, 1_209_600, 2_419_200)|
  {
    CountsMentions(ms, ticker, None, None);
    CountsMentions(ms, ticker, Some(now - WINDOW), None);
    CountsMentions(ms, ticker, Some(now - 2 * WINDOW), Some(now - WINDOW));
    assert PostedIn(ms, ticker, None, None) == MentionsOf(ms, ticker);
    assert PostedIn(ms, ticker, Some(now - WINDOW), None) == PostedSince(ms, ticker, now, 1_209_600);
    assert PostedIn(ms, ticker, Some(now - 2 * WINDOW), Some(now - WINDOW))
           == PostedBefore(ms, ticker, now, 1_209_600, 2_419_200);
  }

  /** The mentions of a ticker within the last 14 days. */
  function Recent(ms: seq<Mention>, ticker: Ticker, now: Time): nat { Count(ms, ticker, Some(now - WINDOW), None) }

  ghost predicate Outranks(ms: seq<Mention>, now: Time, a: Ticker, b: Ticker) {
    Recent(ms, a, now) > Recent(ms, b, now) || (Recent(ms, a, now) == Recent(ms, b, now) && Below(a, b))
  }

  lemma {:induction false} NamesAt(es: seq<Evidence>)
    ensures |Names(es)| == |es| && forall i :: 0 <= i < |es| ==> Names(es)[i] == es[i].ticker
  {
    if es != [] { NamesAt(es[..|es| - 1]); }
  }

  lemma {:induction false} UnmentionedCountsZero(ms: seq<Mention>, ticker: Ticker, after: Option<Time>)
    requires ticker !in Mentioned(ms)
    ensures Count(ms, ticker, after, None) == 0
  {
    if ms != [] {
      var front := ms[..|ms| - 1];
      assert ms[|ms| - 1] in ms && forall m :: m in front ==> m in ms;
      UnmentionedCountsZero(front, ticker, after);
    }
  }

  ghost predicate MayBeChosen(ms: seq<Mention>, now: Time, held: set<Ticker>, excluded: set<Ticker>, k: Ticker) {
    Recent(ms, k, now) > 0 && k !in held && k !in excluded
  }

  /** The best twenty of what may be chosen, each once and in order. */
  ghost predicate TopTwenty(ms: seq<Mention>, now: Time, held: set<Ticker>, excluded: set<Ticker>, chosen: seq<Ticker>)
    {
    && |chosen| <= 20
    && (forall i, j :: 0 <= i < j < |chosen| ==> chosen[i] != chosen[j] && Outranks(ms, now, chosen[i], chosen[j]))
    && (forall k :: k in chosen ==> MayBeChosen(ms, now, held, excluded, k))
    && (forall k :: MayBeChosen(ms, now, held, excluded, k) && k !in chosen ==> LeftOutBehind(ms, now, chosen, k))
  }

  ghost predicate LeftOutBehind(ms: seq<Mention>, now: Time, chosen: seq<Ticker>, k: Ticker) {
    |chosen| == 20 && forall j :: 0 <= j < |chosen| ==> Outranks(ms, now, chosen[j], k)
  }

  /** From mentions to candidates: the top twenty of all the recently mentioned tickers
      that are neither held nor excluded. */
  lemma {:induction false} CandidatesAreTopTwenty(ms: seq<Mention>, now: Time, held: set<Ticker>, excluded: set<Ticker>)
    ensures TopTwenty(ms, now, held, excluded,
                      SelectCandidates(EvidencesOf(ms, Sorted(Mentioned(ms)), now), held, excluded))
  {
    var es := EvidencesOf(ms, Sorted(Mentioned(ms)), now);
    EvidenceComplete(ms, now);
    SelectionIsTop(es, held, excluded);
    NamesAreTop(ms, now, es, Chosen(es, held, excluded), held, excluded);
  }

  lemma {:induction false} NamesAreTop(ms: seq<Mention>, now: Time, es: seq<Evidence>, top: seq<Evidence>,
                                       held: set<Ticker>, excluded: set<Ticker>)
    requires forall e :: e in es ==> e == EvidenceOf(ms, e.ticker, now)
    requires forall m :: m in ms ==> EvidenceOf(ms, m.ticker, now) in es
    requires |top| <= MAX_CANDIDATES && InOrder(top) && forall x :: x in top ==> x in es && Eligible(x, held, excluded)
    requires forall x, y :: x in es && Eligible(x, held, excluded) && x !in top && y in top ==> RanksBefore(y, x)
    requires |top| < MAX_CANDIDATES ==> forall x :: x in es && Eligible(x, held, excluded) ==> x in top
    ensures TopTwenty(ms, now, held, excluded, Names(top))
  {
    InOrderOutranks(ms, now, top);
    ChosenMay(ms, now, top, held, excluded);
    forall k | MayBeChosen(ms, now, held, excluded, k) && k !in Names(top)
      ensures LeftOutBehind(ms, now, Names(top), k) {
      LeftOut(ms, now, es, top, k, held, excluded);
    }
  }

  lemma {:induction false} InOrderOutranks(ms: seq<Mention>, now: Time, top: seq<Evidence>)
    requires InOrder(top) && forall x :: x in top ==> x == EvidenceOf(ms, x.ticker, now)
    ensures var names := Names(top);
            && |names| == |top|
            && forall i, j :: 0 <= i < j < |names| ==> names[i] != names[j] && Outranks(ms, now, names[i], names[j])
  {
    NamesAt(top);
    forall i, j | 0 <= i < j < |top|
      ensures Names(top)[i] != Names(top)[j] && Outranks(ms, now, Names(top)[i], Names(top)[j])
    {
      assert RanksBefore(top[i], top[j]) && top[i] in top && top[j] in top;
      BelowIrreflexive(top[i].ticker);
    }
  }

  lemma {:induction false} ChosenMay(ms: seq<Mention>, now: Time, top: seq<Evidence>, held: set<Ticker>,
                                     excluded: set<Ticker>)
    requires forall x :: x in top ==> x == EvidenceOf(ms, x.ticker, now) && Eligible(x, held, excluded)
    ensures forall k :: k in Names(top) ==> MayBeChosen(ms, now, held, excluded, k)
  {
    NamesAt(top);
    forall k | k in Names(top) ensures MayBeChosen(ms, now, held, excluded, k) {
      var i :| 0 <= i < |top| && Names(top)[i] == k;
      assert top[i] in top;
    }
  }

  lemma {:induction false} LeftOut(ms: seq<Mention>, now: Time, es: seq<Evidence>, top: seq<Evidence>, k: Ticker,
                                   held: set<Ticker>, excluded: set<Ticker>)
    requires MayBeChosen(ms, now, held, excluded, k) && k !in Names(top)
    requires forall e :: e in es ==> e == EvidenceOf(ms, e.ticker, now)
    requires forall m :: m in ms ==> EvidenceOf(ms, m.ticker, now) in es
    requires |top| <= MAX_CANDIDATES && forall x :: x in top ==> x in es
    requires forall x, y :: x in es && Eligible(x, held, excluded) && x !in top && y in top ==> RanksBefore(y, x)
    requires |top| < MAX_CANDIDATES ==> forall x :: x in es && Eligible(x, held, excluded) ==> x in top
    ensures LeftOutBehind(ms, now, Names(top), k)
  {
    NamesAt(top);
    var e := EvidenceOf(ms, k, now);
    if k !in Mentioned(ms) { UnmentionedCountsZero(ms, k, Some(now - WINDOW)); }
    assert e in es && Eligible(e, held, excluded);
    assert e !in top;
    forall j | 0 <= j < |top| ensures Outranks(ms, now, Names(top)[j], k) {
      assert top[j] in top && RanksBefore(top[j], e);
    }
  }
}
