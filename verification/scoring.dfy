/** The candidate pool and the 0-100 recommendation score of
    `get_trending_stocks` in analysis_service.py. */
module Scoring {
  import opened Wrappers
  import opened Text
  import opened Series
  import opened Rsi
  import opened Macd
  import opened DataService

  // ----------------------------------------------------------------- score

  /** `max(0, min(100, x))`. */
  function Clamp(x: real): (r: real)
    ensures 0.0 <= r <= 100.0
    ensures 0.0 <= x <= 100.0 ==> r == x
    ensures x < 0.0 ==> r == 0.0
    ensures x > 100.0 ==> r == 100.0
  {
    if x < 0.0 then 0.0 else if x > 100.0 then 100.0 else x
  }

  lemma ClampMonotone(x: real, y: real)
    requires x <= y
    ensures Clamp(x) <= Clamp(y)
  {
  }

  /** Full marks below RSI 30, none above 70, a straight line in between. */
  function RsiScore(rsi: real): (s: real)
    ensures 0.0 <= s <= 100.0
    ensures rsi <= 30.0 ==> s == 100.0
    ensures rsi >= 70.0 ==> s == 0.0
    ensures 30.0 <= rsi <= 70.0 ==> s * 40.0 == (70.0 - rsi) * 100.0
  {
    if rsi < 30.0 then 100.0
    else if rsi > 70.0 then 0.0
    else 100.0 - (rsi - 30.0) / 40.0 * 100.0
  }

  /** A higher RSI never scores more. */
  lemma RsiScoreAntitone(a: real, b: real)
    requires a <= b
    ensures RsiScore(b) <= RsiScore(a)
  {
    if 30.0 <= a <= 70.0 && 30.0 <= b <= 70.0 {
      assert RsiScore(b) * 40.0 <= RsiScore(a) * 40.0;
    }
  }

  /** 50 points at MACD 0, one point per 0.1 of MACD, clamped to [0, 100]. */
  function MacdScore(macd: real): (s: real)
    ensures 0.0 <= s <= 100.0
    ensures -5.0 <= macd <= 5.0 ==> s == 50.0 + 10.0 * macd
    ensures macd <= -5.0 ==> s == 0.0
    ensures macd >= 5.0 ==> s == 100.0
  {
    Clamp(50.0 + macd * 10.0)
  }

  function SentimentScore(mood: Sentiment): (s: real)
    ensures s == 50.0 * (Rank(mood) + 1) as real
  {
    match mood
    case Positive => 100.0
    case Neutral => 50.0
    case Negative => 0.0
  }

  const MomentumRows: nat := 20

  /** The close 20 rows back, which the monthly return divides by. */
  function MonthAgo(c: seq<real>): real
    requires |c| >= MomentumRows
  {
    c[|c| - MomentumRows]
  }

  /** 50 points plus 2 per percent of monthly return, clamped to [0, 100]. */
  function MomentumOfReturn(r: real): (s: real)
    ensures 0.0 <= s <= 100.0
    ensures -25.0 <= r <= 25.0 ==> s == 50.0 + 2.0 * r
  {
    Clamp(50.0 + r * 2.0)
  }

  /** The momentum score of a history of at least 20 closes. With a zero
      close 20 rows back the floating-point return is +inf, -inf or NaN, which
      the clamp turns into 100 when the last close is positive and 0 otherwise. */
  function MomentumScore(c: seq<real>): (s: real)
    requires |c| >= MomentumRows
    ensures 0.0 <= s <= 100.0
    ensures MonthAgo(c) == 0.0 ==> (s == 100.0 <==> Last(c) > 0.0) && (s != 100.0 ==> s == 0.0)
    ensures MonthAgo(c) != 0.0 ==> s == MomentumOfReturn((Last(c) / MonthAgo(c) - 1.0) * 100.0)
    ensures MonthAgo(c) > 0.0 ==> (s > 50.0 ==> Last(c) > MonthAgo(c)) && (s < 50.0 ==> Last(c) < MonthAgo(c))
  {
    if MonthAgo(c) == 0.0 then
      if Last(c) > 0.0 then 100.0 else 0.0
    else
      var r := (Last(c) / MonthAgo(c) - 1.0) * 100.0;
      ReturnSign(Last(c), MonthAgo(c));
      MomentumOfReturn(r)
  }

  /** With the same earlier closes, a higher last close never lowers the
      momentum score when the close 20 rows back is positive, and never
      raises it when that close is negative. */
  lemma MomentumMonotone(c1: seq<real>, c2: seq<real>)
    requires |c1| == |c2| >= MomentumRows
    requires c1[..|c1| - 1] == c2[..|c2| - 1] && Last(c1) <= Last(c2)
    ensures MonthAgo(c1) == MonthAgo(c2)
    ensures MonthAgo(c1) > 0.0 ==> MomentumScore(c1) <= MomentumScore(c2)
    ensures MonthAgo(c1) < 0.0 ==> MomentumScore(c2) <= MomentumScore(c1)
  {
    var n := |c1| - MomentumRows;
    assert c1[n] == c1[..|c1| - 1][n] == c2[..|c2| - 1][n] == c2[n];
    var m := MonthAgo(c1);
    if m != 0.0 {
      ReturnMonotone(Last(c1), Last(c2), m);
      var r1 := (Last(c1) / m - 1.0) * 100.0;
      var r2 := (Last(c2) / m - 1.0) * 100.0;
      if m > 0.0 {
        ClampMonotone(50.0 + r1 * 2.0, 50.0 + r2 * 2.0);
      } else {
        ClampMonotone(50.0 + r2 * 2.0, 50.0 + r1 * 2.0);
      }
    }
  }

  /** Dividing by a positive price keeps the order of two closes; dividing by a negative one reverses it. */
  lemma ReturnMonotone(a: real, b: real, m: real)
    requires a <= b && m != 0.0
    ensures m > 0.0 ==> (a / m - 1.0) * 100.0 <= (b / m - 1.0) * 100.0
    ensures m < 0.0 ==> (b / m - 1.0) * 100.0 <= (a / m - 1.0) * 100.0
  {
    assert b / m - a / m == (b - a) / m;
  }

  /** The monthly return has the sign of the move when the old price is positive. */
  lemma ReturnSign(last: real, before: real)
    requires before != 0.0
    ensures before > 0.0 ==> ((last / before - 1.0) * 100.0 > 0.0 <==> last > before)
    ensures before > 0.0 ==> ((last / before - 1.0) * 100.0 < 0.0 <==> last < before)
  {
    assert (last / before - 1.0) * before == last - before;
  }

  /** The weighted total: 30% RSI, 30% MACD, 20% sentiment, 20% momentum.
      The final clamp never changes it, since each part is in [0, 100]. */
  function Score(rsi: real, macd: real, mood: Sentiment, momentum: real): (s: real)
    requires 0.0 <= momentum <= 100.0
    ensures 0.0 <= s <= 100.0
    ensures s == 0.3 * RsiScore(rsi) + 0.3 * MacdScore(macd) + 0.2 * SentimentScore(mood) + 0.2 * momentum
  {
    Clamp(RsiScore(rsi) * 0.3 + MacdScore(macd) * 0.3 + SentimentScore(mood) * 0.2 + momentum * 0.2)
  }

  /** The score rises with MACD, sentiment and monthly return and falls with RSI. */
  lemma ScoreMonotone(rsi1: real, rsi2: real, macd1: real, macd2: real, mood1: Sentiment, mood2: Sentiment, r1: real, r2: real)
    requires rsi2 <= rsi1 && macd1 <= macd2 && Rank(mood1) <= Rank(mood2) && r1 <= r2
    ensures Score(rsi1, macd1, mood1, MomentumOfReturn(r1)) <= Score(rsi2, macd2, mood2, MomentumOfReturn(r2))
  {
    RsiScoreAntitone(rsi2, rsi1);
    ClampMonotone(50.0 + macd1 * 10.0, 50.0 + macd2 * 10.0);
    ClampMonotone(50.0 + r1 * 2.0, 50.0 + r2 * 2.0);
    assert SentimentScore(mood1) <= SentimentScore(mood2);
    assert 0.3 * RsiScore(rsi1) <= 0.3 * RsiScore(rsi2);
    assert 0.3 * MacdScore(macd1) <= 0.3 * MacdScore(macd2);
    assert 0.2 * MomentumOfReturn(r1) <= 0.2 * MomentumOfReturn(r2);
  }

  /** The score of a ticker with at least 20 closes, from its history and sentiment. */
  function CandidateScore(c: seq<real>, mood: Sentiment): (s: real)
    requires |c| >= MomentumRows
    ensures 0.0 <= s <= 100.0
    ensures s == 0.3 * RsiScore(UtilsRsi(c, StockPeriod)) + 0.3 * MacdScore(UtilsMacd(c).0)
               + 0.2 * SentimentScore(mood) + 0.2 * MomentumScore(c)
  {
    Score(UtilsRsi(c, StockPeriod), UtilsMacd(c).0, mood, MomentumScore(c))
  }

  /** On the same history, each step up in sentiment adds exactly 10 points. */
  lemma CandidateScoreMood(c: seq<real>)
    requires |c| >= MomentumRows
    ensures CandidateScore(c, Positive) == CandidateScore(c, Neutral) + 10.0
    ensures CandidateScore(c, Neutral) == CandidateScore(c, Negative) + 10.0
  {
    assert SentimentScore(Positive) == 100.0 && SentimentScore(Neutral) == 50.0 && SentimentScore(Negative) == 0.0;
  }

  /** The score is not monotone in the last close, even with a positive
      close 20 rows back: a higher last close also raises the RSI, which the
      RSI part scores lower. Twenty closes of 1.0 score less than the same
      closes with the last one lowered to 0.99. */
  lemma CandidateScoreNotMonotone()
    ensures var flat := seq(MomentumRows, _ => 1.0);
      var dip := flat[MomentumRows - 1 := 0.99];
      && dip[..MomentumRows - 1] == flat[..MomentumRows - 1]
      && Last(dip) < Last(flat) && MonthAgo(flat) > 0.0
      && CandidateScore(flat, Neutral) < CandidateScore(dip, Neutral)
  {
    var flat := seq(MomentumRows, _ => 1.0);
    var dip := flat[MomentumRows - 1 := 0.99];
    var i := MomentumRows - 1;
    assert NoDrop(flat, StockPeriod, i) by {
      forall j | WindowStart(StockPeriod, i) <= j <= i
        ensures Deltas(flat)[j] >= 0.0
      {
        assert flat[j] == 1.0 && flat[j - 1] == 1.0;
      }
    }
    assert Deltas(dip)[i] < 0.0;
    UtilsRsiTracksNetMove(dip, StockPeriod);
    assert Base(dip, |dip| - StockPeriod) == 1.0;
    assert RsiScore(UtilsRsi(dip, StockPeriod)) > 50.0;
    assert MomentumScore(flat) == 50.0;
    assert MomentumScore(dip) == 48.0;
  }

  // ------------------------------------------------------------------ pool

  /** One entry of Finnhub's US symbol list. */
  datatype Listing = Listing(symbol: string, kind: string)

  predicate Eligible(l: Listing) {
    l.kind == "Common Stock" && !EndsWith(l.symbol, ".")
  }

  /** The symbols of the eligible listings, in list order. */
  function CommonStocks(all: seq<Listing>): (r: seq<string>)
    ensures |r| <= |all|
    ensures forall x :: x in r <==> exists l :: l in all && Eligible(l) && l.symbol == x
  {
    if |all| == 0 then []
    else
      var rest := CommonStocks(all[1..]);
      assert forall l :: l in all <==> l == all[0] || l in all[1..];
      (if Eligible(all[0]) then [all[0].symbol] else []) + rest
  }

  /** Filtering keeps the relative order of the two halves of a list. */
  lemma {:induction false} CommonStocksAppend(a: seq<Listing>, b: seq<Listing>)
    ensures CommonStocks(a + b) == CommonStocks(a) + CommonStocks(b)
  {
    if |a| > 0 {
      assert (a + b)[1..] == a[1..] + b;
      CommonStocksAppend(a[1..], b);
    } else {
      assert a + b == b;
    }
  }

  const PoolSize: nat := 100

  /** The pool used when the symbol list cannot be fetched. */
  const FallbackPool: seq<string> := [
    "AAPL", "MSFT", "GOOGL", "AMZN", "META", "TSLA", "JPM", "JNJ", "V",
    "PG", "NVDA", "HD", "MA", "DIS", "ADBE", "PYPL", "NFLX", "CRM",
    "INTC", "CSCO", "PEP", "KO", "T", "VZ", "WMT", "MRK", "PFE",
    "ABT", "TMO", "UNH", "BAC", "GS", "MS", "C", "BA", "CAT", "MMM",
    "HON", "GE", "IBM", "ORCL", "QCOM", "TXN", "AMD", "AVGO", "AMAT",
    "MU", "LRCX", "ADI", "XLNX"]

  /** The candidate pool: the first 100 eligible symbols of the list, or the
      fixed fallback pool when the list request answers with a status other
      than 200. A request that raises leaves through the function's outer
      handler, which is not part of this model; the pool is then None. */
  function CandidatePool(listing: Reply<seq<Listing>>): (pool: Option<seq<string>>)
    ensures pool.None? <==> listing.Raised?
    ensures listing.Refused? ==> pool == Some(FallbackPool) && |FallbackPool| == 50
    ensures listing.Answered? ==> |pool.value| <= PoolSize
    ensures listing.Answered? ==> forall x :: x in pool.value ==> exists l :: l in listing.body && Eligible(l) && l.symbol == x
    ensures listing.Answered? && |CommonStocks(listing.body)| <= PoolSize ==> pool.value == CommonStocks(listing.body)
  {
    match listing
    case Raised => None
    case Refused => Some(FallbackPool)
    case Answered(all) =>
      var eligible := CommonStocks(all);
      if |eligible| <= PoolSize then Some(eligible)
      else
        assert forall x :: x in eligible[..PoolSize] ==> x in eligible;
        Some(eligible[..PoolSize])
  }

  /** Once 100 eligible symbols have been seen, the rest of the list does not matter. */
  lemma PoolIgnoresTail(a: seq<Listing>, b: seq<Listing>)
    requires |CommonStocks(a)| >= PoolSize
    ensures CandidatePool(Answered(a + b)) == CandidatePool(Answered(a))
  {
    CommonStocksAppend(a, b);
    var ea, eab := CommonStocks(a), CommonStocks(a + b);
    assert eab[..PoolSize] == ea[..PoolSize];
    if |ea| == PoolSize {
      assert ea[..PoolSize] == ea;
      if |eab| == PoolSize {
        assert eab[..PoolSize] == eab;
      }
    }
  }

  // ------------------------------------------------------------ evaluation

  /** What the pool loop fetched for one ticker: its info dictionary, its
      one-year closes and its sentiment. */
  datatype Fetched = Fetched(ticker: string, info: Info, closes: seq<real>, mood: Sentiment)

  /** One scored candidate. */
  datatype Row = Row(ticker: string, score: real)

  /** A candidate is scored only with a non-empty info holding a current
      price and at least 20 rows of history. */
  predicate Qualifies(f: Fetched) {
    f.info != map[] && "currentPrice" in f.info && |f.closes| >= MomentumRows
  }

  /** The row one candidate contributes, or None when it is skipped. */
  function Evaluate(f: Fetched): (r: Option<Row>)
    ensures r.Some? <==> Qualifies(f)
    ensures r.Some? ==> r.value.ticker == f.ticker && 0.0 <= r.value.score <= 100.0
  {
    if Qualifies(f) then Some(Row(f.ticker, CandidateScore(f.closes, f.mood))) else None
  }

  /** Keep the present results of `step` over `xs`, in order. */
  function Keep<A, B>(xs: seq<A>, step: A -> Option<B>): (ys: seq<B>)
    ensures |ys| <= |xs|
  {
    if |xs| == 0 then [] else Keep(xs[..|xs| - 1], step) + (if step(xs[|xs| - 1]).Some? then [step(xs[|xs| - 1]).value] else [])
  }

  /** Every kept result comes from some item. */
  lemma {:induction false} KeepFrom<A, B>(xs: seq<A>, step: A -> Option<B>, y: B)
    requires y in Keep(xs, step)
    ensures exists x :: x in xs && step(x) == Some(y)
  {
    var last := xs[|xs| - 1];
    if y in Keep(xs[..|xs| - 1], step) {
      KeepFrom(xs[..|xs| - 1], step, y);
      var x :| x in xs[..|xs| - 1] && step(x) == Some(y);
      assert x in xs;
    } else {
      assert step(last) == Some(y);
    }
  }

  /** Every present result is kept. */
  lemma {:induction false} KeepHas<A, B>(xs: seq<A>, step: A -> Option<B>, x: A)
    requires x in xs && step(x).Some?
    ensures step(x).value in Keep(xs, step)
  {
    var last := xs[|xs| - 1];
    if x != last {
      assert xs == xs[..|xs| - 1] + [last];
      KeepHas(xs[..|xs| - 1], step, x);
    }
  }

  /** Keeping one more item appends its result, if it has one. */
  lemma KeepStep<A, B>(xs: seq<A>, step: A -> Option<B>, i: nat)
    requires i < |xs|
    ensures Keep(xs[..i + 1], step) == Keep(xs[..i], step) + (if step(xs[i]).Some? then [step(xs[i]).value] else [])
  {
    assert xs[..i + 1][..i] == xs[..i];
  }

  /** Reference definition: the qualifying candidates, scored, in pool order. */
  function Scored(fetched: seq<Fetched>): (rows: seq<Row>)
    ensures |rows| <= |fetched|
  {
    Keep(fetched, Evaluate)
  }

  /** Every row is a fetched ticker that qualified, with a score in [0, 100]. */
  lemma ScoredRows(fetched: seq<Fetched>, r: Row)
    requires r in Scored(fetched)
    ensures exists f :: f in fetched && Qualifies(f) && f.ticker == r.ticker
    ensures 0.0 <= r.score <= 100.0
  {
    KeepFrom(fetched, Evaluate, r);
  }

  /** Every qualifying candidate is scored. */
  lemma ScoredComplete(fetched: seq<Fetched>, f: Fetched)
    requires f in fetched && Qualifies(f)
    ensures exists r :: r in Scored(fetched) && r.ticker == f.ticker
  {
    KeepHas(fetched, Evaluate, f);
  }

  /** The loop over `xs`: run `step` on each item and keep the present results, in order. */
  method KeepAll<A, B>(xs: seq<A>, step: A -> Option<B>) returns (ys: seq<B>)
    ensures ys == Keep(xs, step)
  {
    ys := [];
    var i := 0;
    while i < |xs|
      invariant 0 <= i <= |xs|
      invariant ys == Keep(xs[..i], step)
    {
      KeepStep(xs, step, i);
      var y := step(xs[i]);
      if y.Some? {
        ys := ys + [y.value];
      }
      i := i + 1;
    }
    assert xs[..i] == xs;
  }

  /** The evaluation loop: skip the candidates that do not qualify, score the rest. */
  method EvaluateCandidates(fetched: seq<Fetched>) returns (rows: seq<Row>)
    ensures rows == Scored(fetched)
    ensures |rows| <= |fetched|
    ensures forall r :: r in rows ==> 0.0 <= r.score <= 100.0
  {
    rows := KeepAll(fetched, Evaluate);
    forall r | r in rows ensures 0.0 <= r.score <= 100.0 {
      ScoredRows(fetched, r);
    }
  }
}
