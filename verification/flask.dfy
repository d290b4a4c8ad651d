/** The decision logic of the Flask page in app.py: the buy/sell/hold rule,
    the target prices, the explanation line and the first-match
    recommendation search. The HTTP calls become inputs. */
module FlaskApp {
  import opened Wrappers
  import opened Text

  // -------------------------------------------------------------- rounding

  /** Nearest integer to `y`, ties to the even neighbour. */
  function RoundHalfEven(y: real): (n: int)
    ensures y - 0.5 <= n as real <= y + 0.5
  {
    var f := y.Floor;
    var frac := y - f as real;
    if frac < 0.5 then f
    else if frac > 0.5 then f + 1
    else if f % 2 == 0 then f else f + 1
  }

  /** `round(x, 2)`, on exact decimals: the nearest multiple of 0.01, ties
      to the even hundredth. */
  function Round2(x: real): (r: real)
    ensures x - 0.005 <= r <= x + 0.005
    ensures (r * 100.0).Floor as real == r * 100.0
  {
    RoundHalfEven(x * 100.0) as real / 100.0
  }

  /** Rounding never reverses the order of two amounts. */
  lemma RoundHalfEvenMonotone(a: real, b: real)
    requires a <= b
    ensures RoundHalfEven(a) <= RoundHalfEven(b)
  {
    if a.Floor == b.Floor {
      assert a - a.Floor as real <= b - b.Floor as real;
    } else {
      assert a.Floor < b.Floor;
    }
  }

  lemma Round2Monotone(a: real, b: real)
    requires a <= b
    ensures Round2(a) <= Round2(b)
  {
    RoundHalfEvenMonotone(a * 100.0, b * 100.0);
  }

  /** An amount already in hundredths is left alone, so rounding twice is rounding once. */
  lemma Round2Idempotent(x: real)
    ensures Round2(Round2(x)) == Round2(x)
  {
    var n := RoundHalfEven(x * 100.0);
    assert Round2(x) * 100.0 == n as real;
    assert (n as real).Floor == n;
  }

  // ------------------------------------------------------------- suggestion

  /** What FMP returned for MACD: absent when the request failed or gave no rows. */
  datatype MacdPair = MacdPair(macd: real, signal: real)

  datatype Suggestion = Buy | Sell | Hold

  function SuggestionText(s: Suggestion): string {
    match s
    case Buy => "建议买入"
    case Sell => "建议卖出"
    case Hold => "持币观望"
  }

  const BuyBelow: real := 70.0
  const SellAbove: real := 80.0

  /** Python truthiness of the RSI: present and not zero. */
  predicate Truthy(rsi: Option<real>) {
    rsi.Some? && rsi.value != 0.0
  }

  /** Buy on a bullish MACD with an RSI below 70; otherwise sell on an RSI
      above 80; otherwise hold. */
  function Suggest(macd: Option<MacdPair>, rsi: Option<real>): (s: Suggestion)
    ensures s == Buy <==> macd.Some? && macd.value.macd > macd.value.signal && Truthy(rsi) && rsi.value < BuyBelow
    ensures s == Sell <==> Truthy(rsi) && rsi.value > SellAbove
    ensures !Truthy(rsi) ==> s == Hold
  {
    if macd.Some? && macd.value.macd > macd.value.signal && Truthy(rsi) && rsi.value < BuyBelow then Buy
    else if Truthy(rsi) && rsi.value > SellAbove then Sell
    else Hold
  }

  /** A bullish MACD with an RSI between 70 and 80 falls in the gap between the rules. */
  lemma GapHolds(macd: MacdPair, rsi: real)
    requires macd.macd > macd.signal && BuyBelow <= rsi <= SellAbove
    ensures Suggest(Some(macd), Some(rsi)) == Hold
  {
  }

  // ---------------------------------------------------------- target prices

  /** A shown target: "-", a rounded amount, or the TypeError that
      `round(None * factor, 2)` raises, which ends the request. */
  datatype Shown = Dash | Amount(value: real) | Raises

  const BuyFactor: real := 0.98
  const SellFactor: real := 1.05

  /** The target `factor` times the current price. `quote` is None when the
      quote request answered with a status other than 200, so the page's
      dictionary has no "current" key; otherwise it holds the quote's "c",
      which is None when the reply has it null or absent. */
  function Target(quote: Option<Option<real>>, factor: real): (t: Shown)
    ensures t == Dash <==> quote.None?
    ensures t == Raises <==> quote.Some? && quote.value.None?
    ensures t.Amount? ==> quote.Some? && quote.value.Some?
    ensures quote.Some? && quote.value.Some? ==>
      quote.value.value * factor - 0.005 <= t.value <= quote.value.value * factor + 0.005
    ensures t.Amount? ==> (t.value * 100.0).Floor as real == t.value * 100.0
  {
    match quote
    case None => Dash
    case Some(None) => Raises
    case Some(Some(current)) => Amount(Round2(current * factor))
  }

  function BuyTarget(quote: Option<Option<real>>): (t: Shown)
    ensures t == Dash <==> quote.None?
    ensures t == Raises <==> quote.Some? && quote.value.None?
    ensures quote.Some? && quote.value.Some? ==>
      quote.value.value * BuyFactor - 0.005 <= t.value <= quote.value.value * BuyFactor + 0.005
    ensures t.Amount? ==> (t.value * 100.0).Floor as real == t.value * 100.0
  {
    Target(quote, BuyFactor)
  }

  function SellTarget(quote: Option<Option<real>>): (t: Shown)
    ensures t == Dash <==> quote.None?
    ensures t == Raises <==> quote.Some? && quote.value.None?
    ensures quote.Some? && quote.value.Some? ==>
      quote.value.value * SellFactor - 0.005 <= t.value <= quote.value.value * SellFactor + 0.005
    ensures t.Amount? ==> (t.value * 100.0).Floor as real == t.value * 100.0
  {
    Target(quote, SellFactor)
  }

  /** For a non-negative price the buy target never exceeds the sell target. */
  lemma TargetsOrdered(current: real)
    requires current >= 0.0
    ensures BuyTarget(Some(Some(current))).value <= SellTarget(Some(Some(current))).value
  {
    Round2Monotone(current * BuyFactor, current * SellFactor);
  }

  // ------------------------------------------------------------- logic line

  /** One piece of the explanation, in the order the page lists them. */
  datatype Part = MacdPart(pair: MacdPair) | RsiPart(rsi: real) | KdjPart(k: Option<real>, d: Option<real>)

  /** The parts present: MACD when FMP gave MACD, RSI when it is truthy, KDJ when FMP gave it. */
  function LogicParts(macd: Option<MacdPair>, rsi: Option<real>, kdj: Option<(Option<real>, Option<real>)>): (parts: seq<Part>)
    ensures |parts| <= 3
    ensures macd.Some? ==> MacdPart(macd.value) in parts
    ensures Truthy(rsi) ==> RsiPart(rsi.value) in parts
    ensures kdj.Some? ==> KdjPart(kdj.value.0, kdj.value.1) in parts
    ensures forall p :: p in parts && p.MacdPart? ==> macd == Some(p.pair)
    ensures forall p :: p in parts && p.RsiPart? ==> Truthy(rsi) && rsi.value == p.rsi
    ensures forall p :: p in parts && p.KdjPart? ==> kdj == Some((p.k, p.d))
    ensures forall i, j :: 0 <= i < j < |parts| ==> Order(parts[i]) < Order(parts[j])
  {
    (if macd.Some? then [MacdPart(macd.value)] else [])
    + (if Truthy(rsi) then [RsiPart(rsi.value)] else [])
    + (if kdj.Some? then [KdjPart(kdj.value.0, kdj.value.1)] else [])
  }

  function Order(p: Part): nat {
    match p
    case MacdPart(_) => 0
    case RsiPart(_) => 1
    case KdjPart(_, _) => 2
  }

  const LogicSeparator: char := '；'

  /** The explanation line: the rendered parts joined with a full-width
      semicolon. The number formatting is the `render` parameter. When no
      rendering contains the separator, the line splits back into the
      rendered parts. */
  function LogicLine(parts: seq<Part>, render: Part -> string): (line: string)
    ensures |parts| == 0 ==> line == ""
    ensures |parts| > 0 && (forall p, i :: 0 <= i < |render(p)| ==> render(p)[i] != LogicSeparator) ==>
      |Split(line, LogicSeparator)| == |parts|
      && forall i :: 0 <= i < |parts| ==> Split(line, LogicSeparator)[i] == render(parts[i])
  {
    var rendered := seq(|parts|, i requires 0 <= i < |parts| => render(parts[i]));
    assert |parts| > 0 && (forall p, i :: 0 <= i < |render(p)| ==> render(p)[i] != LogicSeparator) ==>
      Split(Join(rendered, [LogicSeparator]), LogicSeparator) == rendered by {
      if |parts| > 0 && (forall p, i :: 0 <= i < |render(p)| ==> render(p)[i] != LogicSeparator) {
        SplitJoin(rendered, LogicSeparator);
      }
    }
    Join(rendered, [LogicSeparator])
  }

  // ---------------------------------------------------------- recommendation

  const Candidates: seq<string> := ["AAPL", "MSFT", "NVDA", "GOOG", "META", "TSLA", "AMD"]

  /** What the three requests returned for one candidate. `current` is
      None when the quote answered with a status other than 200 (an empty,
      falsy dictionary), and otherwise holds the quote's "c", which may be
      null; then the MACD pair and the RSI. */
  datatype Probe = Probe(current: Option<Option<real>>, macd: Option<MacdPair>, rsi: Option<real>)

  /** The candidate passes: all three answers present and truthy, a bullish
      MACD and an RSI below 70. A quote dictionary is truthy even when its
      price is null. */
  predicate Hit(p: Probe) {
    p.current.Some? && p.macd.Some? && Truthy(p.rsi)
    && p.macd.value.macd > p.macd.value.signal && p.rsi.value < BuyBelow
  }

  datatype Recommendation = Recommendation(symbol: string, price: real, buy: real, sell: real)

  /** The search's outcome: no candidate passed, the first one that passed,
      or the TypeError of rounding a null price for it. */
  datatype Lookup = NotFound | Found(rec: Recommendation) | Crashed

  function RecommendationFor(symbol: string, p: Probe): (rec: Recommendation)
    requires Hit(p) && p.current.value.Some?
    ensures rec.symbol == symbol && rec.price == p.current.value.value
    ensures rec.buy == Round2(rec.price * BuyFactor) && rec.sell == Round2(rec.price * SellFactor)
  {
    Recommendation(symbol, p.current.value.value, Round2(p.current.value.value * BuyFactor),
                   Round2(p.current.value.value * SellFactor))
  }

  /** The candidates are probed in list order and the first hit ends the
      search: it is recommended, or the search raises when its price is null.
      `probed` counts the candidates whose data was requested. */
  method FindRecommendation(probes: seq<Probe>) returns (r: Lookup, probed: nat)
    requires |probes| == |Candidates|
    ensures r.NotFound? <==> forall i :: 0 <= i < |probes| ==> !Hit(probes[i])
    ensures r.NotFound? ==> probed == |Candidates|
    ensures !r.NotFound? ==> 0 < probed <= |Candidates| && Hit(probes[probed - 1])
    ensures !r.NotFound? ==> forall j :: 0 <= j < probed - 1 ==> !Hit(probes[j])
    ensures r.Crashed? ==> probes[probed - 1].current.value.None?
    ensures r.Found? ==> probes[probed - 1].current.value.Some?
    ensures r.Found? ==> r.rec == RecommendationFor(Candidates[probed - 1], probes[probed - 1])
  {
    var i := 0;
    while i < |Candidates|
      invariant 0 <= i <= |Candidates|
      invariant forall j :: 0 <= j < i ==> !Hit(probes[j])
    {
      if Hit(probes[i]) {
        if probes[i].current.value.None? {
          return Crashed, i + 1;
        }
        return Found(RecommendationFor(Candidates[i], probes[i])), i + 1;
      }
      i := i + 1;
    }
    return NotFound, i;
  }
}
