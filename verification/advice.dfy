/** `get_investment_advice` of analysis_service.py: a short-, medium- and
    long-term verdict, each with a price range, or a fixed "not enough data"
    triple when computing them raises. */
module Advice {
  import opened Wrappers
  import opened Series
  import opened Rsi
  import opened Macd
  import opened Bands
  import opened DataService

  /** One horizon's headline and its [low, high] price range. The detail line
      the source appends to each headline is not modelled. */
  datatype Horizon = Horizon(text: string, low: real, high: real)

  datatype Advice = Advice(short: Horizon, medium: Horizon, long: Horizon)

  const ShortBuy := "短期买入机会：RSI超卖，可能存在反弹机会"
  const ShortCaution := "短期谨慎：RSI超买，可能有回调风险"
  const ShortNeutral := "短期中性：技术指标未显示明显信号"
  const MediumBull := "中期看涨：MACD金叉形成，市场情绪积极"
  const MediumCaution := "中期谨慎：MACD死叉形成，市场情绪谨慎"
  const MediumNeutral := "中期中性：技术指标和市场情绪未形成明显趋势"
  const LongBull := "长期看涨：股价位于长期均线之上，估值合理"
  const LongCaution := "长期谨慎：股价低于长期均线，估值偏高"
  const LongNeutral := "长期中性：基本面和技术面未显示明显优势或风险"

  /** The triple returned when any step raises. */
  const Insufficient := Advice(
    Horizon("短期建议：数据不足，无法生成建议", 0.0, 0.0),
    Horizon("中期建议：数据不足，无法生成建议", 0.0, 0.0),
    Horizon("长期建议：数据不足，无法生成建议", 0.0, 0.0))

  const Oversold: real := 30.0
  const Overbought: real := 70.0
  const MediumWindow: nat := 20
  const LongWindow: nat := 60
  const CheapPe: real := 25.0
  const CheapPb: real := 3.0
  const DearPe: real := 30.0
  const DearPb: real := 5.0

  /** `info.get(key, 0)` when the value can be compared and formatted as a
      number; None when it cannot (a string or null), which makes the
      source raise. */
  function NumberOr0(info: Info, key: string): (v: Option<real>)
    ensures key !in info ==> v == Some(0.0)
    ensures v.Some? && key in info ==> info[key] == Num(v.value)
    ensures v.None? <==> key in info && !info[key].Num?
  {
    if key !in info then Some(0.0)
    else match info[key]
      case Num(n) => Some(n)
      case _ => None
  }

  /** The dividend yield is scaled only when truthy; a non-empty string
      survives the scaling and then fails to format as a number. */
  predicate DividendFormats(info: Info) {
    !("dividendYield" in info && info["dividendYield"].Str? && |info["dividendYield"].s| > 0)
  }

  /** Everything the source evaluates succeeds: there is a Close column and
      the price, P/E and P/B fields are numbers or absent. */
  predicate Computable(info: Info, closes: Option<seq<real>>) {
    && closes.Some?
    && NumberOr0(info, "currentPrice").Some?
    && NumberOr0(info, "trailingPE").Some?
    && NumberOr0(info, "priceToBook").Some?
    && DividendFormats(info)
  }

  /** The trailing `w`-row mean, or the current price when there are fewer rows. */
  function MovingAverage(c: seq<real>, w: nat, price: real): (m: real)
    requires w > 0
    ensures |c| < w ==> m == price
    ensures |c| >= w ==> WindowMin(c, |c| - w, |c|) <= m <= WindowMax(c, |c| - w, |c|)
  {
    if |c| >= w then
      MeanBounds(c, |c| - w, |c|, WindowMin(c, |c| - w, |c|), WindowMax(c, |c| - w, |c|));
      Mean(c, |c| - w, |c|)
    else price
  }

  /** The RSI verdict: oversold below 30, overbought above 70, both strict. */
  function ShortTerm(rsi: real, support: real, resistance: real): (h: Horizon)
    ensures h.text == ShortBuy <==> rsi < Oversold
    ensures h.text == ShortCaution <==> rsi > Overbought
    ensures h.text == ShortNeutral <==> Oversold <= rsi <= Overbought
    ensures h.text == ShortBuy ==> h.low == 0.98 * support && h.high == 1.02 * support
    ensures h.text == ShortCaution ==> h.low == 0.95 * support && h.high == support
    ensures h.text == ShortNeutral ==> h.low == support && h.high == resistance
  {
    if rsi < Oversold then Horizon(ShortBuy, support * 0.98, support * 1.02)
    else if rsi > Overbought then Horizon(ShortCaution, support * 0.95, support)
    else Horizon(ShortNeutral, support, resistance)
  }

  /** The MACD-and-sentiment verdict: both must agree for a signal. */
  function MediumTerm(macd: real, signal: real, mood: Sentiment, ma20: real, support: real, resistance: real): (h: Horizon)
    ensures h.text == MediumBull <==> macd > signal && mood == Positive
    ensures h.text == MediumCaution <==> macd < signal && mood == Negative
    ensures h.text == MediumNeutral <==> !(macd > signal && mood == Positive) && !(macd < signal && mood == Negative)
    ensures h.text == MediumBull ==> h.low == 0.98 * ma20 && h.high == 1.05 * ma20
    ensures h.text == MediumCaution ==> h.low == 0.95 * ma20 && h.high == ma20
    ensures h.text == MediumNeutral ==> h.low == support && h.high == resistance
  {
    if macd > signal && mood == Positive then Horizon(MediumBull, ma20 * 0.98, ma20 * 1.05)
    else if macd < signal && mood == Negative then Horizon(MediumCaution, ma20 * 0.95, ma20)
    else Horizon(MediumNeutral, support, resistance)
  }

  /** The trend-and-valuation verdict. */
  function LongTerm(price: real, ma60: real, pe: real, pb: real): (h: Horizon)
    ensures h.text == LongBull <==> price > ma60 && pe < CheapPe && pb < CheapPb
    ensures h.text == LongCaution <==> price < ma60 && pe > DearPe && pb > DearPb
    ensures h.text == LongNeutral <==> !(price > ma60 && pe < CheapPe && pb < CheapPb) && !(price < ma60 && pe > DearPe && pb > DearPb)
    ensures h.text == LongBull ==> h.low == 0.95 * ma60 && h.high == 1.10 * ma60
    ensures h.text == LongCaution ==> h.low == 0.85 * ma60 && h.high == 0.95 * ma60
    ensures h.text == LongNeutral ==> h.low == 0.90 * ma60 && h.high == 1.05 * ma60
  {
    if price > ma60 && pe < CheapPe && pb < CheapPb then Horizon(LongBull, ma60 * 0.95, ma60 * 1.10)
    else if price < ma60 && pe > DearPe && pb > DearPb then Horizon(LongCaution, ma60 * 0.85, ma60 * 0.95)
    else Horizon(LongNeutral, ma60 * 0.90, ma60 * 1.05)
  }

  /** The indicator values the three verdicts are built on. */
  datatype Readings = Readings(rsi: real, macd: real, signal: real, support: real, resistance: real,
                               ma20: real, ma60: real)

  /** The readings of `c`: 14-row RSI, MACD and signal, support and
      resistance, and the 20- and 60-row moving averages. The RSI is a
      percentage, MACD and signal are bounded by the spread of the closes,
      support is not above resistance for a non-negative last close, and an
      average over more rows than there are is the current price. */
  function ReadingsOf(c: seq<real>, price: real): (r: Readings)
    ensures r.rsi == UtilsRsi(c, StockPeriod)
    ensures (r.macd, r.signal) == UtilsMacd(c)
    ensures (r.support, r.resistance) == SupportResistance(c)
    ensures r.ma20 == MovingAverage(c, MediumWindow, price) && r.ma60 == MovingAverage(c, LongWindow, price)
    ensures 0.0 <= r.rsi <= 100.0
    ensures -Spread(c) <= r.macd <= Spread(c) && -Spread(c) <= r.signal <= Spread(c)
    ensures |c| == 0 || Last(c) >= 0.0 ==> r.support <= r.resistance
    ensures |c| < MediumWindow ==> r.ma20 == price
    ensures |c| < LongWindow ==> r.ma60 == price
    ensures |c| >= MediumWindow ==> WindowMin(c, |c| - MediumWindow, |c|) <= r.ma20 <= WindowMax(c, |c| - MediumWindow, |c|)
    ensures |c| >= LongWindow ==> WindowMin(c, |c| - LongWindow, |c|) <= r.ma60 <= WindowMax(c, |c| - LongWindow, |c|)
  {
    var sr := SupportResistance(c);
    var macd := UtilsMacd(c);
    Readings(UtilsRsi(c, StockPeriod), macd.0, macd.1, sr.0, sr.1,
             MovingAverage(c, MediumWindow, price), MovingAverage(c, LongWindow, price))
  }

  /** The three verdicts when nothing raises: the short term reads the RSI
      and the support and resistance, the medium term MACD, signal, sentiment
      and MA20, the long term the price, MA60, P/E and P/B. None of them is
      the sentinel. */
  function Analyse(r: Readings, price: real, pe: real, pb: real, mood: Sentiment): (a: Advice)
    ensures a != Insufficient
    ensures a.short == ShortTerm(r.rsi, r.support, r.resistance)
    ensures a.medium == MediumTerm(r.macd, r.signal, mood, r.ma20, r.support, r.resistance)
    ensures a.long == LongTerm(price, r.ma60, pe, pb)
  {
    var short := ShortTerm(r.rsi, r.support, r.resistance);
    assert short.text[2] != Insufficient.short.text[2];
    Advice(short,
           MediumTerm(r.macd, r.signal, mood, r.ma20, r.support, r.resistance),
           LongTerm(price, r.ma60, pe, pb))
  }

  /** The advice for `closes` (None when the history has no Close column),
      the info dictionary and the market sentiment: the sentinel triple
      exactly when some step cannot be computed. Otherwise the short term
      signals on the 14-row RSI of the closes, the medium term on their MACD
      crossing and the sentiment, and the long term on the price against
      MA60 and on P/E and P/B, each missing one read as 0. */
  function InvestmentAdvice(info: Info, closes: Option<seq<real>>, mood: Sentiment): (a: Advice)
    ensures !Computable(info, closes) <==> a == Insufficient
    ensures Computable(info, closes) ==>
      && (a.short.text == ShortBuy <==> UtilsRsi(closes.value, StockPeriod) < Oversold)
      && (a.short.text == ShortCaution <==> UtilsRsi(closes.value, StockPeriod) > Overbought)
      && (a.short.text == ShortBuy ==> a.short.low == 0.98 * SupportResistance(closes.value).0)
    ensures Computable(info, closes) ==>
      && (a.medium.text == MediumBull <==> UtilsMacd(closes.value).0 > UtilsMacd(closes.value).1 && mood == Positive)
      && (a.medium.text == MediumCaution <==> UtilsMacd(closes.value).0 < UtilsMacd(closes.value).1 && mood == Negative)
    ensures Computable(info, closes) ==>
      var price := NumberOr0(info, "currentPrice").value;
      var ma60 := MovingAverage(closes.value, LongWindow, price);
      var pe := NumberOr0(info, "trailingPE").value;
      var pb := NumberOr0(info, "priceToBook").value;
      && (a.long.text == LongBull <==> price > ma60 && pe < CheapPe && pb < CheapPb)
      && (a.long.text == LongCaution <==> price < ma60 && pe > DearPe && pb > DearPb)
      && (a.long.text == LongBull ==> a.long.low == 0.95 * ma60 && a.long.high == 1.10 * ma60)
  {
    if !Computable(info, closes) then Insufficient
    else
      var price := NumberOr0(info, "currentPrice").value;
      Analyse(ReadingsOf(closes.value, price), price,
              NumberOr0(info, "trailingPE").value, NumberOr0(info, "priceToBook").value, mood)
  }

  /** Each verdict's range is ordered whenever the price it is built on is
      not negative. */
  lemma RangesOrdered(rsi: real, macd: real, signal: real, mood: Sentiment, ma20: real, ma60: real,
                      price: real, pe: real, pb: real, support: real, resistance: real)
    requires 0.0 <= support <= resistance && ma20 >= 0.0 && ma60 >= 0.0
    ensures ShortTerm(rsi, support, resistance).low <= ShortTerm(rsi, support, resistance).high
    ensures MediumTerm(macd, signal, mood, ma20, support, resistance).low
         <= MediumTerm(macd, signal, mood, ma20, support, resistance).high
    ensures LongTerm(price, ma60, pe, pb).low <= LongTerm(price, ma60, pe, pb).high
  {
  }

  /** With fewer than 26 closes MACD and signal are both 0, so the medium
      term is neutral whatever the sentiment. */
  lemma ShortHistoryMediumNeutral(info: Info, c: seq<real>, mood: Sentiment)
    requires Computable(info, Some(c)) && |c| < SlowSpan
    ensures InvestmentAdvice(info, Some(c), mood).medium.text == MediumNeutral
  {
  }

  /** With fewer than 60 closes the long-term average is the price itself,
      so the long term is neutral and its range is [0.90, 1.05] times the price. */
  lemma ShortHistoryLongNeutral(info: Info, c: seq<real>, mood: Sentiment)
    requires Computable(info, Some(c)) && |c| < LongWindow
    ensures InvestmentAdvice(info, Some(c), mood).long
         == Horizon(LongNeutral, 0.90 * NumberOr0(info, "currentPrice").value, 1.05 * NumberOr0(info, "currentPrice").value)
  {
    var price := NumberOr0(info, "currentPrice").value;
    assert ReadingsOf(c, price).ma60 == price;
  }

  /** Missing P/E and P/B default to 0, which reads as a cheap valuation:
      a price above its long average is then enough for the bullish verdict. */
  lemma MissingValuationLooksCheap(info: Info, c: seq<real>, mood: Sentiment)
    requires Computable(info, Some(c)) && "trailingPE" !in info && "priceToBook" !in info
    requires |c| >= LongWindow && NumberOr0(info, "currentPrice").value > Mean(c, |c| - LongWindow, |c|)
    ensures InvestmentAdvice(info, Some(c), mood).long.text == LongBull
  {
    var price := NumberOr0(info, "currentPrice").value;
    var ma60 := MovingAverage(c, LongWindow, price);
    assert ma60 == Mean(c, |c| - LongWindow, |c|);
    assert LongTerm(price, ma60, 0.0, 0.0).text == LongBull;
    assert ReadingsOf(c, price).ma60 == ma60;
  }
}
