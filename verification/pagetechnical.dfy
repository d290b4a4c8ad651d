/** The technical-analysis page of page_technical.py: the status labels,
    the metrics and the RSI curve. */
module PageTechnical {
  import opened Wrappers
  import opened Series
  import opened Rsi
  import opened Macd
  import opened Bands
  import opened DataService

  const OversoldLabel := "超卖"
  const OverboughtLabel := "超买"
  const NormalLabel := "正常"
  const BullishLabel := "看涨"
  const BearishLabel := "看跌"

  /** The RSI status: oversold below 30, overbought above 70, normal in between
      (both bounds included). */
  function RsiLabel(rsi: real): (l: string)
    ensures l == OversoldLabel <==> rsi < 30.0
    ensures l == OverboughtLabel <==> rsi > 70.0
    ensures l == NormalLabel <==> 30.0 <= rsi <= 70.0
  {
    if rsi < 30.0 then OversoldLabel else if rsi > 70.0 then OverboughtLabel else NormalLabel
  }

  /** The MACD status: bullish only when MACD is strictly above its signal. */
  function MacdLabel(macd: real, signal: real): (l: string)
    ensures l == BullishLabel <==> macd > signal
    ensures l == BearishLabel <==> macd <= signal
  {
    if macd > signal then BullishLabel else BearishLabel
  }

  /** The RSI of the closes strictly before row `i`. */
  function PrefixRsi(c: seq<real>, i: nat): (r: real)
    requires i <= |c|
    ensures 0.0 <= r <= 100.0
    ensures i >= StockPeriod ==> (r == 100.0 <==> NoDrop(c[..i], StockPeriod, i - 1))
    ensures i == |c| ==> r == UtilsRsi(c, StockPeriod)
  {
    assert c[..|c|] == c;
    UtilsRsi(c[..i], StockPeriod)
  }

  /** The values of `point` at `lo`, `lo + 1`, ..., `hi - 1`, in order. */
  function Points(lo: nat, hi: nat, point: nat --> real): (curve: seq<real>)
    requires lo <= hi
    requires forall i :: lo <= i < hi ==> point.requires(i)
    ensures |curve| == hi - lo
    ensures forall k :: 0 <= k < |curve| ==> curve[k] == point(lo + k)
    decreases hi - lo
  {
    if lo == hi then [] else Points(lo, hi - 1, point) + [point(hi - 1)]
  }

  /** The curve as drawn: one point for each date from row 14 on, where the
      point at row `i` is the RSI of rows 0..i-1, so it never sees row i. */
  function RsiCurve(c: seq<real>): (curve: seq<real>)
    ensures |c| < StockPeriod ==> curve == []
    ensures |c| >= StockPeriod ==> |curve| == |c| - StockPeriod
    ensures forall k :: 0 <= k < |curve| ==> curve[k] == PrefixRsi(c, StockPeriod + k)
    ensures forall k :: 0 <= k < |curve| ==> 0.0 <= curve[k] <= 100.0
  {
    if |c| < StockPeriod then [] else Points(StockPeriod, |c|, (i: nat) requires i <= |c| => PrefixRsi(c, i))
  }

  /** The curve with each point including its own row's close: the point at
      row `i` is the RSI of rows 0..i, and the last point is the RSI shown in
      the metric above the chart. */
  function RsiCurveAligned(c: seq<real>): (curve: seq<real>)
    ensures |c| < StockPeriod ==> curve == []
    ensures |c| >= StockPeriod ==> |curve| == |c| - StockPeriod
    ensures forall k :: 0 <= k < |curve| ==> curve[k] == PrefixRsi(c, StockPeriod + k + 1)
    ensures forall k :: 0 <= k < |curve| ==> 0.0 <= curve[k] <= 100.0
    ensures |curve| > 0 ==> curve[|curve| - 1] == UtilsRsi(c, StockPeriod)
  {
    if |c| < StockPeriod then [] else Points(StockPeriod + 1, |c| + 1, (i: nat) requires i <= |c| => PrefixRsi(c, i))
  }

  /** Each drawn point depends only on the closes before its row. */
  lemma RsiCurveUsesPastOnly(c1: seq<real>, c2: seq<real>, k: nat)
    requires |c1| == |c2| && StockPeriod + k < |c1|
    requires c1[..StockPeriod + k] == c2[..StockPeriod + k]
    ensures RsiCurve(c1)[k] == RsiCurve(c2)[k]
  {
    assert RsiCurve(c1)[k] == PrefixRsi(c1, StockPeriod + k);
    assert RsiCurve(c2)[k] == PrefixRsi(c2, StockPeriod + k);
  }

  /** Fourteen flat closes and then a crash to zero: the drawn curve has one
      point and it reads 100, while the RSI of the same date is below 100;
      the aligned curve shows the RSI of that date. */
  lemma CurveLagsOneRow()
    ensures var c := seq(StockPeriod, _ => 1.0) + [0.0];
      && RsiCurve(c) == [100.0]
      && UtilsRsi(c, StockPeriod) < 100.0
      && RsiCurveAligned(c) == [UtilsRsi(c, StockPeriod)]
  {
    var c := seq(StockPeriod, _ => 1.0) + [0.0];
    var flat := c[..StockPeriod];
    assert NoDrop(flat, StockPeriod, StockPeriod - 1) by {
      forall j | WindowStart(StockPeriod, StockPeriod - 1) <= j <= StockPeriod - 1
        ensures Deltas(flat)[j] >= 0.0
      {
        if j > 0 {
          assert flat[j] == 1.0 && flat[j - 1] == 1.0;
        }
      }
    }
    assert !NoDrop(c, StockPeriod, StockPeriod) by {
      assert Deltas(c)[StockPeriod] == -1.0;
    }
    assert RsiCurve(c)[0] == PrefixRsi(c, StockPeriod);
    assert RsiCurveAligned(c)[0] == PrefixRsi(c, StockPeriod + 1);
    assert c[..StockPeriod + 1] == c;
  }

  /** What the page shows: the two metrics with their labels, the support
      and resistance table, and the RSI curve. */
  datatype Metrics = Metrics(
    rsi: real, rsiLabel: string,
    macd: real, signal: real, macdLabel: string,
    support: real, resistance: real,
    curve: seq<real>)

  /** The page around a given curve, or None for the "data unavailable"
      error when the history is empty or the info dictionary is. */
  function Page(c: seq<real>, info: Info, curve: seq<real>): (m: Option<Metrics>)
    ensures m.None? <==> |c| == 0 || info == map[]
    ensures m.Some? ==> m.value.rsi == UtilsRsi(c, StockPeriod) && m.value.curve == curve
    ensures m.Some? ==> (m.value.macd, m.value.signal) == UtilsMacd(c)
    ensures m.Some? ==> (m.value.support, m.value.resistance) == SupportResistance(c)
    ensures m.Some? ==> m.value.rsiLabel == RsiLabel(m.value.rsi) && m.value.macdLabel == MacdLabel(m.value.macd, m.value.signal)
    ensures m.Some? ==> m.value.support <= m.value.resistance || Last(c) < 0.0
  {
    if |c| == 0 || info == map[] then None
    else
      var rsi := UtilsRsi(c, StockPeriod);
      var macd := UtilsMacd(c);
      var sr := SupportResistance(c);
      Some(Metrics(rsi, RsiLabel(rsi), macd.0, macd.1, MacdLabel(macd.0, macd.1), sr.0, sr.1, curve))
  }

  /** The page as the program draws it: the curve point at row `i` is the
      RSI of the rows before it, so the last point is the RSI of every close
      but the last, not the RSI metric. */
  function TechnicalPage(c: seq<real>, info: Info): (m: Option<Metrics>)
    ensures m.None? <==> |c| == 0 || info == map[]
    ensures m.Some? ==> m.value.rsi == UtilsRsi(c, StockPeriod)
    ensures m.Some? ==> (m.value.macd, m.value.signal) == UtilsMacd(c)
    ensures m.Some? ==> (m.value.support, m.value.resistance) == SupportResistance(c)
    ensures m.Some? ==> m.value.rsiLabel == RsiLabel(m.value.rsi) && m.value.macdLabel == MacdLabel(m.value.macd, m.value.signal)
    ensures m.Some? ==> m.value.support <= m.value.resistance || Last(c) < 0.0
    ensures m.Some? ==> |m.value.curve| == if |c| < StockPeriod then 0 else |c| - StockPeriod
    ensures m.Some? ==> forall k :: 0 <= k < |m.value.curve| ==> m.value.curve[k] == PrefixRsi(c, StockPeriod + k)
    ensures m.Some? && |m.value.curve| > 0 ==>
      m.value.curve[|m.value.curve| - 1] == UtilsRsi(c[..|c| - 1], StockPeriod)
  {
    Page(c, info, RsiCurve(c))
  }

  /** The page with the corrected curve of the finding: the same metrics,
      and a curve whose last point is the RSI metric. */
  function TechnicalPageCorrected(c: seq<real>, info: Info): (m: Option<Metrics>)
    ensures m.None? <==> |c| == 0 || info == map[]
    ensures m.Some? ==> m.value.rsi == UtilsRsi(c, StockPeriod)
    ensures m.Some? ==> (m.value.macd, m.value.signal) == UtilsMacd(c)
    ensures m.Some? ==> (m.value.support, m.value.resistance) == SupportResistance(c)
    ensures m.Some? ==> m.value.rsiLabel == RsiLabel(m.value.rsi) && m.value.macdLabel == MacdLabel(m.value.macd, m.value.signal)
    ensures m.Some? ==> m.value.support <= m.value.resistance || Last(c) < 0.0
    ensures m.Some? ==> |m.value.curve| == if |c| < StockPeriod then 0 else |c| - StockPeriod
    ensures m.Some? ==> forall k :: 0 <= k < |m.value.curve| ==> m.value.curve[k] == PrefixRsi(c, StockPeriod + k + 1)
    ensures m.Some? && |m.value.curve| > 0 ==> m.value.curve[|m.value.curve| - 1] == m.value.rsi
  {
    Page(c, info, RsiCurveAligned(c))
  }

  /** The corrected curve is the drawn curve moved one date earlier: each
      corrected point is what the program draws at the next date. */
  lemma AlignedIsShifted(c: seq<real>)
    ensures forall k :: 0 <= k && k + 1 < |RsiCurve(c)| ==> RsiCurveAligned(c)[k] == RsiCurve(c)[k + 1]
  {
  }
}
