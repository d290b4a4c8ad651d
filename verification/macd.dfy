/** MACD of utils.py (last values, with a short-input default), of
    indicators.py (whole series) and of stock_utils.py (with the histogram
    column). All three use pandas' recursive EMA, `ewm(span=s, adjust=False)`. */
module Macd {
  import opened Series

  const FastSpan: nat := 12
  const SlowSpan: nat := 26
  const SignalSpan: nat := 9

  /** The smoothing factor pandas derives from a span: `2 / (span + 1)`. */
  function Alpha(span: nat): (a: real)
    requires span > 0
    ensures 0.0 < a <= 1.0
  {
    2.0 / (span as real + 1.0)
  }

  /** Row `i` of `ewm(alpha=a, adjust=False).mean()`: the first value seeds
      the average, then each row moves a fraction `a` of the way towards its
      input, so the average never leaves the range of the inputs so far. */
  function EmaAt(xs: seq<real>, a: real, i: nat): (e: real)
    requires i < |xs|
    ensures i == 0 ==> e == xs[0]
    ensures 0.0 < a <= 1.0 ==> WindowMin(xs, 0, i + 1) <= e <= WindowMax(xs, 0, i + 1)
  {
    if i == 0 then xs[0]
    else
      var p := EmaAt(xs, a, i - 1);
      var e := Blend(p, xs[i], a);
      assert 0.0 < a <= 1.0 ==> WindowMin(xs, 0, i + 1) <= e <= WindowMax(xs, 0, i + 1) by {
        if 0.0 < a <= 1.0 {
          EmaStep(xs, a, i, p);
        }
      }
      e
  }

  /** The step of `EmaAt` from row `i - 1` to row `i` stays in the range of
      the rows so far. */
  lemma EmaStep(xs: seq<real>, a: real, i: nat, p: real)
    requires 0 < i < |xs| && 0.0 < a <= 1.0
    requires WindowMin(xs, 0, i) <= p <= WindowMax(xs, 0, i)
    ensures WindowMin(xs, 0, i + 1) <= Blend(p, xs[i], a) <= WindowMax(xs, 0, i + 1)
  {
    RangeGrows(xs, i);
    ConvexStep(p, xs[i], a, WindowMin(xs, 0, i + 1), WindowMax(xs, 0, i + 1));
  }

  /** One more row widens the range of a prefix to take in that row. */
  lemma RangeGrows(xs: seq<real>, i: nat)
    requires 0 < i < |xs|
    ensures WindowMin(xs, 0, i + 1) <= WindowMin(xs, 0, i) && WindowMin(xs, 0, i + 1) <= xs[i]
    ensures WindowMax(xs, 0, i) <= WindowMax(xs, 0, i + 1) && xs[i] <= WindowMax(xs, 0, i + 1)
  {
  }

  /** `ewm(alpha=a, adjust=False).mean()` as a series. */
  function Ema(xs: seq<real>, a: real): (e: seq<real>)
    ensures |e| == |xs|
    ensures forall i :: 0 <= i < |xs| ==> e[i] == EmaAt(xs, a, i)
  {
    seq(|xs|, i requires 0 <= i < |xs| => EmaAt(xs, a, i))
  }

  /** The MACD line: fast EMA minus slow EMA, row by row. */
  function MacdLine(c: seq<real>): (m: seq<real>)
    ensures |m| == |c|
    ensures |c| > 0 ==> m[0] == 0.0
    ensures forall i :: 0 <= i < |c| ==> m[i] == EmaAt(c, Alpha(FastSpan), i) - EmaAt(c, Alpha(SlowSpan), i)
  {
    Sub(Ema(c, Alpha(FastSpan)), Ema(c, Alpha(SlowSpan)))
  }

  /** The signal line: the 9-span EMA of the MACD line. */
  function SignalLine(c: seq<real>): (s: seq<real>)
    ensures |s| == |c|
    ensures |c| > 0 ==> s[0] == 0.0
    ensures forall i :: 0 <= i < |c| ==> s[i] == EmaAt(MacdLine(c), Alpha(SignalSpan), i)
  {
    Ema(MacdLine(c), Alpha(SignalSpan))
  }

  /** The spread of a series: its maximum minus its minimum (0 when empty). */
  function Spread(c: seq<real>): (d: real)
    ensures d >= 0.0
  {
    if |c| == 0 then 0.0 else WindowMax(c, 0, |c|) - WindowMin(c, 0, |c|)
  }

  /** `calculate_macd` of utils.py: the last MACD and signal values, or (0, 0)
      for fewer than 26 closes. From 26 closes on the pair is the last row of
      indicators.py's two lines. Both are bounded by the spread of the closes. */
  function UtilsMacd(c: seq<real>): (r: (real, real))
    ensures |c| < SlowSpan ==> r == (0.0, 0.0)
    ensures |c| >= SlowSpan ==> r == (Last(IndicatorsMacd(c).0), Last(IndicatorsMacd(c).1))
    ensures -Spread(c) <= r.0 <= Spread(c)
    ensures -Spread(c) <= r.1 <= Spread(c)
  {
    if |c| < SlowSpan then (0.0, 0.0)
    else
      MacdBounded(c);
      var lines := IndicatorsMacd(c);
      assert lines == (MacdLine(c), SignalLine(c));
      (Last(lines.0), Last(lines.1))
  }

  /** `calculate_macd` of indicators.py: both lines over the whole series,
      with no short-input guard. Both start at 0, since both EMAs are seeded
      by the first close. */
  function IndicatorsMacd(c: seq<real>): (r: (seq<real>, seq<real>))
    ensures |r.0| == |c| && |r.1| == |c|
    ensures |c| > 0 ==> r.0[0] == 0.0 && r.1[0] == 0.0
    ensures Within(r.0, -Spread(c), Spread(c)) && Within(r.1, -Spread(c), Spread(c))
  {
    MacdBounded(c);
    (MacdLine(c), SignalLine(c))
  }

  /** The `MACD_Hist` column of stock_utils.py: MACD minus signal on every row. */
  function Histogram(c: seq<real>): (h: seq<real>)
    ensures |h| == |c|
    ensures forall i :: 0 <= i < |c| ==> (h[i] > 0.0 <==> MacdLine(c)[i] > SignalLine(c)[i])
  {
    Sub(MacdLine(c), SignalLine(c))
  }

  /** An EMA never leaves the band its inputs stay in. */
  lemma EmaWithin(xs: seq<real>, a: real, lo: real, hi: real)
    requires 0.0 < a <= 1.0
    requires Within(xs, lo, hi)
    ensures Within(Ema(xs, a), lo, hi)
  {
    forall i | 0 <= i < |xs|
      ensures lo <= EmaAt(xs, a, i) <= hi
    {
      EmaAtWithin(xs, a, lo, hi, i);
    }
  }

  lemma {:induction false} EmaAtWithin(xs: seq<real>, a: real, lo: real, hi: real, i: nat)
    requires 0.0 < a <= 1.0
    requires Within(xs, lo, hi) && i < |xs|
    ensures lo <= EmaAt(xs, a, i) <= hi
  {
    if i > 0 {
      EmaAtWithin(xs, a, lo, hi, i - 1);
      ConvexStep(EmaAt(xs, a, i - 1), xs[i], a, lo, hi);
    }
  }

  /** Adding a constant to every input adds it to every EMA value. */
  lemma EmaShift(xs: seq<real>, a: real, k: real)
    ensures Ema(Shift(xs, k), a) == Shift(Ema(xs, a), k)
  {
    forall i | 0 <= i < |xs|
      ensures EmaAt(Shift(xs, k), a, i) == EmaAt(xs, a, i) + k
    {
      EmaShiftAt(xs, a, k, i);
    }
  }

  lemma {:induction false} EmaShiftAt(xs: seq<real>, a: real, k: real, i: nat)
    requires i < |xs|
    ensures EmaAt(Shift(xs, k), a, i) == EmaAt(xs, a, i) + k
  {
    if i > 0 {
      EmaShiftAt(xs, a, k, i - 1);
      ShiftStep(a, EmaAt(xs, a, i - 1), xs[i], k);
    }
  }

  lemma ShiftStep(a: real, f: real, x: real, k: real)
    ensures Blend(f + k, x + k, a) == Blend(f, x, a) + k
  {
  }

  /** The weighted average that moves `p` a fraction `a` of the way to `x`. */
  function Blend(p: real, x: real, a: real): real {
    (1.0 - a) * p + a * x
  }

  /** A weighted average of two values in a band stays in the band. */
  lemma ConvexStep(p: real, x: real, a: real, lo: real, hi: real)
    requires 0.0 < a <= 1.0 && lo <= p <= hi && lo <= x <= hi
    ensures lo <= Blend(p, x, a) <= hi
  {
    MulNonneg(1.0 - a, p - lo);
    MulNonneg(1.0 - a, hi - p);
    MulNonneg(a, x - lo);
    MulNonneg(a, hi - x);
  }

  lemma MulNonneg(x: real, y: real)
    requires x >= 0.0 && y >= 0.0
    ensures x * y >= 0.0
  {
  }

  /** Every value of the MACD line and of the signal line is bounded by the
      spread of the closes. */
  lemma MacdBounded(c: seq<real>)
    ensures Within(MacdLine(c), -Spread(c), Spread(c))
    ensures Within(SignalLine(c), -Spread(c), Spread(c))
  {
    if |c| > 0 {
      var lo := WindowMin(c, 0, |c|);
      var hi := WindowMax(c, 0, |c|);
      assert Within(c, lo, hi);
      var fast := Ema(c, Alpha(FastSpan));
      var slow := Ema(c, Alpha(SlowSpan));
      EmaWithin(c, Alpha(FastSpan), lo, hi);
      EmaWithin(c, Alpha(SlowSpan), lo, hi);
      assert forall i :: 0 <= i < |c| ==> -(hi - lo) <= fast[i] - slow[i] <= hi - lo;
      EmaWithin(MacdLine(c), Alpha(SignalSpan), lo - hi, hi - lo);
    }
  }

  /** Moving every close by the same amount changes neither line: MACD sees
      only the shape of the series. */
  lemma MacdShiftInvariant(c: seq<real>, k: real)
    ensures MacdLine(Shift(c, k)) == MacdLine(c)
    ensures SignalLine(Shift(c, k)) == SignalLine(c)
    ensures UtilsMacd(Shift(c, k)) == UtilsMacd(c)
  {
    MacdLineShift(c, k);
  }

  lemma MacdLineShift(c: seq<real>, k: real)
    ensures MacdLine(Shift(c, k)) == MacdLine(c)
  {
    var fast, slow := Ema(c, Alpha(FastSpan)), Ema(c, Alpha(SlowSpan));
    EmaShift(c, Alpha(FastSpan), k);
    EmaShift(c, Alpha(SlowSpan), k);
    SubShift(fast, slow, k);
  }

  /** Shifting both operands by the same amount leaves their difference. */
  lemma SubShift(a: seq<real>, b: seq<real>, k: real)
    requires |a| == |b|
    ensures Sub(Shift(a, k), Shift(b, k)) == Sub(a, b)
  {
  }

  /** A constant series has MACD, signal and histogram 0 on every row, and
      utils.py returns exactly (0, 0) whatever its length. */
  lemma ConstantSeriesMacdZero(c: seq<real>, k: real)
    requires Constant(c, k)
    ensures Constant(MacdLine(c), 0.0) && Constant(SignalLine(c), 0.0)
    ensures Constant(Histogram(c), 0.0)
    ensures UtilsMacd(c) == (0.0, 0.0)
  {
    EmaWithin(c, Alpha(FastSpan), k, k);
    EmaWithin(c, Alpha(SlowSpan), k, k);
    assert Constant(MacdLine(c), 0.0);
    EmaWithin(MacdLine(c), Alpha(SignalSpan), 0.0, 0.0);
  }
}
