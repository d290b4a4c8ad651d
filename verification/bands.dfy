/** Price envelopes of utils.py: `calculate_support_resistance` and
    `calculate_bollinger_bands`. */
module Bands {
  import opened Wrappers
  import opened Series

  /** The window both functions look back over. */
  const Window: nat := 20
  /** Standard deviations between the middle band and an outer band. */
  const Width: real := 2.0

  /** `calculate_support_resistance`: the lowest and highest of the last 20
      closes; with fewer, 5% either side of the last close; with none, (0, 0). */
  function SupportResistance(c: seq<real>): (r: (real, real))
    ensures |c| == 0 ==> r == (0.0, 0.0)
    ensures 0 < |c| < Window ==> r == (0.95 * Last(c), 1.05 * Last(c))
    ensures |c| >= Window ==> forall i :: |c| - Window <= i < |c| ==> r.0 <= c[i] <= r.1
    ensures |c| >= Window ==> exists i :: |c| - Window <= i < |c| && r.0 == c[i]
    ensures |c| >= Window ==> exists i :: |c| - Window <= i < |c| && r.1 == c[i]
    ensures |c| >= Window || |c| == 0 || Last(c) >= 0.0 ==> r.0 <= r.1
  {
    if |c| < Window then
      var p := if |c| == 0 then 0.0 else Last(c);
      (p * 0.95, p * 1.05)
    else
      (WindowMin(c, |c| - Window, |c|), WindowMax(c, |c| - Window, |c|))
  }

  /** Sum of squared deviations from `m` over the window `c[lo..hi]`. */
  function SquaredDeviations(c: seq<real>, lo: nat, hi: nat, m: real): (d: real)
    requires lo <= hi <= |c|
    ensures d >= 0.0
    decreases hi - lo
  {
    if lo == hi then 0.0
    else
      var x := c[hi - 1] - m;
      SquareNonneg(x);
      SquaredDeviations(c, lo, hi - 1, m) + x * x
  }

  lemma SquareNonneg(x: real)
    ensures x * x >= 0.0
  {
    if x < 0.0 {
      assert x * x == (-x) * (-x);
    }
  }

  /** The variance pandas' `rolling(w).std()` takes the root of: squared
      deviations from the window mean over `w - 1` (one delta degree of freedom). */
  function SampleVariance(c: seq<real>, lo: nat, hi: nat): (v: real)
    requires lo + 2 <= hi <= |c|
    ensures v >= 0.0
  {
    SquaredDeviations(c, lo, hi, Mean(c, lo, hi)) / (hi - lo - 1) as real
  }

  /** The three bands; each row is undefined until the window is complete. */
  datatype Bollinger = Bollinger(upper: seq<Option<real>>, middle: seq<Option<real>>, lower: seq<Option<real>>)

  function WindowMean(c: seq<real>, i: nat): real
    requires Window <= i + 1 <= |c|
  {
    Mean(c, i + 1 - Window, i + 1)
  }

  /** Two standard deviations of the window ending at row `i`. */
  function HalfWidth(c: seq<real>, sqrt: real -> real, i: nat): real
    requires Window <= i + 1 <= |c|
  {
    sqrt(SampleVariance(c, i + 1 - Window, i + 1)) * Width
  }

  /** A row of a band: undefined before the window is complete. */
  function BandRow(c: seq<real>, sqrt: real -> real, i: nat, side: int): Option<real>
    requires i < |c|
  {
    if i + 1 < Window then None else Some(WindowMean(c, i) + side as real * HalfWidth(c, sqrt, i))
  }

  /** `calculate_bollinger_bands` with the square root of the rolling
      variance supplied by the caller: three empty series for fewer than 20
      closes; otherwise, on every complete row, the middle band is the window
      mean and the outer bands sit the same distance above and below it. */
  function BollingerBands(c: seq<real>, sqrt: real -> real): (b: Bollinger)
    ensures |c| < Window ==> b.upper == [] && b.middle == [] && b.lower == []
    ensures |c| >= Window ==> |b.upper| == |c| && |b.middle| == |c| && |b.lower| == |c|
    ensures |c| >= Window ==> forall i :: 0 <= i < |c| ==>
      (b.middle[i].Some? <==> Window <= i + 1) &&
      (b.upper[i].Some? <==> Window <= i + 1) &&
      (b.lower[i].Some? <==> Window <= i + 1)
    ensures |c| >= Window ==> forall i :: Window <= i + 1 <= |c| ==>
      && b.middle[i] == Some(WindowMean(c, i))
      && b.upper[i].value - b.middle[i].value == b.middle[i].value - b.lower[i].value
      && b.upper[i].value - b.middle[i].value == Width * sqrt(SampleVariance(c, i + 1 - Window, i + 1))
  {
    if |c| < Window then Bollinger([], [], [])
    else
      Bollinger(
        seq(|c|, i requires 0 <= i < |c| => BandRow(c, sqrt, i, 1)),
        seq(|c|, i requires 0 <= i < |c| => BandRow(c, sqrt, i, 0)),
        seq(|c|, i requires 0 <= i < |c| => BandRow(c, sqrt, i, -1)))
  }

  /** With a nonnegative square root the bands are ordered lower, middle, upper. */
  lemma BandsOrdered(c: seq<real>, sqrt: real -> real)
    requires forall x :: x >= 0.0 ==> sqrt(x) >= 0.0
    requires |c| >= Window
    ensures var b := BollingerBands(c, sqrt);
      forall i :: Window <= i + 1 <= |c| ==>
        b.lower[i].value <= b.middle[i].value <= b.upper[i].value
  {
    var b := BollingerBands(c, sqrt);
    forall i | Window <= i + 1 <= |c|
      ensures b.lower[i].value <= b.middle[i].value <= b.upper[i].value
    {
      assert sqrt(SampleVariance(c, i + 1 - Window, i + 1)) >= 0.0;
    }
  }

  /** Over a constant window the deviations vanish: with a root that maps 0 to
      0, all three bands meet at the constant. */
  lemma ConstantWindowCollapses(c: seq<real>, sqrt: real -> real, k: real)
    requires Constant(c, k) && |c| >= Window && sqrt(0.0) == 0.0
    ensures var b := BollingerBands(c, sqrt);
      forall i :: Window <= i + 1 <= |c| ==>
        b.lower[i] == Some(k) && b.middle[i] == Some(k) && b.upper[i] == Some(k)
  {
    forall i | Window <= i + 1 <= |c|
      ensures WindowMean(c, i) == k && HalfWidth(c, sqrt, i) == 0.0
    {
      var lo := i + 1 - Window;
      MeanConstant(c, lo, i + 1, k);
      DeviationsFromConstant(c, lo, i + 1, k);
    }
  }

  lemma {:induction false} DeviationsFromConstant(c: seq<real>, lo: nat, hi: nat, k: real)
    requires lo <= hi <= |c|
    requires WithinOn(c, lo, hi, k, k)
    ensures SquaredDeviations(c, lo, hi, k) == 0.0
    decreases hi - lo
  {
    if lo < hi {
      DeviationsFromConstant(c, lo, hi - 1, k);
    }
  }
}
