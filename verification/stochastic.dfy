/** The row-wise oscillators of stock_utils.py: the RSV behind KDJ, the
    Stochastic %K and %D, and the J line. */
module Stochastic {
  import opened Wrappers
  import opened Series

  /** One OHLCV row of a price history. */
  datatype Bar = Bar(open: real, high: real, low: real, close: real, volume: real)

  /** A bar whose close lies within its own low-high range. */
  predicate WellFormed(b: Bar) {
    b.low <= b.close <= b.high
  }

  const KdjWindow: nat := 9
  const StochWindow: nat := 14
  const SmoothWindow: nat := 3

  function Lows(bars: seq<Bar>): (s: seq<real>)
    ensures |s| == |bars| && forall i :: 0 <= i < |bars| ==> s[i] == bars[i].low
  {
    seq(|bars|, i requires 0 <= i < |bars| => bars[i].low)
  }

  function Highs(bars: seq<Bar>): (s: seq<real>)
    ensures |s| == |bars| && forall i :: 0 <= i < |bars| ==> s[i] == bars[i].high
  {
    seq(|bars|, i requires 0 <= i < |bars| => bars[i].high)
  }

  /** Lowest low of the `w` rows ending at row `i`. */
  function LowestLow(bars: seq<Bar>, w: nat, i: nat): real
    requires 0 < w <= i + 1 <= |bars|
  {
    WindowMin(Lows(bars), i + 1 - w, i + 1)
  }

  /** Highest high of the `w` rows ending at row `i`. */
  function HighestHigh(bars: seq<Bar>, w: nat, i: nat): real
    requires 0 < w <= i + 1 <= |bars|
  {
    WindowMax(Highs(bars), i + 1 - w, i + 1)
  }

  /** `100 * (close - lowest low) / (highest high - lowest low)` at row `i`.
      It is undefined before the window is complete, and where the window's
      range is zero (a 0/0 or x/0 division, NaN or infinite in pandas). */
  function RsvAt(bars: seq<Bar>, w: nat, i: nat): (r: Option<real>)
    requires 0 < w && i < |bars|
    ensures r.None? <==> i + 1 < w || HighestHigh(bars, w, i) == LowestLow(bars, w, i)
    ensures r.Some? && WellFormed(bars[i]) ==>
      && 0.0 <= r.value <= 100.0
      && (r.value == 100.0 <==> bars[i].close == HighestHigh(bars, w, i))
      && (r.value == 0.0 <==> bars[i].close == LowestLow(bars, w, i))
  {
    if i + 1 < w then None
    else
      var lo := LowestLow(bars, w, i);
      var hi := HighestHigh(bars, w, i);
      if hi == lo then None
      else
        assert lo <= bars[i].low && bars[i].high <= hi;
        ScaledPosition(bars[i].close, lo, hi);
        Some(100.0 * (bars[i].close - lo) / (hi - lo))
  }

  /** Where `x` sits between `lo` and `hi`, as a percentage. */
  lemma ScaledPosition(x: real, lo: real, hi: real)
    requires lo != hi
    ensures lo <= x <= hi ==> 0.0 <= 100.0 * (x - lo) / (hi - lo) <= 100.0
    ensures 100.0 * (x - lo) / (hi - lo) == 100.0 <==> x == hi
    ensures 100.0 * (x - lo) / (hi - lo) == 0.0 <==> x == lo
  {
    var p := 100.0 * (x - lo) / (hi - lo);
    assert p * (hi - lo) == 100.0 * (x - lo);
    assert (100.0 - p) * (hi - lo) == 100.0 * (hi - x);
    if p == 0.0 {
      assert 100.0 * (x - lo) == 0.0;
    }
  }

  /** The RSV series over a `w`-row window. */
  function Rsv(bars: seq<Bar>, w: nat): (r: seq<Option<real>>)
    requires w > 0
    ensures |r| == |bars|
    ensures forall i :: 0 <= i < |bars| && i + 1 < w ==> r[i].None?
    ensures forall i :: 0 <= i < |bars| && r[i].Some? && WellFormed(bars[i]) ==> 0.0 <= r[i].value <= 100.0
    ensures forall i :: 0 <= i < |bars| ==> r[i] == RsvAt(bars, w, i)
  {
    seq(|bars|, i requires 0 <= i < |bars| => RsvAt(bars, w, i))
  }

  /** The RSV column KDJ smooths: a 9-row window. */
  function KdjRsv(bars: seq<Bar>): (r: seq<Option<real>>)
    ensures |r| == |bars|
    ensures forall i :: 0 <= i < |bars| && i + 1 < KdjWindow ==> r[i].None?
    ensures forall i :: 0 <= i < |bars| && r[i].Some? && WellFormed(bars[i]) ==> 0.0 <= r[i].value <= 100.0
  {
    Rsv(bars, KdjWindow)
  }

  /** The Stochastic %K column: the same formula over 14 rows. */
  function StochK(bars: seq<Bar>): (r: seq<Option<real>>)
    ensures |r| == |bars|
    ensures forall i :: 0 <= i < |bars| && i + 1 < StochWindow ==> r[i].None?
    ensures forall i :: 0 <= i < |bars| && r[i].Some? && WellFormed(bars[i]) ==> 0.0 <= r[i].value <= 100.0
  {
    Rsv(bars, StochWindow)
  }

  /** `rolling(3).mean()` of %K: defined where the row and the two before it are. */
  function StochDAt(k: seq<Option<real>>, i: nat): (r: Option<real>)
    requires i < |k|
    ensures r.Some? <==> i + 1 >= SmoothWindow && k[i].Some? && k[i - 1].Some? && k[i - 2].Some?
    ensures r.Some? ==>
      var lo := Min3(k[i - 2].value, k[i - 1].value, k[i].value);
      var hi := Max3(k[i - 2].value, k[i - 1].value, k[i].value);
      lo <= r.value <= hi
  {
    if i + 1 < SmoothWindow || k[i].None? || k[i - 1].None? || k[i - 2].None? then None
    else Some((k[i - 2].value + k[i - 1].value + k[i].value) / 3.0)
  }

  function Min3(a: real, b: real, c: real): real {
    if a <= b && a <= c then a else if b <= c then b else c
  }

  function Max3(a: real, b: real, c: real): real {
    if a >= b && a >= c then a else if b >= c then b else c
  }

  /** The Stochastic %D column. */
  function StochD(k: seq<Option<real>>): (d: seq<Option<real>>)
    ensures |d| == |k|
    ensures forall i :: 0 <= i < |k| ==> d[i] == StochDAt(k, i)
    ensures forall i :: 0 <= i < |k| ==> (d[i].Some? <==> i + 1 >= SmoothWindow && k[i].Some? && k[i - 1].Some? && k[i - 2].Some?)
    ensures forall i :: 0 <= i < |k| && i + 1 < SmoothWindow ==> d[i].None?
  {
    seq(|k|, i requires 0 <= i < |k| => StochDAt(k, i))
  }

  /** `J = 3K - 2D` row by row, given the smoothed K and D columns. J sits
      three times as far from D as K does, on the same side, so K can be
      read back from J and D; with K and D in [0, 100], J lies in [-200, 300]. */
  function JLine(k: seq<Option<real>>, d: seq<Option<real>>): (j: seq<Option<real>>)
    requires |k| == |d|
    ensures |j| == |k|
    ensures forall i :: 0 <= i < |k| ==> (j[i].Some? <==> k[i].Some? && d[i].Some?)
    ensures forall i :: 0 <= i < |k| && j[i].Some? ==>
      j[i].value - d[i].value == 3.0 * (k[i].value - d[i].value)
    ensures forall i :: 0 <= i < |k| && j[i].Some? ==> k[i].value == (j[i].value + 2.0 * d[i].value) / 3.0
    ensures forall i :: 0 <= i < |k| && j[i].Some? ==>
      && (j[i].value == k[i].value <==> k[i].value == d[i].value)
      && (j[i].value > k[i].value <==> k[i].value > d[i].value)
    ensures forall i :: 0 <= i < |k| && j[i].Some? && 0.0 <= k[i].value <= 100.0 && 0.0 <= d[i].value <= 100.0 ==>
      -200.0 <= j[i].value <= 300.0
  {
    seq(|k|, i requires 0 <= i < |k| =>
      if k[i].Some? && d[i].Some? then Some(3.0 * k[i].value - 2.0 * d[i].value) else None)
  }

  /** %D stays in [0, 100] wherever every %K value is there. */
  lemma StochDBounded(k: seq<Option<real>>)
    requires forall i :: 0 <= i < |k| && k[i].Some? ==> 0.0 <= k[i].value <= 100.0
    ensures forall i :: 0 <= i < |k| && StochD(k)[i].Some? ==> 0.0 <= StochD(k)[i].value <= 100.0
  {
    forall i | 0 <= i < |k| && StochD(k)[i].Some?
      ensures 0.0 <= StochD(k)[i].value <= 100.0
    {
      assert StochD(k)[i] == StochDAt(k, i);
    }
  }

  /** Over well-formed bars the Stochastic oscillator stays in [0, 100]:
      %K because the close lies between the window's extremes, %D because it
      averages %K. */
  lemma StochasticBounded(bars: seq<Bar>)
    requires forall i :: 0 <= i < |bars| ==> WellFormed(bars[i])
    ensures forall i :: 0 <= i < |bars| && StochD(StochK(bars))[i].Some? ==>
      0.0 <= StochD(StochK(bars))[i].value <= 100.0
  {
    StochDBounded(StochK(bars));
  }
}
