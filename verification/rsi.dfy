/** The three RSI implementations of the repository: `calculate_rsi` in
    utils.py (scalar, with a short-input default and a zero-loss guard), in
    indicators.py (series, with an epsilon in the denominator) and the RSI
    column of stock_utils.py (series, no guard at all). They agree whenever
    the window holds a loss and part ways on flat windows. */
module Rsi {
  import opened Wrappers
  import opened Series

  /** What utils.py returns for a series shorter than the period. */
  const ShortInputRsi: real := 50.0
  /** The `1e-10` that indicators.py adds to the average loss. */
  const Eps: real := 0.0000000001
  /** The window stock_utils.py uses. */
  const StockPeriod: nat := 14

  /** The first index of the `period`-row window that ends at row `i`. */
  function WindowStart(period: nat, i: nat): nat
    requires 0 < period <= i + 1
  {
    i + 1 - period
  }

  /** Mean gain of the window ending at row `i`. */
  function AvgGain(c: seq<real>, period: nat, i: nat): real
    requires 0 < period <= i + 1 <= |c|
  {
    Mean(Gains(c), WindowStart(period, i), i + 1)
  }

  /** Mean loss of the window ending at row `i`. */
  function AvgLoss(c: seq<real>, period: nat, i: nat): real
    requires 0 < period <= i + 1 <= |c|
  {
    Mean(Losses(c), WindowStart(period, i), i + 1)
  }

  /** No close in the window ending at row `i` is below the close before it. */
  predicate NoDrop(c: seq<real>, period: nat, i: nat)
    requires 0 < period <= i + 1 <= |c|
  {
    forall j :: WindowStart(period, i) <= j <= i ==> Deltas(c)[j] >= 0.0
  }

  /** No close in the window ending at row `i` is above the close before it. */
  predicate NoRise(c: seq<real>, period: nat, i: nat)
    requires 0 < period <= i + 1 <= |c|
  {
    forall j :: WindowStart(period, i) <= j <= i ==> Deltas(c)[j] <= 0.0
  }

  /** `100 - 100 / (1 + rs)` with `rs = gain / loss`. */
  function RsiFormula(gain: real, loss: real): real
    requires gain >= 0.0 && loss > 0.0
  {
    100.0 - 100.0 / (1.0 + gain / loss)
  }

  /** The share of the window's movement that was upward, as a percentage:
      the reading of RSI that does not divide by the loss. */
  function UpShare(gain: real, loss: real): real
    requires gain >= 0.0 && loss >= 0.0 && gain + loss > 0.0
  {
    100.0 * gain / (gain + loss)
  }

  /** `calculate_rsi` of utils.py: the last value of a `period`-row RSI. */
  function UtilsRsi(c: seq<real>, period: nat): (r: real)
    requires period > 0
    ensures |c| < period ==> r == ShortInputRsi
    ensures |c| >= period ==> (r == 100.0 <==> NoDrop(c, period, |c| - 1))
    ensures 0.0 <= r <= 100.0
  {
    if |c| < period then ShortInputRsi
    else
      var i := |c| - 1;
      AvgSigns(c, period, i);
      var g := AvgGain(c, period, i);
      var l := AvgLoss(c, period, i);
      if l == 0.0 then 100.0
      else
        FormulaBounds(g, l);
        RsiFormula(g, l)
  }

  /** The RSI series of indicators.py: undefined until the window is complete,
      then `100 - 100 / (1 + gain / (loss + 1e-10))`. */
  function IndicatorsRsi(c: seq<real>, period: nat): (r: seq<Option<real>>)
    requires period > 0
    ensures |r| == |c|
    ensures forall i :: 0 <= i < |c| ==> (r[i].None? <==> i + 1 < period)
    ensures forall i :: 0 <= i < |c| && r[i].Some? ==> 0.0 <= r[i].value < 100.0
  {
    seq(|c|, i requires 0 <= i < |c| => IndicatorsRsiAt(c, period, i))
  }

  function IndicatorsRsiAt(c: seq<real>, period: nat, i: nat): (r: Option<real>)
    requires period > 0 && i < |c|
    ensures r.None? <==> i + 1 < period
    ensures r.Some? ==> 0.0 <= r.value < 100.0
  {
    if i + 1 < period then None
    else
      AvgSigns(c, period, i);
      var g := AvgGain(c, period, i);
      var l := AvgLoss(c, period, i);
      FormulaBounds(g, l + Eps);
      Some(RsiFormula(g, l + Eps))
  }

  /** The RSI column of stock_utils.py over 14 rows. Without a guard, a window
      with gains and no losses divides by zero to an infinite `rs` and reads
      100, and a flat window divides zero by zero and is NaN (`None` here). */
  function StockRsi(c: seq<real>): (r: seq<Option<real>>)
    ensures |r| == |c|
    ensures forall i :: 0 <= i < |c| && i + 1 < StockPeriod ==> r[i].None?
    ensures forall i :: StockPeriod <= i + 1 <= |c| ==>
      (r[i].None? <==> NoDrop(c, StockPeriod, i) && NoRise(c, StockPeriod, i))
    ensures forall i :: StockPeriod <= i + 1 <= |c| ==>
      (r[i] == Some(100.0) <==> NoDrop(c, StockPeriod, i) && !NoRise(c, StockPeriod, i))
    ensures forall i :: 0 <= i < |c| && r[i].Some? ==> 0.0 <= r[i].value <= 100.0
  {
    seq(|c|, i requires 0 <= i < |c| => StockRsiAt(c, i))
  }

  function StockRsiAt(c: seq<real>, i: nat): (r: Option<real>)
    requires i < |c|
    ensures i + 1 < StockPeriod ==> r.None?
    ensures StockPeriod <= i + 1 ==>
      && (r.None? <==> NoDrop(c, StockPeriod, i) && NoRise(c, StockPeriod, i))
      && (r == Some(100.0) <==> NoDrop(c, StockPeriod, i) && !NoRise(c, StockPeriod, i))
    ensures r.Some? ==> 0.0 <= r.value <= 100.0
  {
    if i + 1 < StockPeriod then None
    else
      AvgSigns(c, StockPeriod, i);
      var g := AvgGain(c, StockPeriod, i);
      var l := AvgLoss(c, StockPeriod, i);
      if l == 0.0 then (if g == 0.0 then None else Some(100.0))
      else
        FormulaBounds(g, l);
        Some(RsiFormula(g, l))
  }

  /** The window averages are nonnegative, and each is zero exactly when the
      window has no move in that direction. */
  lemma AvgSigns(c: seq<real>, period: nat, i: nat)
    requires 0 < period <= i + 1 <= |c|
    ensures AvgGain(c, period, i) >= 0.0 && AvgLoss(c, period, i) >= 0.0
    ensures AvgLoss(c, period, i) == 0.0 <==> NoDrop(c, period, i)
    ensures AvgGain(c, period, i) == 0.0 <==> NoRise(c, period, i)
  {
    var lo := WindowStart(period, i);
    MeanZero(Gains(c), lo, i + 1);
    MeanZero(Losses(c), lo, i + 1);
    LossZeroIffNoDrop(c, lo, i + 1);
    GainZeroIffNoRise(c, lo, i + 1);
  }

  lemma MeanZero(s: seq<real>, lo: nat, hi: nat)
    requires lo < hi <= |s|
    requires forall j :: lo <= j < hi ==> s[j] >= 0.0
    ensures Mean(s, lo, hi) >= 0.0
    ensures Mean(s, lo, hi) == 0.0 <==> forall j :: lo <= j < hi ==> s[j] == 0.0
  {
    RangeSumZero(s, lo, hi);
    var n := (hi - lo) as real;
    assert Mean(s, lo, hi) * n == RangeSum(s, lo, hi);
  }

  lemma LossZeroIffNoDrop(c: seq<real>, lo: nat, hi: nat)
    requires lo <= hi <= |c|
    ensures (forall j :: lo <= j < hi ==> Losses(c)[j] >= 0.0)
    ensures (forall j :: lo <= j < hi ==> Losses(c)[j] == 0.0)
        <==> (forall j :: lo <= j < hi ==> Deltas(c)[j] >= 0.0)
  {
    forall j | lo <= j < hi
      ensures Losses(c)[j] >= 0.0 && (Losses(c)[j] == 0.0 <==> Deltas(c)[j] >= 0.0)
    {
    }
  }

  lemma GainZeroIffNoRise(c: seq<real>, lo: nat, hi: nat)
    requires lo <= hi <= |c|
    ensures (forall j :: lo <= j < hi ==> Gains(c)[j] >= 0.0)
    ensures (forall j :: lo <= j < hi ==> Gains(c)[j] == 0.0)
        <==> (forall j :: lo <= j < hi ==> Deltas(c)[j] <= 0.0)
  {
    forall j | lo <= j < hi
      ensures Gains(c)[j] >= 0.0 && (Gains(c)[j] == 0.0 <==> Deltas(c)[j] <= 0.0)
    {
    }
  }

  /** The formula lands in `[0, 100)`. */
  lemma FormulaBounds(gain: real, loss: real)
    requires gain >= 0.0 && loss > 0.0
    ensures 0.0 <= RsiFormula(gain, loss) < 100.0
  {
    var rs := gain / loss;
    assert rs >= 0.0;
    var q := 100.0 / (1.0 + rs);
    assert q * (1.0 + rs) == 100.0;
    assert 0.0 < q <= 100.0;
  }

  /** The formula equals the up-share of the movement. */
  lemma FormulaIsUpShare(gain: real, loss: real)
    requires gain >= 0.0 && loss > 0.0
    ensures RsiFormula(gain, loss) == UpShare(gain, loss)
  {
    var g, l := gain, loss;
    var a := g / l;
    assert a * l == g;
    var q := 100.0 / (1.0 + a);
    assert q * (1.0 + a) == 100.0;
    assert (1.0 + a) * l == l + g;
    assert q * (g + l) == 100.0 * l by {
      calc {
        q * (g + l);
        == q * ((1.0 + a) * l);
        == (q * (1.0 + a)) * l;
        == 100.0 * l;
      }
    }
    var u := 100.0 * g / (g + l);
    assert u * (g + l) == 100.0 * g;
    assert (100.0 - q) * (g + l) == 100.0 * g;
    SameProduct(100.0 - q, u, g + l);
  }

  /** Two numbers with the same product by a positive factor are equal. */
  lemma SameProduct(x: real, y: real, k: real)
    requires k > 0.0 && x * k == y * k
    ensures x == y
  {
    assert (x - y) * k == 0.0;
  }

  /** The formula grows with the gain-to-loss ratio. */
  lemma FormulaMonotone(g1: real, l1: real, g2: real, l2: real)
    requires g1 >= 0.0 && l1 > 0.0 && g2 >= 0.0 && l2 > 0.0
    requires g1 / l1 <= g2 / l2
    ensures RsiFormula(g1, l1) <= RsiFormula(g2, l2)
  {
    var a := 1.0 + g1 / l1;
    var b := 1.0 + g2 / l2;
    assert 1.0 <= a <= b;
    var x := 100.0 / a;
    var y := 100.0 / b;
    assert x * a == 100.0 && y * b == 100.0;
    assert y >= 0.0;
    MulMonotone(y, a, b);
    assert y * a <= x * a;
    if y > x {
      MulStrict(x, y, a);
      assert false;
    }
  }

  /** Scaling by a non-negative factor keeps the order. */
  lemma MulMonotone(y: real, a: real, b: real)
    requires y >= 0.0 && a <= b
    ensures y * a <= y * b
  {
    assert y * b - y * a == y * (b - a);
  }

  /** Scaling by a positive factor keeps a strict order. */
  lemma MulStrict(x: real, y: real, a: real)
    requires x < y && a > 0.0
    ensures x * a < y * a
  {
    assert y * a - x * a == (y - x) * a;
  }

  /** Past the short-input default and the zero-loss guard, utils.py's RSI is the formula. */
  lemma UtilsRsiValue(c: seq<real>, period: nat)
    requires period > 0 && |c| >= period
    requires !NoDrop(c, period, |c| - 1)
    ensures AvgGain(c, period, |c| - 1) >= 0.0 && AvgLoss(c, period, |c| - 1) > 0.0
    ensures UtilsRsi(c, period) == RsiFormula(AvgGain(c, period, |c| - 1), AvgLoss(c, period, |c| - 1))
  {
    AvgSigns(c, period, |c| - 1);
  }

  /** The up-share does not depend on whether sums or means are used. */
  lemma UpShareScale(g: real, l: real, p: real)
    requires g >= 0.0 && l > 0.0 && p > 0.0
    ensures g / p >= 0.0 && l / p > 0.0
    ensures UpShare(g / p, l / p) == UpShare(g, l)
  {
    var u := UpShare(g / p, l / p);
    assert (g / p + l / p) * p == g + l;
    assert u * (g / p + l / p) == 100.0 * (g / p);
    assert u * (g + l) == 100.0 * g by {
      calc {
        u * (g + l);
        == u * ((g / p + l / p) * p);
        == (u * (g / p + l / p)) * p;
        == 100.0 * (g / p) * p;
        == 100.0 * g;
      }
    }
    assert UpShare(g, l) * (g + l) == 100.0 * g;
    SameProduct(u, UpShare(g, l), g + l);
  }

  /** Summed gains of the last `period` rows. */
  function LastGainSum(c: seq<real>, period: nat): real
    requires period <= |c|
  {
    RangeSum(Gains(c), |c| - period, |c|)
  }

  /** Summed losses of the last `period` rows. */
  function LastLossSum(c: seq<real>, period: nat): real
    requires period <= |c|
  {
    RangeSum(Losses(c), |c| - period, |c|)
  }

  /** When the window holds a loss, utils.py's RSI is the up-share of the
      window's summed moves: an independent reading of the same number. */
  lemma UtilsRsiIsUpShare(c: seq<real>, period: nat)
    requires period > 0 && |c| >= period
    requires !NoDrop(c, period, |c| - 1)
    ensures LastGainSum(c, period) >= 0.0 && LastLossSum(c, period) > 0.0
    ensures UtilsRsi(c, period) == UpShare(LastGainSum(c, period), LastLossSum(c, period))
  {
    var g := LastGainSum(c, period);
    var l := LastLossSum(c, period);
    var p := period as real;
    UtilsRsiValue(c, period);
    WindowSums(c, period);
    assert l > 0.0 by {
      assert l / p > 0.0;
    }
    FormulaIsUpShare(g / p, l / p);
    UpShareScale(g, l, p);
  }

  /** The window means are the window sums over the period. */
  lemma WindowSums(c: seq<real>, period: nat)
    requires period > 0 && |c| >= period
    ensures LastGainSum(c, period) >= 0.0 && LastLossSum(c, period) >= 0.0
    ensures AvgGain(c, period, |c| - 1) == LastGainSum(c, period) / period as real
    ensures AvgLoss(c, period, |c| - 1) == LastLossSum(c, period) / period as real
  {
    GainsLossesNonneg(c, |c| - period, |c|);
  }

  /** Above 50 exactly when the last close is above the close the window starts
      from, 50 when they are equal (provided the window holds a loss). */
  lemma UtilsRsiTracksNetMove(c: seq<real>, period: nat)
    requires period > 0 && |c| >= period
    requires !NoDrop(c, period, |c| - 1)
    ensures UtilsRsi(c, period) > 50.0 <==> Last(c) > Base(c, |c| - period)
    ensures UtilsRsi(c, period) == 50.0 <==> Last(c) == Base(c, |c| - period)
  {
    var lo := |c| - period;
    UtilsRsiIsUpShare(c, period);
    GainsMinusLosses(c, lo, |c|);
    Telescope(c, lo, |c|);
    var g := LastGainSum(c, period);
    var l := LastLossSum(c, period);
    assert g - l == Last(c) - Base(c, lo);
    UpShareVsHalf(g, l);
  }

  lemma UpShareVsHalf(g: real, l: real)
    requires g >= 0.0 && l > 0.0
    ensures UpShare(g, l) > 50.0 <==> g > l
    ensures UpShare(g, l) == 50.0 <==> g == l
  {
    var u := UpShare(g, l);
    assert u * (g + l) == 100.0 * g;
    assert (u - 50.0) * (g + l) == 50.0 * (g - l);
    SignOfProduct(u - 50.0, g + l);
  }

  lemma SignOfProduct(x: real, k: real)
    requires k > 0.0
    ensures x > 0.0 <==> x * k > 0.0
    ensures x == 0.0 <==> x * k == 0.0
  {
  }

  /** A constant series is where the three implementations part: utils.py
      reads 100, indicators.py reads 0 and stock_utils.py is undefined. */
  lemma ConstantSeriesDisagreement(c: seq<real>, k: real)
    requires Constant(c, k) && |c| >= StockPeriod
    ensures UtilsRsi(c, StockPeriod) == 100.0
    ensures forall i :: StockPeriod <= i + 1 <= |c| ==> IndicatorsRsi(c, StockPeriod)[i] == Some(0.0)
    ensures forall i :: StockPeriod <= i + 1 <= |c| ==> StockRsi(c)[i].None?
  {
    assert forall j :: 0 <= j < |c| ==> Deltas(c)[j] == 0.0;
    forall i | StockPeriod <= i + 1 <= |c|
      ensures IndicatorsRsi(c, StockPeriod)[i] == Some(0.0)
      ensures StockRsi(c)[i].None?
    {
      AvgSigns(c, StockPeriod, i);
      assert AvgGain(c, StockPeriod, i) == 0.0;
      assert NoDrop(c, StockPeriod, i) && NoRise(c, StockPeriod, i);
    }
    AvgSigns(c, StockPeriod, |c| - 1);
    assert NoDrop(c, StockPeriod, |c| - 1);
  }

  /** Where the last window holds a loss, utils.py and stock_utils.py agree,
      and the epsilon of indicators.py can only pull the reading down. */
  lemma VariantsAgreeWithLoss(c: seq<real>)
    requires |c| >= StockPeriod && !NoDrop(c, StockPeriod, |c| - 1)
    ensures StockRsi(c)[|c| - 1] == Some(UtilsRsi(c, StockPeriod))
    ensures IndicatorsRsi(c, StockPeriod)[|c| - 1].value <= UtilsRsi(c, StockPeriod)
  {
    var i := |c| - 1;
    UtilsRsiValue(c, StockPeriod);
    var g := AvgGain(c, StockPeriod, i);
    var l := AvgLoss(c, StockPeriod, i);
    assert StockRsi(c)[i] == StockRsiAt(c, i) == Some(RsiFormula(g, l));
    assert IndicatorsRsi(c, StockPeriod)[i] == IndicatorsRsiAt(c, StockPeriod, i) == Some(RsiFormula(g, l + Eps));
    EpsilonLowers(g, l);
  }

  /** Adding the epsilon to the loss never raises the reading. */
  lemma EpsilonLowers(g: real, l: real)
    requires g >= 0.0 && l > 0.0
    ensures RsiFormula(g, l + Eps) <= RsiFormula(g, l)
  {
    assert g / (l + Eps) <= g / l by {
      assert g / (l + Eps) * (l + Eps) == g == g / l * l;
    }
    FormulaMonotone(g, l + Eps, g, l);
  }
}
