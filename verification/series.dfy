/** Price series as sequences of exact reals, with the pandas window
    operations the indicators are built from (`diff`, `rolling(w).mean()`,
    `rolling(w).min()`, `rolling(w).max()`, `tail`). */
module Series {

  /** Sum of the window `s[lo..hi]`. */
  function RangeSum(s: seq<real>, lo: nat, hi: nat): real
    requires lo <= hi <= |s|
    decreases hi - lo
  {
    if lo == hi then 0.0 else RangeSum(s, lo, hi - 1) + s[hi - 1]
  }

  /** Mean of the window `s[lo..hi]`: `rolling(hi - lo).mean()` read at row `hi - 1`. */
  function Mean(s: seq<real>, lo: nat, hi: nat): real
    requires lo < hi <= |s|
  {
    RangeSum(s, lo, hi) / (hi - lo) as real
  }

  /** `iloc[-1]`. */
  function Last(s: seq<real>): real
    requires |s| > 0
  {
    s[|s| - 1]
  }

  /** Every entry equals `k`. */
  predicate Constant(s: seq<real>, k: real) {
    forall i :: 0 <= i < |s| ==> s[i] == k
  }

  /** Every entry of the window `s[lo..hi]` lies in `[a, b]`. */
  predicate WithinOn(s: seq<real>, lo: nat, hi: nat, a: real, b: real) {
    forall i :: lo <= i < hi && i < |s| ==> a <= s[i] <= b
  }

  /** Every entry lies in `[a, b]`. */
  predicate Within(s: seq<real>, a: real, b: real) {
    forall i :: 0 <= i < |s| ==> a <= s[i] <= b
  }

  /** `s + k` entrywise. */
  function Shift(s: seq<real>, k: real): (r: seq<real>)
    ensures |r| == |s| && forall i :: 0 <= i < |s| ==> r[i] == s[i] + k
  {
    seq(|s|, i requires 0 <= i < |s| => s[i] + k)
  }

  /** `a - b` entrywise. */
  function Sub(a: seq<real>, b: seq<real>): (r: seq<real>)
    requires |a| == |b|
    ensures |r| == |a| && forall i :: 0 <= i < |a| ==> r[i] == a[i] - b[i]
  {
    seq(|a|, i requires 0 <= i < |a| => a[i] - b[i])
  }

  /** `close.diff()` with the undefined first entry read as 0, which is what
      `delta.where(delta > 0, 0)` and `np.where(delta > 0, delta, 0)` make of it. */
  function Deltas(c: seq<real>): (d: seq<real>)
    ensures |d| == |c|
    ensures |c| > 0 ==> d[0] == 0.0
    ensures forall i :: 0 < i < |c| ==> d[i] == c[i] - c[i - 1]
  {
    seq(|c|, i requires 0 <= i < |c| => if i == 0 then 0.0 else c[i] - c[i - 1])
  }

  function Gain(d: real): real {
    if d > 0.0 then d else 0.0
  }

  function Loss(d: real): real {
    if d < 0.0 then -d else 0.0
  }

  /** The upward moves: `delta.where(delta > 0, 0)`. */
  function Gains(c: seq<real>): (g: seq<real>)
    ensures |g| == |c| && forall i :: 0 <= i < |c| ==> g[i] == Gain(Deltas(c)[i])
  {
    seq(|c|, i requires 0 <= i < |c| => Gain(Deltas(c)[i]))
  }

  /** The downward moves as positive numbers: `-delta.where(delta < 0, 0)`. */
  function Losses(c: seq<real>): (l: seq<real>)
    ensures |l| == |c| && forall i :: 0 <= i < |c| ==> l[i] == Loss(Deltas(c)[i])
  {
    seq(|c|, i requires 0 <= i < |c| => Loss(Deltas(c)[i]))
  }

  /** The close a window of deltas starts from: the close before its first
      delta, or the first close when the window starts at the undefined delta. */
  function Base(c: seq<real>, lo: nat): real
    requires lo < |c|
  {
    if lo == 0 then c[0] else c[lo - 1]
  }

  /** Minimum of the window `s[lo..hi]`. */
  function WindowMin(s: seq<real>, lo: nat, hi: nat): (m: real)
    requires lo < hi <= |s|
    ensures forall i :: lo <= i < hi ==> m <= s[i]
    ensures exists i :: lo <= i < hi && m == s[i]
    decreases hi - lo
  {
    if hi - lo == 1 then s[lo]
    else
      var m := WindowMin(s, lo, hi - 1);
      if s[hi - 1] < m then s[hi - 1] else m
  }

  /** Maximum of the window `s[lo..hi]`. */
  function WindowMax(s: seq<real>, lo: nat, hi: nat): (m: real)
    requires lo < hi <= |s|
    ensures forall i :: lo <= i < hi ==> s[i] <= m
    ensures exists i :: lo <= i < hi && m == s[i]
    decreases hi - lo
  {
    if hi - lo == 1 then s[lo]
    else
      var m := WindowMax(s, lo, hi - 1);
      if s[hi - 1] > m then s[hi - 1] else m
  }

  /** A window whose entries lie in `[a, b]` sums to between `n·a` and `n·b`. */
  lemma {:induction false} RangeSumBounds(s: seq<real>, lo: nat, hi: nat, a: real, b: real)
    requires lo <= hi <= |s|
    requires WithinOn(s, lo, hi, a, b)
    ensures (hi - lo) as real * a <= RangeSum(s, lo, hi) <= (hi - lo) as real * b
    decreases hi - lo
  {
    if lo < hi {
      RangeSumBounds(s, lo, hi - 1, a, b);
      var n, sum, x := (hi - 1 - lo) as real, RangeSum(s, lo, hi - 1), s[hi - 1];
      assert RangeSum(s, lo, hi) == sum + x;
      assert a <= x <= b;
      SumStep(n, a, b, sum, x);
      var total := (hi - lo) as real;
      assert total == n + 1.0;
      assert total * a == (n + 1.0) * a && total * b == (n + 1.0) * b;
    }
  }

  /** One more entry in `[a, b]` keeps an `n`-entry sum within its bounds. */
  lemma SumStep(n: real, a: real, b: real, sum: real, x: real)
    requires n * a <= sum <= n * b && a <= x <= b
    ensures (n + 1.0) * a <= sum + x <= (n + 1.0) * b
  {
    assert (n + 1.0) * a == n * a + a && (n + 1.0) * b == n * b + b;
  }

  /** The mean of a window lies between the window's bounds. */
  lemma MeanBounds(s: seq<real>, lo: nat, hi: nat, a: real, b: real)
    requires lo < hi <= |s|
    requires WithinOn(s, lo, hi, a, b)
    ensures a <= Mean(s, lo, hi) <= b
  {
    RangeSumBounds(s, lo, hi, a, b);
    var n := (hi - lo) as real;
    assert n * a <= RangeSum(s, lo, hi) <= n * b;
  }

  /** The mean of a constant window is that constant. */
  lemma MeanConstant(s: seq<real>, lo: nat, hi: nat, k: real)
    requires lo < hi <= |s|
    requires WithinOn(s, lo, hi, k, k)
    ensures Mean(s, lo, hi) == k
  {
    MeanBounds(s, lo, hi, k, k);
  }

  /** A window of nonnegative entries sums to zero exactly when every entry is zero. */
  lemma {:induction false} RangeSumZero(s: seq<real>, lo: nat, hi: nat)
    requires lo <= hi <= |s|
    requires forall i :: lo <= i < hi ==> s[i] >= 0.0
    ensures RangeSum(s, lo, hi) >= 0.0
    ensures RangeSum(s, lo, hi) == 0.0 <==> forall i :: lo <= i < hi ==> s[i] == 0.0
    decreases hi - lo
  {
    if lo < hi {
      RangeSumZero(s, lo, hi - 1);
    }
  }

  /** Summed over a window, gains minus losses are the deltas. */
  lemma {:induction false} GainsMinusLosses(c: seq<real>, lo: nat, hi: nat)
    requires lo <= hi <= |c|
    ensures RangeSum(Gains(c), lo, hi) - RangeSum(Losses(c), lo, hi) == RangeSum(Deltas(c), lo, hi)
    decreases hi - lo
  {
    if lo < hi {
      GainsMinusLosses(c, lo, hi - 1);
    }
  }

  /** The deltas of a window telescope to the net move over it. */
  lemma {:induction false} Telescope(c: seq<real>, lo: nat, hi: nat)
    requires lo < hi <= |c|
    ensures RangeSum(Deltas(c), lo, hi) == c[hi - 1] - Base(c, lo)
    decreases hi - lo
  {
    if hi - lo > 1 {
      Telescope(c, lo, hi - 1);
    }
  }

  /** The diffs lose only the first close: two series that start at the
      same close and have the same deltas are the same series. */
  lemma DeltasDetermine(a: seq<real>, b: seq<real>)
    requires |a| == |b| && |a| > 0 && a[0] == b[0]
    requires Deltas(a) == Deltas(b)
    ensures a == b
  {
    var d := Deltas(a);
    forall i | 0 <= i < |a|
      ensures a[i] == b[i]
    {
      Telescope(a, 0, i + 1);
      Telescope(b, 0, i + 1);
      assert a[i] - a[0] == RangeSum(d, 0, i + 1) == b[i] - b[0];
    }
  }

  /** Gains and losses are never negative. */
  lemma GainsLossesNonneg(c: seq<real>, lo: nat, hi: nat)
    requires lo <= hi <= |c|
    ensures RangeSum(Gains(c), lo, hi) >= 0.0
    ensures RangeSum(Losses(c), lo, hi) >= 0.0
  {
    RangeSumZero(Gains(c), lo, hi);
    RangeSumZero(Losses(c), lo, hi);
  }

  /** A window sum reads only the window. */
  lemma {:induction false} RangeSumPrefix(s: seq<real>, t: seq<real>, lo: nat, hi: nat)
    requires lo <= hi <= |s| && hi <= |t|
    requires forall i :: lo <= i < hi ==> s[i] == t[i]
    ensures RangeSum(s, lo, hi) == RangeSum(t, lo, hi)
    decreases hi - lo
  {
    if lo < hi {
      RangeSumPrefix(s, t, lo, hi - 1);
    }
  }

  /** Deltas, gains and losses of a prefix are the prefix of those of the whole. */
  lemma DeltasPrefix(c: seq<real>, k: nat)
    requires k <= |c|
    ensures Deltas(c[..k]) == Deltas(c)[..k]
    ensures Gains(c[..k]) == Gains(c)[..k]
    ensures Losses(c[..k]) == Losses(c)[..k]
  {
  }
}
