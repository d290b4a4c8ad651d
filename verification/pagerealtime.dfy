/** The quote arithmetic and the chart rules of page_realtime.py. */
module PageRealtime {
  import opened Wrappers
  import opened DataService
  import opened Stochastic

  /** The page renders only with a non-empty info dictionary that has a current price. */
  predicate CanRender(info: Info) {
    info != map[] && "currentPrice" in info
  }

  /** The day's change and its percentage. `prev` is None when the info has
      no previous close, which then defaults to the current price. A zero
      previous close gives no change at all. */
  function QuoteChange(current: real, prev: Option<real>): (r: (real, real))
    ensures prev.None? ==> r == (0.0, 0.0)
    ensures prev == Some(0.0) ==> r == (0.0, 0.0)
    ensures prev.Some? && prev.value != 0.0 ==>
      r.0 == current - prev.value && r.1 * prev.value == r.0 * 100.0
    ensures prev.Some? && prev.value > 0.0 ==>
      (r.1 > 0.0 <==> r.0 > 0.0) && (r.1 < 0.0 <==> r.0 < 0.0)
  {
    var p := prev.GetOr(current);
    var change := if p != 0.0 then current - p else 0.0;
    var percent := if p != 0.0 then change / p * 100.0 else 0.0;
    PercentOf(change, p);
    (change, percent)
  }

  /** `change / prev * 100` times `prev` gives back `100 * change`, and for a
      positive `prev` has the sign of `change`. */
  lemma PercentOf(change: real, prev: real)
    ensures prev != 0.0 ==> (change / prev * 100.0) * prev == change * 100.0
    ensures prev > 0.0 ==> (change / prev * 100.0 > 0.0 <==> change > 0.0)
    ensures prev > 0.0 ==> (change / prev * 100.0 < 0.0 <==> change < 0.0)
  {
    if prev != 0.0 {
      assert change / prev * prev == change;
    }
  }

  /** The change and percentage recover the current price from the previous close. */
  lemma QuoteChangeRecovers(current: real, prev: real)
    requires prev != 0.0
    ensures prev + QuoteChange(current, Some(prev)).0 == current
    ensures prev + prev * QuoteChange(current, Some(prev)).1 / 100.0 == current
  {
    var r := QuoteChange(current, Some(prev));
    assert r.1 * prev == r.0 * 100.0;
    assert prev * r.1 / 100.0 == r.0;
  }

  /** A displayed metric: a formatted value, or "N/A". */
  datatype Shown<T> = NotAvailable | Shown(value: T)

  /** The price shows as N/A when it is zero; the delta when the previous close is. */
  function PriceShown(current: real): (s: Shown<real>)
    ensures s.NotAvailable? <==> current == 0.0
    ensures s.Shown? ==> s.value == current
  {
    if current != 0.0 then Shown(current) else NotAvailable
  }

  function DeltaShown(current: real, prev: Option<real>): (s: Shown<(real, real)>)
    ensures s.NotAvailable? <==> prev.GetOr(current) == 0.0
    ensures s.Shown? ==> s.value == QuoteChange(current, prev)
  {
    if prev.GetOr(current) != 0.0 then Shown(QuoteChange(current, prev)) else NotAvailable
  }

  /** Price fields the arithmetic accepts: a numeric current price and a
      numeric or absent previous close. */
  predicate NumericQuote(info: Info) {
    "currentPrice" in info && info["currentPrice"].Num?
    && ("previousClose" in info ==> info["previousClose"].Num?)
  }

  /** The price metric of the page: None when the page shows its error
      instead, or when the price fields cannot take part in the arithmetic. */
  function Header(info: Info): (h: Option<(Shown<real>, Shown<(real, real)>)>)
    ensures h.Some? <==> CanRender(info) && NumericQuote(info)
    ensures h.Some? ==> (h.value.0.NotAvailable? <==> info["currentPrice"].n == 0.0)
    ensures h.Some? && "previousClose" !in info ==> h.value.1.NotAvailable? || h.value.1.value == (0.0, 0.0)
    ensures h.Some? ==> h.value.0 == PriceShown(info["currentPrice"].n)
    ensures h.Some? && "previousClose" in info ==>
      h.value.1 == DeltaShown(info["currentPrice"].n, Some(info["previousClose"].n))
    ensures h.Some? && "previousClose" in info && info["previousClose"].n != 0.0 ==>
      h.value.1 == Shown(QuoteChange(info["currentPrice"].n, Some(info["previousClose"].n)))
    ensures h.Some? && "previousClose" in info && info["previousClose"].n == 0.0 ==> h.value.1.NotAvailable?
  {
    if !(CanRender(info) && NumericQuote(info)) then None
    else
      var current := info["currentPrice"].n;
      var prev := if "previousClose" in info then Some(info["previousClose"].n) else None;
      Some((PriceShown(current), DeltaShown(current, prev)))
  }

  // ---------------------------------------------------------------- chart

  datatype Overlay = Ma5 | Ma20 | Bollinger

  const ShortAverage: nat := 5
  const LongAverage: nat := 20

  /** The overlays drawn on a chart of `rows` rows. */
  function Overlays(rows: nat): (o: set<Overlay>)
    ensures Ma5 in o <==> rows >= ShortAverage
    ensures Ma20 in o <==> rows >= LongAverage
    ensures Bollinger in o <==> rows >= LongAverage
  {
    (if rows >= ShortAverage then {Ma5} else {}) + (if rows >= LongAverage then {Ma20, Bollinger} else {})
  }

  /** More history never removes an overlay. */
  lemma OverlaysGrow(a: nat, b: nat)
    requires a <= b
    ensures Overlays(a) <= Overlays(b)
  {
  }

  datatype Colour = Green | Red

  /** A volume bar is green on an up day (close above open) and red otherwise. */
  function VolumeColour(b: Bar): (col: Colour)
    ensures col == Green <==> b.close > b.open
  {
    if b.close > b.open then Green else Red
  }

  /** The colour hex codes the chart uses: a `#` and six hex digits, a
      different code for each colour. */
  function Hex(col: Colour): (h: string)
    ensures |h| == 7 && h[0] == '#'
    ensures forall i :: 1 <= i < 7 ==> '0' <= h[i] <= '9' || 'A' <= h[i] <= 'F'
  {
    match col
    case Green => "#2ECC71"
    case Red => "#E74C3C"
  }

  /** Green and red bars are drawn in different colours. */
  lemma HexDistinct(a: Colour, b: Colour)
    ensures Hex(a) == Hex(b) <==> a == b
  {
    if a != b {
      assert Hex(a)[1] != Hex(b)[1];
    }
  }
}
