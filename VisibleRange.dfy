/** The prefetch policy shared by the two newer renderer generations: the
    scan for the bars that intersect the drawing area (`getRenderedBars`),
    the hysteresis test against the number of bars the width can hold, and the
    choice of the side that is missing bars. */
module VisibleRange {

  import opened Wrappers
  import opened Bars
  import opened ChartUtils
  import opened RealArith
  import opened CandleGeometry

  /** `TimelineDirection` */
  datatype Direction = Forward | Backward

  /** What a scan needs: the candle width, the spacing, the horizontal offset
      and the right edge of the drawing area (the canvas width, or the width
      left of the price scale). */
  datatype Scan = Scan(candlestickWidth: real, spacing: real, offsetX: real, limit: real)
  {
    /** The distance from one bar's left edge to the next one's. */
    function Step(): real { candlestickWidth + spacing }
  }

  /** The bars found by a scan and the first and last index found, -1 if none. */
  datatype RenderedRange = RenderedRange(renderedBars: seq<Bar>, startIndex: int, endIndex: int)

  /** The result for a renderer that holds no bars. */
  const NothingRendered: RenderedRange := RenderedRange([], -1, -1)

  /** Bar `index` is drawn: `x + candlestickWidth > 0 && x < limit` for its left edge `x`. */
  predicate Visible(s: Scan, index: int)
  {
    var x := BarX(index as real, s.Step(), s.offsetX);
    x + s.candlestickWidth > 0.0 && x < s.limit
  }

  /** The drawn bars among the first `n`, in order. */
  function VisibleBars(bars: seq<Bar>, s: Scan, n: nat): (r: seq<Bar>)
    requires n <= |bars|
    ensures |r| <= n
  {
    if n == 0 then []
    else VisibleBars(bars, s, n - 1) + (if Visible(s, n - 1) then [bars[n - 1]] else [])
  }

  /** The first drawn index below `n`, or -1. */
  function FirstVisible(s: Scan, n: nat): (r: int)
    ensures r == -1 <==> forall j :: 0 <= j < n ==> !Visible(s, j)
    ensures r != -1 ==> 0 <= r < n && Visible(s, r) && forall j :: 0 <= j < r ==> !Visible(s, j)
  {
    if n == 0 then -1
    else
      var f := FirstVisible(s, n - 1);
      if f != -1 then f else if Visible(s, n - 1) then n - 1 else -1
  }

  /** The last drawn index below `n`, or -1. */
  function LastVisible(s: Scan, n: nat): (r: int)
    ensures r == -1 <==> forall j :: 0 <= j < n ==> !Visible(s, j)
    ensures r != -1 ==> 0 <= r < n && Visible(s, r) && forall j :: r < j < n ==> !Visible(s, j)
  {
    if n == 0 then -1
    else if Visible(s, n - 1) then n - 1
    else LastVisible(s, n - 1)
  }

  /** What `getRenderedBars` computes for a bar list. */
  function RenderedRangeOf(bars: seq<Bar>, s: Scan): RenderedRange
  {
    RenderedRange(VisibleBars(bars, s, |bars|), FirstVisible(s, |bars|), LastVisible(s, |bars|))
  }

  /** The `forEach` of `getRenderedBars`: every bar whose x range meets the
      drawing area is pushed, the first such index is kept as `startIndex`
      and the last as `endIndex`. */
  method ScanRenderedBars(bars: seq<Bar>, s: Scan) returns (r: RenderedRange)
    ensures r == RenderedRangeOf(bars, s)
  {
    var renderedBars: seq<Bar> := [];
    var startIndex := -1;
    var endIndex := -1;
    var index := 0;
    while index < |bars|
      invariant 0 <= index <= |bars|
      invariant renderedBars == VisibleBars(bars, s, index)
      invariant startIndex == FirstVisible(s, index)
      invariant endIndex == LastVisible(s, index)
    {
      var x := BarX(index as real, s.Step(), s.offsetX);
      if x + s.candlestickWidth > 0.0 && x < s.limit {
        if startIndex == -1 {
          startIndex := index;
        }
        endIndex := index;
        renderedBars := renderedBars + [bars[index]];
      }
      index := index + 1;
    }
    r := RenderedRange(renderedBars, startIndex, endIndex);
  }

  /** With a positive step the bar x grows with the index, so the drawn
      indices have no gaps. */
  lemma VisibleContiguous(s: Scan, i: int, j: int, k: int)
    requires s.Step() > 0.0 && i <= j <= k && Visible(s, i) && Visible(s, k)
    ensures Visible(s, j)
  {
    MulMonotone(i as real, j as real, s.Step());
    MulMonotone(j as real, k as real, s.Step());
  }

  /** Bars outside [lo, hi) are never drawn, so the filter over the first `n`
      bars is the slice of drawn bars below `n`. */
  lemma {:induction false} VisibleBarsSlice(bars: seq<Bar>, s: Scan, n: nat, lo: nat, hi: nat)
    requires n <= |bars| && lo <= hi <= |bars|
    requires forall j :: 0 <= j < |bars| ==> (Visible(s, j) <==> lo <= j < hi)
    ensures lo >= n ==> VisibleBars(bars, s, n) == []
    ensures lo < n ==> VisibleBars(bars, s, n) == bars[lo..if n < hi then n else hi]
  {
    if n > 0 {
      VisibleBarsSlice(bars, s, n - 1, lo, hi);
      if lo < n - 1 && n - 1 < hi {
        assert bars[lo..n - 1] + [bars[n - 1]] == bars[lo..n];
      }
    }
  }

  /** The rendered bars are exactly the slice from the first to the last
      drawn index, and there are `endIndex - startIndex + 1` of them. */
  lemma RenderedIsSlice(bars: seq<Bar>, s: Scan)
    requires s.Step() > 0.0
    ensures var r := RenderedRangeOf(bars, s);
      && (r.startIndex == -1 <==> r.endIndex == -1)
      && (r.startIndex == -1 ==> r.renderedBars == [])
      && (r.startIndex != -1 ==>
            0 <= r.startIndex <= r.endIndex < |bars|
            && r.renderedBars == bars[r.startIndex..r.endIndex + 1]
            && |r.renderedBars| == r.endIndex - r.startIndex + 1)
  {
    var first := FirstVisible(s, |bars|);
    var last := LastVisible(s, |bars|);
    if first == -1 {
      VisibleBarsSlice(bars, s, |bars|, |bars|, |bars|);
    } else {
      forall j | 0 <= j < |bars|
        ensures Visible(s, j) <==> first <= j < last + 1
      {
        if first <= j <= last {
          VisibleContiguous(s, first, j, last);
        }
      }
      VisibleBarsSlice(bars, s, |bars|, first, last + 1);
    }
  }

  /** `areMaxAmountAndRenderedAmountSignificantlyDifferent`: strictly more
      than ten bars apart, in either direction. */
  function SignificantlyDifferent(maxAmount: int, renderedAmount: int): (r: bool)
    ensures r <==> maxAmount - renderedAmount > 10 || renderedAmount - maxAmount > 10
  {
    var diff := maxAmount - renderedAmount;
    (if diff < 0 then -diff else diff) > 10
  }

  /** Bars are missing on the left (BACKWARD) exactly when the very first bar
      is drawn; every other case, "nothing drawn" (-1) included, asks forward. */
  function ChooseDirection(startIndex: int): (d: Direction)
    ensures d == Backward <==> startIndex == 0
  {
    if startIndex == 0 then Backward else Forward
  }

  /** The number of bar slots the scan's drawing area holds. */
  function FitAmount(s: Scan): int
    requires s.Step() != 0.0
  {
    GetMaxAmountOfBarsToFitScreen(s.candlestickWidth, s.spacing, s.limit)
  }

  /** The load request the renderer issues after a view change over `bars`:
      none unless the drawn count is more than ten away from the fit count,
      BACKWARD iff bar 0 is drawn. */
  function PrefetchDecision(bars: seq<Bar>, s: Scan): (r: Option<Direction>)
    requires s.Step() != 0.0
    ensures r.Some? <==> SignificantlyDifferent(FitAmount(s), |VisibleBars(bars, s, |bars|)|)
    ensures r == Some(Backward) <==> r.Some? && |bars| > 0 && Visible(s, 0)
  {
    var range := RenderedRangeOf(bars, s);
    if SignificantlyDifferent(FitAmount(s), |range.renderedBars|)
    then Some(ChooseDirection(range.startIndex))
    else None
  }

  /** Bar 10 wide, spacing 2, a 500 pixel area: 43 slots; 30 drawn bars are
      13 away, which asks for bars. */
  lemma DefaultChartThirtyBarsTriggers()
    ensures FitAmount(Scan(10.0, 2.0, 0.0, 500.0)) == 43
    ensures SignificantlyDifferent(43, 30)
  {
    MaxAmountDefaultChart();
  }
}
