/** The renderer wired into the page (`src/refactoring`), minus the
    drawing: it keeps its own scroll offsets, candle width, price bounds and
    the bars last rendered. The calls of `loadMoreBarsCallback` are recorded
    in `loadRequests`. */
module Refactoring {

  import opened Wrappers
  import opened Bars
  import opened ChartUtils
  import opened CandleGeometry
  import opened VisibleRange

  const CandlestickSpacing: real := 2.0
  const DefaultCandlestickWidth: real := 10.0

  /** A bound JavaScript treats as true: set and not 0. */
  predicate Truthy(bound: Option<real>)
  {
    bound.Some? && bound.value != 0.0
  }

  /** `getScaledY`: `min` at the canvas bottom, `max` at the top. */
  function ScaledY(value: real, min: real, max: real, canvasHeight: real): real
    requires min != max
  {
    Scale(value, min, max, canvasHeight, 0.0)
  }

  /** `getScaledPrice`: the price at canvas y, an unset bound read as 0. */
  function ScaledPrice(mouseY: real, priceLow: Option<real>, priceHigh: Option<real>, canvasHeight: real): real
    requires canvasHeight != 0.0
  {
    var scaleMin := if priceLow.Some? then priceLow.value else 0.0;
    var scaleMax := if priceHigh.Some? then priceHigh.value else 0.0;
    Scale(mouseY, canvasHeight, 0.0, scaleMin, scaleMax)
  }

  /** With both bounds set and distinct and a non-zero canvas height, the
      price at the y of `value` is `value`. */
  lemma ScaledPriceOfScaledY(value: real, low: real, high: real, canvasHeight: real)
    requires low != high && canvasHeight != 0.0
    ensures ScaledPrice(ScaledY(value, low, high, canvasHeight), Some(low), Some(high), canvasHeight) == value
  {
    ScaleRoundTrip(value, low, high, canvasHeight, 0.0);
  }

  /** The y of a price runs the other way: a higher price is drawn higher up
      (at a smaller y) on a canvas of positive height. */
  lemma ScaledYReversesOrder(v1: real, v2: real, low: real, high: real, canvasHeight: real)
    requires low < high && canvasHeight > 0.0 && v1 <= v2
    ensures ScaledY(v1, low, high, canvasHeight) >= ScaledY(v2, low, high, canvasHeight)
  {
    RealArith.ProductSign(0.0 - canvasHeight, high - low);
    ScaleOrder(v1, v2, low, high, canvasHeight, 0.0);
  }

  /** The `loadMoreBarsCallback` calls of one `changeOffset`: at most one,
      only with bars and both bounds set and a drawn count more than ten away
      from the fit count, BACKWARD iff bar 0 is drawn. */
  function LoadRequest(bars: Option<seq<Bar>>, priceLow: Option<real>, priceHigh: Option<real>, s: Scan): (r: seq<Direction>)
    requires s.Step() > 0.0
    ensures |r| <= 1
    ensures r != [] <==> (bars.Some? && priceLow.Some? && priceHigh.Some?
      && SignificantlyDifferent(FitAmount(s), |VisibleBars(bars.value, s, |bars.value|)|))
    ensures r == [Backward] <==> r != [] && bars.Some? && |bars.value| > 0 && Visible(s, 0)
  {
    if bars.None? || priceLow.None? || priceHigh.None? then []
    else
      match PrefetchDecision(bars.value, s)
      case None => []
      case Some(d) => [d]
  }

  /** `CandleStickRenderer` of the wired generation. */
  class CandleStickRenderer {
    var candlestickWidth: real
    var scrollOffsetX: real
    var scrollOffsetY: real
    var mouseX: Option<real>
    var mouseY: Option<real>
    var barsToRender: Option<seq<Bar>>
    var priceLow: Option<real>
    var priceHigh: Option<real>
    var canvasWidth: real
    var canvasHeight: real
    /** The directions passed to `loadMoreBarsCallback`, in order. */
    var loadRequests: seq<Direction>

    /** The width stays in the clamp range. */
    predicate Valid()
      reads this
    {
      MinCandlestickWidth <= candlestickWidth <= MaxCandlestickWidth
    }

    /** The scan of `getRenderedBars`: the whole canvas width, no margin. */
    function CurrentScan(): Scan
      reads this
    {
      Scan(candlestickWidth, CandlestickSpacing, scrollOffsetX, canvasWidth)
    }

    constructor (canvasWidth: real, canvasHeight: real)
      ensures Valid()
      ensures candlestickWidth == DefaultCandlestickWidth && scrollOffsetX == 0.0 && scrollOffsetY == 0.0
      ensures mouseX.None? && mouseY.None? && barsToRender.None? && priceLow.None? && priceHigh.None?
      ensures this.canvasWidth == canvasWidth && this.canvasHeight == canvasHeight && loadRequests == []
    {
      candlestickWidth := DefaultCandlestickWidth;
      scrollOffsetX := 0.0;
      scrollOffsetY := 0.0;
      mouseX := None;
      mouseY := None;
      barsToRender := None;
      priceLow := None;
      priceHigh := None;
      this.canvasWidth := canvasWidth;
      this.canvasHeight := canvasHeight;
      loadRequests := [];
    }

    /** `render`: take the bounds if both are given; stop while a bound is
      unset or 0; otherwise move the offset by whole bar steps and keep the bars. */
    method Render(bars: seq<Bar>, priceLow: Option<real>, priceHigh: Option<real>, offsetXBarsAmountAdjustment: real)
      modifies this
      ensures if priceLow.Some? && priceHigh.Some?
        then this.priceLow == priceLow && this.priceHigh == priceHigh
        else this.priceLow == old(this.priceLow) && this.priceHigh == old(this.priceHigh)
      ensures if Truthy(this.priceLow) && Truthy(this.priceHigh)
        then scrollOffsetX == old(scrollOffsetX) + offsetXBarsAmountAdjustment * (candlestickWidth + CandlestickSpacing)
          && barsToRender == Some(bars)
        else scrollOffsetX == old(scrollOffsetX) && barsToRender == old(barsToRender)
      ensures candlestickWidth == old(candlestickWidth) && scrollOffsetY == old(scrollOffsetY)
      ensures mouseX == old(mouseX) && mouseY == old(mouseY) && loadRequests == old(loadRequests)
      ensures canvasWidth == old(canvasWidth) && canvasHeight == old(canvasHeight)
    {
      if priceLow.Some? && priceHigh.Some? {
        this.priceLow := priceLow;
        this.priceHigh := priceHigh;
      }
      if !Truthy(this.priceLow) || !Truthy(this.priceHigh) {
        return;
      }
      scrollOffsetX := scrollOffsetX + offsetXBarsAmountAdjustment * (candlestickWidth + CandlestickSpacing);
      barsToRender := Some(bars);
    }

    /** `getRenderedBars` */
    method GetRenderedBars() returns (r: RenderedRange)
      ensures r == if barsToRender.None? then NothingRendered else RenderedRangeOf(barsToRender.value, CurrentScan())
    {
      if barsToRender.None? {
        return NothingRendered;
      }
      r := ScanRenderedBars(barsToRender.value, CurrentScan());
    }

    /** `changeOffset`: store both offsets, ask for bars when the drawn count
      is off, then re-render (which changes nothing more). */
    method ChangeOffset(scrollOffsetX: real, scrollOffsetY: real)
      requires Valid()
      modifies this
      ensures Valid()
      ensures this.scrollOffsetX == scrollOffsetX && this.scrollOffsetY == scrollOffsetY
      ensures loadRequests == old(loadRequests) + LoadRequest(barsToRender, priceLow, priceHigh, CurrentScan())
      ensures candlestickWidth == old(candlestickWidth) && barsToRender == old(barsToRender)
      ensures priceLow == old(priceLow) && priceHigh == old(priceHigh)
      ensures mouseX == old(mouseX) && mouseY == old(mouseY)
      ensures canvasWidth == old(canvasWidth) && canvasHeight == old(canvasHeight)
    {
      this.scrollOffsetX := scrollOffsetX;
      this.scrollOffsetY := scrollOffsetY;
      if barsToRender.None? || priceLow.None? || priceHigh.None? {
        return;
      }
      var range := GetRenderedBars();
      var amountOfBarsToFitScreen := GetMaxAmountOfBarsToFitScreen(candlestickWidth, CandlestickSpacing, canvasWidth);
      var isDifferent := SignificantlyDifferent(amountOfBarsToFitScreen, |range.renderedBars|);
      if isDifferent {
        loadRequests := loadRequests + [ChooseDirection(range.startIndex)];
      }
      Render(barsToRender.value, priceLow, priceHigh, 0.0);
    }

    /** `handleMouseMove`: remember the pointer, snapped, and re-render. */
    method HandleMouseMove(x: real, y: real)
      requires Valid()
      modifies this
      ensures Valid()
      ensures mouseY == Some(y)
      ensures mouseX == Some(RoundSnapToCandleCenter(x, scrollOffsetX, candlestickWidth, CandlestickSpacing, canvasWidth))
      ensures scrollOffsetX == old(scrollOffsetX) && scrollOffsetY == old(scrollOffsetY)
      ensures candlestickWidth == old(candlestickWidth) && barsToRender == old(barsToRender)
      ensures priceLow == old(priceLow) && priceHigh == old(priceHigh) && loadRequests == old(loadRequests)
      ensures canvasWidth == old(canvasWidth) && canvasHeight == old(canvasHeight)
    {
      mouseY := Some(y);
      mouseX := Some(RoundSnapToCandleCenter(x, scrollOffsetX, candlestickWidth, CandlestickSpacing, canvasWidth));
      if barsToRender.None? || priceLow.None? || priceHigh.None? {
        return;
      }
      Render(barsToRender.value, priceLow, priceHigh, 0.0);
    }

    /** `handleDrag`: move the view against the pointer's movement. */
    method HandleDrag(deltaX: real, deltaY: real)
      requires Valid()
      modifies this
      ensures Valid()
      ensures scrollOffsetX == old(scrollOffsetX) - deltaX && scrollOffsetY == old(scrollOffsetY) - deltaY
      ensures loadRequests == old(loadRequests) + LoadRequest(barsToRender, priceLow, priceHigh, CurrentScan())
      ensures candlestickWidth == old(candlestickWidth) && barsToRender == old(barsToRender)
      ensures priceLow == old(priceLow) && priceHigh == old(priceHigh)
      ensures mouseX == old(mouseX) && mouseY == old(mouseY)
      ensures canvasWidth == old(canvasWidth) && canvasHeight == old(canvasHeight)
    {
      ChangeOffset(scrollOffsetX - deltaX, scrollOffsetY - deltaY);
    }

    /** `handleCanvasResize`: the canvas becomes the window less 100, then a
      re-render with the stored bounds. */
    method HandleCanvasResize(newWindowX: real, newWindowY: real)
      modifies this
      ensures canvasWidth == newWindowX - 100.0 && canvasHeight == newWindowY - 100.0
      ensures scrollOffsetX == old(scrollOffsetX) && scrollOffsetY == old(scrollOffsetY)
      ensures candlestickWidth == old(candlestickWidth) && barsToRender == old(barsToRender)
      ensures priceLow == old(priceLow) && priceHigh == old(priceHigh) && loadRequests == old(loadRequests)
      ensures mouseX == old(mouseX) && mouseY == old(mouseY)
    {
      canvasWidth := newWindowX - 100.0;
      canvasHeight := newWindowY - 100.0;
      if barsToRender.None? {
        return;
      }
      Render(barsToRender.value, None, None, 0.0);
    }

    /** `handleMouseWheel`: a mostly vertical wheel zooms by 0.2 (out for a
      positive `deltaY`) around the pointer; otherwise it scrolls by `deltaX`. */
    method HandleMouseWheel(deltaX: real, deltaY: real, canvasMouseX: real)
      requires Valid()
      modifies this
      ensures Valid()
      ensures Abs(deltaY) > Abs(deltaX) ==>
        && candlestickWidth == ClampWidth(old(candlestickWidth) + if deltaY > 0.0 then -0.2 else 0.2)
        && (canvasMouseX + scrollOffsetX) / (candlestickWidth + CandlestickSpacing)
           == (canvasMouseX + old(scrollOffsetX)) / (old(candlestickWidth) + CandlestickSpacing)
        && scrollOffsetX == AnchoredOffsetX(old(scrollOffsetX), canvasMouseX,
             old(candlestickWidth) + CandlestickSpacing, candlestickWidth + CandlestickSpacing)
      ensures Abs(deltaY) <= Abs(deltaX) ==>
        candlestickWidth == old(candlestickWidth) && scrollOffsetX == old(scrollOffsetX) + deltaX
      ensures scrollOffsetY == old(scrollOffsetY)
      ensures loadRequests == old(loadRequests) + LoadRequest(barsToRender, priceLow, priceHigh, CurrentScan())
      ensures barsToRender == old(barsToRender) && priceLow == old(priceLow) && priceHigh == old(priceHigh)
      ensures mouseX == old(mouseX) && mouseY == old(mouseY)
      ensures canvasWidth == old(canvasWidth) && canvasHeight == old(canvasHeight)
    {
      var oldStep := candlestickWidth + CandlestickSpacing;
      var mouseXPercent := (canvasMouseX + scrollOffsetX) / oldStep;
      if Abs(deltaY) > Abs(deltaX) {
        var changeVal := 0.2;
        candlestickWidth := candlestickWidth + if deltaY > 0.0 then -changeVal else changeVal;
        candlestickWidth := Max(0.5, Min(20.0, candlestickWidth));
        assert mouseXPercent * (candlestickWidth + CandlestickSpacing) - canvasMouseX
            == AnchoredOffsetX(old(scrollOffsetX), canvasMouseX, oldStep, candlestickWidth + CandlestickSpacing);
        ChangeOffset(mouseXPercent * (candlestickWidth + CandlestickSpacing) - canvasMouseX, scrollOffsetY);
      } else {
        ChangeOffset(scrollOffsetX + deltaX, scrollOffsetY);
      }
    }
  }
}
