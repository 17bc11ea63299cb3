/** The viewport of the newer renderer (`ViewportManager`): the offsets, the
    candle width, the canvas size and the price bounds, the pure index/x and
    price/y transforms over them, and the operations that change them. Each
    property setter fires the change callback; the manager records the
    state it fires with in `notifications`, so a client can replay the
    callbacks in order. */
module Viewport {

  import opened ChartUtils
  import opened RealArith
  import opened CandleGeometry

  /** The viewport state as one value. */
  datatype Geometry = Geometry(
    offsetX: real,
    offsetY: real,
    candlestickWidth: real,
    candlestickSpacing: real,
    canvasWidth: real,
    canvasHeight: real,
    dateScaleMarginY: real,
    priceScaleMarginX: real,
    priceLow: real,
    priceHigh: real)
  {
    /** The distance from one bar's left edge to the next one's. */
    function Step(): real { candlestickWidth + candlestickSpacing }

    /** `canvasEffectiveHeight`: the height above the date scale. */
    function EffectiveHeight(): real { canvasHeight - dateScaleMarginY }

    /** `canvasEffectiveWidth`: the width left of the price scale. */
    function EffectiveWidth(): real { canvasWidth - priceScaleMarginX }
  }

  /** `getTransformedX`: the canvas x of bar `index`'s left edge. */
  function TransformedX(g: Geometry, index: int): real
  {
    BarX(index as real, g.Step(), g.offsetX)
  }

  /** `getIndexByCanvasX`: the bar whose slot holds canvas x. */
  function IndexByCanvasX(g: Geometry, x: real): int
    requires g.Step() != 0.0
  {
    ((x + g.offsetX) / g.Step()).Floor
  }

  /** `getTransformedY`: `value`'s canvas y, `min` at the bottom of the
      effective height and `max` at the top, shifted by `offsetY`. */
  function TransformedY(g: Geometry, value: real, min: real, max: real): real
    requires min != max
  {
    Scale(value, min, max, g.EffectiveHeight(), 0.0) - g.offsetY
  }

  /** `getPriceByCanvasY`: the price at canvas y. */
  function PriceByCanvasY(g: Geometry, y: real, min: real, max: real): real
    requires g.EffectiveHeight() != 0.0
  {
    Scale(y + g.offsetY, g.EffectiveHeight(), 0.0, min, max)
  }

  /** `getVisiblePriceBounds`: the price range visible once shifted by `offsetY`. */
  function VisiblePriceBounds(g: Geometry, min: real, max: real): (real, real)
    requires g.EffectiveHeight() != 0.0
  {
    var pricePerPixel := (max - min) / g.EffectiveHeight();
    var priceOffset := -g.offsetY * pricePerPixel;
    (min + priceOffset, max + priceOffset)
  }

  /** `isInViewportByBarIdx` */
  predicate InViewportByBarIdx(g: Geometry, index: int)
  {
    var x := TransformedX(g, index);
    x >= 0.0 && x <= g.EffectiveWidth()
  }

  /** `isInViewportByPriceValue` */
  predicate InViewportByPriceValue(g: Geometry, value: real, min: real, max: real)
    requires min != max
  {
    var y := TransformedY(g, value, min, max);
    y >= 0.0 && y <= g.EffectiveHeight()
  }

  /** `isInViewportAndOnPriceScale`: x lies over the price scale strip. */
  predicate InViewportAndOnPriceScale(g: Geometry, mouseX: real)
  {
    mouseX >= g.EffectiveWidth() && mouseX <= g.canvasWidth
  }

  /** `panByXAmount`'s move: the offset grows by `deltaBarsX` bar steps. */
  function PannedByBars(g: Geometry, deltaBarsX: real): (r: Geometry)
    ensures r == g.(offsetX := r.offsetX)
  {
    g.(offsetX := g.offsetX + deltaBarsX * g.Step())
  }

  /** Panning by `k` whole bars puts bar `i + k` where bar `i` was. */
  lemma PanByWholeBars(g: Geometry, k: int, i: int)
    ensures TransformedX(PannedByBars(g, k as real), i + k) == TransformedX(g, i)
  {
    assert (i + k) as real * g.Step() == i as real * g.Step() + k as real * g.Step();
  }

  /** `zoomY`: both bounds move inwards by `scaleDelta` times the range. */
  function ZoomedPriceBounds(priceLow: real, priceHigh: real, scaleDelta: real): (real, real)
  {
    var priceRange := priceHigh - priceLow;
    (priceLow + scaleDelta * priceRange, priceHigh - scaleDelta * priceRange)
  }

  /** The x of bar `i` maps back to bar `i`. */
  lemma IndexOfTransformedX(g: Geometry, i: int)
    requires g.Step() != 0.0
    ensures IndexByCanvasX(g, TransformedX(g, i)) == i
  {
    assert TransformedX(g, i) + g.offsetX == i as real * g.Step();
    DivMulCancel(i as real, g.Step());
    assert (TransformedX(g, i) + g.offsetX) / g.Step() == i as real;
  }

  /** Every canvas x lies in the slot of the bar it maps to:
      `getTransformedX(getIndexByCanvasX(x)) <= x < that + (w + s)`. */
  lemma TransformedXBracketsX(g: Geometry, x: real)
    requires g.Step() > 0.0
    ensures TransformedX(g, IndexByCanvasX(g, x)) <= x < TransformedX(g, IndexByCanvasX(g, x)) + g.Step()
  {
    var s := g.Step();
    var v := (x + g.offsetX) / s;
    var k := IndexByCanvasX(g, x);
    assert k as real <= v < (k + 1) as real;
    DivBounds(x + g.offsetX, k as real, s);
    DivBounds(x + g.offsetX, (k + 1) as real, s);
    assert k as real * s <= x + g.offsetX < (k + 1) as real * s;
    assert (k + 1) as real * s == k as real * s + s;
    assert TransformedX(g, k) == k as real * s - g.offsetX;
  }

  /** The bar indices in the viewport are those between `offsetX / step`
      and `(effectiveWidth + offsetX) / step`. */
  lemma InViewportByBarIdxRange(g: Geometry, i: int)
    requires g.Step() > 0.0
    ensures InViewportByBarIdx(g, i) <==>
      g.offsetX / g.Step() <= i as real <= (g.EffectiveWidth() + g.offsetX) / g.Step()
  {
    var s := g.Step();
    assert TransformedX(g, i) == i as real * s - g.offsetX;
    DivBounds(g.offsetX, i as real, s);
    DivBounds(g.EffectiveWidth() + g.offsetX, i as real, s);
  }

  /** The price at the y of `value` is `value` again. */
  lemma PriceOfTransformedY(g: Geometry, value: real, min: real, max: real)
    requires min != max && g.EffectiveHeight() != 0.0
    ensures PriceByCanvasY(g, TransformedY(g, value, min, max), min, max) == value
  {
    ScaleRoundTrip(value, min, max, g.EffectiveHeight(), 0.0);
  }

  /** The visible bounds are both ends shifted by one amount, `-offsetY`
      pixels' worth of price: the range is kept. */
  lemma VisiblePriceBoundsKeepRange(g: Geometry, min: real, max: real)
    requires g.EffectiveHeight() != 0.0
    ensures var (lo, hi) := VisiblePriceBounds(g, min, max);
      && hi - lo == max - min
      && lo - min == hi - max == -g.offsetY * (max - min) / g.EffectiveHeight()
  {
  }

  /** With the axis the right way up (`min < max`, positive height), a price
      is in the viewport exactly when it lies within the visible bounds. */
  lemma InViewportIffWithinVisibleBounds(g: Geometry, value: real, min: real, max: real)
    requires min < max && g.EffectiveHeight() > 0.0
    ensures var (lo, hi) := VisiblePriceBounds(g, min, max);
      InViewportByPriceValue(g, value, min, max) <==> lo <= value <= hi
  {
    var h := g.EffectiveHeight();
    var range := max - min;
    var p := range / h;
    var (lo, hi) := VisiblePriceBounds(g, min, max);
    // y = (max - value) / p - offsetY
    var y := TransformedY(g, value, min, max);
    ScaleIsAffine(value, min, max, h, 0.0);
    assert Scale(value, min, max, h, 0.0) == h - h / range * (value - min);
    assert h / range * p == 1.0;
    assert (y + g.offsetY) * p == (h - h / range * (value - min)) * p;
    assert (y + g.offsetY) * p == range - (value - min) by {
      assert (h - h / range * (value - min)) * p == h * p - (h / range * p) * (value - min);
      assert h * p == range;
    }
    // so y * p = max - value - offsetY * p, and p > 0 turns y's bounds into value's
    assert y * p == max - value + g.offsetY * -p;
    assert lo == min - g.offsetY * p && hi == max - g.offsetY * p;
    assert h * p == range;
    assert p > 0.0;
    MulMonotone(0.0, y, p);
    MulMonotone(y, h, p);
    if y < 0.0 {
      MulMonotone(y, 0.0, p);
    }
    if y > h {
      MulMonotone(h, y, p);
    }
  }

  /** The price-scale strip is the last `priceScaleMarginX` pixels of the canvas. */
  lemma PriceScaleStrip(g: Geometry, mouseX: real)
    ensures InViewportAndOnPriceScale(g, mouseX) <==>
      0.0 <= g.canvasWidth - mouseX <= g.priceScaleMarginX
  {
  }

  /** `zoomY` keeps the price midpoint and scales the range by `1 - 2 * scaleDelta`. */
  lemma ZoomedPriceBoundsKeepMidpoint(priceLow: real, priceHigh: real, scaleDelta: real)
    ensures var (lo, hi) := ZoomedPriceBounds(priceLow, priceHigh, scaleDelta);
      && lo + hi == priceLow + priceHigh
      && hi - lo == (1.0 - 2.0 * scaleDelta) * (priceHigh - priceLow)
  {
  }

  /** `zoomY(0.1)` on (1, 2) gives (1.1, 1.9). */
  lemma ZoomedPriceBoundsExample()
    ensures ZoomedPriceBounds(1.0, 2.0, 0.1) == (1.1, 1.9)
  {
  }

  /** `ViewportManager` */
  class ViewportManager {
    var offsetX: real
    var offsetY: real
    var candlestickWidth: real
    var canvasWidth: real
    var canvasHeight: real
    const candlestickSpacing: real
    const dateScaleMarginY: real
    const priceScaleMarginX: real
    var priceLow: real
    var priceHigh: real
    /** The state at each call of the change callback, oldest first. */
    var notifications: seq<Geometry>

    /** The fields as one value. */
    function Snapshot(): Geometry
      reads this
    {
      Geometry(offsetX, offsetY, candlestickWidth, candlestickSpacing, canvasWidth, canvasHeight,
        dateScaleMarginY, priceScaleMarginX, priceLow, priceHigh)
    }

    constructor (candlestickWidth: real, candlestickSpacing: real, canvasWidth: real, canvasHeight: real,
                 dateScaleMarginY: real, priceScaleMarginX: real)
      ensures Snapshot() == Geometry(0.0, 0.0, candlestickWidth, candlestickSpacing, canvasWidth, canvasHeight,
        dateScaleMarginY, priceScaleMarginX, 0.0, 0.0)
      ensures notifications == []
    {
      this.candlestickSpacing := candlestickSpacing;
      this.canvasWidth := canvasWidth;
      this.canvasHeight := canvasHeight;
      this.dateScaleMarginY := dateScaleMarginY;
      this.priceScaleMarginX := priceScaleMarginX;
      this.candlestickWidth := candlestickWidth;
      offsetX := 0.0;
      offsetY := 0.0;
      priceLow := 0.0;
      priceHigh := 0.0;
      notifications := [];
    }

    /** The `offsetX` setter. */
    method SetOffsetX(value: real)
      modifies this
      ensures Snapshot() == old(Snapshot()).(offsetX := value)
      ensures notifications == old(notifications) + [Snapshot()]
    {
      offsetX := value;
      notifications := notifications + [Snapshot()];
    }

    /** The `offsetY` setter. */
    method SetOffsetY(value: real)
      modifies this
      ensures Snapshot() == old(Snapshot()).(offsetY := value)
      ensures notifications == old(notifications) + [Snapshot()]
    {
      offsetY := value;
      notifications := notifications + [Snapshot()];
    }

    /** The `candlestickWidth` setter: clamps to [0.5, 20]. */
    method SetCandlestickWidth(value: real)
      modifies this
      ensures Snapshot() == old(Snapshot()).(candlestickWidth := ClampWidth(value))
      ensures notifications == old(notifications) + [Snapshot()]
    {
      candlestickWidth := Max(0.5, Min(20.0, value));
      notifications := notifications + [Snapshot()];
    }

    /** `updateCanvasSize`: no callback. */
    method UpdateCanvasSize(width: real, height: real)
      modifies this
      ensures Snapshot() == old(Snapshot()).(canvasWidth := width, canvasHeight := height)
      ensures notifications == old(notifications)
    {
      canvasWidth := width;
      canvasHeight := height;
    }

    /** `updateCandlestickWidth` */
    method UpdateCandlestickWidth(newWidth: real)
      modifies this
      ensures Snapshot() == old(Snapshot()).(candlestickWidth := ClampWidth(newWidth))
      ensures notifications == old(notifications) + [Snapshot()]
    {
      SetCandlestickWidth(newWidth);
    }

    /** `pan`: the x offset is set (one callback), then the y offset (another). */
    method Pan(deltaX: real, deltaY: real)
      modifies this
      ensures Snapshot() == old(Snapshot()).(offsetX := old(offsetX) + deltaX, offsetY := old(offsetY) + deltaY)
      ensures notifications == old(notifications)
        + [old(Snapshot()).(offsetX := old(offsetX) + deltaX), Snapshot()]
    {
      SetOffsetX(offsetX + deltaX);
      SetOffsetY(offsetY + deltaY);
    }

    /** `panByXAmount`: move by whole bar steps; one callback. */
    method PanByXAmount(deltaBarsX: real)
      modifies this
      ensures Snapshot() == PannedByBars(old(Snapshot()), deltaBarsX)
      ensures notifications == old(notifications) + [Snapshot()]
    {
      SetOffsetX(offsetX + deltaBarsX * (candlestickWidth + candlestickSpacing));
    }

    /** `zoomX`: change the width, then re-anchor the offset so the
      fractional bar index under `anchorX` stays under it. The width setter
      runs twice and the offset setter once: three callbacks. */
    method ZoomX(scaleDelta: real, anchorX: real)
      requires candlestickWidth + candlestickSpacing != 0.0
      requires ClampWidth(candlestickWidth + scaleDelta) + candlestickSpacing != 0.0
      modifies this
      ensures candlestickWidth == ClampWidth(old(candlestickWidth) + scaleDelta)
      ensures (anchorX + offsetX) / (candlestickWidth + candlestickSpacing)
           == (anchorX + old(offsetX)) / (old(candlestickWidth) + candlestickSpacing)
      ensures offsetX == AnchoredOffsetX(old(offsetX), anchorX,
        old(candlestickWidth) + candlestickSpacing, candlestickWidth + candlestickSpacing)
      ensures Snapshot() == old(Snapshot()).(candlestickWidth := candlestickWidth, offsetX := offsetX)
      ensures var zoomed := old(Snapshot()).(candlestickWidth := candlestickWidth);
        notifications == old(notifications) + [zoomed, zoomed, Snapshot()]
    {
      var mouseXPercent := (anchorX + offsetX) / (candlestickWidth + candlestickSpacing);
      SetCandlestickWidth(candlestickWidth + scaleDelta);
      SetCandlestickWidth(Max(0.5, Min(20.0, candlestickWidth)));
      SetOffsetX(mouseXPercent * (candlestickWidth + candlestickSpacing) - anchorX);
    }

    /** `zoomY`: no callback. */
    method ZoomY(scaleDelta: real)
      modifies this
      ensures (priceLow, priceHigh) == ZoomedPriceBounds(old(priceLow), old(priceHigh), scaleDelta)
      ensures Snapshot() == old(Snapshot()).(priceLow := priceLow, priceHigh := priceHigh)
      ensures notifications == old(notifications)
    {
      var priceRange := priceHigh - priceLow;
      priceLow := priceLow + scaleDelta * priceRange;
      priceHigh := priceHigh - scaleDelta * priceRange;
      var zoomed := ZoomedPriceBounds(old(priceLow), old(priceHigh), scaleDelta);
      assert zoomed.0 == priceLow && zoomed.1 == priceHigh;
    }

    /** `setPriceBounds`: no callback. */
    method SetPriceBounds(min: real, max: real)
      modifies this
      ensures Snapshot() == old(Snapshot()).(priceLow := min, priceHigh := max)
      ensures notifications == old(notifications)
    {
      priceLow := min;
      priceHigh := max;
    }
  }
}
