/** Formulas that all three renderer generations (and the viewport manager)
    repeat in their own code: the width clamp, the x of a bar, the offset
    that keeps the pointer's data position fixed while zooming, and the
    snap of the pointer to the nearest candle centre. */
module CandleGeometry {

  import opened ChartUtils
  import opened RealArith

  /** The narrowest and widest candle bodies, in pixels. */
  const MinCandlestickWidth: real := 0.5
  const MaxCandlestickWidth: real := 20.0

  /** `Math.max(0.5, Math.min(20, value))` */
  function ClampWidth(value: real): (r: real)
    ensures MinCandlestickWidth <= r <= MaxCandlestickWidth
    ensures MinCandlestickWidth <= value <= MaxCandlestickWidth ==> r == value
    ensures value < MinCandlestickWidth ==> r == MinCandlestickWidth
    ensures value > MaxCandlestickWidth ==> r == MaxCandlestickWidth
  {
    Max(MinCandlestickWidth, Min(MaxCandlestickWidth, value))
  }

  /** The canvas x of the left edge of bar `index`: `index * (w + s) - offsetX`. */
  function BarX(index: real, step: real, offsetX: real): real
  {
    index * step - offsetX
  }

  /** The zoom step of every generation: the fractional bar index under
      `anchorX` is taken with the old bar step, and the new offset puts that
      same fractional index under `anchorX` with the new step. */
  function AnchoredOffsetX(offsetX: real, anchorX: real, oldStep: real, newStep: real): (r: real)
    requires oldStep != 0.0 && newStep != 0.0
    ensures (anchorX + r) / newStep == (anchorX + offsetX) / oldStep
    ensures BarX((anchorX + offsetX) / oldStep, newStep, r) == anchorX
  {
    var mouseXPercent := (anchorX + offsetX) / oldStep;
    DivMulCancel(mouseXPercent * newStep, newStep);
    mouseXPercent * newStep - anchorX
  }

  /** The index of the candle whose slot is nearest to `rawX`
      (`Math.round((rawX + offsetX) / (w + s))`). */
  function NearestCandleIndex(rawX: real, offsetX: real, step: real): (i: int)
    requires step > 0.0
    ensures rawX - step / 2.0 < BarX(i as real, step, offsetX) <= rawX + step / 2.0
  {
    var v := (rawX + offsetX) / step;
    var i := Round(v);
    MulMonotone(v - 0.5, i as real, step);
    MulMonotone(i as real, v + 0.5, step);
    DivMulCancel(rawX + offsetX, step);
    assert (v - 0.5) * step == rawX + offsetX - step / 2.0;
    assert (v + 0.5) * step == rawX + offsetX + step / 2.0;
    i
  }

  /** `snapToCandleCenter` of the two generations that round: the centre of
      the nearest candle, but never beyond the canvas's right edge. */
  function RoundSnapToCandleCenter(rawX: real, offsetX: real, width: real, spacing: real, canvasWidth: real): (r: real)
    requires width + spacing > 0.0
    ensures var centre := BarX(NearestCandleIndex(rawX, offsetX, width + spacing) as real, width + spacing, offsetX) + width / 2.0;
      && r == Min(centre, canvasWidth)
      && rawX - (width + spacing) / 2.0 < centre - width / 2.0 <= rawX + (width + spacing) / 2.0
  {
    var index := NearestCandleIndex(rawX, offsetX, width + spacing);
    var snappedX := index as real * (width + spacing) + width / 2.0 - offsetX;
    Min(snappedX, canvasWidth)
  }

  /** A pointer already on a candle centre stays there: snapping twice is
      snapping once while the centre lies left of the canvas edge and the
      spacing is positive. */
  lemma RoundSnapIsIdempotent(rawX: real, offsetX: real, width: real, spacing: real, canvasWidth: real)
    requires width >= 0.0 && spacing > 0.0
    requires RoundSnapToCandleCenter(rawX, offsetX, width, spacing, canvasWidth) < canvasWidth
    ensures var r := RoundSnapToCandleCenter(rawX, offsetX, width, spacing, canvasWidth);
      RoundSnapToCandleCenter(r, offsetX, width, spacing, canvasWidth) == r
  {
    var step := width + spacing;
    var i := NearestCandleIndex(rawX, offsetX, step);
    var r := RoundSnapToCandleCenter(rawX, offsetX, width, spacing, canvasWidth);
    var a := i as real * step + width / 2.0;
    assert r + offsetX == a;
    DivBounds(a, i as real - 0.5, step);
    DivBounds(a, i as real + 0.5, step);
    assert i as real <= a / step + 0.5 < i as real + 1.0;
    assert NearestCandleIndex(r, offsetX, step) == i;
  }
}
