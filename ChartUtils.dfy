/** The static helpers of the chart: linear rescaling between two ranges,
    the label precision for a price range, and how many bar slots a screen
    width holds. Numbers are exact reals; `Math.ceil`, `Math.round` and
    `Math.floor` are written out over `.Floor`. */
module ChartUtils {

  import opened RealArith

  /** `Math.ceil`: the least integer not below `x`. */
  function Ceil(x: real): (r: int)
    ensures (r - 1) as real < x <= r as real
  {
    -((-x).Floor)
  }

  /** `Math.round`: the nearest integer, a half rounded up. */
  function Round(x: real): (r: int)
    ensures x - 0.5 < r as real <= x + 0.5
  {
    (x + 0.5).Floor
  }

  /** The larger of two reals (`Math.max`). */
  function Max(a: real, b: real): (r: real)
    ensures r >= a && r >= b && (r == a || r == b)
  {
    if a >= b then a else b
  }

  /** The magnitude of a real (`Math.abs`). */
  function Abs(x: real): (r: real)
    ensures r >= 0.0 && (r == x || r == -x)
  {
    if x < 0.0 then -x else x
  }

  /** The smaller of two reals (`Math.min`). */
  function Min(a: real, b: real): (r: real)
    ensures r <= a && r <= b && (r == a || r == b)
  {
    if a <= b then a else b
  }

  /** `scale(value, min, max, a, b)`: the point of [a, b] at the same relative
      position as `value` in [min, max]. An empty input range (a division by
      zero in the source) is excluded. */
  function Scale(value: real, min: real, max: real, a: real, b: real): real
    requires max != min
  {
    (b - a) * (value - min) / (max - min) + a
  }

  /** The ends of the input range go to the ends of the output range. */
  lemma ScaleEnds(min: real, max: real, a: real, b: real)
    requires max != min
    ensures Scale(min, min, max, a, b) == a
    ensures Scale(max, min, max, a, b) == b
  {
    assert (b - a) * (max - min) / (max - min) == b - a;
  }

  /** `Scale` is `a + k * (value - min)` for the slope `k = (b - a) / (max - min)`. */
  lemma ScaleIsAffine(value: real, min: real, max: real, a: real, b: real)
    requires max != min
    ensures Scale(value, min, max, a, b) == a + (b - a) / (max - min) * (value - min)
  {
    assert (b - a) * (value - min) / (max - min) == (b - a) / (max - min) * (value - min);
  }

  /** Scaling back from [a, b] to [min, max] undoes the scaling. */
  lemma ScaleRoundTrip(value: real, min: real, max: real, a: real, b: real)
    requires max != min && a != b
    ensures Scale(Scale(value, min, max, a, b), a, b, min, max) == value
  {
    var y := Scale(value, min, max, a, b);
    ScaleIsAffine(value, min, max, a, b);
    ScaleIsAffine(y, a, b, min, max);
    var k := (b - a) / (max - min);
    var k' := (max - min) / (b - a);
    assert k * k' == 1.0;
    assert y - a == k * (value - min);
    calc {
      Scale(y, a, b, min, max);
      min + k' * (y - a);
      min + k' * (k * (value - min));
      { assert k' * (k * (value - min)) == (k' * k) * (value - min); }
      min + (value - min);
    }
  }

  /** The sign of a quotient is the sign of the product. */
  lemma SlopeSign(min: real, max: real, a: real, b: real)
    requires max != min
    ensures (b - a) * (max - min) >= 0.0 ==> (b - a) / (max - min) >= 0.0
    ensures (b - a) * (max - min) <= 0.0 ==> (b - a) / (max - min) <= 0.0
  {
    var d := max - min;
    var k := (b - a) / d;
    assert k * d == b - a;
    ProductSign(b - a, d);
    ProductSign(k, d);
  }

  /** `Scale` preserves order when the two ranges point the same way, and
      reverses it otherwise (as for the canvas y axis, `a = height, b = 0`). */
  lemma ScaleOrder(v1: real, v2: real, min: real, max: real, a: real, b: real)
    requires max != min && v1 <= v2
    ensures (b - a) * (max - min) >= 0.0 ==> Scale(v1, min, max, a, b) <= Scale(v2, min, max, a, b)
    ensures (b - a) * (max - min) <= 0.0 ==> Scale(v1, min, max, a, b) >= Scale(v2, min, max, a, b)
  {
    ScaleIsAffine(v1, min, max, a, b);
    ScaleIsAffine(v2, min, max, a, b);
    SlopeSign(min, max, a, b);
    var k := (b - a) / (max - min);
    assert k * (v2 - min) - k * (v1 - min) == k * (v2 - v1);
    ProductSign(k, v2 - v1);
  }

  /** `calculateDynamicPrecision(low, high)`: two decimals for an empty range,
      otherwise `max(0, ceil(-log10(high - low)) + 2)`. `log10` is a parameter:
      its values are not interpreted. */
  function CalculateDynamicPrecision(low: real, high: real, log10: real -> real): (r: int)
    ensures r >= 0
    ensures high == low ==> r == 2
    ensures high != low ==> r >= Ceil(-log10(high - low)) + 2
  {
    var range := high - low;
    if range == 0.0 then 2
    else
      var digits := Ceil(-log10(range)) + 1;
      if digits + 1 > 0 then digits + 1 else 0
  }

  /** `getMaxAmountOfBarsToFitScreen(w, s, W) = ceil(W / (w + s)) + 1`: one
      more slot than the bars that would tile the width, for the two partly
      visible edge bars. */
  function GetMaxAmountOfBarsToFitScreen(barWidth: real, barSpacing: real, screenWidth: real): (r: int)
    requires barWidth + barSpacing != 0.0
    ensures (r - 2) as real < screenWidth / (barWidth + barSpacing) <= (r - 1) as real
  {
    Ceil(screenWidth / (barWidth + barSpacing)) + 1
  }

  /** A non-negative width always asks for at least one bar. */
  lemma MaxAmountAtLeastOne(barWidth: real, barSpacing: real, screenWidth: real)
    requires barWidth + barSpacing > 0.0 && screenWidth >= 0.0
    ensures GetMaxAmountOfBarsToFitScreen(barWidth, barSpacing, screenWidth) >= 1
  {
    assert screenWidth / (barWidth + barSpacing) >= 0.0;
  }

  /** Bars 10 wide with spacing 2 on a 500 pixel chart: `ceil(500 / 12) + 1 = 43`. */
  lemma MaxAmountDefaultChart()
    ensures GetMaxAmountOfBarsToFitScreen(10.0, 2.0, 500.0) == 43
  {
  }
}
