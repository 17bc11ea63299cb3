/** The newer renderer (`src/chartRendering`), minus the drawing: it keeps
    the bars last rendered, the pointer position and its own canvas size,
    and delegates offsets, candle width and price bounds to a
    `ViewportManager`. Every change callback the manager fires is handled by
    `OnViewPortChange` with the viewport as it was at that call; the calls
    of `barsAreMissingFromSide` are recorded in `missingRequests`. */
module ChartRendering {

  import opened Wrappers
  import opened Bars
  import opened ChartUtils
  import opened RealArith
  import opened CandleGeometry
  import opened VisibleRange
  import opened Viewport

  const CandlestickSpacing: real := 2.0
  const DefaultCandlestickWidth: real := 10.0
  const DateScaleMarginY: real := 30.0
  const PriceScaleMarginX: real := 70.0

  /** The scan of `getRenderedBars`: bars left of the price scale of a
      canvas `canvasWidth` wide. */
  function ScanOf(g: Geometry, canvasWidth: real): Scan
  {
    Scan(g.candlestickWidth, g.candlestickSpacing, g.offsetX, canvasWidth - PriceScaleMarginX)
  }

  /** The `barsAreMissingFromSide` calls one `onViewPortChange` makes in
      viewport state `g`: at most one. */
  function ViewChangeRequest(bars: Option<seq<Bar>>, canvasWidth: real, g: Geometry): (r: seq<Direction>)
    requires g.Step() > 0.0
    ensures |r| <= 1
  {
    if bars.None? then []
    else
      match PrefetchDecision(bars.value, ScanOf(g, canvasWidth))
      case None => []
      case Some(d) => [d]
  }

  /** When `onViewPortChange` asks for bars, and from which side. */
  lemma ViewChangeRequestSpec(bars: Option<seq<Bar>>, canvasWidth: real, g: Geometry)
    requires g.Step() > 0.0
    ensures var r := ViewChangeRequest(bars, canvasWidth, g); var s := ScanOf(g, canvasWidth);
      && (r != [] <==> bars.Some? && SignificantlyDifferent(FitAmount(s), |VisibleBars(bars.value, s, |bars.value|)|))
      && (r == [Backward] <==> r != [] && bars.Some? && |bars.value| > 0 && Visible(s, 0))
  {
  }

  /** Whether every viewport state in `gs` has a positive bar step. */
  predicate AllStepsPositive(gs: seq<Geometry>)
  {
    forall i :: 0 <= i < |gs| ==> gs[i].Step() > 0.0
  }

  /** The `barsAreMissingFromSide` calls of the callbacks fired in states `gs`, in order. */
  function ViewChangeRequests(bars: Option<seq<Bar>>, canvasWidth: real, gs: seq<Geometry>): (r: seq<Direction>)
    requires AllStepsPositive(gs)
    ensures |r| <= |gs|
    ensures bars.None? ==> r == []
  {
    if gs == [] then []
    else ViewChangeRequests(bars, canvasWidth, gs[..|gs| - 1]) + ViewChangeRequest(bars, canvasWidth, gs[|gs| - 1])
  }

  /** The requests of two runs of callbacks are those of the first, then those of the second. */
  lemma {:induction false} ViewChangeRequestsAppend(bars: Option<seq<Bar>>, canvasWidth: real, a: seq<Geometry>, b: seq<Geometry>)
    requires AllStepsPositive(a) && AllStepsPositive(b)
    ensures AllStepsPositive(a + b)
    ensures ViewChangeRequests(bars, canvasWidth, a + b)
         == ViewChangeRequests(bars, canvasWidth, a) + ViewChangeRequests(bars, canvasWidth, b)
  {
    assert forall i :: 0 <= i < |a + b| ==> (a + b)[i] == if i < |a| then a[i] else b[i - |a|];
    if b != [] {
      var b' := b[..|b| - 1];
      assert AllStepsPositive(b');
      assert (a + b)[..|a + b| - 1] == a + b';
      ViewChangeRequestsAppend(bars, canvasWidth, a, b');
    } else {
      assert a + b == a;
    }
  }

  /** The actions a wheel event can lead to. */
  datatype WheelAction = Ignore | ZoomPrice(scaleDelta: real) | ZoomTime(scaleDelta: real, anchorX: real) | PanBy(deltaX: real)

  /** `handleMouseWheel`'s dispatch: nothing while a bound is 0; over the
      price scale, a vertical zoom (out for a positive `deltaY`); a mostly
      vertical wheel, a horizontal zoom around the pointer; otherwise a pan. */
  function WheelDispatch(priceLow: real, priceHigh: real, deltaX: real, deltaY: real, canvasMouseX: real, effectiveWidth: real): (r: WheelAction)
    ensures r.Ignore? <==> priceLow == 0.0 || priceHigh == 0.0
    ensures r.ZoomPrice? <==> !r.Ignore? && canvasMouseX > effectiveWidth
    ensures r.ZoomPrice? ==> r.scaleDelta == (if deltaY > 0.0 then -0.005 else 0.005)
    ensures r.ZoomTime? <==> !r.Ignore? && canvasMouseX <= effectiveWidth && Abs(deltaY) > Abs(deltaX)
    ensures r.ZoomTime? ==> r.anchorX == canvasMouseX && r.scaleDelta == (if deltaY > 0.0 then -0.1 else 0.1)
    ensures r.PanBy? ==> r.deltaX == deltaX && Abs(deltaY) <= Abs(deltaX)
  {
    if priceLow == 0.0 || priceHigh == 0.0 then Ignore
    else if canvasMouseX > effectiveWidth then
      var scaleRate := 0.005;
      var direction := if deltaY > 0.0 then -1.0 else 1.0;
      ZoomPrice(direction * scaleRate)
    else if Abs(deltaY) > Abs(deltaX) then
      var changeVal := 0.1;
      ZoomTime(if deltaY > 0.0 then -changeVal else changeVal, canvasMouseX)
    else PanBy(deltaX)
  }

  /** The viewport after a wheel action: the anchor fraction survives a
      horizontal zoom, a vertical zoom keeps the price midpoint, a pan moves
      only `offsetX`. */
  function ApplyWheel(g: Geometry, action: WheelAction): (r: Geometry)
    requires action.ZoomTime? ==> g.Step() != 0.0 && ClampWidth(g.candlestickWidth + action.scaleDelta) + g.candlestickSpacing != 0.0
    ensures action.Ignore? ==> r == g
    ensures action.ZoomPrice? ==>
      && r == g.(priceLow := r.priceLow, priceHigh := r.priceHigh)
      && r.priceLow + r.priceHigh == g.priceLow + g.priceHigh
      && r.priceHigh - r.priceLow == (1.0 - 2.0 * action.scaleDelta) * (g.priceHigh - g.priceLow)
    ensures action.ZoomTime? ==>
      && r == g.(candlestickWidth := r.candlestickWidth, offsetX := r.offsetX)
      && r.candlestickWidth == ClampWidth(g.candlestickWidth + action.scaleDelta)
      && (action.anchorX + r.offsetX) / r.Step() == (action.anchorX + g.offsetX) / g.Step()
    ensures action.PanBy? ==> r == g.(offsetX := g.offsetX + action.deltaX)
  {
    match action
    case Ignore => g
    case ZoomPrice(d) =>
      var (lo, hi) := ZoomedPriceBounds(g.priceLow, g.priceHigh, d);
      ZoomedPriceBoundsKeepMidpoint(g.priceLow, g.priceHigh, d);
      g.(priceLow := lo, priceHigh := hi)
    case ZoomTime(d, anchorX) =>
      var width := ClampWidth(g.candlestickWidth + d);
      g.(candlestickWidth := width,
         offsetX := AnchoredOffsetX(g.offsetX, anchorX, g.Step(), width + g.candlestickSpacing))
    case PanBy(dx) => g.(offsetX := g.offsetX + dx)
  }

  /** `snapToCandleCenter`: the centre of the candle whose slot holds
      `rawX` (by `Math.floor`), but never beyond the canvas's right edge. */
  function FloorSnapToCandleCenter(g: Geometry, rawX: real, canvasWidth: real): (r: real)
    requires g.Step() > 0.0
    ensures var centre := TransformedX(g, IndexByCanvasX(g, rawX)) + g.candlestickWidth / 2.0;
      && r == Min(centre, canvasWidth)
      && centre - g.candlestickWidth / 2.0 <= rawX < centre - g.candlestickWidth / 2.0 + g.Step()
  {
    TransformedXBracketsX(g, rawX);
    var snappedX := TransformedX(g, IndexByCanvasX(g, rawX)) + g.candlestickWidth / 2.0;
    Min(snappedX, canvasWidth)
  }

  /** A pointer already on a candle centre stays there: snapping twice is
      snapping once while the centre lies left of the canvas edge. */
  lemma FloorSnapIsIdempotent(g: Geometry, rawX: real, canvasWidth: real)
    requires g.candlestickWidth >= 0.0 && g.candlestickSpacing >= 0.0 && g.Step() > 0.0
    requires FloorSnapToCandleCenter(g, rawX, canvasWidth) < canvasWidth
    ensures var r := FloorSnapToCandleCenter(g, rawX, canvasWidth);
      FloorSnapToCandleCenter(g, r, canvasWidth) == r
  {
    var i := IndexByCanvasX(g, rawX);
    var r := FloorSnapToCandleCenter(g, rawX, canvasWidth);
    var a := i as real * g.Step() + g.candlestickWidth / 2.0;
    assert r + g.offsetX == a;
    DivBounds(a, i as real, g.Step());
    DivBounds(a, i as real + 1.0, g.Step());
    assert IndexByCanvasX(g, r) == i;
  }

  /** `CandleStickRenderer` of the newer generation. */
  class CandleStickRenderer {
    const vm: ViewportManager
    var mouseX: Option<real>
    var mouseY: Option<real>
    var barsToRender: Option<seq<Bar>>
    /** The renderer's canvas; the manager keeps the size it was built with. */
    var canvasWidth: real
    var canvasHeight: real
    /** The directions passed to `barsAreMissingFromSide`, in order. */
    var missingRequests: seq<Direction>

    /** The constants the manager was built with, the width clamp, and a
        positive step in every state a callback saw. */
    predicate Valid()
      reads this, vm
    {
      && vm.candlestickSpacing == CandlestickSpacing
      && vm.dateScaleMarginY == DateScaleMarginY
      && vm.priceScaleMarginX == PriceScaleMarginX
      && MinCandlestickWidth <= vm.candlestickWidth <= MaxCandlestickWidth
      && AllStepsPositive(vm.notifications)
    }

    /** The requests of the callbacks fired since the log had `n` entries. */
    function PendingRequests(bars: Option<seq<Bar>>, n: nat): seq<Direction>
      requires Valid() && n <= |vm.notifications|
      reads this, vm
    {
      assert AllStepsPositive(vm.notifications[n..]) by {
        assert forall i :: 0 <= i < |vm.notifications| - n ==> vm.notifications[n..][i] == vm.notifications[n + i];
      }
      ViewChangeRequests(bars, canvasWidth, vm.notifications[n..])
    }

    constructor (canvasWidth: real, canvasHeight: real)
      ensures Valid() && fresh(vm)
      ensures vm.Snapshot() == Geometry(0.0, 0.0, DefaultCandlestickWidth, CandlestickSpacing, canvasWidth, canvasHeight,
        DateScaleMarginY, PriceScaleMarginX, 0.0, 0.0)
      ensures vm.notifications == []
      ensures mouseX.None? && mouseY.None? && barsToRender.None? && missingRequests == []
      ensures this.canvasWidth == canvasWidth && this.canvasHeight == canvasHeight
    {
      vm := new ViewportManager(DefaultCandlestickWidth, CandlestickSpacing, canvasWidth, canvasHeight,
        DateScaleMarginY, PriceScaleMarginX);
      mouseX := None;
      mouseY := None;
      barsToRender := None;
      this.canvasWidth := canvasWidth;
      this.canvasHeight := canvasHeight;
      missingRequests := [];
    }

    /** `getRenderedBars`, with the viewport in state `g`. */
    method GetRenderedBars(g: Geometry) returns (r: RenderedRange)
      ensures r == if barsToRender.None? then NothingRendered else RenderedRangeOf(barsToRender.value, ScanOf(g, canvasWidth))
    {
      if barsToRender.None? {
        return NothingRendered;
      }
      r := ScanRenderedBars(barsToRender.value, ScanOf(g, canvasWidth));
    }

    /** `onViewPortChange`, run with the viewport in state `g`. */
    method OnViewPortChange(g: Geometry)
      requires g.Step() > 0.0
      modifies this`missingRequests
      ensures missingRequests == old(missingRequests) + ViewChangeRequest(barsToRender, canvasWidth, g)
    {
      if barsToRender.None? {
        return;
      }
      var range := GetRenderedBars(g);
      var amountOfBarsToFitScreen := GetMaxAmountOfBarsToFitScreen(g.candlestickWidth, g.candlestickSpacing, canvasWidth - PriceScaleMarginX);
      var isDifferent := SignificantlyDifferent(amountOfBarsToFitScreen, |range.renderedBars|);
      if isDifferent {
        missingRequests := missingRequests + [ChooseDirection(range.startIndex)];
      }
    }

    /** Handle the one callback fired since the log had `n` entries. */
    method Notified1(n: nat)
      requires Valid() && |vm.notifications| == n + 1
      modifies this`missingRequests
      ensures missingRequests == old(missingRequests) + PendingRequests(barsToRender, n)
    {
      OnViewPortChange(vm.notifications[n]);
      assert vm.notifications[n..] == [vm.notifications[n]];
      assert [vm.notifications[n]][..0] == [];
    }

    /** `render`: take the bounds if both are given; stop while a bound is
      0; otherwise pan by the adjustment (one callback, which still sees the
      previous bars) and keep the bars. */
    method Render(bars: seq<Bar>, priceLow: Option<real>, priceHigh: Option<real>, offsetXBarsAmountAdjustment: real)
      requires Valid()
      modifies this, vm
      ensures Valid()
      ensures var g0 := old(vm.Snapshot());
        var g1 := if priceLow.Some? && priceHigh.Some? then g0.(priceLow := priceLow.value, priceHigh := priceHigh.value) else g0;
        if g1.priceLow == 0.0 || g1.priceHigh == 0.0 then
          && vm.Snapshot() == g1 && vm.notifications == old(vm.notifications)
          && barsToRender == old(barsToRender)
        else
          && vm.Snapshot() == PannedByBars(g1, offsetXBarsAmountAdjustment)
          && vm.notifications == old(vm.notifications) + [vm.Snapshot()]
          && barsToRender == Some(bars)
      ensures old(vm.notifications) <= vm.notifications
      ensures missingRequests == old(missingRequests) + PendingRequests(old(barsToRender), old(|vm.notifications|))
      ensures mouseX == old(mouseX) && mouseY == old(mouseY)
      ensures canvasWidth == old(canvasWidth) && canvasHeight == old(canvasHeight)
    {
      if priceLow.Some? && priceHigh.Some? {
        vm.SetPriceBounds(priceLow.value, priceHigh.value);
      }
      if vm.priceLow == 0.0 || vm.priceHigh == 0.0 {
        assert vm.notifications[|vm.notifications|..] == [];
        return;
      }
      var n := |vm.notifications|;
      vm.PanByXAmount(offsetXBarsAmountAdjustment);
      Notified1(n);
      barsToRender := Some(bars);
    }

    /** The callback a re-render fires: one with the current viewport when
      bars are held and neither bound is 0, none otherwise. */
    function RerenderLog(): seq<Geometry>
      reads this, vm
    {
      if barsToRender.Some? && vm.priceLow != 0.0 && vm.priceHigh != 0.0 then [vm.Snapshot()] else []
    }

    /** `requestRender`: re-render the stored bars with the stored bounds. */
    method RequestRender()
      requires Valid()
      modifies this, vm
      ensures Valid()
      ensures vm.Snapshot() == old(vm.Snapshot()) && barsToRender == old(barsToRender)
      ensures vm.notifications == old(vm.notifications) + RerenderLog()
      ensures old(vm.notifications) <= vm.notifications
      ensures missingRequests == old(missingRequests) + PendingRequests(barsToRender, old(|vm.notifications|))
      ensures mouseX == old(mouseX) && mouseY == old(mouseY)
      ensures canvasWidth == old(canvasWidth) && canvasHeight == old(canvasHeight)
    {
      if barsToRender.None? {
        assert vm.notifications[|vm.notifications|..] == [];
        return;
      }
      Render(barsToRender.value, Some(vm.priceLow), Some(vm.priceHigh), 0.0);
    }

    /** `handleMouseMove`: remember the pointer, snapped, and re-render. */
    method HandleMouseMove(x: real, y: real)
      requires Valid()
      modifies this, vm
      ensures Valid()
      ensures mouseY == Some(y) && mouseX == Some(FloorSnapToCandleCenter(old(vm.Snapshot()), x, canvasWidth))
      ensures vm.Snapshot() == old(vm.Snapshot()) && barsToRender == old(barsToRender)
      ensures vm.notifications == old(vm.notifications) + RerenderLog()
      ensures missingRequests == old(missingRequests) + PendingRequests(barsToRender, old(|vm.notifications|))
      ensures canvasWidth == old(canvasWidth) && canvasHeight == old(canvasHeight)
    {
      mouseY := Some(y);
      mouseX := Some(FloorSnapToCandleCenter(vm.Snapshot(), x, canvasWidth));
      if barsToRender.None? {
        assert vm.notifications[|vm.notifications|..] == [];
        return;
      }
      RequestRender();
    }

    /** `handleDrag`: pan against the pointer's movement (two callbacks). */
    method HandleDrag(deltaX: real, deltaY: real)
      requires Valid()
      modifies this, vm
      ensures Valid()
      ensures vm.Snapshot() == old(vm.Snapshot()).(offsetX := old(vm.offsetX) - deltaX, offsetY := old(vm.offsetY) - deltaY)
      ensures vm.notifications == old(vm.notifications) + [old(vm.Snapshot()).(offsetX := old(vm.offsetX) - deltaX), vm.Snapshot()]
      ensures missingRequests == old(missingRequests) + PendingRequests(barsToRender, old(|vm.notifications|))
      ensures barsToRender == old(barsToRender) && mouseX == old(mouseX) && mouseY == old(mouseY)
      ensures canvasWidth == old(canvasWidth) && canvasHeight == old(canvasHeight)
    {
      var n := |vm.notifications|;
      vm.Pan(-deltaX, -deltaY);
      Notified2(n);
    }

    /** Handle the two callbacks fired since the log had `n` entries. */
    method Notified2(n: nat)
      requires Valid() && |vm.notifications| == n + 2
      modifies this`missingRequests
      ensures missingRequests == old(missingRequests) + PendingRequests(barsToRender, n)
    {
      OnViewPortChange(vm.notifications[n]);
      OnViewPortChange(vm.notifications[n + 1]);
      var a, b := vm.notifications[n], vm.notifications[n + 1];
      assert vm.notifications[n..] == [a] + [b];
      assert [a][..0] == [] && [b][..0] == [];
      ViewChangeRequestsAppend(barsToRender, canvasWidth, [a], [b]);
    }

    /** Handle the three callbacks fired since the log had `n` entries. */
    method Notified3(n: nat)
      requires Valid() && |vm.notifications| == n + 3
      modifies this`missingRequests
      ensures missingRequests == old(missingRequests) + PendingRequests(barsToRender, n)
    {
      OnViewPortChange(vm.notifications[n]);
      OnViewPortChange(vm.notifications[n + 1]);
      OnViewPortChange(vm.notifications[n + 2]);
      var a, b, c := vm.notifications[n], vm.notifications[n + 1], vm.notifications[n + 2];
      assert vm.notifications[n..] == [a] + [b] + [c];
      assert [a][..0] == [] && [b][..0] == [] && [c][..0] == [];
      ViewChangeRequestsAppend(barsToRender, canvasWidth, [a], [b]);
      ViewChangeRequestsAppend(barsToRender, canvasWidth, [a] + [b], [c]);
    }

    /** `handleCanvasResize`: the canvas becomes the window less 100 on each
      side's total; the viewport manager's own size is not touched. */
    method HandleCanvasResize(newWindowX: real, newWindowY: real)
      requires Valid()
      modifies this, vm
      ensures Valid()
      ensures canvasWidth == newWindowX - 100.0 && canvasHeight == newWindowY - 100.0
      ensures vm.Snapshot() == old(vm.Snapshot()) && barsToRender == old(barsToRender)
      ensures vm.notifications == old(vm.notifications) + RerenderLog()
      ensures missingRequests == old(missingRequests) + PendingRequests(barsToRender, old(|vm.notifications|))
      ensures mouseX == old(mouseX) && mouseY == old(mouseY)
    {
      canvasWidth := newWindowX - 100.0;
      canvasHeight := newWindowY - 100.0;
      if barsToRender.None? {
        assert vm.notifications[|vm.notifications|..] == [];
        return;
      }
      RequestRender();
    }

    /** `handleMouseWheel`: the action `WheelDispatch` picks, then a re-render. */
    method HandleMouseWheel(deltaX: real, deltaY: real, canvasMouseX: real)
      requires Valid()
      modifies this, vm
      ensures Valid()
      ensures vm.Snapshot() == ApplyWheel(old(vm.Snapshot()),
        WheelDispatch(old(vm.priceLow), old(vm.priceHigh), deltaX, deltaY, canvasMouseX, canvasWidth - PriceScaleMarginX))
      ensures var action := WheelDispatch(old(vm.priceLow), old(vm.priceHigh), deltaX, deltaY, canvasMouseX, canvasWidth - PriceScaleMarginX);
        vm.notifications == old(vm.notifications) + match action
          case Ignore => []
          case ZoomPrice(_) => RerenderLog()
          case ZoomTime(_, _) =>
            var zoomed := old(vm.Snapshot()).(candlestickWidth := vm.candlestickWidth);
            [zoomed, zoomed, vm.Snapshot()] + RerenderLog()
          case PanBy(_) => [vm.Snapshot(), vm.Snapshot()] + RerenderLog()
      ensures old(vm.notifications) <= vm.notifications
      ensures missingRequests == old(missingRequests) + PendingRequests(barsToRender, old(|vm.notifications|))
      ensures barsToRender == old(barsToRender) && mouseX == old(mouseX) && mouseY == old(mouseY)
      ensures canvasWidth == old(canvasWidth) && canvasHeight == old(canvasHeight)
    {
      var n := |vm.notifications|;
      if vm.priceLow == 0.0 || vm.priceHigh == 0.0 {
        assert vm.notifications[n..] == [];
        return;
      }
      if canvasMouseX > canvasWidth - PriceScaleMarginX {
        var scaleRate := 0.005;
        var direction := if deltaY > 0.0 then -1.0 else 1.0;
        vm.ZoomY(direction * scaleRate);
        RequestRender();
        return;
      }
      if Abs(deltaY) > Abs(deltaX) {
        var changeVal := 0.1;
        ZoomXAndRender(if deltaY > 0.0 then -changeVal else changeVal, canvasMouseX);
      } else {
        PanXAndRender(deltaX);
      }
    }

    /** The horizontal-zoom branch of `handleMouseWheel`: three callbacks
      from `zoomX`, then the re-render's. */
    method ZoomXAndRender(scaleDelta: real, anchorX: real)
      requires Valid()
      modifies this, vm
      ensures Valid()
      ensures vm.Snapshot() == ApplyWheel(old(vm.Snapshot()), ZoomTime(scaleDelta, anchorX))
      ensures var zoomed := old(vm.Snapshot()).(candlestickWidth := vm.candlestickWidth);
        vm.notifications == old(vm.notifications) + [zoomed, zoomed, vm.Snapshot()] + RerenderLog()
      ensures old(vm.notifications) <= vm.notifications
      ensures missingRequests == old(missingRequests) + PendingRequests(barsToRender, old(|vm.notifications|))
      ensures barsToRender == old(barsToRender) && mouseX == old(mouseX) && mouseY == old(mouseY)
      ensures canvasWidth == old(canvasWidth) && canvasHeight == old(canvasHeight)
    {
      ghost var g := vm.Snapshot();
      ghost var log := vm.notifications;
      var n := |vm.notifications|;
      vm.ZoomX(scaleDelta, anchorX);
      assert vm.Snapshot() == ApplyWheel(g, ZoomTime(scaleDelta, anchorX));
      ghost var zoomed := g.(candlestickWidth := vm.candlestickWidth);
      assert vm.notifications == log + [zoomed, zoomed, vm.Snapshot()];
      Notified3(n);
      var m := |vm.notifications|;
      ghost var mid := vm.notifications;
      RequestRender();
      assert vm.notifications[n..m] == mid[n..];
      RequestsSplit(n, m);
    }

    /** The pan branch of `handleMouseWheel`: two callbacks from `pan`, then
      the re-render's. */
    method PanXAndRender(deltaX: real)
      requires Valid()
      modifies this, vm
      ensures Valid()
      ensures vm.Snapshot() == ApplyWheel(old(vm.Snapshot()), PanBy(deltaX))
      ensures vm.notifications == old(vm.notifications) + [vm.Snapshot(), vm.Snapshot()] + RerenderLog()
      ensures old(vm.notifications) <= vm.notifications
      ensures missingRequests == old(missingRequests) + PendingRequests(barsToRender, old(|vm.notifications|))
      ensures barsToRender == old(barsToRender) && mouseX == old(mouseX) && mouseY == old(mouseY)
      ensures canvasWidth == old(canvasWidth) && canvasHeight == old(canvasHeight)
    {
      ghost var g := vm.Snapshot();
      ghost var log := vm.notifications;
      var n := |vm.notifications|;
      vm.Pan(deltaX, 0.0);
      assert vm.Snapshot() == ApplyWheel(g, PanBy(deltaX));
      assert vm.notifications == log + [vm.Snapshot(), vm.Snapshot()];
      Notified2(n);
      var m := |vm.notifications|;
      ghost var mid := vm.notifications;
      RequestRender();
      assert vm.notifications[n..m] == mid[n..];
      RequestsSplit(n, m);
    }

    /** The requests since `n` are those up to `m`, then those since `m`. */
    lemma RequestsSplit(n: nat, m: nat)
      requires Valid() && n <= m <= |vm.notifications|
      ensures PendingRequests(barsToRender, n) ==
        ViewChangeRequests(barsToRender, canvasWidth, vm.notifications[n..m]) + PendingRequests(barsToRender, m)
    {
      var log := vm.notifications;
      assert log[n..] == log[n..m] + log[m..];
      assert forall i :: 0 <= i < m - n ==> log[n..m][i] == log[n + i];
      assert forall i :: 0 <= i < |log| - m ==> log[m..][i] == log[m + i];
      ViewChangeRequestsAppend(barsToRender, canvasWidth, log[n..m], log[m..]);
    }
  }
}
