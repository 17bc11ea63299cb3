/** The original monolithic renderer (`src/view`), minus the drawing: it
    holds the request parameters, all loaded bars and their bounds, the
    scroll offsets and candle width and the drag state, and fetches bars
    itself. The API answer is a parameter of each fetch; the requests made
    are recorded in `requests`. */
module View {

  import opened Wrappers
  import opened Bars
  import opened ChartUtils
  import opened CandleGeometry

  const CandlestickSpacing: real := 2.0
  const DefaultCandlestickWidth: real := 10.0
  /** How close (in pixels) the last bar's right end may come to the
      canvas's right edge before more bars are requested. */
  const Threshold: real := 200.0
  /** The number of offsets each forward request covers. */
  const PageSize: int := 100

  /** `fetchDataIfNeeded`'s test: the right end of the last bar is less than
      `Threshold` pixels beyond the canvas's right edge. */
  predicate NeedsMoreBars(totalBars: nat, candlestickWidth: real, scrollOffsetX: real, canvasWidth: real)
  {
    LastBarX(totalBars, candlestickWidth, scrollOffsetX) - canvasWidth < Threshold
  }

  /** The canvas x just past the last of `totalBars` bars. */
  function LastBarX(totalBars: nat, candlestickWidth: real, scrollOffsetX: real): real
  {
    BarX(totalBars as real, candlestickWidth + CandlestickSpacing, scrollOffsetX)
  }

  /** Scrolling further right never withdraws the need for bars, and nor
      does a wider canvas; more bars never create it. */
  lemma NeedsMoreBarsMonotone(n: nat, n': nat, w: real, off: real, off': real, cw: real, cw': real)
    requires w > 0.0 && n' <= n && off <= off' && cw <= cw'
    ensures NeedsMoreBars(n, w, off, cw) ==> NeedsMoreBars(n', w, off', cw')
  {
    RealArith.MulMonotone(n' as real, n as real, w + CandlestickSpacing);
  }

  /** The bounds `setBars` computes: the lowest low and the highest high, or
      none for no bars. */
  function BoundsOf(bars: seq<Bar>): (r: (Option<real>, Option<real>))
    ensures r.0.Some? <==> bars != []
    ensures r.1.Some? <==> bars != []
    ensures r.0.Some? ==> forall i :: 0 <= i < |bars| ==> r.0.value <= bars[i].low && bars[i].high <= r.1.value
    ensures r.0.Some? ==> exists i :: 0 <= i < |bars| && r.0.value == bars[i].low
    ensures r.1.Some? ==> exists i :: 0 <= i < |bars| && r.1.value == bars[i].high
  {
    if bars == [] then (None, None) else (Some(MinLow(bars)), Some(MaxHigh(bars)))
  }

  /** The bars after a forward fetch: the old ones, then the fetched ones
      whose time is not among them. */
  function ForwardMerge(current: seq<Bar>, chunks: seq<Chunk>): (r: seq<Bar>)
    ensures |current| <= |r| <= |current| + TotalBars(chunks)
    ensures r[..|current|] == current
    ensures r[|current|..] == FreshBars(current, ProcessChunks(chunks))
    ensures forall i :: |current| <= i < |r| ==> !HasTime(current, r[i].time)
  {
    FreshBarsMembers(current, ProcessChunks(chunks));
    current + FreshBars(current, ProcessChunks(chunks))
  }

  /** A forward fetch of bars whose times are all loaded changes no bar, and
      one that adds no duplicate time to a duplicate-free sequence keeps it so. */
  lemma ForwardMergeProperties(current: seq<Bar>, chunks: seq<Chunk>)
    ensures (forall i :: 0 <= i < |ProcessChunks(chunks)| ==> HasTime(current, ProcessChunks(chunks)[i].time))
      ==> ForwardMerge(current, chunks) == current
    ensures UniqueTimes(current) && UniqueTimes(ProcessChunks(chunks)) ==> UniqueTimes(ForwardMerge(current, chunks))
  {
    var fetched := ProcessChunks(chunks);
    if forall i :: 0 <= i < |fetched| ==> HasTime(current, fetched[i].time) {
      FreshBarsOfKnown(current, fetched);
      assert current + [] == current;
    }
    if UniqueTimes(current) && UniqueTimes(fetched) {
      MergeKeepsTimesUnique(current, fetched);
    }
  }

  /** `CandleStickRenderer` of the original generation. */
  class CandleStickRenderer {
    var scrollOffsetX: real
    var scrollOffsetY: real
    var candlestickWidth: real
    var dragging: bool
    var dragStartX: real
    var dragStartY: real
    var mouseX: Option<real>
    var mouseY: Option<real>
    var symbol: Option<string>
    var timeframe: Option<int>
    var start: Option<int>
    var end: Option<int>
    var bars: seq<Bar>
    var priceLow: Option<real>
    var priceHigh: Option<real>
    var canvasWidth: real
    var canvasHeight: real
    /** Every request made to the API, in order. */
    ghost var requests: seq<Request>

    /** The width stays in the clamp range. */
    predicate Valid()
      reads this
    {
      MinCandlestickWidth <= candlestickWidth <= MaxCandlestickWidth
    }

    constructor (canvasWidth: real, canvasHeight: real)
      ensures Valid()
      ensures scrollOffsetX == 0.0 && scrollOffsetY == 0.0 && candlestickWidth == DefaultCandlestickWidth
      ensures !dragging && dragStartX == 0.0 && dragStartY == 0.0 && mouseX.None? && mouseY.None?
      ensures symbol.None? && timeframe.None? && start.None? && end.None?
      ensures bars == [] && priceLow.None? && priceHigh.None? && requests == []
      ensures this.canvasWidth == canvasWidth && this.canvasHeight == canvasHeight
    {
      scrollOffsetX := 0.0;
      scrollOffsetY := 0.0;
      candlestickWidth := DefaultCandlestickWidth;
      dragging := false;
      dragStartX := 0.0;
      dragStartY := 0.0;
      mouseX := None;
      mouseY := None;
      symbol := None;
      timeframe := None;
      start := None;
      end := None;
      bars := [];
      priceLow := None;
      priceHigh := None;
      this.canvasWidth := canvasWidth;
      this.canvasHeight := canvasHeight;
      requests := [];
    }

    /** `setBars`: store the bars and their bounds. */
    method SetBars(newBars: seq<Bar>)
      modifies this`bars, this`priceLow, this`priceHigh
      ensures bars == newBars && (priceLow, priceHigh) == BoundsOf(newBars)
    {
      bars := newBars;
      if newBars == [] {
        priceLow := None;
        priceHigh := None;
      } else {
        priceLow := Some(MinLow(newBars));
        priceHigh := Some(MaxHigh(newBars));
      }
    }

    /** `setParams` */
    method SetParams(symbol: string, timeframe: int, start: int, end: int)
      modifies this`symbol, this`timeframe, this`start, this`end
      ensures this.symbol == Some(symbol) && this.timeframe == Some(timeframe)
      ensures this.start == Some(start) && this.end == Some(end)
    {
      this.symbol := Some(symbol);
      this.timeframe := Some(timeframe);
      this.start := Some(start);
      this.end := Some(end);
    }

    /** `fetchData`: with every parameter set (a non-empty symbol), request
      [start, end) and, when the first chunk has bars, replace the bars by
      the normalised response. */
    method FetchData(response: Response)
      modifies this`bars, this`priceLow, this`priceHigh, this`requests
      ensures var ready := symbol.Some? && symbol.value != "" && timeframe.Some? && start.Some? && end.Some?;
        requests == old(requests) + if ready then [Request(symbol.value, timeframe.value, start.value, end.value)] else []
      ensures var loads := symbol.Some? && symbol.value != "" && timeframe.Some? && start.Some? && end.Some?
          && response.Chunks? && |response.chunks| > 0 && |response.chunks[0].bars| > 0;
        if loads then bars == ProcessChunks(response.chunks) && (priceLow, priceHigh) == BoundsOf(bars)
        else bars == old(bars) && priceLow == old(priceLow) && priceHigh == old(priceHigh)
    {
      if symbol.None? || symbol.value == "" || timeframe.None? || start.None? || end.None? {
        return;
      }
      requests := requests + [Request(symbol.value, timeframe.value, start.value, end.value)];
      match response {
        case Rejected =>
          return;
        case Null =>
          return;
        case Chunks(data) =>
          if |data| == 0 || |data[0].bars| == 0 {
            return;
          }
          SetBars(ProcessChunks(data));
      }
    }

    /** `fetchDataIfNeeded` with its response handler: with the parameters
      set and the last bar near the right edge, request [end, end + 100);
      a non-empty response appends the bars with unknown times and moves
      `end` on by exactly 100. */
    method FetchDataIfNeeded(response: Response)
      modifies this`bars, this`priceLow, this`priceHigh, this`end, this`requests
      ensures requests == old(requests) + if Asks(old(end), |old(bars)|)
        then [Request(symbol.value, timeframe.value, old(end).value, old(end).value + PageSize)] else []
      ensures Asks(old(end), |old(bars)|) && response.Chunks? && |response.chunks| > 0 ==>
        && bars == ForwardMerge(old(bars), response.chunks)
        && (priceLow, priceHigh) == BoundsOf(bars)
        && end == Some(old(end).value + PageSize)
      ensures !(Asks(old(end), |old(bars)|) && response.Chunks? && |response.chunks| > 0) ==>
        bars == old(bars) && priceLow == old(priceLow) && priceHigh == old(priceHigh) && end == old(end)
    {
      if symbol.None? || timeframe.None? || end.None? {
        return;
      }
      var totalBars := |bars|;
      var lastBarX := LastBarX(totalBars, candlestickWidth, scrollOffsetX);
      if lastBarX - canvasWidth < Threshold {
        requests := requests + [Request(symbol.value, timeframe.value, end.value, end.value + PageSize)];
        match response {
          case Rejected =>
          case Null =>
          case Chunks(additionalData) =>
            if |additionalData| > 0 && end.Some? {
              var newBars := ProcessChunks(additionalData);
              var filtered := FreshBars(bars, newBars);
              assert bars + filtered == ForwardMerge(bars, additionalData);
              SetBars(bars + filtered);
              end := Some(end.value + PageSize);
            }
        }
      }
    }

    /** Whether `fetchDataIfNeeded` makes a request, with `end` and the bar
      count as given. */
    predicate Asks(end: Option<int>, totalBars: nat)
      reads this
    {
      symbol.Some? && timeframe.Some? && end.Some? && NeedsMoreBars(totalBars, candlestickWidth, scrollOffsetX, canvasWidth)
    }

    /** The `mousedown` listener: start dragging from the pointer. */
    method MouseDown(clientX: real, clientY: real)
      modifies this`dragging, this`dragStartX, this`dragStartY
      ensures dragging && dragStartX == clientX && dragStartY == clientY
    {
      dragging := true;
      dragStartX := clientX;
      dragStartY := clientY;
    }

    /** The `mousemove` listener: while dragging, move the view against the
      pointer's movement since the last event and restart from here; then
      remember the pointer (relative to the canvas, x snapped). */
    method MouseMove(clientX: real, clientY: real, rectLeft: real, rectTop: real)
      requires Valid()
      modifies this`dragStartX, this`dragStartY, this`scrollOffsetX, this`scrollOffsetY, this`mouseX, this`mouseY
      ensures Valid()
      ensures if old(dragging) then
          && scrollOffsetX == old(scrollOffsetX) - (clientX - old(dragStartX))
          && scrollOffsetY == old(scrollOffsetY) - (clientY - old(dragStartY))
          && dragStartX == clientX && dragStartY == clientY
        else
          && scrollOffsetX == old(scrollOffsetX) && scrollOffsetY == old(scrollOffsetY)
          && dragStartX == old(dragStartX) && dragStartY == old(dragStartY)
      ensures mouseX == Some(RoundSnapToCandleCenter(clientX - rectLeft, scrollOffsetX, candlestickWidth, CandlestickSpacing, canvasWidth))
      ensures mouseY == Some(clientY - rectTop)
    {
      if dragging {
        var deltaX := clientX - dragStartX;
        var deltaY := clientY - dragStartY;
        dragStartX := clientX;
        dragStartY := clientY;
        scrollOffsetX := scrollOffsetX - deltaX;
        scrollOffsetY := scrollOffsetY - deltaY;
      }
      var rawMouseX := clientX - rectLeft;
      var rawMouseY := clientY - rectTop;
      mouseX := Some(RoundSnapToCandleCenter(rawMouseX, scrollOffsetX, candlestickWidth, CandlestickSpacing, canvasWidth));
      mouseY := Some(rawMouseY);
    }

    /** The `mouseup` listener. */
    method MouseUp()
      modifies this`dragging
      ensures !dragging
    {
      dragging := false;
    }

    /** The `mouseleave` listener. */
    method MouseLeave()
      modifies this`dragging
      ensures !dragging
    {
      dragging := false;
    }

    /** The `wheel` listener: a mostly vertical wheel zooms by 0.2 (out for a
      positive `deltaY`) around the pointer; otherwise it scrolls by `deltaX`. */
    method Wheel(deltaX: real, deltaY: real, clientX: real, rectLeft: real)
      requires Valid()
      modifies this`candlestickWidth, this`scrollOffsetX
      ensures Valid()
      ensures var mouseX := clientX - rectLeft;
        if Abs(deltaY) > Abs(deltaX) then
          && candlestickWidth == ClampWidth(old(candlestickWidth) + if deltaY > 0.0 then -0.2 else 0.2)
          && (mouseX + scrollOffsetX) / (candlestickWidth + CandlestickSpacing)
             == (mouseX + old(scrollOffsetX)) / (old(candlestickWidth) + CandlestickSpacing)
          && scrollOffsetX == AnchoredOffsetX(old(scrollOffsetX), mouseX,
               old(candlestickWidth) + CandlestickSpacing, candlestickWidth + CandlestickSpacing)
        else candlestickWidth == old(candlestickWidth) && scrollOffsetX == old(scrollOffsetX) + deltaX
    {
      var mouseX := clientX - rectLeft;
      var oldStep := candlestickWidth + CandlestickSpacing;
      var mouseXPercent := (mouseX + scrollOffsetX) / oldStep;
      if Abs(deltaY) > Abs(deltaX) {
        var changeVal := 0.2;
        var delta := deltaY;
        candlestickWidth := candlestickWidth + if delta > 0.0 then -changeVal else changeVal;
        candlestickWidth := Max(0.5, Min(20.0, candlestickWidth));
        assert mouseXPercent * (candlestickWidth + CandlestickSpacing) - mouseX
            == AnchoredOffsetX(old(scrollOffsetX), mouseX, oldStep, candlestickWidth + CandlestickSpacing);
        scrollOffsetX := mouseXPercent * (candlestickWidth + CandlestickSpacing) - mouseX;
      } else {
        scrollOffsetX := scrollOffsetX + deltaX;
      }
    }
  }
}
