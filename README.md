# trading-chart core in Dafny

A model of the core of a browser candlestick chart. The model has four parts.

- **The bar store (`DataProvider`).** It loads bars from a remote bar source in pages of
  chunk-relative bars. It normalises each page to absolute times and merges pages onto the bars
  it holds, dropping any bar whose time it already knows. It keeps `start`/`end` pagination
  cursors and running price bounds. A single-flight lock lets only one fetch run at a time.
- **The viewport (`ViewportManager`).** It holds the horizontal and vertical offsets, the candle
  width and the price bounds. Every setter fires a change callback.
- **The three renderer generations.** Each keeps its own view state and decides when to ask
  for more bars:
  - `src/view`: the original renderer, which fetches bars itself;
  - `src/refactoring`: the renderer wired into the page;
  - `src/chartRendering`: the newer renderer on top of the viewport.
- **The shared helpers.** Linear rescaling, label precision, the bar-slot count and the
  timeframe table.

Files and modules:

- `Bars.dfy`: the `Bar`/`Chunk`/`Response` shapes and the pure list operations:
  - chunk normalisation;
  - the filter that keeps fetched bars with times not yet stored;
  - the lowest low and the highest high.
- `ChartUtils.dfy`: `scale`, `calculateDynamicPrecision`, `getMaxAmountOfBarsToFitScreen`, and
  `Math.ceil`/`round`/`max`/`min`/`abs` over reals. `RealArith.dfy` holds small order facts
  about products and quotients.
- `TimeFrames.dfy`: the minutes table and its key list.
- `CandleGeometry.dfy`: formulas that all three generations repeat:
  - the width clamp and the bar x;
  - the offset that keeps the pointer's fractional bar index fixed while zooming;
  - the round-to-nearest snap of the pointer.
- `VisibleRange.dfy`:
  - the `getRenderedBars` loop, with its specification (first and last drawn index, the drawn
    bars as a slice);
  - the "significantly different" test and the choice of side;
  - the resulting prefetch decision.
- `DataProvider.dfy`:
  - the store as a value (`Store`);
  - each fetch as a function from the old store and the API answer to an `Outcome` (new store,
    result, range requested);
  - the class whose methods are proved to follow those functions.
- `Viewport.dfy`: the viewport as a value (`Geometry`), the pure transforms and visibility
  tests, and the `ViewportManager` class.
- `ChartRendering.dfy`, `Refactoring.dfy`, `View.dfy`: the three renderer classes, minus the
  drawing.

The remote source is not called. Each fetch method receives the answer for the request it
makes. That answer is:

- `Chunks(list)`: a chunk list, possibly empty;
- `Null`: a `null` body;
- `Rejected`: a rejected promise, i.e. a thrown error.

The requests themselves go into a ghost log, so contracts state which range was asked for.
Callbacks are recorded as events:

- The viewport appends its state to `notifications` each time a setter fires.
- The `chartRendering` renderer's `OnViewPortChange` runs once per new entry, in order.
- The directions passed to `barsAreMissingFromSide` go into `missingRequests`, and those passed
  to `loadMoreBarsCallback` go into `loadRequests`.

Three behaviours of the code are worth knowing when reading the contracts:

- **Backward fetch.** `fetchBackwardBarsAndSetToStore` appends the surviving bars after the
  stored ones (`[...currentBars, ...filtered]`), although they are older. `BackwardMergeShape`
  states this.
- **View forward fetch.** It moves `end` by exactly 100 however many bars survive the filter.
- **Backward guard.** There is no partial backward fetch: when `start - amount < 0` the call
  skips without a request.

## Model

| member | source | states |
|---|---|---|
| Bars.ShiftAll | src/refactoring/DataProvider.ts:120-124 | same length; bar i is bar i with its time moved by the chunk start and every other field kept |
| Bars.ProcessChunks | src/refactoring/DataProvider.ts:120-124 | the flattening has as many bars as all chunks together |
| Bars.ProcessChunksAppend | src/refactoring/DataProvider.ts:120-124 | normalising a concatenation of chunk lists is the concatenation of the results; counts add |
| Bars.ProcessChunksAt | src/refactoring/DataProvider.ts:120-124 | bar j of chunk k sits right after all bars of the earlier chunks, with its time shifted by its own chunk's start |
| Bars.FreshBars | src/refactoring/DataProvider.ts:73-75 | the filter is never longer than the fetched list |
| Bars.FreshBarsMembers | src/refactoring/DataProvider.ts:73-75 | every kept bar was fetched and has a time not in `current`; every fetched bar with such a time is kept |
| Bars.FreshBarsAppend | src/refactoring/DataProvider.ts:73-75 | the filter distributes over concatenation, so it keeps fetched order |
| Bars.FreshBarsOfKnown | src/refactoring/DataProvider.ts:73-75 | a response whose every time is stored contributes nothing |
| Bars.FreshBarsOfUnknown | src/refactoring/DataProvider.ts:73-75 | a response with no stored time is kept whole |
| Bars.FreshBarsOfSelf | src/refactoring/DataProvider.ts:73-75 | filtering the stored bars against themselves leaves nothing |
| Bars.FreshBarsUnique | src/refactoring/DataProvider.ts:73-75 | a duplicate-free response stays duplicate-free after filtering |
| Bars.MergeKeepsTimesUnique | src/refactoring/DataProvider.ts:73-78 | `current ++ filtered` has no duplicate time when `current` and the response have none |
| Bars.MinLow | src/view/CandleStickRenderer.ts:35 | the result is at most every bar's low and equals one of them |
| Bars.MaxHigh | src/view/CandleStickRenderer.ts:36 | the result is at least every bar's high and equals one of them |
| ChartUtils.Ceil | src/utils/ChartUtils.ts:24-30 | `Math.ceil`: the integer r with r-1 < x <= r |
| ChartUtils.Round | src/refactoring/CandleStickRenderer.ts:387-391 | `Math.round`: the integer r with x-0.5 < r <= x+0.5, a half rounding up |
| ChartUtils.Scale | src/utils/ChartUtils.ts:2-10 | computes `(b-a)*(value-min)/(max-min) + a`; what that means is stated by the four lemmas below |
| ChartUtils.ScaleEnds | src/utils/ChartUtils.ts:2-10 | `min` maps to `a` and `max` maps to `b` |
| ChartUtils.ScaleIsAffine | src/utils/ChartUtils.ts:2-10 | scale is `a + (b-a)/(max-min) * (value-min)` |
| ChartUtils.ScaleRoundTrip | src/utils/ChartUtils.ts:2-10 | scaling back from [a,b] to [min,max] returns the value, for non-empty ranges |
| ChartUtils.SlopeSign | src/utils/ChartUtils.ts:2-10 | the slope has the sign of `(b-a)*(max-min)` |
| ChartUtils.ScaleOrder | src/utils/ChartUtils.ts:2-10 | order is preserved when the ranges point the same way and reversed otherwise |
| ChartUtils.CalculateDynamicPrecision | src/utils/ChartUtils.ts:12-17 | never negative; 2 for an empty range; otherwise at least `ceil(-log10(range)) + 2` |
| ChartUtils.GetMaxAmountOfBarsToFitScreen | src/utils/ChartUtils.ts:24-30 | the result r satisfies r-2 < W/(w+s) <= r-1, i.e. r = ceil(W/(w+s)) + 1 |
| ChartUtils.MaxAmountAtLeastOne | src/utils/ChartUtils.ts:24-30 | at least one slot for a non-negative width and positive step |
| ChartUtils.MaxAmountDefaultChart | src/utils/ChartUtils.ts:24-30 | widths 10 and 2 on 500 pixels give 43 |
| TimeFrames.TimeframesAreTheKeys | src/utils/minutesInTimeFrames.ts:1-16 | the key list has 10 distinct entries and is exactly the table's key set |
| TimeFrames.MinutesTable | src/utils/minutesInTimeFrames.ts:1-12 | the minute values and 1h/4h/1d/1w/1mo/1y as multiples of the smaller units |
| TimeFrames.MinutesIncreasing | src/utils/minutesInTimeFrames.ts:1-16 | minutes strictly increase in declaration order |
| CandleGeometry.ClampWidth | src/chartRendering/ViewportManager.ts:57-60 | the result lies in [0.5, 20], equals the value inside the range and the nearer end outside it |
| CandleGeometry.AnchoredOffsetX | src/chartRendering/ViewportManager.ts:102-113 | the new offset keeps the fractional bar index under the anchor; that index's x is the anchor again |
| CandleGeometry.NearestCandleIndex | src/refactoring/CandleStickRenderer.ts:387-391 | the chosen bar's slot starts within half a step of the pointer |
| CandleGeometry.RoundSnapToCandleCenter | src/refactoring/CandleStickRenderer.ts:387-399 | the smaller of the canvas width and the centre of the nearest candle, whose left edge lies within half a step of the pointer |
| CandleGeometry.RoundSnapIsIdempotent | src/refactoring/CandleStickRenderer.ts:387-399 | with a positive spacing, snapping an already snapped pointer inside the canvas returns it unchanged |
| VisibleRange.Visible | src/chartRendering/CandleStickRenderer.ts:402-407 | the drawing test of the scan: the bar's left edge x has `x + width > 0` and `x < limit` |
| VisibleRange.VisibleBars | src/chartRendering/CandleStickRenderer.ts:402-414 | the drawn bars among the first n are at most n |
| VisibleRange.FirstVisible | src/chartRendering/CandleStickRenderer.ts:402-414 | -1 iff nothing is drawn; otherwise a drawn index with nothing drawn before it |
| VisibleRange.LastVisible | src/chartRendering/CandleStickRenderer.ts:402-414 | -1 iff nothing is drawn; otherwise a drawn index with nothing drawn after it |
| VisibleRange.ScanRenderedBars | src/chartRendering/CandleStickRenderer.ts:387-420 | the loop returns exactly the drawn bars in order, the first drawn index and the last drawn index |
| VisibleRange.VisibleContiguous | src/chartRendering/CandleStickRenderer.ts:402-407 | with a positive step, the drawn indices have no gaps |
| VisibleRange.VisibleBarsSlice | src/chartRendering/CandleStickRenderer.ts:402-414 | when exactly [lo, hi) is drawn, the pushed bars are that slice of the bar list |
| VisibleRange.RenderedIsSlice | src/chartRendering/CandleStickRenderer.ts:387-420 | start is -1 iff end is -1 and then nothing is drawn; otherwise the drawn bars are `bars[start..end+1]` |
| VisibleRange.SignificantlyDifferent | src/chartRendering/CandleStickRenderer.ts:380-385 | true iff the two counts are strictly more than 10 apart, in either direction |
| VisibleRange.ChooseDirection | src/chartRendering/CandleStickRenderer.ts:371-377 | BACKWARD iff the first drawn index is 0; FORWARD otherwise, -1 included |
| VisibleRange.FitAmount | src/chartRendering/CandleStickRenderer.ts:359-363 | the number of bar slots the scan's drawing area holds, by `getMaxAmountOfBarsToFitScreen` |
| VisibleRange.PrefetchDecision | src/chartRendering/CandleStickRenderer.ts:358-377 | asks iff the drawn count is significantly different from the fit count; BACKWARD iff it asks and bar 0 is drawn |
| VisibleRange.DefaultChartThirtyBarsTriggers | src/chartRendering/CandleStickRenderer.ts:359-369 | 43 slots with 30 drawn bars triggers a request |
| DataProvider.WithBars | src/refactoring/DataProvider.ts:146-157 | `setBars` on the store value: stores the bars and folds the bounds over them; `WithBarsWidens` states its effect |
| DataProvider.InitialFetch | src/refactoring/DataProvider.ts:26-47 | `fetchCandleSticks` on the store value: skipped while a fetch holds the lock; otherwise the [start, end) request, and a non-empty answer replaces the bars and sets `end = start + count` |
| DataProvider.BackwardFetch | src/refactoring/DataProvider.ts:55-84 | `fetchBackwardBarsAndSetToStore` on the store value: the lock and `start - amount` guards, the [start-amount, start) request, the filtered merge and the cursor move |
| DataProvider.ForwardFetch | src/refactoring/DataProvider.ts:89-118 | `fetchForwardBarsAndSetToStore` on the store value: the lock and loaded guards, the [end, end+amount) request, the filtered merge and the cursor move |
| DataProvider.LowerBound | src/refactoring/DataProvider.ts:146-157 | the new low is set iff it was already set or there are bars; it never rises, is at most every bar's low, and is the old bound or a bar's low |
| DataProvider.UpperBound | src/refactoring/DataProvider.ts:146-157 | the high bound is symmetric to the low: set iff it was set or there are bars, never falls, covers every bar's high and is attained |
| DataProvider.LoadedWindow | src/refactoring/DataProvider.ts:126-144 | Ok iff the bars and both bounds are set, and then exactly the stored values; otherwise the error "Bars are not loaded" |
| DataProvider.LockDiscipline | src/refactoring/DataProvider.ts:26-118 | a call that finds the lock held returns Skipped, requests nothing and changes nothing; a call that takes the lock always releases it |
| DataProvider.OnlyDoneChangesState | src/refactoring/DataProvider.ts:26-118 | a thrown, empty or skipped fetch leaves the store as it was |
| DataProvider.InitialFetchReplaces | src/refactoring/DataProvider.ts:37-42 | a non-empty answer requests [start, end), stores the normalised bars, keeps `start` and sets `end = start + count` |
| DataProvider.BackwardFetchGuard | src/refactoring/DataProvider.ts:60-61 | nothing loaded or `start - amount < 0`: skipped, no request, no change |
| DataProvider.BackwardFetchFromZeroSkipped | src/refactoring/DataProvider.ts:60-61 | with start 0 and end 100, asking 5000 bars back is skipped and leaves the store unchanged |
| DataProvider.ForwardMergeShape | src/refactoring/DataProvider.ts:97-113 | requests [end, end+amount), appends the filtered bars, moves `end` by their number and keeps `start` |
| DataProvider.BackwardMergeShape | src/refactoring/DataProvider.ts:62-78 | requests [start-amount, start), appends the filtered bars at the end, moves `start` back by their number and keeps `end` |
| DataProvider.FullOverlapIsIdempotent | src/refactoring/DataProvider.ts:73-78 | an answer whose times are all stored leaves bars, cursors and bounds exactly as they were |
| DataProvider.MergeAddsNoDuplicate | src/refactoring/DataProvider.ts:108-113 | both merges keep the stored times duplicate-free |
| DataProvider.LowerBoundStep | src/refactoring/DataProvider.ts:149-152 | one loop step lowers the bound to the bar's low exactly when it is unset or higher |
| DataProvider.UpperBoundStep | src/refactoring/DataProvider.ts:153-155 | one loop step raises the bound to the bar's high exactly when it is unset or lower |
| DataProvider.WithBarsWidens | src/refactoring/DataProvider.ts:146-157 | `setBars` only widens the bounds, and afterwards they cover every stored bar |
| DataProvider.FetchWidensBounds | src/refactoring/DataProvider.ts:26-157 | each of the three fetches keeps the bounds covering the bars and only widens them |
| DataProvider.InitialFetchWidens | src/refactoring/DataProvider.ts:26-47 | the initial load keeps the bounds covering the bars and only widens them |
| DataProvider.BackwardFetchWidens | src/refactoring/DataProvider.ts:55-84 | the backward fetch keeps the bounds covering the bars and only widens them |
| DataProvider.ForwardFetchWidens | src/refactoring/DataProvider.ts:89-118 | the forward fetch keeps the bounds covering the bars and only widens them |
| DataProvider.DataProvider.constructor | src/refactoring/DataProvider.ts:3-21 | nothing loaded, lock free, the given cursors, no request made |
| DataProvider.DataProvider.SetBars | src/refactoring/DataProvider.ts:146-157 | the loop stores the bars and leaves the bounds as `LowerBound`/`UpperBound` of the old bounds over the new bars |
| DataProvider.DataProvider.MergeFetched | src/refactoring/DataProvider.ts:106-113 | stores the current bars followed by the normalised fetched bars with new times |
| DataProvider.DataProvider.FetchCandleSticks | src/refactoring/DataProvider.ts:26-47 | new state, result and request log are those of `InitialFetch` on the old state |
| DataProvider.DataProvider.FetchBackwardBarsAndSetToStore | src/refactoring/DataProvider.ts:55-84 | new state, result and request log are those of `BackwardFetch` on the old state |
| DataProvider.DataProvider.FetchForwardBarsAndSetToStore | src/refactoring/DataProvider.ts:89-118 | new state, result and request log are those of `ForwardFetch` on the old state |
| DataProvider.DataProvider.GetBars | src/refactoring/DataProvider.ts:126-144 | returns `LoadedWindow` of the state: the error until loaded, the stored values afterwards |
| Viewport.TransformedX | src/chartRendering/ViewportManager.ts:127-131 | `getTransformedX`: `index * (w + s) - offsetX`; `IndexOfTransformedX` and `TransformedXBracketsX` relate it to its inverse |
| Viewport.IndexByCanvasX | src/chartRendering/ViewportManager.ts:121-125 | `getIndexByCanvasX`: `floor((x + offsetX) / (w + s))` |
| Viewport.TransformedY | src/chartRendering/ViewportManager.ts:133-138 | `getTransformedY`: the price scaled from [min, max] onto [effective height, 0], less `offsetY` |
| Viewport.PriceByCanvasY | src/chartRendering/ViewportManager.ts:140-148 | `getPriceByCanvasY`: `y + offsetY` scaled from [effective height, 0] back onto [min, max]; `PriceOfTransformedY` states the round trip |
| Viewport.VisiblePriceBounds | src/chartRendering/ViewportManager.ts:150-155 | `getVisiblePriceBounds`: both bounds shifted by `-offsetY` pixels' worth of price |
| Viewport.InViewportByBarIdx | src/chartRendering/ViewportManager.ts:66-69 | `isInViewportByBarIdx`: the bar's x lies in [0, effective width] |
| Viewport.InViewportByPriceValue | src/chartRendering/ViewportManager.ts:70-77 | `isInViewportByPriceValue`: the price's y lies in [0, effective height] |
| Viewport.InViewportAndOnPriceScale | src/chartRendering/ViewportManager.ts:79-81 | `isInViewportAndOnPriceScale`: x lies in [effective width, canvas width] |
| Viewport.ZoomedPriceBounds | src/chartRendering/ViewportManager.ts:114-119 | `zoomY`'s bounds: each moves inwards by `scaleDelta` times the range |
| Viewport.PannedByBars | src/chartRendering/ViewportManager.ts:97-100 | only the x offset changes |
| Viewport.PanByWholeBars | src/chartRendering/ViewportManager.ts:97-100 | panning by k bars puts bar i+k where bar i was |
| Viewport.IndexOfTransformedX | src/chartRendering/ViewportManager.ts:121-131 | `getIndexByCanvasX(getTransformedX(i)) == i` for a non-zero step |
| Viewport.TransformedXBracketsX | src/chartRendering/ViewportManager.ts:121-131 | every x lies in [x of its bar, that + step) for a positive step |
| Viewport.InViewportByBarIdxRange | src/chartRendering/ViewportManager.ts:66-69 | a bar is in the viewport iff offsetX/step <= i <= (effectiveWidth + offsetX)/step |
| Viewport.PriceOfTransformedY | src/chartRendering/ViewportManager.ts:133-148 | the price at the y of a value is the value again |
| Viewport.VisiblePriceBoundsKeepRange | src/chartRendering/ViewportManager.ts:150-155 | both ends move by the same `-offsetY` pixels' worth of price, so the range is kept |
| Viewport.InViewportIffWithinVisibleBounds | src/chartRendering/ViewportManager.ts:70-77 | with min < max and a positive height, a price is in the viewport iff it lies within the visible bounds |
| Viewport.PriceScaleStrip | src/chartRendering/ViewportManager.ts:79-81 | the price-scale strip is the last `priceScaleMarginX` pixels of the canvas |
| Viewport.ZoomedPriceBoundsKeepMidpoint | src/chartRendering/ViewportManager.ts:114-119 | the midpoint is kept and the range scales by 1 - 2d |
| Viewport.ZoomedPriceBoundsExample | src/chartRendering/ViewportManager.ts:114-119 | zoomY(0.1) on (1, 2) gives (1.1, 1.9) |
| Viewport.ViewportManager.constructor | src/chartRendering/ViewportManager.ts:15-36 | the given sizes and width, zero offsets and bounds, no callback |
| Viewport.ViewportManager.SetOffsetX | src/chartRendering/ViewportManager.ts:39-42 | only offsetX changes; one callback with the new state |
| Viewport.ViewportManager.SetOffsetY | src/chartRendering/ViewportManager.ts:48-51 | only offsetY changes; one callback with the new state |
| Viewport.ViewportManager.SetCandlestickWidth | src/chartRendering/ViewportManager.ts:57-60 | only the width changes, to the clamped value; one callback |
| Viewport.ViewportManager.UpdateCanvasSize | src/chartRendering/ViewportManager.ts:83-86 | only the canvas size changes; no callback |
| Viewport.ViewportManager.UpdateCandlestickWidth | src/chartRendering/ViewportManager.ts:88-90 | as the width setter: clamped width, one callback |
| Viewport.ViewportManager.Pan | src/chartRendering/ViewportManager.ts:92-95 | both offsets move by the deltas; two callbacks, the first after only x moved |
| Viewport.ViewportManager.PanByXAmount | src/chartRendering/ViewportManager.ts:97-100 | offsetX moves by n steps and nothing else changes; one callback |
| Viewport.ViewportManager.ZoomX | src/chartRendering/ViewportManager.ts:102-113 | the width is clamp(w + d); the fraction under the anchor is unchanged; only width and offsetX change; three callbacks |
| Viewport.ViewportManager.ZoomY | src/chartRendering/ViewportManager.ts:114-119 | the bounds become `ZoomedPriceBounds`, nothing else changes, no callback |
| Viewport.ViewportManager.SetPriceBounds | src/chartRendering/ViewportManager.ts:157-160 | only the bounds change; no callback |
| ChartRendering.ScanOf | src/chartRendering/CandleStickRenderer.ts:402-407 | the scan `getRenderedBars` runs: the viewport's width, spacing and offset, limited to the width left of the price scale |
| ChartRendering.ViewChangeRequest | src/chartRendering/CandleStickRenderer.ts:348-378 | one callback asks for bars at most once |
| ChartRendering.ViewChangeRequestSpec | src/chartRendering/CandleStickRenderer.ts:348-378 | asks iff bars are held and the drawn count is significantly off (price-scale margin excluded); BACKWARD iff bar 0 is drawn |
| ChartRendering.ViewChangeRequests | src/chartRendering/CandleStickRenderer.ts:348-356 | at most one request per callback; none while no bars are held |
| ChartRendering.ViewChangeRequestsAppend | src/chartRendering/CandleStickRenderer.ts:348-378 | the requests of two runs of callbacks are those of the first, then those of the second |
| ChartRendering.WheelDispatch | src/chartRendering/CandleStickRenderer.ts:318-344 | ignored iff a bound is 0; a price zoom of ∓0.005 iff over the price scale; a time zoom of ∓0.1 at the pointer iff mostly vertical; a pan by deltaX otherwise |
| ChartRendering.ApplyWheel | src/chartRendering/CandleStickRenderer.ts:318-344 | a price zoom keeps the midpoint and scales the range; a time zoom clamps the width and keeps the anchor fraction; a pan moves only offsetX |
| ChartRendering.FloorSnapToCandleCenter | src/chartRendering/CandleStickRenderer.ts:439-447 | the smaller of the canvas width and the centre of the candle whose slot [left edge, left edge + step) holds x |
| ChartRendering.FloorSnapIsIdempotent | src/chartRendering/CandleStickRenderer.ts:439-447 | snapping an already snapped pointer inside the canvas returns it unchanged |
| ChartRendering.CandleStickRenderer.constructor | src/chartRendering/CandleStickRenderer.ts:24-52 | a fresh viewport with width 10, spacing 2, margins 30/70 and the canvas size; nothing rendered |
| ChartRendering.CandleStickRenderer.GetRenderedBars | src/chartRendering/CandleStickRenderer.ts:387-420 | nothing (-1, -1) without bars; otherwise the scan left of the price scale |
| ChartRendering.CandleStickRenderer.OnViewPortChange | src/chartRendering/CandleStickRenderer.ts:348-378 | appends exactly `ViewChangeRequest` of the state the callback saw |
| ChartRendering.CandleStickRenderer.Notified1 | src/chartRendering/CandleStickRenderer.ts:348-378 | handling one fired callback adds its requests |
| ChartRendering.CandleStickRenderer.Notified2 | src/chartRendering/CandleStickRenderer.ts:348-378 | handling two fired callbacks adds their requests in order |
| ChartRendering.CandleStickRenderer.Notified3 | src/chartRendering/CandleStickRenderer.ts:348-378 | handling three fired callbacks adds their requests in order |
| ChartRendering.CandleStickRenderer.Render | src/chartRendering/CandleStickRenderer.ts:77-88 | given bounds replace the viewport's; a 0 bound stops it; otherwise it pans by n steps (one callback, which sees the previous bars) and stores the bars |
| ChartRendering.CandleStickRenderer.RerenderLog | src/chartRendering/CandleStickRenderer.ts:422-437 | the callback a re-render fires: the current viewport when bars are held and neither bound is 0, none otherwise |
| ChartRendering.CandleStickRenderer.RequestRender | src/chartRendering/CandleStickRenderer.ts:422-437 | with bars, re-renders with the stored bounds (one callback unless a bound is 0); the viewport is unchanged |
| ChartRendering.CandleStickRenderer.HandleMouseMove | src/chartRendering/CandleStickRenderer.ts:280-302 | stores y and the floor-snapped x; the viewport is unchanged; the log gains exactly the re-render's callback, and its requests are recorded |
| ChartRendering.CandleStickRenderer.HandleDrag | src/chartRendering/CandleStickRenderer.ts:304-306 | pans by (-dx, -dy); the log gains the state after the x move, then the state after both, and their requests are recorded |
| ChartRendering.CandleStickRenderer.HandleCanvasResize | src/chartRendering/CandleStickRenderer.ts:308-316 | the canvas becomes the window less 100; the viewport keeps its size; the log gains exactly the re-render's callback, and its requests are recorded |
| ChartRendering.CandleStickRenderer.HandleMouseWheel | src/chartRendering/CandleStickRenderer.ts:318-346 | the viewport becomes `ApplyWheel` of `WheelDispatch`; the log gains nothing when ignored, the re-render's callback after a price zoom, zoomX's three states then the re-render's after a time zoom, pan's two states then the re-render's after a pan; their requests are recorded |
| ChartRendering.CandleStickRenderer.ZoomXAndRender | src/chartRendering/CandleStickRenderer.ts:335-345 | the time-zoom branch: the anchored zoom; the log gains the zoomed state twice, the re-anchored state, then the re-render's callback, and their requests are recorded |
| ChartRendering.CandleStickRenderer.PanXAndRender | src/chartRendering/CandleStickRenderer.ts:341-345 | the pan branch: offsetX moves by deltaX; the log gains the panned state twice (`pan(deltaX, 0)` sets both offsets), then the re-render's callback, and their requests are recorded |
| ChartRendering.CandleStickRenderer.RequestsSplit | src/chartRendering/CandleStickRenderer.ts:348-378 | requests since n are those up to m, then those since m |
| Refactoring.ScaledPrice | src/refactoring/CandleStickRenderer.ts:236-240 | `getScaledPrice`: the pointer y scaled from [canvas height, 0] onto the bounds, an unset bound read as 0 |
| Refactoring.ScaledY | src/refactoring/CandleStickRenderer.ts:401-403 | `getScaledY`: the price scaled from [min, max] onto [canvas height, 0] |
| Refactoring.ScaledPriceOfScaledY | src/refactoring/CandleStickRenderer.ts:236-240 | the price at the y of a value is the value, with distinct bounds and non-zero height |
| Refactoring.ScaledYReversesOrder | src/refactoring/CandleStickRenderer.ts:401-403 | a higher price is drawn at a smaller y |
| Refactoring.LoadRequest | src/refactoring/CandleStickRenderer.ts:318-337 | at most one call; made iff bars and both bounds are set and the count is significantly off; BACKWARD iff bar 0 is drawn |
| Refactoring.CandleStickRenderer.constructor | src/refactoring/CandleStickRenderer.ts:10-41 | width 10, zero offsets, nothing loaded |
| Refactoring.CandleStickRenderer.Render | src/refactoring/CandleStickRenderer.ts:55-89 | given bounds replace the stored ones; with an unset or 0 bound nothing else changes; otherwise the offset moves n steps and the bars are stored |
| Refactoring.CandleStickRenderer.GetRenderedBars | src/refactoring/CandleStickRenderer.ts:353-385 | nothing (-1, -1) without bars; otherwise the scan over the full canvas width |
| Refactoring.CandleStickRenderer.ChangeOffset | src/refactoring/CandleStickRenderer.ts:305-344 | stores both offsets and records exactly `LoadRequest` of the new state |
| Refactoring.CandleStickRenderer.HandleMouseMove | src/refactoring/CandleStickRenderer.ts:242-260 | stores y and the round-snapped x; the view is unchanged |
| Refactoring.CandleStickRenderer.HandleDrag | src/refactoring/CandleStickRenderer.ts:262-264 | offsets minus the deltas, with the load request of the new view |
| Refactoring.CandleStickRenderer.HandleCanvasResize | src/refactoring/CandleStickRenderer.ts:266-276 | the canvas becomes the window less 100; nothing else changes |
| Refactoring.CandleStickRenderer.HandleMouseWheel | src/refactoring/CandleStickRenderer.ts:278-303 | zoom by ∓0.2, clamped, keeping the anchor fraction; or a scroll by deltaX; offsetY kept; the new view's load request recorded |
| View.LastBarX | src/view/CandleStickRenderer.ts:84-87 | the canvas x just past the last bar: `totalBars * (w + 2) - scrollOffsetX` |
| View.NeedsMoreBars | src/view/CandleStickRenderer.ts:84-90 | the forward prefetch test: the end of the last bar lies less than 200 px to the right of the canvas's right edge, or left of it |
| View.NeedsMoreBarsMonotone | src/view/CandleStickRenderer.ts:84-90 | more scroll or a wider canvas never withdraws the need; more bars never create it |
| View.BoundsOf | src/view/CandleStickRenderer.ts:33-37 | bounds set iff there are bars; the low and high cover every bar and are attained |
| View.ForwardMerge | src/view/CandleStickRenderer.ts:99-108 | the old bars followed by exactly the fetched bars whose times are not among them (`FreshBars`), so every added bar has a new time and at most the fetched count is added |
| View.ForwardMergeProperties | src/view/CandleStickRenderer.ts:104-108 | a fully known answer changes nothing; no duplicate time is introduced |
| View.CandleStickRenderer.constructor | src/view/CandleStickRenderer.ts:14-46 | zero offsets, width 10, not dragging, no parameters, no bars |
| View.CandleStickRenderer.SetBars | src/view/CandleStickRenderer.ts:33-37 | the bars are stored and the bounds are `BoundsOf` them |
| View.CandleStickRenderer.SetParams | src/view/CandleStickRenderer.ts:265-270 | stores the four parameters |
| View.CandleStickRenderer.FetchData | src/view/CandleStickRenderer.ts:48-71 | requests [start, end) iff all parameters are set and the symbol is non-empty; the normalised bars replace the old ones iff the first chunk has bars |
| View.CandleStickRenderer.FetchDataIfNeeded | src/view/CandleStickRenderer.ts:78-116 | requests [end, end+100) iff the parameters are set and the last bar is within 200 px; a non-empty answer merges forward and moves end by exactly 100 |
| View.CandleStickRenderer.MouseDown | src/view/CandleStickRenderer.ts:273-278 | starts dragging from the pointer |
| View.CandleStickRenderer.MouseMove | src/view/CandleStickRenderer.ts:280-295 | while dragging, offsets minus the pointer delta and the drag restarts here; the pointer is stored, x round-snapped |
| View.CandleStickRenderer.MouseUp | src/view/CandleStickRenderer.ts:301-304 | stops dragging |
| View.CandleStickRenderer.MouseLeave | src/view/CandleStickRenderer.ts:306-309 | stops dragging |
| View.CandleStickRenderer.Wheel | src/view/CandleStickRenderer.ts:311-333 | zoom by ∓0.2, clamped, keeping the anchor fraction; otherwise a scroll by deltaX |

## Left out

- The network client (`src/api/CandleStickApi.ts`) is not part of this model. The API's answer
  is a parameter of every fetch, and `Date.now` is not used.
- Async execution, promises and the lodash `throttle`:
  - each fetch is one atomic step;
  - a call that finds the lock held stands for a call made while another fetch awaits its
    answer;
  - a rejected promise is the `Rejected` answer, which releases the lock and yields `Threw`;
  - in the `src/view` listeners, the throttled `fetchDataIfNeeded` and the `render` calls are
    not modelled; `FetchDataIfNeeded` is a separate step.
- The DOM: canvas and context, listeners in `InputHandler`, `getBoundingClientRect`, cursor
  styles and `console` diagnostics. The pointer position relative to the canvas is an input.
- All drawing and text formatting:
  - `drawCandles`, `drawPriceScale` (with its price-label loop), `drawTimeScale`, the overlays
    and the crosshair;
  - `toFixed`, `toLocaleTimeString` and `toLocaleDateString`.

  `render` keeps only its guard, bounds, offset and stored bars. The `src/view` `render` and
  its draw helpers are not modelled at all.
- IEEE floating point: prices, pixel positions, offsets, widths and sizes are exact reals,
  with NaN, Infinity and rounding not modelled. Bar times, chunk starts, the `start`/`end`
  cursors, `amount` and bar counts are unbounded integers, since the source only ever gives
  them whole values. Divisions the source performs unguarded become preconditions:
  - `Scale`, `ScaledY` and `TransformedY`: `max != min`;
  - `GetMaxAmountOfBarsToFitScreen` and `IndexByCanvasX`: a non-zero step;
  - `NearestCandleIndex`, `RoundSnapToCandleCenter`, `FloorSnapToCandleCenter` and
    `LoadRequest`: a positive step;
  - `ZoomX`: non-zero old and new steps;
  - `PriceByCanvasY` and `VisiblePriceBounds`: a non-zero effective height;
  - `ScaledPrice`: a non-zero canvas height.

  The renderer classes' `Valid()` keeps the width in [0.5, 20] with spacing 2, so their calls
  meet these.
- `Math.log10` is an uninterpreted function parameter of `CalculateDynamicPrecision`.
- The wiring in `src/index.ts` and `src/setupUI.ts` is not part of this model:
  - `{ fetchLess: true }` passed as an amount;
  - the post-fetch offset adjustment, which is simply an input of `Render`;
  - the symbol/timeframe selectors.
- Default argument values (`amount = 100`, `offsetXBarsAmountAdjustment = 0`) are not modelled;
  callers pass the value.
- View.CandleStickRenderer.SetBars: for an empty sequence the source stores `Math.min()` =
  +Infinity and `Math.max()` = -Infinity as bounds. The model stores `None` for both instead,
  because Infinity is not a real.
- Bars.ProcessChunks: its own contract states only the length. The contents are stated by
  `ProcessChunksAt` and `ShiftAll`.
- Bars.FreshBars: its own contract states only the length bound. Which bars are kept is stated
  by `FreshBarsMembers` and the other `FreshBars*` lemmas.
- VisibleRange.VisibleBars: its own contract states only the length bound. The contents are
  stated by `VisibleBarsSlice` and `RenderedIsSlice`.
- ChartRendering.ViewChangeRequest: its own contract states only "at most one". When and which
  direction are stated by `ViewChangeRequestSpec`.
- The getters that only read a field (`offsetX`, `getCurrentCandlestickWidth`,
  `getPriceBounds`, the effective-size getters) are field reads or `Geometry` members, not
  operations of their own.
