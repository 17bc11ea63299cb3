/** The bar store of the wired chart (`DataProvider`): it owns the bar
    sequence, the `start`/`end` pagination cursors, the running price bounds
    and the single-flight fetch lock. The remote call is abstracted: each
    fetch method receives the response the API gives for the request it
    makes, and records that request in a log. A fetch is one atomic step; a
    call that finds the lock held stands for a call made while another fetch
    is awaiting its response. */
module DataProvider {

  import opened Wrappers
  import opened Bars

  /** The fetch lock (`isFetching`). */
  datatype FetchState = Idle | Fetching

  /** `true` (a fetch was done), `false` (skipped), or the API's error
      propagating out of the method after the lock is released. */
  datatype FetchResult = Done | Skipped | Threw

  /** The stored state, as a value. */
  datatype Store = Store(
    bars: Option<seq<Bar>>,
    priceLow: Option<real>,
    priceHigh: Option<real>,
    start: int,
    end: int,
    fetchState: FetchState)

  /** The requested offset range [from, to). */
  datatype Range = Range(from: int, to: int)

  /** What one fetch call does: the new state, the result, and the range it
      asked the API for (`None` if no request was made). */
  datatype Outcome = Outcome(after: Store, result: FetchResult, requested: Option<Range>)

  /** What `getBars` returns. */
  datatype Window = Window(bars: seq<Bar>, priceLow: real, priceHigh: real)

  /** The store before anything is loaded. */
  function InitialStore(start: int, end: int): Store
  {
    Store(None, None, None, start, end, Idle)
  }

  /** The low bound after `setBars(bars)`: the old bound lowered to each new
      bar's low (`priceLow === null || bars[i].Low < priceLow`). */
  function LowerBound(old_: Option<real>, bars: seq<Bar>): (r: Option<real>)
    ensures r.Some? <==> old_.Some? || |bars| > 0
    ensures r.Some? && old_.Some? ==> r.value <= old_.value
    ensures r.Some? ==> forall i :: 0 <= i < |bars| ==> r.value <= bars[i].low
    ensures r.Some? ==> r == old_ || exists i :: 0 <= i < |bars| && r.value == bars[i].low
  {
    if bars == [] then old_
    else
      var m := MinLow(bars);
      if old_.None? || m < old_.value then Some(m) else old_
  }

  /** The high bound after `setBars(bars)`, symmetric to `LowerBound`. */
  function UpperBound(old_: Option<real>, bars: seq<Bar>): (r: Option<real>)
    ensures r.Some? <==> old_.Some? || |bars| > 0
    ensures r.Some? && old_.Some? ==> r.value >= old_.value
    ensures r.Some? ==> forall i :: 0 <= i < |bars| ==> r.value >= bars[i].high
    ensures r.Some? ==> r == old_ || exists i :: 0 <= i < |bars| && r.value == bars[i].high
  {
    if bars == [] then old_
    else
      var m := MaxHigh(bars);
      if old_.None? || m > old_.value then Some(m) else old_
  }

  /** `setBars`: store the sequence and widen the bounds over it. */
  function WithBars(st: Store, bars: seq<Bar>): Store
  {
    st.(bars := Some(bars), priceLow := LowerBound(st.priceLow, bars), priceHigh := UpperBound(st.priceHigh, bars))
  }

  /** `fetchCandleSticks`: request [start, end); a non-empty chunk list
      replaces the bars and sets `end = start + count`. */
  function InitialFetch(st: Store, response: Response): Outcome
  {
    if st.fetchState == Fetching then Outcome(st, Skipped, None)
    else
      var req := Some(Range(st.start, st.end));
      match response
      case Rejected => Outcome(st, Threw, req)
      case Null => Outcome(st, Skipped, req)
      case Chunks(chunks) =>
        if |chunks| == 0 then Outcome(st, Skipped, req)
        else
          var flat := ProcessChunks(chunks);
          Outcome(WithBars(st.(end := st.start + |flat|), flat), Done, req)
  }

  /** `fetchBackwardBarsAndSetToStore(amount)`: skipped without a request
      when nothing is loaded or `start - amount < 0`; otherwise request
      [start - amount, start), append the bars with unknown times and move
      `start` back by their number. */
  function BackwardFetch(st: Store, amount: int, response: Response): Outcome
  {
    if st.fetchState == Fetching then Outcome(st, Skipped, None)
    else if st.bars.None? || st.start - amount < 0 then Outcome(st, Skipped, None)
    else
      var current := st.bars.value;
      var req := Some(Range(st.start - amount, st.start));
      match response
      case Rejected => Outcome(st, Threw, req)
      case Null => Outcome(st, Skipped, req)
      case Chunks(chunks) =>
        if |chunks| == 0 then Outcome(st, Skipped, req)
        else
          var filtered := FreshBars(current, ProcessChunks(chunks));
          Outcome(WithBars(st.(start := st.start - |filtered|), current + filtered), Done, req)
  }

  /** `fetchForwardBarsAndSetToStore(amount)`: skipped without a request
      when nothing is loaded; otherwise request [end, end + amount), append
      the bars with unknown times and move `end` on by their number. */
  function ForwardFetch(st: Store, amount: int, response: Response): Outcome
  {
    if st.fetchState == Fetching then Outcome(st, Skipped, None)
    else if st.bars.None? then Outcome(st, Skipped, None)
    else
      var current := st.bars.value;
      var req := Some(Range(st.end, st.end + amount));
      match response
      case Rejected => Outcome(st, Threw, req)
      case Null => Outcome(st, Skipped, req)
      case Chunks(chunks) =>
        if |chunks| == 0 then Outcome(st, Skipped, req)
        else
          var filtered := FreshBars(current, ProcessChunks(chunks));
          Outcome(WithBars(st.(end := st.end + |filtered|), current + filtered), Done, req)
  }

  /** `getBars`: the stored values once the bars and both bounds are set,
      otherwise the error "Bars are not loaded". */
  function LoadedWindow(st: Store): (r: Result<Window>)
    ensures r.Ok? <==> st.bars.Some? && st.priceLow.Some? && st.priceHigh.Some?
    ensures r.Ok? ==> r.value == Window(st.bars.value, st.priceLow.value, st.priceHigh.value)
    ensures r.Err? ==> r.message == "Bars are not loaded"
  {
    if st.bars.None? || st.priceLow.None? || st.priceHigh.None? then Err("Bars are not loaded")
    else Ok(Window(st.bars.value, st.priceLow.value, st.priceHigh.value))
  }

  /** The bounds cover every stored bar. */
  ghost predicate BoundsCoverBars(st: Store)
  {
    st.bars.Some? && |st.bars.value| > 0 ==>
      && st.priceLow.Some? && st.priceHigh.Some?
      && forall i :: 0 <= i < |st.bars.value| ==>
           st.priceLow.value <= st.bars.value[i].low && st.bars.value[i].high <= st.priceHigh.value
  }

  /** The bounds of a store only widen: the low never rises, the high never
      falls, and once set they stay set. */
  ghost predicate Widens(before: Store, after: Store)
  {
    && (before.priceLow.Some? ==> after.priceLow.Some? && after.priceLow.value <= before.priceLow.value)
    && (before.priceHigh.Some? ==> after.priceHigh.Some? && after.priceHigh.value >= before.priceHigh.value)
  }

  /** A call that finds the lock held returns false and changes nothing; a
      call that takes it leaves it released whatever the response. */
  lemma LockDiscipline(st: Store, amount: int, response: Response)
    ensures st.fetchState == Fetching ==>
      && InitialFetch(st, response) == Outcome(st, Skipped, None)
      && BackwardFetch(st, amount, response) == Outcome(st, Skipped, None)
      && ForwardFetch(st, amount, response) == Outcome(st, Skipped, None)
    ensures st.fetchState == Idle ==>
      && InitialFetch(st, response).after.fetchState == Idle
      && BackwardFetch(st, amount, response).after.fetchState == Idle
      && ForwardFetch(st, amount, response).after.fetchState == Idle
  {
  }

  /** A failed, empty or skipped call leaves the store as it was; only
      `Done` changes anything. */
  lemma OnlyDoneChangesState(st: Store, amount: int, response: Response)
    ensures InitialFetch(st, response).result != Done ==> InitialFetch(st, response).after == st
    ensures BackwardFetch(st, amount, response).result != Done ==> BackwardFetch(st, amount, response).after == st
    ensures ForwardFetch(st, amount, response).result != Done ==> ForwardFetch(st, amount, response).after == st
  {
  }

  /** The initial load on a non-empty response replaces the bars by the
      normalised bars, sets `end = start + count`, keeps `start`. */
  lemma InitialFetchReplaces(st: Store, chunks: seq<Chunk>)
    requires st.fetchState == Idle && |chunks| > 0
    ensures var o := InitialFetch(st, Chunks(chunks));
      && o.result == Done && o.requested == Some(Range(st.start, st.end))
      && o.after.bars == Some(ProcessChunks(chunks))
      && o.after.start == st.start
      && o.after.end == st.start + TotalBars(chunks)
  {
  }

  /** The backward fetch is skipped without a request when nothing is loaded
      or when `start - amount` would be negative. */
  lemma BackwardFetchGuard(st: Store, amount: int, response: Response)
    requires st.bars.None? || st.start - amount < 0
    ensures BackwardFetch(st, amount, response) == Outcome(st, Skipped, None)
  {
  }

  /** Start at 0 with 100 known offsets: asking for 5000 more backward is skipped. */
  lemma BackwardFetchFromZeroSkipped(bars: seq<Bar>, response: Response)
    ensures var st := Store(Some(bars), None, None, 0, 100, Idle);
      BackwardFetch(st, 5000, response) == Outcome(st, Skipped, None)
  {
  }

  /** A successful forward merge appends the fetched bars with unknown times
      and moves `end` on by exactly their number, which may be less than
      `amount`; `start` stays. */
  lemma ForwardMergeShape(st: Store, amount: int, chunks: seq<Chunk>)
    requires st.fetchState == Idle && st.bars.Some? && |chunks| > 0
    ensures var o := ForwardFetch(st, amount, Chunks(chunks));
      var filtered := FreshBars(st.bars.value, ProcessChunks(chunks));
      && o.result == Done && o.requested == Some(Range(st.end, st.end + amount))
      && o.after.bars == Some(st.bars.value + filtered)
      && o.after.end == st.end + |filtered| && o.after.start == st.start
      && |st.bars.value| <= |o.after.bars.value| <= |st.bars.value| + TotalBars(chunks)
  {
  }

  /** A successful backward merge also appends at the end (not the front)
      and moves `start` back by the number of bars it added, not by `amount`. */
  lemma BackwardMergeShape(st: Store, amount: int, chunks: seq<Chunk>)
    requires st.fetchState == Idle && st.bars.Some? && st.start - amount >= 0 && |chunks| > 0
    ensures var o := BackwardFetch(st, amount, Chunks(chunks));
      var filtered := FreshBars(st.bars.value, ProcessChunks(chunks));
      && o.result == Done && o.requested == Some(Range(st.start - amount, st.start))
      && o.after.bars == Some(st.bars.value + filtered)
      && o.after.start == st.start - |filtered| && o.after.end == st.end
  {
  }

  /** Re-fetching bars whose times are all stored leaves the store exactly as
      it was: bars, both cursors and (stored bars being covered) the bounds. */
  lemma FullOverlapIsIdempotent(st: Store, amount: int, chunks: seq<Chunk>)
    requires st.fetchState == Idle && st.bars.Some? && BoundsCoverBars(st)
    requires forall i :: 0 <= i < |ProcessChunks(chunks)| ==>
      HasTime(st.bars.value, ProcessChunks(chunks)[i].time)
    ensures |chunks| > 0 ==> ForwardFetch(st, amount, Chunks(chunks)).after == st
    ensures |chunks| > 0 && st.start - amount >= 0 ==> BackwardFetch(st, amount, Chunks(chunks)).after == st
  {
    FreshBarsOfKnown(st.bars.value, ProcessChunks(chunks));
    var current := st.bars.value;
    assert current + [] == current;
    if current != [] {
      var lo := LowerBound(st.priceLow, current);
      var hi := UpperBound(st.priceHigh, current);
      var m := MinLow(current);
      var k :| 0 <= k < |current| && current[k].low == m;
      assert st.priceLow.value <= m;
      assert lo == st.priceLow;
      var n := MaxHigh(current);
      var j :| 0 <= j < |current| && current[j].high == n;
      assert hi == st.priceHigh;
    }
    assert WithBars(st, current) == st;
  }

  /** Merging keeps the times duplicate-free when the stored bars and the
      normalised response are each duplicate-free. */
  lemma MergeAddsNoDuplicate(st: Store, amount: int, chunks: seq<Chunk>)
    requires st.bars.Some? && UniqueTimes(st.bars.value) && UniqueTimes(ProcessChunks(chunks))
    ensures var f := ForwardFetch(st, amount, Chunks(chunks)).after;
      f.bars.Some? && UniqueTimes(f.bars.value)
    ensures var b := BackwardFetch(st, amount, Chunks(chunks)).after;
      b.bars.Some? && UniqueTimes(b.bars.value)
  {
    MergeKeepsTimesUnique(st.bars.value, ProcessChunks(chunks));
  }

  /** One `setBars` step of the bound loop: the bound over `s + [b]` is the
      bound over `s` lowered to `b.low` when that is lower. */
  lemma LowerBoundStep(init: Option<real>, s: seq<Bar>, b: Bar)
    ensures var p := LowerBound(init, s);
      LowerBound(init, s + [b]) == if p.None? || b.low < p.value then Some(b.low) else p
  {
    if s != [] {
      assert (s + [b])[..|s|] == s;
    }
  }

  /** Symmetric to `LowerBoundStep`. */
  lemma UpperBoundStep(init: Option<real>, s: seq<Bar>, b: Bar)
    ensures var p := UpperBound(init, s);
      UpperBound(init, s + [b]) == if p.None? || b.high > p.value then Some(b.high) else p
  {
    if s != [] {
      assert (s + [b])[..|s|] == s;
    }
  }

  /** `setBars` leaves the bounds covering what it stored and only widens them. */
  lemma WithBarsWidens(st: Store, bars: seq<Bar>)
    ensures Widens(st, WithBars(st, bars)) && BoundsCoverBars(WithBars(st, bars))
  {
  }

  /** Every fetch keeps the bounds covering the stored bars and only widens them. */
  lemma FetchWidensBounds(st: Store, amount: int, response: Response)
    requires BoundsCoverBars(st)
    ensures Widens(st, InitialFetch(st, response).after) && BoundsCoverBars(InitialFetch(st, response).after)
    ensures Widens(st, BackwardFetch(st, amount, response).after) && BoundsCoverBars(BackwardFetch(st, amount, response).after)
    ensures Widens(st, ForwardFetch(st, amount, response).after) && BoundsCoverBars(ForwardFetch(st, amount, response).after)
  {
    InitialFetchWidens(st, response);
    BackwardFetchWidens(st, amount, response);
    ForwardFetchWidens(st, amount, response);
  }

  /** The initial load keeps the bounds covering the bars and only widens them. */
  lemma InitialFetchWidens(st: Store, response: Response)
    requires BoundsCoverBars(st)
    ensures Widens(st, InitialFetch(st, response).after) && BoundsCoverBars(InitialFetch(st, response).after)
  {
    if st.fetchState == Idle && response.Chunks? && |response.chunks| > 0 {
      var flat := ProcessChunks(response.chunks);
      WithBarsWidens(st.(end := st.start + |flat|), flat);
    }
  }

  /** The backward fetch keeps the bounds covering the bars and only widens them. */
  lemma BackwardFetchWidens(st: Store, amount: int, response: Response)
    requires BoundsCoverBars(st)
    ensures Widens(st, BackwardFetch(st, amount, response).after) && BoundsCoverBars(BackwardFetch(st, amount, response).after)
  {
    if st.fetchState == Idle && st.bars.Some? && st.start - amount >= 0 && response.Chunks? && |response.chunks| > 0 {
      var filtered := FreshBars(st.bars.value, ProcessChunks(response.chunks));
      WithBarsWidens(st.(start := st.start - |filtered|), st.bars.value + filtered);
    }
  }

  /** The forward fetch keeps the bounds covering the bars and only widens them. */
  lemma ForwardFetchWidens(st: Store, amount: int, response: Response)
    requires BoundsCoverBars(st)
    ensures Widens(st, ForwardFetch(st, amount, response).after) && BoundsCoverBars(ForwardFetch(st, amount, response).after)
  {
    if st.fetchState == Idle && st.bars.Some? && response.Chunks? && |response.chunks| > 0 {
      var filtered := FreshBars(st.bars.value, ProcessChunks(response.chunks));
      WithBarsWidens(st.(end := st.end + |filtered|), st.bars.value + filtered);
    }
  }

  /** `DataProvider`, with the API answer supplied to each fetch. */
  class DataProvider {
    const symbol: string
    const timeframe: int
    var bars: Option<seq<Bar>>
    var priceLow: Option<real>
    var priceHigh: Option<real>
    var fetchState: FetchState
    /** Index of the first bar in the store. */
    var start: int
    /** Index after the last bar in the store. */
    var end: int
    /** Every request made to the API, in order. */
    ghost var requests: seq<Request>

    /** The fields as one value. */
    function Model(): Store
      reads this
    {
      Store(bars, priceLow, priceHigh, start, end, fetchState)
    }

    /** The request for `range` as the API receives it. */
    function RequestFor(range: Option<Range>): seq<Request>
    {
      if range.None? then [] else [Request(symbol, timeframe, range.value.from, range.value.to)]
    }

    constructor (symbol: string, timeframe: int, start: int, end: int)
      ensures this.symbol == symbol && this.timeframe == timeframe
      ensures Model() == InitialStore(start, end) && requests == []
    {
      this.symbol := symbol;
      this.timeframe := timeframe;
      this.start := start;
      this.end := end;
      bars := None;
      priceLow := None;
      priceHigh := None;
      fetchState := Idle;
      requests := [];
    }

    /** `setBars`: store the sequence, then lower/raise the bounds bar by bar. */
    method SetBars(newBars: seq<Bar>)
      modifies this`bars, this`priceLow, this`priceHigh
      ensures Model() == WithBars(old(Model()), newBars)
    {
      bars := Some(newBars);
      for i := 0 to |newBars|
        invariant bars == Some(newBars)
        invariant priceLow == LowerBound(old(priceLow), newBars[..i])
        invariant priceHigh == UpperBound(old(priceHigh), newBars[..i])
      {
        assert newBars[..i + 1] == newBars[..i] + [newBars[i]];
        LowerBoundStep(old(priceLow), newBars[..i], newBars[i]);
        UpperBoundStep(old(priceHigh), newBars[..i], newBars[i]);
        if priceLow.None? || newBars[i].low < priceLow.value {
          priceLow := Some(newBars[i].low);
        }
        if priceHigh.None? || newBars[i].high > priceHigh.value {
          priceHigh := Some(newBars[i].high);
        }
      }
      assert newBars[..|newBars|] == newBars;
    }

    /** The answer handling shared by the two incremental fetches: normalise
        the chunks, keep the bars whose time is not stored yet, and store the
        current bars followed by those. */
    method MergeFetched(current: seq<Bar>, chunks: seq<Chunk>) returns (filtered: seq<Bar>)
      modifies this`bars, this`priceLow, this`priceHigh
      ensures filtered == FreshBars(current, ProcessChunks(chunks))
      ensures bars == Some(current + filtered)
      ensures priceLow == LowerBound(old(priceLow), current + filtered)
      ensures priceHigh == UpperBound(old(priceHigh), current + filtered)
    {
      var flattenBars := ProcessChunks(chunks);
      filtered := FreshBars(current, flattenBars);
      SetBars(current + filtered);
    }

    /** `fetchCandleSticks` */
    method FetchCandleSticks(response: Response) returns (result: FetchResult)
      modifies this
      ensures Model() == InitialFetch(old(Model()), response).after
      ensures result == InitialFetch(old(Model()), response).result
      ensures requests == old(requests) + RequestFor(InitialFetch(old(Model()), response).requested)
    {
      if fetchState == Fetching {
        return Skipped;
      }
      fetchState := Fetching;
      requests := requests + [Request(symbol, timeframe, start, end)];
      match response {
        case Rejected =>
          result := Threw;
        case Null =>
          result := Skipped;
        case Chunks(chunks) =>
          if |chunks| == 0 {
            result := Skipped;
          } else {
            var flattenBars := ProcessChunks(chunks);
            end := start + |flattenBars|;
            SetBars(flattenBars);
            assert Model().(fetchState := Idle) == WithBars(old(Model()).(end := old(start) + |flattenBars|), flattenBars);
            result := Done;
          }
      }
      fetchState := Idle;
    }

    /** `fetchBackwardBarsAndSetToStore` */
    method FetchBackwardBarsAndSetToStore(amount: int, response: Response) returns (result: FetchResult)
      modifies this
      ensures Model() == BackwardFetch(old(Model()), amount, response).after
      ensures result == BackwardFetch(old(Model()), amount, response).result
      ensures requests == old(requests) + RequestFor(BackwardFetch(old(Model()), amount, response).requested)
    {
      if fetchState == Fetching {
        return Skipped;
      }
      fetchState := Fetching;
      var currentBars := bars;
      if currentBars.None? || start - amount < 0 {
        result := Skipped;
      } else {
        requests := requests + [Request(symbol, timeframe, start - amount, start)];
        match response {
          case Rejected =>
            result := Threw;
          case Null =>
            result := Skipped;
          case Chunks(chunks) =>
            if |chunks| == 0 {
              result := Skipped;
            } else {
              var filtered := MergeFetched(currentBars.value, chunks);
              start := start - |filtered|;
              result := Done;
            }
        }
      }
      fetchState := Idle;
    }

    /** `fetchForwardBarsAndSetToStore` */
    method FetchForwardBarsAndSetToStore(amount: int, response: Response) returns (result: FetchResult)
      modifies this
      ensures Model() == ForwardFetch(old(Model()), amount, response).after
      ensures result == ForwardFetch(old(Model()), amount, response).result
      ensures requests == old(requests) + RequestFor(ForwardFetch(old(Model()), amount, response).requested)
    {
      if fetchState == Fetching {
        return Skipped;
      }
      fetchState := Fetching;
      var currentBars := bars;
      if currentBars.None? {
        result := Skipped;
      } else {
        requests := requests + [Request(symbol, timeframe, end, end + amount)];
        match response {
          case Rejected =>
            result := Threw;
          case Null =>
            result := Skipped;
          case Chunks(chunks) =>
            if |chunks| == 0 {
              result := Skipped;
            } else {
              var filtered := MergeFetched(currentBars.value, chunks);
              end := end + |filtered|;
              result := Done;
            }
        }
      }
      fetchState := Idle;
    }

    /** `getBars` */
    method GetBars() returns (r: Result<Window>)
      ensures r == LoadedWindow(Model())
    {
      if bars.None? || priceLow.None? || priceHigh.None? {
        return Err("Bars are not loaded");
      }
      return Ok(Window(bars.value, priceLow.value, priceHigh.value));
    }
  }
}
