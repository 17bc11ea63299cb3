/** The bar and chunk shapes of the remote bar source and the pure list
    operations every consumer applies to them: normalising chunk-relative
    times, filtering out bars whose time is already known, and the lowest low
    and highest high of a non-empty sequence. */
module Bars {

  /** One OHLCV sample. `time` is in seconds; inside a chunk it is relative to
      the chunk's start. */
  datatype Bar = Bar(close: real, high: real, low: real, open: real, tickVolume: int, time: int)

  /** A batch of bars sharing one time origin. */
  datatype Chunk = Chunk(chunkStart: int, bars: seq<Bar>)

  /** The answer of the remote source to one request: a chunk list (possibly
      empty), a `null`/`undefined` body, or a rejected promise (a thrown error). */
  datatype Response = Chunks(chunks: seq<Chunk>) | Null | Rejected

  /** One call of the remote source: symbol, timeframe in minutes and the
      half-open offset range [start, end). */
  datatype Request = Request(symbol: string, timeframe: int, start: int, end: int)

  /** The bar with its time moved by `offset`, every other field kept. */
  function Shifted(b: Bar, offset: int): (r: Bar)
    ensures r.time == b.time + offset
    ensures r.(time := b.time) == b
  {
    b.(time := b.time + offset)
  }

  /** `bars.map(b => ({...b, Time: b.Time + offset}))` */
  function ShiftAll(bars: seq<Bar>, offset: int): (r: seq<Bar>)
    ensures |r| == |bars|
    ensures forall i :: 0 <= i < |r| ==> r[i] == Shifted(bars[i], offset)
  {
    if bars == [] then [] else [Shifted(bars[0], offset)] + ShiftAll(bars[1..], offset)
  }

  /** The number of bars in all chunks together. */
  function TotalBars(chunks: seq<Chunk>): nat
  {
    if chunks == [] then 0 else |chunks[0].bars| + TotalBars(chunks[1..])
  }

  /** `chunks.flatMap(chunk => chunk.Bars.map(b => ({...b, Time: b.Time + chunk.ChunkStart})))`:
      the chunks' bars in order, each time made absolute. */
  function ProcessChunks(chunks: seq<Chunk>): (r: seq<Bar>)
    ensures |r| == TotalBars(chunks)
  {
    if chunks == [] then []
    else ShiftAll(chunks[0].bars, chunks[0].chunkStart) + ProcessChunks(chunks[1..])
  }

  /** Normalising a concatenation of chunk lists is the concatenation of the results. */
  lemma {:induction false} ProcessChunksAppend(a: seq<Chunk>, b: seq<Chunk>)
    ensures ProcessChunks(a + b) == ProcessChunks(a) + ProcessChunks(b)
    ensures TotalBars(a + b) == TotalBars(a) + TotalBars(b)
  {
    if a == [] {
      assert a + b == b;
    } else {
      assert (a + b)[0] == a[0];
      assert (a + b)[1..] == a[1..] + b;
      ProcessChunksAppend(a[1..], b);
    }
  }

  /** Bar `j` of chunk `k` lands right after the bars of the chunks before it,
      with its time shifted by its own chunk's start. */
  lemma {:induction false} ProcessChunksAt(chunks: seq<Chunk>, k: nat, j: nat)
    requires k < |chunks| && j < |chunks[k].bars|
    ensures TotalBars(chunks[..k]) + j < |ProcessChunks(chunks)|
    ensures ProcessChunks(chunks)[TotalBars(chunks[..k]) + j]
         == Shifted(chunks[k].bars[j], chunks[k].chunkStart)
  {
    var rest := ProcessChunks(chunks[1..]);
    var head := ShiftAll(chunks[0].bars, chunks[0].chunkStart);
    assert ProcessChunks(chunks) == head + rest;
    if k == 0 {
      assert chunks[..0] == [];
    } else {
      ProcessChunksAt(chunks[1..], k - 1, j);
      assert chunks[..k][0] == chunks[0];
      assert chunks[..k][1..] == chunks[1..][..k - 1];
      assert TotalBars(chunks[..k]) == |chunks[0].bars| + TotalBars(chunks[1..][..k - 1]);
    }
  }

  /** `current.some(bar => bar.Time === t)` */
  predicate HasTime(current: seq<Bar>, t: int)
  {
    exists i :: 0 <= i < |current| && current[i].time == t
  }

  /** No two bars of the sequence share a time. */
  predicate UniqueTimes(s: seq<Bar>)
  {
    forall i, j :: 0 <= i < j < |s| ==> s[i].time != s[j].time
  }

  /** `fetched.filter(newBar => !current.some(bar => bar.Time === newBar.Time))`:
      the fetched bars whose time is not yet in `current`, in fetched order. */
  function FreshBars(current: seq<Bar>, fetched: seq<Bar>): (r: seq<Bar>)
    ensures |r| <= |fetched|
  {
    if fetched == [] then []
    else
      (if HasTime(current, fetched[0].time) then [] else [fetched[0]])
      + FreshBars(current, fetched[1..])
  }

  /** The filter keeps exactly the fetched bars with an unknown time: each
      kept bar was fetched and its time is new, and each fetched bar with a
      new time is kept. */
  lemma {:induction false} FreshBarsMembers(current: seq<Bar>, fetched: seq<Bar>)
    ensures forall i :: 0 <= i < |FreshBars(current, fetched)| ==>
      FreshBars(current, fetched)[i] in fetched && !HasTime(current, FreshBars(current, fetched)[i].time)
    ensures forall i :: 0 <= i < |fetched| && !HasTime(current, fetched[i].time) ==>
      fetched[i] in FreshBars(current, fetched)
  {
    if fetched != [] {
      FreshBarsMembers(current, fetched[1..]);
      var head := if HasTime(current, fetched[0].time) then [] else [fetched[0]];
      var tail := FreshBars(current, fetched[1..]);
      assert FreshBars(current, fetched) == head + tail;
      forall i | 0 <= i < |fetched| && !HasTime(current, fetched[i].time)
        ensures fetched[i] in head + tail
      {
        if i > 0 {
          assert fetched[i] == fetched[1..][i - 1];
        }
      }
    }
  }

  /** Filtering distributes over concatenation, so the filter keeps fetched order. */
  lemma {:induction false} FreshBarsAppend(current: seq<Bar>, a: seq<Bar>, b: seq<Bar>)
    ensures FreshBars(current, a + b) == FreshBars(current, a) + FreshBars(current, b)
  {
    if a == [] {
      assert a + b == b;
    } else {
      assert (a + b)[0] == a[0];
      assert (a + b)[1..] == a[1..] + b;
      FreshBarsAppend(current, a[1..], b);
    }
  }

  /** A response whose every time is already known contributes nothing. */
  lemma {:induction false} FreshBarsOfKnown(current: seq<Bar>, fetched: seq<Bar>)
    requires forall i :: 0 <= i < |fetched| ==> HasTime(current, fetched[i].time)
    ensures FreshBars(current, fetched) == []
  {
    if fetched != [] {
      assert HasTime(current, fetched[0].time);
      FreshBarsOfKnown(current, fetched[1..]);
    }
  }

  /** A response with no known time is taken whole. */
  lemma {:induction false} FreshBarsOfUnknown(current: seq<Bar>, fetched: seq<Bar>)
    requires forall i :: 0 <= i < |fetched| ==> !HasTime(current, fetched[i].time)
    ensures FreshBars(current, fetched) == fetched
  {
    if fetched != [] {
      assert !HasTime(current, fetched[0].time);
      FreshBarsOfUnknown(current, fetched[1..]);
      assert [fetched[0]] + fetched[1..] == fetched;
    }
  }

  /** Re-merging bars that are already stored adds nothing: the filter of
      `current` against itself is empty. */
  lemma FreshBarsOfSelf(current: seq<Bar>)
    ensures FreshBars(current, current) == []
  {
    forall i | 0 <= i < |current|
      ensures HasTime(current, current[i].time)
    {
    }
    FreshBarsOfKnown(current, current);
  }

  /** The filter keeps the times of a duplicate-free response duplicate-free. */
  lemma {:induction false} FreshBarsUnique(current: seq<Bar>, fetched: seq<Bar>)
    requires UniqueTimes(fetched)
    ensures UniqueTimes(FreshBars(current, fetched))
  {
    if fetched != [] {
      var tail := FreshBars(current, fetched[1..]);
      assert UniqueTimes(fetched[1..]) by {
        forall i, j | 0 <= i < j < |fetched[1..]|
          ensures fetched[1..][i].time != fetched[1..][j].time
        {
          assert fetched[1..][i] == fetched[i + 1] && fetched[1..][j] == fetched[j + 1];
        }
      }
      FreshBarsUnique(current, fetched[1..]);
      FreshBarsMembers(current, fetched[1..]);
      forall k | 0 <= k < |tail|
        ensures tail[k].time != fetched[0].time
      {
        assert tail[k] in fetched[1..];
        var m :| 0 <= m < |fetched[1..]| && fetched[1..][m] == tail[k];
        assert fetched[m + 1] == tail[k];
      }
    }
  }

  /** Appending the filtered bars to a duplicate-free sequence introduces no
      duplicate time, provided the response itself has none. */
  lemma MergeKeepsTimesUnique(current: seq<Bar>, fetched: seq<Bar>)
    requires UniqueTimes(current) && UniqueTimes(fetched)
    ensures UniqueTimes(current + FreshBars(current, fetched))
  {
    var added := FreshBars(current, fetched);
    var merged := current + added;
    FreshBarsUnique(current, fetched);
    FreshBarsMembers(current, fetched);
    forall i, j | 0 <= i < j < |merged|
      ensures merged[i].time != merged[j].time
    {
      if j >= |current| {
        assert merged[j] == added[j - |current|];
        if i >= |current| {
          assert merged[i] == added[i - |current|];
        } else {
          assert merged[i] == current[i];
          assert !HasTime(current, added[j - |current|].time);
        }
      }
    }
  }

  /** The lowest `low` of a non-empty sequence (`Math.min(...bars.map(b => b.Low))`). */
  function MinLow(s: seq<Bar>): (r: real)
    requires |s| > 0
    ensures forall i :: 0 <= i < |s| ==> r <= s[i].low
    ensures exists i :: 0 <= i < |s| && r == s[i].low
  {
    if |s| == 1 then s[0].low
    else
      var m := MinLow(s[..|s| - 1]);
      assert forall i :: 0 <= i < |s| - 1 ==> s[..|s| - 1][i] == s[i];
      if s[|s| - 1].low < m then s[|s| - 1].low else m
  }

  /** The highest `high` of a non-empty sequence (`Math.max(...bars.map(b => b.High))`). */
  function MaxHigh(s: seq<Bar>): (r: real)
    requires |s| > 0
    ensures forall i :: 0 <= i < |s| ==> s[i].high <= r
    ensures exists i :: 0 <= i < |s| && r == s[i].high
  {
    if |s| == 1 then s[0].high
    else
      var m := MaxHigh(s[..|s| - 1]);
      assert forall i :: 0 <= i < |s| - 1 ==> s[..|s| - 1][i] == s[i];
      if s[|s| - 1].high > m then s[|s| - 1].high else m
  }
}
