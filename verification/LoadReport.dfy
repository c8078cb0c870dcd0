/** What the load timeline reports, in the requests' own times and counts. */
module LoadReport {
  import opened Options
  import opened Numbers
  import opened RealGrid
  import opened Occupancy
  import opened LoadTimeline

  /** How long both [from, to] and [start, end] last. */
  function Common(from: real, to: real, start: real, end: real): real {
    var later, earlier := if from < start then start else from, if to < end then to else end;
    if later < earlier then earlier - later else 0.0
  }

  /** A request is active from its submission to its end, and waits for its first token or else to its end. */
  function ActiveWithin(requests: seq<Request>, start: real, end: real): real {
    if requests == [] then 0.0
    else
      var r := requests[|requests| - 1];
      ActiveWithin(requests[..|requests| - 1], start, end) + Common(r.submitMs, r.endedMs, start, end)
  }

  function WaitingWithin(requests: seq<Request>, start: real, end: real): real {
    if requests == [] then 0.0
    else
      var r := requests[|requests| - 1];
      WaitingWithin(requests[..|requests| - 1], start, end)
      + Common(r.submitMs, r.firstTokenMs.GetOr(r.endedMs), start, end)
  }

  // A bucket's own times; the last one also holds what comes at its end.
  predicate Falls(time: real, start: real, end: real, last: bool) { start <= time && (time < end || last) }

  function EndedWithin(requests: seq<Request>, start: real, end: real, last: bool): nat {
    if requests == [] then 0
    else
      var r := requests[|requests| - 1];
      EndedWithin(requests[..|requests| - 1], start, end, last) + (if Falls(r.endedMs, start, end, last) then 1 else 0)
  }

  function FailedWithin(requests: seq<Request>, start: real, end: real, last: bool): nat {
    if requests == [] then 0
    else
      var r := requests[|requests| - 1];
      FailedWithin(requests[..|requests| - 1], start, end, last)
      + (if r.failed && Falls(r.endedMs, start, end, last) then 1 else 0)
  }

  function TimesWithin(times: seq<real>, start: real, end: real, last: bool): nat {
    if times == [] then 0
    else
      TimesWithin(times[..|times| - 1], start, end, last)
      + (if Falls(times[|times| - 1], start, end, last) then 1 else 0)
  }

  /** So many chunks' part of a request's tokens: all its chunks have the same share. */
  function Portion(r: Request, chunks: nat): real {
    if r.chunkTimesMs == [] then 0.0
    else r.completionTokens.GetOr(0.0) / |r.chunkTimesMs| as real * chunks as real
  }

  function TokensWithin(requests: seq<Request>, start: real, end: real, last: bool): real {
    if requests == [] then 0.0
    else
      var r := requests[|requests| - 1];
      var n := TimesWithin(r.chunkTimesMs, start, end, last);
      TokensWithin(requests[..|requests| - 1], start, end, last)
      + (if r.failed || n == 0 then 0.0 else Portion(r, n))
  }

  predicate HasUncounted(r: Request, start: real, end: real, last: bool) {
    !r.failed && r.completionTokens.None? && exists time <- r.chunkTimesMs :: Falls(time, start, end, last)
  }

  predicate Reports(requests: seq<Request>, bucket: Bucket, last: bool) {
    var start, end := bucket.startMs, bucket.endMs;
    && bucket.averageActive * (end - start) == ActiveWithin(requests, start, end)
    && bucket.averageWaiting * (end - start) == WaitingWithin(requests, start, end)
    && (start == end ==> bucket.averageActive == bucket.averageWaiting == 0.0)
    && bucket.completedRequests == EndedWithin(requests, start, end, last)
    && bucket.failedRequests == FailedWithin(requests, start, end, last)
    && bucket.outputTokens == (if exists r <- requests :: HasUncounted(r, start, end, last) then None
                               else Some(TokensWithin(requests, start, end, last)))
  }

  // Averages.

  lemma OverlapShown(t: Timeline, span: Span, i: int)
    ensures Overlap(t, span, i) == Common(span.start, span.end, t.StartOf(i), t.EndOf(i))
  {
  }

  lemma {:induction false} SharesShown(requests: seq<Request>, t: Timeline, i: int)
    ensures OverlapSum(t, Spans(requests, false), i) == ActiveWithin(requests, t.StartOf(i), t.EndOf(i))
    ensures OverlapSum(t, Spans(requests, true), i) == WaitingWithin(requests, t.StartOf(i), t.EndOf(i))
    decreases |requests|
  {
    hide Overlap, Common, Timeline.StartOf, Timeline.EndOf;
    if requests != [] {
      var init, r := requests[..|requests| - 1], requests[|requests| - 1];
      SharesShown(init, t, i);
      assert Spans(requests, false)[..|requests| - 1] == Spans(init, false);
      assert Spans(requests, true)[..|requests| - 1] == Spans(init, true);
      OverlapShown(t, SpanOf(r, false), i);
      OverlapShown(t, SpanOf(r, true), i);
    }
  }

  lemma {:induction false} NothingInNoTime(requests: seq<Request>, start: real)
    ensures ActiveWithin(requests, start, start) == 0.0 && WaitingWithin(requests, start, start) == 0.0
    decreases |requests|
  {
    if requests != [] { NothingInNoTime(requests[..|requests| - 1], start); }
  }

  // Which cell is which bucket.

  predicate Lands(time: real, width: real, n: nat, i: int)
    requires width > 0.0
  {
    CellOf(time, width) == i || (i == n - 1 && CellOf(time, width) == n)
  }

  lemma BucketEnds(t: Timeline, i: int)
    requires t.Valid() && 0 <= i < t.n
    ensures t.StartOf(i) == At(i, t.width)
    ensures i < t.n - 1 ==> t.EndOf(i) == At(i + 1, t.width)
    ensures t.EndOf(t.n - 1) == t.end
  {
    AtMonotone(i + 1, if i < t.n - 1 then t.n - 1 else i + 1, t.width);
  }

  lemma FallsIsCell(t: Timeline, i: int, time: real)
    requires t.Valid() && 0 <= i < t.n && 0.0 <= time <= t.end
    ensures Falls(time, t.StartOf(i), t.EndOf(i), i == t.n - 1) <==> Lands(time, t.width, t.n, i)
    ensures Falls(time, t.StartOf(i), t.EndOf(i), i == t.n - 1) <==> Min(t.n - 1, CellOf(time, t.width)) == i
  {
    hide Timeline.StartOf, Timeline.EndOf, At, CellOf;
    BucketEnds(t, i);
    var c := CellOf(time, t.width);
    CellBounds(time, t.width);
    if c < i { AtMonotone(c + 1, i, t.width); }
    if c > i { AtMonotone(i + 1, c, t.width); }
    if c > t.n { AtMonotone(t.n, c, t.width); NextIsLater(t.n, t.width, c); }
  }

  lemma NextIsLater(n: int, width: real, c: int)
    requires width > 0.0 && n < c
    ensures At(n, width) < At(c, width)
  {
    AtMonotone(n, c, width);
  }

  // Completions.

  lemma {:induction false} CompletionsShown(requests: seq<Request>, t: Timeline, i: int)
    requires t.Valid() && 0 <= i < t.n && AllMeasured(requests) && EndOf(requests) <= t.end
    ensures Completed(requests, t.n, t.width, i, false) == EndedWithin(requests, t.StartOf(i), t.EndOf(i), i == t.n - 1)
    ensures Completed(requests, t.n, t.width, i, true) == FailedWithin(requests, t.StartOf(i), t.EndOf(i), i == t.n - 1)
    decreases |requests|
  {
    hide Falls, Lands, Timeline.StartOf, Timeline.EndOf, Timeline.Valid;
    if requests != [] {
      var init, r := requests[..|requests| - 1], requests[|requests| - 1];
      EndBounds(requests);
      assert Measured(r);
      assert AllMeasured(init) && EndOf(init) <= t.end;
      CompletionsShown(init, t, i);
      assert t.width > 0.0 by { WidthOf(t); }
      FallsIsCell(t, i, r.endedMs);
    }
  }

  lemma WidthOf(t: Timeline)
    requires t.Valid()
    ensures t.width > 0.0
  {
  }

  // Output.

  function Joined(output: Option<real>, weight: Option<real>): Option<real> {
    if output.None? || weight.None? then None else Some(output.value + weight.value)
  }

  /** The output of a bucket, chunk by chunk. */
  function OutputOf(chunks: seq<Chunk>, width: real, n: nat, i: int): Option<real>
    requires width > 0.0
  {
    if chunks == [] then Some(0.0)
    else
      var last := chunks[|chunks| - 1];
      var before := OutputOf(chunks[..|chunks| - 1], width, n, i);
      if Lands(last.time, width, n, i) then Joined(before, last.weight) else before
  }

  lemma OutputAdds(m: Tokens, index: int, weight: Option<real>, n: nat, i: int)
    requires i < n
    ensures OutputIn(AddTokens(m, index, weight), n, i)
            == if index == i || (i == n - 1 && index == n) then Joined(OutputIn(m, n, i), weight) else OutputIn(m, n, i)
  {
  }

  lemma {:induction false} OutputByChunk(chunks: seq<Chunk>, width: real, n: nat, i: int)
    requires width > 0.0 && i < n
    ensures OutputIn(Bucketed(chunks, width), n, i) == OutputOf(chunks, width, n, i)
    decreases |chunks|
  {
    hide CellOf, AddTokens, Joined;
    if chunks == [] {
      assert OutputIn(map[], n, i) == Some(0.0);
    } else {
      var init, last := chunks[..|chunks| - 1], chunks[|chunks| - 1];
      OutputByChunk(init, width, n, i);
      hide OutputIn;
      OutputAdds(Bucketed(init, width), CellOf(last.time, width), last.weight, n, i);
    }
  }

  /** An output with so many chunks of a request added. */
  function WithChunks(before: Option<real>, r: Request, count: nat): Option<real> {
    if count == 0 || before.None? then before
    else if r.completionTokens.None? || r.chunkTimesMs == [] then None
    else Some(before.value + Portion(r, count))
  }

  lemma WithOneMore(before: Option<real>, r: Request, count: nat)
    ensures Joined(WithChunks(before, r, count), WeightOf(r)) == WithChunks(before, r, count + 1)
  {
    hide Portion;
    if r.chunkTimesMs != [] { PortionGrows(r, count); }
  }

  lemma PortionGrows(r: Request, count: nat)
    requires r.chunkTimesMs != []
    ensures Portion(r, count + 1) == Portion(r, count) + r.completionTokens.GetOr(0.0) / |r.chunkTimesMs| as real
    ensures Portion(r, 0) == 0.0
  {
    OneMore(r.completionTokens.GetOr(0.0) / |r.chunkTimesMs| as real, count);
  }

  lemma OneMore(share: real, count: nat)
    ensures share * (count + 1) as real == share * count as real + share
  {
  }

  lemma NoneAdded(before: Option<real>, r: Request)
    ensures WithChunks(before, r, 0) == before
  {
  }

  /** One more request's chunks: its count of them times its share, unless that is unknown. */
  lemma {:induction false} OutputOfRequest(a: seq<Chunk>, r: Request, t: Timeline, i: int, k: nat)
    requires t.Valid() && 0 <= i < t.n && Measured(r) && r.endedMs <= t.end && !r.failed && k <= |r.chunkTimesMs|
    ensures t.width > 0.0 && OutputOf(a + ChunksOf(r)[..k], t.width, t.n, i)
            == WithChunks(OutputOf(a, t.width, t.n, i), r,
                          TimesWithin(r.chunkTimesMs[..k], t.StartOf(i), t.EndOf(i), i == t.n - 1))
  {
    hide Falls, Lands, Timeline.StartOf, Timeline.EndOf, Timeline.Valid, Measured, WithChunks, Joined;
    WidthOf(t);
    var times, all := r.chunkTimesMs, ChunksOf(r);
    var before := OutputOf(a, t.width, t.n, i);
    if k == 0 {
      assert a + all[..0] == a;
      NoneAdded(before, r);
    } else {
      OutputOfRequest(a, r, t, i, k - 1);
      assert (a + all[..k])[..|a| + k - 1] == a + all[..k - 1];
      assert times[..k][..k - 1] == times[..k - 1] && times[..k][k - 1] == times[k - 1];
      ChunkInside(r, t, k - 1);
      FallsIsCell(t, i, times[k - 1]);
      WithOneMore(before, r, TimesWithin(times[..k - 1], t.StartOf(i), t.EndOf(i), i == t.n - 1));
      assert all[k - 1] == Chunk(times[k - 1], WeightOf(r));
    }
  }

  lemma ChunkInside(r: Request, t: Timeline, k: nat)
    requires Measured(r) && r.endedMs <= t.end && k < |r.chunkTimesMs|
    ensures 0.0 <= r.chunkTimesMs[k] <= t.end
  {
  }

  lemma {:induction false} NoneFalls(times: seq<real>, start: real, end: real, last: bool)
    ensures TimesWithin(times, start, end, last) > 0 <==> exists time <- times :: Falls(time, start, end, last)
    decreases |times|
  {
    hide Falls;
    if times != [] {
      var init, time := times[..|times| - 1], times[|times| - 1];
      NoneFalls(init, start, end, last);
      assert times == init + [time];
    }
  }

  predicate AnyUncounted(requests: seq<Request>, start: real, end: real, last: bool) {
    exists r <- requests :: HasUncounted(r, start, end, last)
  }

  function Shown(requests: seq<Request>, start: real, end: real, last: bool): Option<real> {
    if AnyUncounted(requests, start, end, last) then None else Some(TokensWithin(requests, start, end, last))
  }

  lemma ShownWithOneMore(requests: seq<Request>, start: real, end: real, last: bool)
    requires requests != []
    ensures var init, r := requests[..|requests| - 1], requests[|requests| - 1];
            Shown(requests, start, end, last)
            == WithChunks(Shown(init, start, end, last), r,
                          if r.failed then 0 else TimesWithin(r.chunkTimesMs, start, end, last))
  {
    hide HasUncounted, TimesWithin, AnyUncounted, Portion;
    var init, r := requests[..|requests| - 1], requests[|requests| - 1];
    assert requests == init + [r];
    UncountedSplits(init, r, start, end, last);
    UncountedExactly(r, start, end, last);
    NoneFalls(r.chunkTimesMs, start, end, last);
  }

  lemma {:induction false} OutputShown(requests: seq<Request>, t: Timeline, i: int)
    requires t.Valid() && 0 <= i < t.n && AllMeasured(requests) && EndOf(requests) <= t.end
    ensures t.width > 0.0
    ensures OutputOf(AllChunks(requests), t.width, t.n, i)
            == Shown(requests, t.StartOf(i), t.EndOf(i), i == t.n - 1)
    decreases |requests|
  {
    hide Falls, Lands, Timeline.StartOf, Timeline.EndOf, Timeline.Valid, Measured, TimesWithin, OutputOf, WithChunks,
         Shown;
    WidthOf(t);
    if requests == [] {
      NoOutput(t.width, t.n, i);
      NoneShown(t.StartOf(i), t.EndOf(i), i == t.n - 1);
    } else {
      var init, r := requests[..|requests| - 1], requests[|requests| - 1];
      EndBounds(requests);
      assert AllMeasured(init) && EndOf(init) <= t.end && Measured(r);
      OutputShown(init, t, i);
      OutputWithOneMore(AllChunks(init), r, t, i);
      ShownWithOneMore(requests, t.StartOf(i), t.EndOf(i), i == t.n - 1);
    }
  }

  lemma NoneShown(start: real, end: real, last: bool)
    ensures Shown([], start, end, last) == Some(0.0)
  {
  }

  lemma UncountedExactly(r: Request, start: real, end: real, last: bool)
    ensures HasUncounted(r, start, end, last)
            <==> !r.failed && r.completionTokens.None? && TimesWithin(r.chunkTimesMs, start, end, last) > 0
  {
    NoneFalls(r.chunkTimesMs, start, end, last);
  }

  lemma OutputWithOneMore(a: seq<Chunk>, r: Request, t: Timeline, i: int)
    requires t.Valid() && 0 <= i < t.n && Measured(r) && r.endedMs <= t.end
    ensures t.width > 0.0
    ensures var count := TimesWithin(r.chunkTimesMs, t.StartOf(i), t.EndOf(i), i == t.n - 1);
            OutputOf(a + ChunksOf(r), t.width, t.n, i)
            == WithChunks(OutputOf(a, t.width, t.n, i), r, if r.failed then 0 else count)
  {
    hide Falls, Lands, Timeline.StartOf, Timeline.EndOf, Timeline.Valid, Measured, TimesWithin, OutputOf, WithChunks;
    WidthOf(t);
    if r.failed {
      assert a + ChunksOf(r) == a;
      NoneAdded(OutputOf(a, t.width, t.n, i), r);
    } else {
      OutputOfRequest(a, r, t, i, |r.chunkTimesMs|);
      assert ChunksOf(r)[..|r.chunkTimesMs|] == ChunksOf(r) && r.chunkTimesMs[..|r.chunkTimesMs|] == r.chunkTimesMs;
    }
  }

  lemma NoOutput(width: real, n: nat, i: int)
    requires width > 0.0
    ensures OutputOf([], width, n, i) == Some(0.0)
  {
  }

  lemma UncountedSplits(init: seq<Request>, r: Request, start: real, end: real, last: bool)
    ensures AnyUncounted(init + [r], start, end, last)
            <==> AnyUncounted(init, start, end, last) || HasUncounted(r, start, end, last)
  {
    hide HasUncounted;
    if HasUncounted(r, start, end, last) { assert r in init + [r]; }
  }

  /** Every bucket of the timeline reports its own part of the requests. */
  lemma BucketReports(requests: seq<Request>, width: real, i: int, bucket: Bucket)
    requires requests != [] && AllMeasured(requests) && width > 0.0 && CellOf(EndOf(requests), width) < MAX_BUCKETS
    requires 0 <= i < BucketCount(requests, width)
    requires IsBucket(requests, width, Bucketed(AllChunks(requests), width), i, bucket)
    ensures Reports(requests, bucket, i == BucketCount(requests, width) - 1)
  {
    hide Bucketed, AllChunks, OutputIn, Completed, ActiveWithin, WaitingWithin, TokensWithin, EndedWithin, FailedWithin,
         OverlapSum, HasUncounted, OutputOf, Spans, BucketCount, EndOf, CellOf;
    var t := TimelineOf(requests, width);
    TimelineValid(requests, width);
    SharesShown(requests, t, i);
    NothingInNoTime(requests, t.StartOf(i));
    CompletionsShown(requests, t, i);
    OutputShown(requests, t, i);
    OutputByChunk(AllChunks(requests), width, t.n, i);
    assert t.EndOf(i) >= t.StartOf(i) by { AtMonotone(i, t.n - 1, width); AtNext(i, width); }
  }

  // The buckets together.

  /** One after the other from 0 to the end of the last request, all but the last of the same length. */
  predicate Covers(requests: seq<Request>, width: real, buckets: seq<Bucket>) {
    && buckets != []
    && buckets[0].startMs == 0.0
    && (forall i, j | 0 <= i < j == i + 1 < |buckets| ::
        buckets[j].startMs == buckets[i].endMs == buckets[i].startMs + width)
    && buckets[|buckets| - 1].startMs <= buckets[|buckets| - 1].endMs <= buckets[|buckets| - 1].startMs + width
    && (forall r <- requests :: r.endedMs <= buckets[|buckets| - 1].endMs)
    && (exists r <- requests :: r.endedMs == buckets[|buckets| - 1].endMs)
  }

  function ActiveTotal(buckets: seq<Bucket>): real {
    if buckets == [] then 0.0
    else
      var b := buckets[|buckets| - 1];
      ActiveTotal(buckets[..|buckets| - 1]) + b.averageActive * (b.endMs - b.startMs)
  }

  function WaitingTotal(buckets: seq<Bucket>): real {
    if buckets == [] then 0.0
    else
      var b := buckets[|buckets| - 1];
      WaitingTotal(buckets[..|buckets| - 1]) + b.averageWaiting * (b.endMs - b.startMs)
  }

  function TimeActive(requests: seq<Request>): real {
    if requests == [] then 0.0
    else
      var r := requests[|requests| - 1];
      TimeActive(requests[..|requests| - 1]) + (r.endedMs - r.submitMs)
  }

  function TimeWaiting(requests: seq<Request>): real {
    if requests == [] then 0.0
    else
      var r := requests[|requests| - 1];
      TimeWaiting(requests[..|requests| - 1]) + (r.firstTokenMs.GetOr(r.endedMs) - r.submitMs)
  }

  lemma {:induction false} SpansLast(requests: seq<Request>)
    ensures SpanTotal(Spans(requests, false)) == TimeActive(requests)
    ensures SpanTotal(Spans(requests, true)) == TimeWaiting(requests)
    decreases |requests|
  {
    if requests != [] {
      var init := requests[..|requests| - 1];
      SpansLast(init);
      assert Spans(requests, false)[..|init|] == Spans(init, false);
      assert Spans(requests, true)[..|init|] == Spans(init, true);
    }
  }

  lemma {:induction false} TotalsShown(requests: seq<Request>, t: Timeline, buckets: seq<Bucket>)
    requires forall i | 0 <= i < |buckets| ::
               var b := buckets[i];
               && b.averageActive * (b.endMs - b.startMs) == OverlapSum(t, Spans(requests, false), i)
               && b.averageWaiting * (b.endMs - b.startMs) == OverlapSum(t, Spans(requests, true), i)
    ensures ActiveTotal(buckets) == GrandTotal(t, Spans(requests, false), |buckets|)
    ensures WaitingTotal(buckets) == GrandTotal(t, Spans(requests, true), |buckets|)
    decreases |buckets|
  {
    hide OverlapSum, Spans;
    if buckets != [] {
      var init := buckets[..|buckets| - 1];
      assert forall i | 0 <= i < |init| :: init[i] == buckets[i];
      TotalsShown(requests, t, init);
    }
  }

  lemma {:induction false} EndReached(requests: seq<Request>)
    requires requests != [] && AllMeasured(requests)
    ensures exists r <- requests :: r.endedMs == EndOf(requests)
    decreases |requests|
  {
    var init, r := requests[..|requests| - 1], requests[|requests| - 1];
    assert r in requests && Measured(r);
    assert EndOf(requests) == MaxReal(EndOf(init), r.endedMs);
    if init != [] {
      assert AllMeasured(init);
      EndReached(init);
      var x :| x in init && x.endedMs == EndOf(init);
      assert x in requests;
    }
  }

  lemma BucketsCover(requests: seq<Request>, width: real, buckets: seq<Bucket>)
    requires requests != [] && AllMeasured(requests) && width > 0.0 && CellOf(EndOf(requests), width) < MAX_BUCKETS
    requires |buckets| == BucketCount(requests, width)
    requires var t := TimelineOf(requests, width);
             forall i | 0 <= i < t.n :: buckets[i].startMs == t.StartOf(i) && buckets[i].endMs == t.EndOf(i)
    ensures Covers(requests, width, buckets)
  {
    hide EndOf, BucketCount, CellOf, Timeline.StartOf, Timeline.EndOf, Timeline.Valid, AllMeasured;
    var t := TimelineOf(requests, width);
    TimelineValid(requests, width);
    EndBounds(requests);
    EndReached(requests);
    var n := |buckets|;
    BucketEdges(t);
    forall i, j | 0 <= i < j == i + 1 < n
      ensures buckets[j].startMs == buckets[i].endMs == buckets[i].startMs + width
    {
      assert t.StartOf(j) == t.EndOf(i) == t.StartOf(i) + width;
    }
    assert forall r <- requests :: r.endedMs <= buckets[n - 1].endMs;
    var r :| r in requests && r.endedMs == EndOf(requests);
    assert r.endedMs == buckets[n - 1].endMs;
  }

  lemma BucketEdges(t: Timeline)
    requires t.Valid()
    ensures t.StartOf(0) == 0.0
    ensures forall i, j | 0 <= i < j == i + 1 < t.n :: t.StartOf(j) == t.EndOf(i) == t.StartOf(i) + t.width
    ensures t.StartOf(t.n - 1) <= t.EndOf(t.n - 1) == t.end <= t.StartOf(t.n - 1) + t.width
  {
    BucketEnds(t, t.n - 1);
    forall i, j | 0 <= i < j == i + 1 < t.n ensures t.StartOf(j) == t.EndOf(i) == t.StartOf(i) + t.width {
      BucketEnds(t, i);
      AtNext(i, t.width);
    }
    AtNext(t.n - 1, t.width);
  }

  lemma TotalsConserved(requests: seq<Request>, width: real, buckets: seq<Bucket>)
    requires requests != [] && AllMeasured(requests) && width > 0.0 && CellOf(EndOf(requests), width) < MAX_BUCKETS
    requires |buckets| == BucketCount(requests, width)
    requires forall i | 0 <= i < |buckets| :: Reports(requests, buckets[i], i == |buckets| - 1)
    requires var t := TimelineOf(requests, width);
             forall i | 0 <= i < t.n :: buckets[i].startMs == t.StartOf(i) && buckets[i].endMs == t.EndOf(i)
    ensures ActiveTotal(buckets) == TimeActive(requests) && WaitingTotal(buckets) == TimeWaiting(requests)
  {
    hide ActiveTotal, WaitingTotal, TimeActive, TimeWaiting, OverlapSum, EndOf, BucketCount, CellOf, Spans,
         Timeline.StartOf, Timeline.EndOf, ActiveWithin, WaitingWithin, TokensWithin, EndedWithin, FailedWithin;
    var t := TimelineOf(requests, width);
    TimelineValid(requests, width);
    forall i | 0 <= i < |buckets|
      ensures var b := buckets[i];
              && b.averageActive * (b.endMs - b.startMs) == OverlapSum(t, Spans(requests, false), i)
              && b.averageWaiting * (b.endMs - b.startMs) == OverlapSum(t, Spans(requests, true), i)
    {
      SharesShown(requests, t, i);
    }
    TotalsShown(requests, t, buckets);
    SpansInside(requests, width, false);
    SpansInside(requests, width, true);
    assert |Spans(requests, false)| == |Spans(requests, true)| == |requests| by { SpansCount(requests); }
    OccupancyConserved(t, Spans(requests, false));
    OccupancyConserved(t, Spans(requests, true));
    SpansLast(requests);
  }

  lemma SpansCount(requests: seq<Request>)
    ensures |Spans(requests, false)| == |Spans(requests, true)| == |requests|
  {
  }

  /**
   The timeline of a collector: its buckets cover the run, each reports what falls
   into it, and together the averages account for all active and all waiting time. The
   width is the first of 1000, 2000, 4000, … at which the end falls before 600 widths.
   */
  method Report(collector: BenchmarkLoadCollector) returns (buckets: seq<Bucket>)
    requires collector.Valid() && AllMeasured(collector.requests)
    ensures collector.requests == [] ==> buckets == []
    ensures collector.requests != [] ==>
              && 0 < |buckets| <= 600 && IsNeeded(collector.bucketMs, buckets[|buckets| - 1].endMs)
              && Covers(collector.requests, collector.bucketMs as real, buckets)
    ensures forall i | 0 <= i < |buckets| :: Reports(collector.requests, buckets[i], i == |buckets| - 1)
    ensures ActiveTotal(buckets) == TimeActive(collector.requests)
    ensures WaitingTotal(buckets) == TimeWaiting(collector.requests)
  {
    buckets := collector.Analyze();
    ghost var requests, width := collector.requests, collector.bucketMs as real;
    if requests != [] {
      hide IsBucket, Reports, Covers, ActiveTotal, WaitingTotal, TimeActive, TimeWaiting, EndOf, BucketCount, CellOf;
      forall i | 0 <= i < |buckets| ensures Reports(requests, buckets[i], i == |buckets| - 1) {
        BucketReports(requests, width, i, buckets[i]);
      }
      BucketTimes(requests, width, collector.tokens, buckets);
      BucketsCover(requests, width, buckets);
      TotalsConserved(requests, width, buckets);
      CoversToEnd(requests, width, buckets);
    }
  }

  lemma CoversToEnd(requests: seq<Request>, width: real, buckets: seq<Bucket>)
    requires Covers(requests, width, buckets) && AllMeasured(requests) && requests != []
    ensures |buckets| > 0 && buckets[|buckets| - 1].endMs == EndOf(requests)
  {
    EndBounds(requests);
    EndReached(requests);
  }

  lemma BucketTimes(requests: seq<Request>, width: real, tokens: Tokens, buckets: seq<Bucket>)
    requires width > 0.0 && |buckets| == BucketCount(requests, width)
    requires forall i | 0 <= i < |buckets| :: IsBucket(requests, width, tokens, i, buckets[i])
    ensures var t := TimelineOf(requests, width);
            forall i | 0 <= i < t.n :: buckets[i].startMs == t.StartOf(i) && buckets[i].endMs == t.EndOf(i)
  {
  }
}
