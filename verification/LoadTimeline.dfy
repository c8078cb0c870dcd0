/**
 The load collector: a token histogram whose buckets double in width as the run grows, and the
 timeline read from it.
 */
module LoadTimeline {
  import opened Options
  import opened RealGrid
  import opened Occupancy
  import SortedSets
  import opened Numbers

  const MAX_BUCKETS := 600

  datatype Request = Request(
    submitMs: real,
    firstTokenMs: Option<real>,
    endedMs: real,
    chunkTimesMs: seq<real>,
    completionTokens: Option<real>,
    failed: bool)

  // One chunk of a successful request, with its share of the request's tokens if they are known.
  datatype Chunk = Chunk(time: real, weight: Option<real>)

  function WeightOf(r: Request): Option<real> {
    if r.completionTokens.None? || |r.chunkTimesMs| == 0 then None
    else Some(r.completionTokens.value / |r.chunkTimesMs| as real)
  }

  function ChunksOf(r: Request): seq<Chunk> {
    if r.failed then []
    else seq(|r.chunkTimesMs|, i requires 0 <= i < |r.chunkTimesMs| => Chunk(r.chunkTimesMs[i], WeightOf(r)))
  }

  function AllChunks(requests: seq<Request>): seq<Chunk> {
    if requests == [] then []
    else AllChunks(requests[..|requests| - 1]) + ChunksOf(requests[|requests| - 1])
  }

  function EndOf(requests: seq<Request>): real {
    if requests == [] then 0.0
    else MaxReal(EndOf(requests[..|requests| - 1]), requests[|requests| - 1].endedMs)
  }

  // The token map: an absent bucket has no chunk, a null one a chunk of unknown weight.

  type Tokens = map<int, Option<real>>

  function AddTokens(m: Tokens, index: int, weight: Option<real>): Tokens {
    m[index :=
      if weight.None? || (index in m && m[index].None?) then None
      else Some((if index in m then m[index].value else 0.0) + weight.value)]
  }

  /** All chunks counted directly at one width. */
  function Bucketed(chunks: seq<Chunk>, width: real): Tokens
    requires width > 0.0
  {
    if chunks == [] then map[]
    else
      var last := chunks[|chunks| - 1];
      AddTokens(Bucketed(chunks[..|chunks| - 1], width), CellOf(last.time, width), last.weight)
  }

  /** What the cell pair 2j, 2j+1 makes of cell j at twice the width. */
  function Cell(m: Tokens, index: int): Option<Option<real>> {
    if index in m then Some(m[index]) else None
  }

  function Pair(a: Option<Option<real>>, b: Option<Option<real>>): Option<Option<real>> {
    if a.None? then b
    else if b.None? then a
    else if a.value.None? || b.value.None? then Some(None)
    else Some(Some(a.value.value + b.value.value))
  }

  predicate MergesAt(m: Tokens, merged: Tokens, j: int) {
    Cell(merged, j) == Pair(Cell(m, 2 * j), Cell(m, 2 * j + 1))
  }

  /** The map at twice the width. */
  ghost predicate IsMerged(m: Tokens, merged: Tokens) {
    forall j: int :: MergesAt(m, merged, j)
  }

  function Plus(cell: Option<Option<real>>, weight: Option<real>): Option<real> {
    if weight.None? || cell == Some(None) then None
    else Some((if cell.Some? then cell.value.value else 0.0) + weight.value)
  }

  lemma AddCell(m: Tokens, index: int, weight: Option<real>, k: int)
    ensures Cell(AddTokens(m, index, weight), k) == if k == index then Some(Plus(Cell(m, k), weight)) else Cell(m, k)
  {
  }

  lemma MergeAdds(m: Tokens, merged: Tokens, index: int, weight: Option<real>)
    requires IsMerged(m, merged)
    ensures IsMerged(AddTokens(m, index, weight), AddTokens(merged, index / 2, weight))
  {
    hide AddTokens, Cell;
    var n, nm := AddTokens(m, index, weight), AddTokens(merged, index / 2, weight);
    forall j: int ensures MergesAt(n, nm, j) {
      assert MergesAt(m, merged, j);
      AddCell(merged, index / 2, weight, j);
      AddCell(m, index, weight, 2 * j);
      AddCell(m, index, weight, 2 * j + 1);
    }
  }

  lemma MergedUnique(m: Tokens, a: Tokens, b: Tokens)
    requires IsMerged(m, a) && IsMerged(m, b)
    ensures a == b
  {
    forall j: int ensures Cell(a, j) == Cell(b, j) {
      assert MergesAt(m, a, j) && MergesAt(m, b, j);
    }
    forall j: int ensures (j in a <==> j in b) && (j in a && j in b ==> a[j] == b[j]) {
      assert Cell(a, j) == Cell(b, j);
    }
  }

  /** Merging pairs of cells is counting directly at twice the width. */
  lemma {:induction false} MergingIsRebucketing(chunks: seq<Chunk>, width: real)
    requires width > 0.0
    ensures IsMerged(Bucketed(chunks, width), Bucketed(chunks, 2.0 * width))
    decreases |chunks|
  {
    hide IsMerged, AddTokens, CellOf;
    if chunks == [] {
      assert IsMerged(map[], map[]) by { EmptyMerged(); }
    } else {
      var init, last := chunks[..|chunks| - 1], chunks[|chunks| - 1];
      MergingIsRebucketing(init, width);
      DoubleWidth(last.time, width);
      MergeAdds(Bucketed(init, width), Bucketed(init, 2.0 * width), CellOf(last.time, width), last.weight);
    }
  }

  lemma EmptyMerged()
    ensures IsMerged(map[], map[])
  {
  }

  // The map restricted to the keys a loop has seen.
  function Seen(m: Tokens, keys: set<int>): Tokens { map k | k in m && k in keys :: m[k] }

  lemma SeenAdds(m: Tokens, keys: set<int>, k: int)
    requires k in m && k !in keys
    ensures Seen(m, keys + {k}) == AddTokens(Seen(m, keys), k, m[k])
  {
  }

  lemma {:induction false} BucketedAppend(chunks: seq<Chunk>, chunk: Chunk, width: real)
    requires width > 0.0
    ensures Bucketed(chunks + [chunk], width)
        == AddTokens(Bucketed(chunks, width), CellOf(chunk.time, width), chunk.weight)
  {
    assert (chunks + [chunk])[..|chunks|] == chunks;
  }

  // The timeline.

  function BucketCount(requests: seq<Request>, width: real): nat
    requires width > 0.0
  {
    if requests == [] then 0
    else if CellsUpTo(EndOf(requests), width) < 1 then 1
    else CellsUpTo(EndOf(requests), width)
  }

  function TimelineOf(requests: seq<Request>, width: real): Timeline
    requires width > 0.0
  {
    Timeline(BucketCount(requests, width), width, EndOf(requests))
  }

  // What a measured request guarantees: times in order, chunks before the end.
  predicate Measured(r: Request) {
    && 0.0 <= r.submitMs <= r.endedMs
    && (r.firstTokenMs.Some? ==> r.submitMs <= r.firstTokenMs.value <= r.endedMs)
    && (forall i | 0 <= i < |r.chunkTimesMs| :: 0.0 <= r.chunkTimesMs[i] <= r.endedMs)
  }

  predicate AllMeasured(requests: seq<Request>) {
    forall i | 0 <= i < |requests| :: Measured(requests[i])
  }

  function SpanOf(r: Request, waiting: bool): Span {
    Span(r.submitMs, if waiting && r.firstTokenMs.Some? then r.firstTokenMs.value else r.endedMs)
  }

  function Spans(requests: seq<Request>, waiting: bool): seq<Span> {
    seq(|requests|, i requires 0 <= i < |requests| => SpanOf(requests[i], waiting))
  }

  lemma {:induction false} EndBounds(requests: seq<Request>)
    ensures EndOf(requests) >= 0.0
    ensures forall i | 0 <= i < |requests| :: requests[i].endedMs <= EndOf(requests)
    decreases |requests|
  {
    if requests != [] { EndBounds(requests[..|requests| - 1]); }
  }

  lemma TimelineValid(requests: seq<Request>, width: real)
    requires requests != [] && width > 0.0 && CellOf(EndOf(requests), width) < MAX_BUCKETS
    ensures TimelineOf(requests, width).Valid() && BucketCount(requests, width) <= MAX_BUCKETS
  {
    var end := EndOf(requests);
    EndBounds(requests);
    CellsCover(end, width);
    CellBounds(end, width);
    var n, c := CellsUpTo(end, width), CellOf(end, width);
    if n > c + 1 { AtMonotone(c + 1, n - 1, width); }
    if n < 0 { AtMonotone(n, 0, width); }
    if n >= 1 { AtMonotone(0, n - 1, width); AtMonotone(1, n, width); }
    if n == 0 { AtNext(0, width); }
  }

  lemma SpansInside(requests: seq<Request>, width: real, waiting: bool)
    requires AllMeasured(requests) && width > 0.0
    ensures forall k | 0 <= k < |requests| :: Inside(TimelineOf(requests, width), Spans(requests, waiting)[k])
  {
    EndBounds(requests);
    forall k | 0 <= k < |requests| ensures Inside(TimelineOf(requests, width), Spans(requests, waiting)[k]) {
      assert Measured(requests[k]);
    }
  }

  // Completions.

  function CompletedIn(r: Request, n: nat, width: real): int
    requires width > 0.0
  {
    Min(n - 1, CellOf(r.endedMs, width))
  }

  function Completed(requests: seq<Request>, n: nat, width: real, i: int, onlyFailed: bool): nat
    requires width > 0.0
  {
    if requests == [] then 0
    else
      var last := requests[|requests| - 1];
      Completed(requests[..|requests| - 1], n, width, i, onlyFailed)
      + (if CompletedIn(last, n, width) == i && (onlyFailed ==> last.failed) then 1 else 0)
  }

  function CountOf(requests: seq<Request>, onlyFailed: bool): nat {
    if requests == [] then 0
    else CountOf(requests[..|requests| - 1], onlyFailed)
         + (if onlyFailed && !requests[|requests| - 1].failed then 0 else 1)
  }

  function CompletedTotal(requests: seq<Request>, n: nat, width: real, k: nat, onlyFailed: bool): nat
    requires width > 0.0
  {
    if k == 0 then 0
    else CompletedTotal(requests, n, width, k - 1, onlyFailed) + Completed(requests, n, width, k - 1, onlyFailed)
  }

  lemma {:induction false} CompletedSplits(requests: seq<Request>, n: nat, width: real, k: nat, onlyFailed: bool)
    requires width > 0.0 && requests != []
    ensures var last := requests[|requests| - 1];
            CompletedTotal(requests, n, width, k, onlyFailed)
            == CompletedTotal(requests[..|requests| - 1], n, width, k, onlyFailed)
               + (if 0 <= CompletedIn(last, n, width) < k && (onlyFailed ==> last.failed) then 1 else 0)
  {
    if k > 0 { CompletedSplits(requests, n, width, k - 1, onlyFailed); }
  }

  /** Each request is completed in exactly one bucket, and each failed one fails in exactly one. */
  lemma {:induction false} EachCompletedOnce(requests: seq<Request>, n: nat, width: real, onlyFailed: bool)
    requires width > 0.0 && n >= 1 && AllMeasured(requests)
    ensures CompletedTotal(requests, n, width, n, onlyFailed) == CountOf(requests, onlyFailed)
    decreases |requests|
  {
    if requests == [] {
      NoneCompleted(n, width, n, onlyFailed);
    } else {
      var last := requests[|requests| - 1];
      CompletedSplits(requests, n, width, n, onlyFailed);
      EachCompletedOnce(requests[..|requests| - 1], n, width, onlyFailed);
      assert Measured(last);
      CellBounds(last.endedMs, width);
      if CellOf(last.endedMs, width) < 0 { AtMonotone(CellOf(last.endedMs, width) + 1, 0, width); }
    }
  }

  lemma NoneCompleted(n: nat, width: real, k: nat, onlyFailed: bool)
    requires width > 0.0
    ensures CompletedTotal([], n, width, k, onlyFailed) == 0
  {
  }

  // Output tokens.

  /** The output of bucket i: its tokens, with those of the final boundary in the last bucket. */
  function OutputIn(m: Tokens, n: nat, i: int): Option<real> {
    var own := if i in m then m[i] else Some(0.0);
    if i == n - 1 && n in m then
      if m[n].None? || own.None? then None else Some(own.value + m[n].value)
    else own
  }

  predicate Known(chunks: seq<Chunk>) { forall i | 0 <= i < |chunks| :: chunks[i].weight.Some? }

  function ChunkTotal(chunks: seq<Chunk>): real {
    if chunks == [] then 0.0
    else ChunkTotal(chunks[..|chunks| - 1]) + chunks[|chunks| - 1].weight.GetOr(0.0)
  }

  predicate AllKnown(m: Tokens) { forall k <- m :: m[k].Some? }

  function ValueAt(m: Tokens, i: int): real { if i in m then m[i].GetOr(0.0) else 0.0 }

  function TokenTotal(m: Tokens, k: nat): real {
    if k == 0 then 0.0 else TokenTotal(m, k - 1) + ValueAt(m, k - 1)
  }

  lemma {:induction false} TokenTotalAdds(m: Tokens, index: int, weight: Option<real>, k: nat)
    requires AllKnown(m) && weight.Some? && 0 <= index
    ensures TokenTotal(AddTokens(m, index, weight), k) == TokenTotal(m, k) + (if index < k then weight.value else 0.0)
  {
    if k > 0 { TokenTotalAdds(m, index, weight, k - 1); }
  }

  /** No token is lost or counted twice in the cells up to the last chunk. */
  lemma {:induction false} BucketedConserves(chunks: seq<Chunk>, width: real, k: nat)
    requires width > 0.0 && Known(chunks)
    requires forall i | 0 <= i < |chunks| :: 0 <= CellOf(chunks[i].time, width) < k
    ensures AllKnown(Bucketed(chunks, width)) && TokenTotal(Bucketed(chunks, width), k) == ChunkTotal(chunks)
    decreases |chunks|
  {
    hide CellOf;
    if chunks == [] {
      EmptyTotal(k);
    } else {
      var init, last := chunks[..|chunks| - 1], chunks[|chunks| - 1];
      assert forall i | 0 <= i < |init| :: init[i] == chunks[i];
      BucketedConserves(init, width, k);
      TokenTotalAdds(Bucketed(init, width), CellOf(last.time, width), last.weight, k);
    }
  }

  lemma EmptyTotal(k: nat)
    ensures TokenTotal(map[], k) == 0.0
  {
  }

  function OutputTotal(m: Tokens, n: nat, k: nat): real {
    if k == 0 then 0.0 else OutputTotal(m, n, k - 1) + OutputIn(m, n, k - 1).GetOr(0.0)
  }

  lemma {:induction false} OutputsAreTokens(m: Tokens, n: nat, k: nat)
    requires AllKnown(m) && k <= n
    ensures OutputTotal(m, n, k) == TokenTotal(m, k) + (if k == n > 0 then ValueAt(m, n) else 0.0)
    ensures forall i | 0 <= i < k :: OutputIn(m, n, i).Some?
  {
    if k > 0 { OutputsAreTokens(m, n, k - 1); }
  }

  /** The completion tokens of the successful requests that produced chunks. */
  function CompletionTotal(requests: seq<Request>): real {
    if requests == [] then 0.0
    else
      var last := requests[|requests| - 1];
      CompletionTotal(requests[..|requests| - 1])
      + (if last.failed || last.chunkTimesMs == [] then 0.0 else last.completionTokens.GetOr(0.0))
  }

  // All counts are known: every successful request that produced chunks reports its tokens.
  predicate CountsKnown(requests: seq<Request>) {
    forall i | 0 <= i < |requests| ::
      !requests[i].failed && requests[i].chunkTimesMs != [] ==> requests[i].completionTokens.Some?
  }

  lemma {:induction false} ChunkTotalConcat(a: seq<Chunk>, b: seq<Chunk>)
    ensures ChunkTotal(a + b) == ChunkTotal(a) + ChunkTotal(b)
    decreases |b|
  {
    if b == [] {
      assert a + b == a;
    } else {
      assert (a + b)[..|a + b| - 1] == a + b[..|b| - 1];
      ChunkTotalConcat(a, b[..|b| - 1]);
    }
  }

  lemma {:induction false} EqualChunks(chunks: seq<Chunk>, x: real)
    requires forall i | 0 <= i < |chunks| :: chunks[i].weight == Some(x)
    ensures ChunkTotal(chunks) == Times(|chunks|, x)
    decreases |chunks|
  {
    if chunks != [] { EqualChunks(chunks[..|chunks| - 1], x); }
  }

  lemma RequestTotal(r: Request)
    requires !r.failed && r.chunkTimesMs != [] ==> r.completionTokens.Some?
    ensures ChunkTotal(ChunksOf(r)) == if r.failed || r.chunkTimesMs == [] then 0.0 else r.completionTokens.GetOr(0.0)
  {
    if !r.failed && r.chunkTimesMs != [] {
      var x := r.completionTokens.value / |r.chunkTimesMs| as real;
      assert WeightOf(r) == Some(x);
      EqualChunks(ChunksOf(r), x);
      DivideBack(r.completionTokens.value, |r.chunkTimesMs| as real);
    }
  }

  lemma NoChunks()
    ensures ChunkTotal([]) == 0.0
  {
  }

  lemma KnownChunks(r: Request)
    requires !r.failed && r.chunkTimesMs != [] ==> r.completionTokens.Some?
    ensures Known(ChunksOf(r))
  {
    if !r.failed && r.chunkTimesMs != [] {
      assert WeightOf(r).Some?;
    }
  }

  lemma {:induction false} ChunksTotal(requests: seq<Request>)
    requires CountsKnown(requests)
    ensures ChunkTotal(AllChunks(requests)) == CompletionTotal(requests) && Known(AllChunks(requests))
    decreases |requests|
  {
    hide ChunksOf, ChunkTotal;
    if requests == [] {
      assert ChunkTotal([]) == 0.0 by { NoChunks(); }
    } else {
      var init, last := requests[..|requests| - 1], requests[|requests| - 1];
      assert forall i | 0 <= i < |init| :: init[i] == requests[i];
      ChunksTotal(init);
      KnownChunks(last);
      RequestTotal(last);
      ChunkTotalConcat(AllChunks(init), ChunksOf(last));
    }
  }

  lemma {:induction false} ChunkTimes(requests: seq<Request>, end: real)
    requires AllMeasured(requests) && EndOf(requests) <= end
    ensures forall i | 0 <= i < |AllChunks(requests)| :: 0.0 <= AllChunks(requests)[i].time <= end
    decreases |requests|
  {
    if requests != [] {
      var init, last := requests[..|requests| - 1], requests[|requests| - 1];
      assert AllMeasured(init);
      ChunkTimes(init, end);
      assert Measured(last);
    }
  }

  /**
   When all counts are known, the output tokens of the buckets sum to the
   completion tokens of the successful requests that produced chunks.
   */
  lemma OutputConserved(requests: seq<Request>, width: real)
    requires requests != [] && AllMeasured(requests) && CountsKnown(requests)
    requires width > 0.0 && CellOf(EndOf(requests), width) < MAX_BUCKETS
    ensures var n, m := BucketCount(requests, width), Bucketed(AllChunks(requests), width);
            && OutputTotal(m, n, n) == CompletionTotal(requests)
            && forall i | 0 <= i < n :: OutputIn(m, n, i).Some?
  {
    hide Bucketed, AllChunks, CompletionTotal, CountsKnown;
    var n, chunks := BucketCount(requests, width), AllChunks(requests);
    var m := Bucketed(chunks, width);
    TimelineValid(requests, width);
    ChunksTotal(requests);
    ChunkTimes(requests, EndOf(requests));
    forall i | 0 <= i < |chunks| ensures 0 <= CellOf(chunks[i].time, width) < n + 1 {
      var c := CellOf(chunks[i].time, width);
      CellBounds(chunks[i].time, width);
      if c < 0 { AtMonotone(c + 1, 0, width); }
      if c > n { AtMonotone(n, c, width); }
    }
    BucketedConserves(chunks, width, n + 1);
    OutputsAreTokens(m, n, n);
  }

  datatype Bucket = Bucket(
    startMs: real,
    endMs: real,
    outputTokens: Option<real>,
    completedRequests: nat,
    failedRequests: nat,
    averageActive: real,
    averageWaiting: real)

  /** The loop that merges the token map, over its entries in any order. */
  method MergePairs(tokens: Tokens) returns (merged: Tokens)
    ensures IsMerged(tokens, merged)
  {
    hide IsMerged;
    merged := map[];
    var keys := tokens.Keys;
    ghost var seen := {};
    assert Seen(tokens, {}) == map[];
    EmptyMerged();
    while keys != {}
      invariant keys !! seen && keys + seen == tokens.Keys
      invariant IsMerged(Seen(tokens, seen), merged)
      decreases |keys|
    {
      SortedSets.HasElement(keys);
      var index :| index in keys;
      SeenAdds(tokens, seen, index);
      MergeAdds(Seen(tokens, seen), merged, index, tokens[index]);
      merged := AddTokens(merged, index / 2, tokens[index]);
      keys, seen := keys - {index}, seen + {index};
    }
    assert Seen(tokens, seen) == tokens;
  }

  /** What bucket i of the timeline reports. */
  predicate IsBucket(requests: seq<Request>, width: real, tokens: Tokens, i: int, bucket: Bucket)
    requires width > 0.0
  {
    var t := TimelineOf(requests, width);
    && bucket.startMs == t.StartOf(i) && bucket.endMs == t.EndOf(i)
    && bucket.outputTokens == OutputIn(tokens, t.n, i)
    && bucket.completedRequests == Completed(requests, t.n, width, i, false)
    && bucket.failedRequests == Completed(requests, t.n, width, i, true)
    && IsAverage(t, Spans(requests, false), i, bucket.averageActive)
    && IsAverage(t, Spans(requests, true), i, bucket.averageWaiting)
  }

  lemma FailedAdds(request: Request, before: seq<Chunk>)
    requires request.failed
    ensures before + ChunksOf(request) == before
  {
  }

  /** The counting loop of `analyze`, each request adding one to its bucket. */
  method CountCompleted(requests: seq<Request>, n: nat, width: real, onlyFailed: bool) returns (counts: seq<nat>)
    requires n >= 1 && width > 0.0 && AllMeasured(requests)
    ensures |counts| == n && forall i | 0 <= i < n :: counts[i] == Completed(requests, n, width, i, onlyFailed)
  {
    counts := seq(n, _ => 0);
    for k := 0 to |requests|
      invariant |counts| == n
      invariant forall i | 0 <= i < n :: counts[i] == Completed(requests[..k], n, width, i, onlyFailed)
    {
      assert requests[..k + 1][..k] == requests[..k];
      var request := requests[k];
      var index := Min(n - 1, CellOf(request.endedMs, width));
      assert index >= 0 by {
        assert Measured(request);
        CellBounds(request.endedMs, width);
        if CellOf(request.endedMs, width) < 0 { AtMonotone(CellOf(request.endedMs, width) + 1, 0, width); }
      }
      if !onlyFailed || request.failed {
        counts := counts[index := counts[index] + 1];
      }
    }
    assert requests[..|requests|] == requests;
  }

  method BuildTimeline(requests: seq<Request>, width: real, tokens: Tokens) returns (buckets: seq<Bucket>)
    requires width > 0.0 && AllMeasured(requests) && CellOf(EndOf(requests), width) < MAX_BUCKETS
    ensures |buckets| == BucketCount(requests, width) <= MAX_BUCKETS
    ensures forall i | 0 <= i < |buckets| :: IsBucket(requests, width, tokens, i, buckets[i])
  {
    if requests == [] {
      return [];
    }
    TimelineValid(requests, width);
    var t := TimelineOf(requests, width);
    SpansInside(requests, width, false);
    SpansInside(requests, width, true);
    var active := AverageOccupancy(t, Spans(requests, false));
    var waiting := AverageOccupancy(t, Spans(requests, true));
    var completed := CountCompleted(requests, t.n, width, false);
    var failed := CountCompleted(requests, t.n, width, true);
    hide IsAverage, Completed, OutputIn, Timeline.StartOf, Timeline.EndOf;
    buckets := [];
    for i := 0 to t.n
      invariant |buckets| == i && forall k | 0 <= k < i :: IsBucket(requests, width, tokens, k, buckets[k])
    {
      buckets := buckets + [Bucket(t.StartOf(i), t.EndOf(i), OutputIn(tokens, t.n, i), completed[i], failed[i],
          active[i], waiting[i])];
    }
  }

  /** 1000 doubled any number of times. */
  predicate IsDoubled(ms: int)
    decreases if ms > 0 then ms else 0
  {
    ms == 1000 || (ms > 1000 && ms % 2 == 0 && IsDoubled(ms / 2))
  }

  // A width beyond the first is one that half of it would not do.
  predicate IsNeeded(ms: int, end: real) { IsDoubled(ms) && (ms == 1000 || 300.0 * ms as real <= end) }

  lemma DoubledIsNeeded(ms: int, end: real)
    requires IsDoubled(ms) && ms > 0 && CellOf(end, ms as real) >= 600
    ensures IsNeeded(2 * ms, end)
  {
    hide CellOf, At;
    CellBounds(end, ms as real);
    AtMonotone(600, CellOf(end, ms as real), ms as real);
    assert At(600, ms as real) == 300.0 * (2 * ms) as real by { HalfAt(ms); }
    DoubledPositive(ms);
  }

  lemma HalfAt(ms: int)
    ensures At(600, ms as real) == 300.0 * (2 * ms) as real
  {
  }

  lemma DoubledPositive(ms: int)
    requires IsDoubled(ms)
    ensures ms >= 1000
  {
  }

  class BenchmarkLoadCollector {
    var requests: seq<Request>
    var bucketMs: int
    var tokens: map<int, Option<real>>
    var endMs: real

    predicate Valid()
      reads this
    {
      && bucketMs > 0
      && endMs == EndOf(requests)
      && tokens == Bucketed(AllChunks(requests), bucketMs as real)
      && CellOf(endMs, bucketMs as real) < MAX_BUCKETS
      && IsNeeded(bucketMs, endMs)
    }

    constructor ()
      ensures Valid() && requests == []
    {
      requests := [];
      bucketMs := 1000;
      tokens := map[];
      endMs := 0.0;
      new;
      CellUnique(0.0, 1000.0, 0);
    }

    /** One doubling of the bucket width. */
    method Widen(ghost chunks: seq<Chunk>)
      requires bucketMs > 0 && tokens == Bucketed(chunks, bucketMs as real)
      modifies this`bucketMs, this`tokens
      ensures bucketMs == 2 * old(bucketMs) && tokens == Bucketed(chunks, bucketMs as real)
    {
      hide Bucketed, IsMerged;
      ghost var width := bucketMs as real;
      bucketMs := bucketMs * 2;
      var merged := MergePairs(tokens);
      MergingIsRebucketing(chunks, width);
      assert 2.0 * width == bucketMs as real;
      MergedUnique(tokens, merged, Bucketed(chunks, bucketMs as real));
      tokens := merged;
    }

    /** The tokens of one request, chunk by chunk. */
    method AddChunks(request: Request, ghost before: seq<Chunk>)
      requires bucketMs > 0 && tokens == Bucketed(before, bucketMs as real) && !request.failed
      modifies this`tokens
      ensures tokens == Bucketed(before + ChunksOf(request), bucketMs as real)
    {
      var weight := WeightOf(request);
      ghost var added := ChunksOf(request);
      assert before + added[..0] == before;
      for i := 0 to |request.chunkTimesMs|
        invariant tokens == Bucketed(before + added[..i], bucketMs as real)
      {
        hide Bucketed, AddTokens, CellOf;
        assert before + added[..i + 1] == before + added[..i] + [added[i]];
        BucketedAppend(before + added[..i], added[i], bucketMs as real);
        tokens := AddTokens(tokens, CellOf(request.chunkTimesMs[i], bucketMs as real), weight);
      }
      assert added[..|added|] == added;
    }

    /** The loop that widens the buckets until the run fits. */
    method WidenToFit(ghost chunks: seq<Chunk>)
      requires bucketMs > 0 && tokens == Bucketed(chunks, bucketMs as real) && endMs >= 0.0 && IsNeeded(bucketMs, endMs)
      modifies this`bucketMs, this`tokens
      ensures bucketMs > 0 && tokens == Bucketed(chunks, bucketMs as real) && IsNeeded(bucketMs, endMs)
      ensures CellOf(endMs, bucketMs as real) < MAX_BUCKETS
    {
      hide Bucketed, CellOf;
      while CellOf(endMs, bucketMs as real) >= MAX_BUCKETS
        invariant bucketMs > 0 && tokens == Bucketed(chunks, bucketMs as real) && IsNeeded(bucketMs, endMs)
        decreases CellOf(endMs, bucketMs as real)
      {
        DoubleWidth(endMs, bucketMs as real);
        assert 2.0 * bucketMs as real == (2 * bucketMs) as real;
        DoubledIsNeeded(bucketMs, endMs);
        Widen(chunks);
      }
    }

    /**
     After every call the token map is what counting all chunks directly at the
     current width gives, and the end of the run lies in the first 600 buckets, as it
     would not at half the width.
     */
    method Record(request: Request)
      requires Valid()
      modifies this
      ensures Valid() && requests == old(requests) + [request]
    {
      hide Bucketed, CellOf, ChunksOf;
      ghost var before := AllChunks(requests);
      requests := requests + [request];
      assert requests[..|requests| - 1] == old(requests);
      endMs := MaxReal(endMs, request.endedMs);
      EndBounds(requests);
      WidenToFit(before);
      if request.failed {
        FailedAdds(request, before);
      } else {
        AddChunks(request, before);
      }
    }

    /** The timeline of `analyze`. */
    method Analyze() returns (buckets: seq<Bucket>)
      requires Valid() && AllMeasured(requests)
      ensures |buckets| == BucketCount(requests, bucketMs as real) <= MAX_BUCKETS
      ensures forall i | 0 <= i < |buckets| :: IsBucket(requests, bucketMs as real, tokens, i, buckets[i])
    {
      buckets := BuildTimeline(requests, bucketMs as real, tokens);
    }
  }
}
