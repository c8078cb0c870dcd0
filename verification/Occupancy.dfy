/** Average occupancy per timeline bucket, by a difference array, `averageOccupancy`. */
module Occupancy {
  import opened RealGrid
  import opened Numbers

  datatype Span = Span(start: real, end: real)

  // The timeline: n buckets of one width, the last one cut off at the end of the run.
  datatype Timeline = Timeline(n: nat, width: real, end: real) {
    predicate Valid() {
      && width > 0.0 && n >= 1 && 0.0 <= end <= At(n, width)
      && At(n - 1, width) <= end && (n > 1 ==> At(n - 1, width) < end)
    }

    function StartOf(i: int): real { At(i, width) }

    function EndOf(i: int): real { MinReal(At(i + 1, width), end) }

    function Duration(i: int): real { EndOf(i) - StartOf(i) }
  }

  predicate Inside(t: Timeline, span: Span) { 0.0 <= span.start <= span.end <= t.end }

  /** The direct definition: how much of the span lies in bucket i. */
  function Overlap(t: Timeline, span: Span, i: int): real {
    MaxReal(0.0, MinReal(span.end, t.EndOf(i)) - MaxReal(span.start, t.StartOf(i)))
  }

  function OverlapSum(t: Timeline, spans: seq<Span>, i: int): real {
    if spans == [] then 0.0
    else OverlapSum(t, spans[..|spans| - 1], i) + Overlap(t, spans[|spans| - 1], i)
  }

  // What the difference array holds.

  function First(t: Timeline, span: Span): int
    requires t.width > 0.0
  {
    Min(t.n, CellOf(span.start, t.width))
  }

  function Last(t: Timeline, span: Span): int
    requires t.width > 0.0
  {
    Min(t.n, CellOf(span.end, t.width))
  }

  function Partial(t: Timeline, span: Span, i: int): real
    requires t.width > 0.0
  {
    var first, last := First(t, span), Last(t, span);
    if first == last then (if i == first then span.end - span.start else 0.0)
    else if i == first then At(first + 1, t.width) - span.start
    else if i == last then span.end - At(last, t.width)
    else 0.0
  }

  function Change(t: Timeline, span: Span, i: int): int
    requires t.width > 0.0
  {
    var first, last := First(t, span), Last(t, span);
    if first == last then 0
    else (if i == first + 1 then 1 else 0) - (if i == last then 1 else 0)
  }

  /** Whether the span crosses the whole of bucket i. */
  function Crossing(t: Timeline, span: Span, i: int): int
    requires t.width > 0.0
  {
    if First(t, span) < i < Last(t, span) then 1 else 0
  }

  function PartialSum(t: Timeline, spans: seq<Span>, i: int): real
    requires t.width > 0.0
  {
    if spans == [] then 0.0
    else PartialSum(t, spans[..|spans| - 1], i) + Partial(t, spans[|spans| - 1], i)
  }

  function ChangeSum(t: Timeline, spans: seq<Span>, i: int): int
    requires t.width > 0.0
  {
    if spans == [] then 0
    else ChangeSum(t, spans[..|spans| - 1], i) + Change(t, spans[|spans| - 1], i)
  }

  function CrossingSum(t: Timeline, spans: seq<Span>, i: int): int
    requires t.width > 0.0
  {
    if spans == [] then 0
    else CrossingSum(t, spans[..|spans| - 1], i) + Crossing(t, spans[|spans| - 1], i)
  }

  /** The cells of a span inside the timeline. */
  lemma CellsInside(t: Timeline, span: Span)
    requires t.Valid() && Inside(t, span)
    ensures 0 <= First(t, span) <= Last(t, span) <= t.n
    ensures At(First(t, span), t.width) <= span.start && At(Last(t, span), t.width) <= span.end
    ensures First(t, span) < t.n ==> span.start < At(First(t, span) + 1, t.width)
    ensures Last(t, span) < t.n ==> span.end < At(Last(t, span) + 1, t.width)
    ensures First(t, span) == t.n ==> span.start == span.end == At(t.n, t.width)
    ensures Last(t, span) == t.n ==> span.end == At(t.n, t.width)
  {
    CellBounds(span.start, t.width);
    CellBounds(span.end, t.width);
    var s, e := CellOf(span.start, t.width), CellOf(span.end, t.width);
    if s < 0 { AtMonotone(s + 1, 0, t.width); }
    if e < s { AtMonotone(e + 1, s, t.width); }
    if s > t.n { AtMonotone(t.n, s, t.width); }
    if e > t.n { AtMonotone(t.n, e, t.width); }
  }

  /**
   The heart of the matter: a span's share of a bucket is its partial amount, or the bucket's
   duration if it crosses it.
   */
  lemma ShareIsOverlap(t: Timeline, span: Span, i: int)
    requires t.Valid() && Inside(t, span) && 0 <= i < t.n
    ensures Partial(t, span, i) + Times(Crossing(t, span, i), t.Duration(i)) == Overlap(t, span, i)
  {
    CellsInside(t, span);
    var first, last, w := First(t, span), Last(t, span), t.width;
    AtNext(i, w);
    if i < first { AtMonotone(i + 1, first, w); }
    if i > first { AtMonotone(first + 1, i, w); }
    if i > last { AtMonotone(last + 1, i, w); }
    if i < last { AtMonotone(i + 1, last, w); }
    AtMonotone(i, t.n - 1, w);
  }

  lemma {:induction false} SharesAreOverlaps(t: Timeline, spans: seq<Span>, i: int)
    requires t.Valid() && (forall k | 0 <= k < |spans| :: Inside(t, spans[k])) && 0 <= i < t.n
    ensures PartialSum(t, spans, i) + Times(CrossingSum(t, spans, i), t.Duration(i)) == OverlapSum(t, spans, i)
    decreases |spans|
  {
    assert t.width > 0.0;
    hide Partial, Crossing, Overlap, Timeline.Duration, Timeline.Valid, Inside, Times;
    Distribute(0, 0, t.Duration(i));
    if spans != [] {
      var init, last := spans[..|spans| - 1], spans[|spans| - 1];
      SharesAreOverlaps(t, init, i);
      ShareIsOverlap(t, last, i);
      Distribute(CrossingSum(t, init, i), Crossing(t, last, i), t.Duration(i));
    }
  }

  lemma Distribute(a: int, b: int, d: real)
    ensures Times(a + b, d) == Times(a, d) + Times(b, d)
    ensures Times(0, d) == 0.0
  {
  }

  /** The running sum of the changes counts the crossing spans. */
  lemma {:induction false} ChangesCount(t: Timeline, spans: seq<Span>, i: int)
    requires t.Valid() && (forall k | 0 <= k < |spans| :: Inside(t, spans[k])) && 0 <= i < t.n
    ensures CrossingSum(t, spans, i) == (if i == 0 then 0 else CrossingSum(t, spans, i - 1)) + ChangeSum(t, spans, i)
    decreases |spans|
  {
    if spans != [] {
      ChangesCount(t, spans[..|spans| - 1], i);
      CellsInside(t, spans[|spans| - 1]);
    }
  }

  // Summing over the buckets.

  function SpanTotal(spans: seq<Span>): real {
    if spans == [] then 0.0 else SpanTotal(spans[..|spans| - 1]) + spans[|spans| - 1].end - spans[|spans| - 1].start
  }

  function OverlapTotal(t: Timeline, span: Span, k: nat): real {
    if k == 0 then 0.0 else OverlapTotal(t, span, k - 1) + Overlap(t, span, k - 1)
  }

  /** The first k buckets hold the part of the span before their end. */
  lemma {:induction false} OverlapTelescopes(t: Timeline, span: Span, k: nat)
    requires t.Valid() && Inside(t, span) && k <= t.n
    ensures OverlapTotal(t, span, k) == MaxReal(0.0, MinReal(span.end, MinReal(At(k, t.width), t.end)) - span.start)
  {
    if k > 0 {
      OverlapTelescopes(t, span, k - 1);
      AtMonotone(k - 1, t.n - 1, t.width);
      AtNext(k - 1, t.width);
    }
  }

  function GrandTotal(t: Timeline, spans: seq<Span>, k: nat): real {
    if k == 0 then 0.0 else GrandTotal(t, spans, k - 1) + OverlapSum(t, spans, k - 1)
  }

  lemma {:induction false} GrandTotalSplits(t: Timeline, spans: seq<Span>, k: nat)
    requires spans != []
    ensures GrandTotal(t, spans, k)
            == GrandTotal(t, spans[..|spans| - 1], k) + OverlapTotal(t, spans[|spans| - 1], k)
  {
    if k > 0 { GrandTotalSplits(t, spans, k - 1); }
  }

  /** Summed over all buckets, occupancy times duration is the total time of all spans. */
  lemma {:induction false} OccupancyConserved(t: Timeline, spans: seq<Span>)
    requires t.Valid() && forall k | 0 <= k < |spans| :: Inside(t, spans[k])
    ensures GrandTotal(t, spans, t.n) == SpanTotal(spans)
    decreases |spans|
  {
    if spans == [] {
      NoSpans(t, t.n);
    } else {
      GrandTotalSplits(t, spans, t.n);
      OccupancyConserved(t, spans[..|spans| - 1]);
      OverlapTelescopes(t, spans[|spans| - 1], t.n);
    }
  }

  lemma NoSpans(t: Timeline, k: nat)
    ensures GrandTotal(t, [], k) == 0.0
  {
  }

  lemma SumsAppend(t: Timeline, spans: seq<Span>, span: Span)
    requires t.width > 0.0
    ensures forall i: int {:trigger PartialSum(t, spans + [span], i)} ::
              PartialSum(t, spans + [span], i) == PartialSum(t, spans, i) + Partial(t, span, i)
    ensures forall i: int {:trigger ChangeSum(t, spans + [span], i)} ::
              ChangeSum(t, spans + [span], i) == ChangeSum(t, spans, i) + Change(t, span, i)
  {
    assert (spans + [span])[..|spans|] == spans;
  }

  lemma NoSums(t: Timeline)
    requires t.width > 0.0
    ensures forall i: int :: PartialSum(t, [], i) == 0.0
    ensures forall i: int :: ChangeSum(t, [], i) == 0
  {
  }

  method FillDifferences(t: Timeline, spans: seq<Span>, partial: array<real>, changes: array<int>)
    requires t.Valid() && forall k | 0 <= k < |spans| :: Inside(t, spans[k])
    requires partial.Length == changes.Length == t.n + 1
    requires forall i | 0 <= i <= t.n :: partial[i] == 0.0 && changes[i] == 0
    modifies partial, changes
    ensures forall i | 0 <= i <= t.n :: partial[i] == PartialSum(t, spans, i) && changes[i] == ChangeSum(t, spans, i)
  {
    NoSums(t);
    for m := 0 to |spans|
      invariant forall i | 0 <= i <= t.n :: partial[i] == PartialSum(t, spans[..m], i)
      invariant forall i | 0 <= i <= t.n :: changes[i] == ChangeSum(t, spans[..m], i)
    {
      hide PartialSum, ChangeSum, Inside, CellOf;
      var span := spans[m];
      assert spans[..m + 1] == spans[..m] + [span];
      SumsAppend(t, spans[..m], span);
      CellsInside(t, span);
      var first := Min(t.n, CellOf(span.start, t.width));
      var last := Min(t.n, CellOf(span.end, t.width));
      if first == last {
        partial[first] := partial[first] + span.end - span.start;
      } else {
        partial[first] := partial[first] + At(first + 1, t.width) - span.start;
        partial[last] := partial[last] + span.end - At(last, t.width);
        changes[first + 1] := changes[first + 1] + 1;
        changes[last] := changes[last] - 1;
      }
    }
    assert spans[..|spans|] == spans;
  }

  /** The average over bucket i: the spans' overlap with it over its duration, 0 for an empty bucket. */
  predicate IsAverage(t: Timeline, spans: seq<Span>, i: int, average: real) {
    if t.Duration(i) > 0.0 then average * t.Duration(i) == OverlapSum(t, spans, i) else average == 0.0
  }

  /** The average occupancy of each bucket is the spans' overlap with it over its duration, 0 for an empty bucket. */
  method AverageOccupancy(t: Timeline, spans: seq<Span>) returns (averages: seq<real>)
    requires t.Valid() && forall k | 0 <= k < |spans| :: Inside(t, spans[k])
    ensures |averages| == t.n
    ensures forall i | 0 <= i < t.n :: IsAverage(t, spans, i, averages[i])
  {
    hide PartialSum, ChangeSum, CrossingSum, OverlapSum, Timeline.Duration, Inside;
    var partial := new real[t.n + 1](_ => 0.0);
    var changes := new int[t.n + 1](_ => 0);
    FillDifferences(t, spans, partial, changes);
    var active := 0;
    averages := [];
    for i := 0 to t.n
      invariant |averages| == i
      invariant active == if i == 0 then 0 else CrossingSum(t, spans, i - 1)
      invariant forall k | 0 <= k <= t.n ::
          partial[k] == PartialSum(t, spans, k) && changes[k] == ChangeSum(t, spans, k)
      invariant forall k | 0 <= k < i :: IsAverage(t, spans, k, averages[k])
    {
      ChangesCount(t, spans, i);
      active := active + changes[i];
      var duration := t.Duration(i);
      SharesAreOverlaps(t, spans, i);
      var average := 0.0;
      if duration > 0.0 {
        average := (partial[i] + Times(active, duration)) / duration;
        DivideBack(partial[i] + Times(active, duration), duration);
      }
      averages := averages + [average];
    }
  }

  lemma DivideBack(x: real, d: real)
    requires d > 0.0
    ensures x / d * d == x
  {
  }
}
