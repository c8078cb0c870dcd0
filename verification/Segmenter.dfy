/**
 The benchmark sweep line: a repetition cut into segments at every prefill start,
 first token and end, with a cursor per request into its decode chunk times.
 */
module Segmenter {
  import opened Options
  import opened Numbers

  datatype Measured = Measured(
    requestId: string,
    submitMs: real,
    firstTokenMs: Option<real>,
    doneMs: Option<real>,
    promptMs: Option<real>,
    completionTokens: Option<real>,
    chunkTimesMs: seq<real>)

  datatype Phase = Phase(
    requestId: string,
    prefillStart: real,
    firstToken: real,
    done: real,
    tokensPerChunk: real,
    chunkTimes: seq<real>)

  datatype Segment = Segment(
    startMs: real,
    endMs: real,
    prefillCount: nat,
    decodeCount: nat,
    decodeTokens: real)

  datatype Share = Share(soloTokens: real, soloMs: real, contendedTokens: real, contendedMs: real)

  type Contention = map<string, Share>

  function TokensPerChunk(r: Measured): real {
    if r.completionTokens.Some? && |r.chunkTimesMs| > 0
        then r.completionTokens.value / |r.chunkTimesMs| as real else 1.0
  }

  function PrefillStart(r: Measured): Option<real> {
    if r.promptMs.None? || r.firstTokenMs.None? then None
    else Some(MaxReal(r.submitMs, r.firstTokenMs.value - r.promptMs.value))
  }

  function PhasesOf(r: Measured): Option<Phase> {
    if r.firstTokenMs.None? || r.doneMs.None? then None
    else Some(Phase(r.requestId, PrefillStart(r).GetOr(r.submitMs), r.firstTokenMs.value, r.doneMs.value,
        TokensPerChunk(r),
                    if |r.chunkTimesMs| == 0 then [] else r.chunkTimesMs[1..]))
  }

  // Where a request is at time t.

  predicate Prefilling(p: Phase, t: real) { p.prefillStart <= t < p.firstToken }

  predicate Decoding(p: Phase, t: real) { p.firstToken <= t < p.done }

  function PrefillCount(phases: seq<Phase>, t: real): nat {
    if phases == [] then 0
    else PrefillCount(phases[..|phases| - 1], t) + (if Prefilling(phases[|phases| - 1], t) then 1 else 0)
  }

  function DecodeCount(phases: seq<Phase>, t: real): nat {
    if phases == [] then 0
    else DecodeCount(phases[..|phases| - 1], t) + (if Decoding(phases[|phases| - 1], t) then 1 else 0)
  }

  predicate Contended(phases: seq<Phase>, t: real) { PrefillCount(phases, t) > 0 || DecodeCount(phases, t) > 1 }

  // The cursor.

  predicate Within(p: Phase, time: real, end: real) { time < end || (time == end && end == p.done) }

  function CursorAfter(p: Phase, cursor: nat, end: real): nat
    decreases |p.chunkTimes| - cursor
  {
    if cursor < |p.chunkTimes| && Within(p, p.chunkTimes[cursor], end) then CursorAfter(p, cursor + 1, end) else cursor
  }

  function CursorCount(p: Phase, cursor: nat, start: real, end: real): nat
    decreases |p.chunkTimes| - cursor
  {
    if cursor < |p.chunkTimes| && Within(p, p.chunkTimes[cursor], end)
    then (if p.chunkTimes[cursor] >= start then 1 else 0) + CursorCount(p, cursor + 1, start, end)
    else 0
  }

  method CountChunksThrough(p: Phase, cursor: nat, start: real, end: real) returns (chunks: nat, next: nat)
    ensures chunks == CursorCount(p, cursor, start, end) && next == CursorAfter(p, cursor, end)
  {
    chunks, next := 0, cursor;
    while next < |p.chunkTimes|
      invariant chunks + CursorCount(p, next, start, end) == CursorCount(p, cursor, start, end)
      invariant CursorAfter(p, next, end) == CursorAfter(p, cursor, end)
      decreases |p.chunkTimes| - next
    {
      var time := p.chunkTimes[next];
      if !(time < end || (time == end && end == p.done)) {
        break;
      }
      if time >= start {
        chunks := chunks + 1;
      }
      next := next + 1;
    }
  }

  // The naive scan.

  predicate Falls(p: Phase, time: real, start: real, end: real) { start <= time && Within(p, time, end) }

  /** How many of the first n chunk times fall into the segment. */
  function NaiveCount(p: Phase, n: nat, start: real, end: real): nat
    requires n <= |p.chunkTimes|
  {
    if n == 0 then 0
    else NaiveCount(p, n - 1, start, end) + (if Falls(p, p.chunkTimes[n - 1], start, end) then 1 else 0)
  }

  function Scan(p: Phase, start: real, end: real): nat { NaiveCount(p, |p.chunkTimes|, start, end) }

  predicate Ordered(p: Phase) {
    forall i, j | 0 <= i < j < |p.chunkTimes| :: p.chunkTimes[i] <= p.chunkTimes[j]
  }

  lemma {:induction false} NaiveSplit(p: Phase, n: nat, start: real, end: real)
    requires n <= |p.chunkTimes| && Ordered(p)
    ensures n < |p.chunkTimes| && !Within(p, p.chunkTimes[n], end)
        ==> Scan(p, start, end) == NaiveCount(p, n, start, end)
    decreases |p.chunkTimes| - n
  {
    if n < |p.chunkTimes| && !Within(p, p.chunkTimes[n], end) {
      NoneAfter(p, n, |p.chunkTimes|, start, end);
    }
  }

  lemma {:induction false} NoneAfter(p: Phase, n: nat, m: nat, start: real, end: real)
    requires n < |p.chunkTimes| && n <= m <= |p.chunkTimes| && Ordered(p) && !Within(p, p.chunkTimes[n], end)
    ensures NaiveCount(p, m, start, end) == NaiveCount(p, n, start, end)
    decreases m
  {
    if m > n {
      NoneAfter(p, n, m - 1, start, end);
      assert p.chunkTimes[n] <= p.chunkTimes[m - 1];
    }
  }

  lemma {:induction false} NoneBefore(p: Phase, n: nat, start: real, end: real)
    requires n <= |p.chunkTimes| && forall k | 0 <= k < n :: p.chunkTimes[k] < start
    ensures NaiveCount(p, n, start, end) == 0
  {
    if n > 0 { NoneBefore(p, n - 1, start, end); }
  }

  /**
   The cursor counts what a scan of all chunk times counts, and leaves behind only
   times before the end of the segment.
   */
  lemma {:induction false} CursorIsScan(p: Phase, at: nat, start: real, end: real)
    requires Ordered(p) && at <= |p.chunkTimes|
    requires forall k | 0 <= k < at :: Within(p, p.chunkTimes[k], end)
    ensures NaiveCount(p, at, start, end) + CursorCount(p, at, start, end) == Scan(p, start, end)
    ensures CursorAfter(p, at, end) <= |p.chunkTimes|
    ensures forall k | 0 <= k < CursorAfter(p, at, end) :: Within(p, p.chunkTimes[k], end)
    decreases |p.chunkTimes| - at
  {
    if at < |p.chunkTimes| {
      if Within(p, p.chunkTimes[at], end) {
        CursorIsScan(p, at + 1, start, end);
      } else {
        NaiveSplit(p, at, start, end);
      }
    }
  }

  // Visiting the decoding requests of one segment.

  datatype Visit = Visit(contention: Contention, cursors: seq<nat>, tokens: real)

  function ShareOf(c: Contention, id: string): Share { if id in c then c[id] else Share(0.0, 0.0, 0.0, 0.0) }

  function AddShare(c: Contention, id: string, tokens: real, ms: real, contended: bool): Contention {
    var share := ShareOf(c, id);
    c[id := if contended
            then share.(contendedTokens := share.contendedTokens + tokens, contendedMs := share.contendedMs + ms)
            else share.(soloTokens := share.soloTokens + tokens, soloMs := share.soloMs + ms)]
  }

  function VisitOne(p: Phase, i: nat, v: Visit, start: real, end: real, contended: bool): (w: Visit)
    requires i < |v.cursors|
    ensures |w.cursors| == |v.cursors|
  {
    if !Decoding(p, start) then v
    else
      var tokens := Times(CursorCount(p, v.cursors[i], start, end), p.tokensPerChunk);
      Visit(AddShare(v.contention, p.requestId, tokens, end - start, contended),
            v.cursors[i := CursorAfter(p, v.cursors[i], end)],
            v.tokens + tokens)
  }

  function VisitFirst(phases: seq<Phase>, n: nat, v: Visit, start: real, end: real): (w: Visit)
    requires n <= |phases| == |v.cursors|
    ensures |w.cursors| == |v.cursors|
  {
    if n == 0 then v
    else VisitOne(phases[n - 1], n - 1, VisitFirst(phases, n - 1, v, start, end), start, end, Contended(phases, start))
  }

  datatype Sweep = Sweep(contention: Contention, cursors: seq<nat>, segments: seq<Segment>)

  function SweepFirst(phases: seq<Phase>, sorted: seq<real>, n: nat, c: Contention): (s: Sweep)
    requires n < |sorted|
    ensures |s.cursors| == |phases| && |s.segments| == n
  {
    if n == 0 then Sweep(c, seq(|phases|, _ => 0), [])
    else
      var before := SweepFirst(phases, sorted, n - 1, c);
      var start, end := sorted[n - 1], sorted[n];
      var v := VisitFirst(phases, |phases|, Visit(before.contention, before.cursors, 0.0), start, end);
      Sweep(v.contention, v.cursors,
            before.segments + [Segment(start, end, PrefillCount(phases, start), DecodeCount(phases, start), v.tokens)])
  }

  // The boundaries.

  predicate Increasing(sorted: seq<real>) { forall i, j | 0 <= i < j < |sorted| :: sorted[i] < sorted[j] }

  /** Adding a boundary to the sorted ones, once. */
  function InsertBoundary(sorted: seq<real>, b: real): seq<real> {
    if sorted == [] || sorted[|sorted| - 1] < b then sorted + [b]
    else if sorted[|sorted| - 1] == b then sorted
    else InsertBoundary(sorted[..|sorted| - 1], b) + [sorted[|sorted| - 1]]
  }

  lemma {:induction false} InsertShape(sorted: seq<real>, b: real)
    requires Increasing(sorted)
    ensures var all := InsertBoundary(sorted, b);
            Increasing(all) && (forall x :: x in all <==> x in sorted || x == b)
    decreases |sorted|
  {
    if sorted != [] {
      var init, last := sorted[..|sorted| - 1], sorted[|sorted| - 1];
      assert sorted == init + [last];
      if b < last {
        InsertShape(init, b);
        var all := InsertBoundary(init, b);
        forall k | 0 <= k < |all| ensures all[k] < last {
          assert all[k] in all;
          if all[k] in init {
            var m :| 0 <= m < |init| && init[m] == all[k];
            assert sorted[m] == init[m];
          }
        }
      }
    }
  }

  predicate IsBoundary(phases: seq<Phase>, x: real) {
    exists i | 0 <= i < |phases| :: x == phases[i].prefillStart || x == phases[i].firstToken || x == phases[i].done
  }

  /** `boundaries.add`, into what the sort makes of the set. */
  method AddBoundary(sorted: seq<real>, b: real) returns (all: seq<real>)
    requires Increasing(sorted)
    ensures Increasing(all) && forall x :: x in all <==> x in sorted || x == b
  {
    InsertShape(sorted, b);
    all := InsertBoundary(sorted, b);
  }

  method SortedBoundaries(phases: seq<Phase>) returns (sorted: seq<real>)
    ensures Increasing(sorted) && forall x :: x in sorted <==> IsBoundary(phases, x)
  {
    sorted := [];
    for i := 0 to |phases|
      invariant Increasing(sorted) && forall x :: x in sorted <==> IsBoundary(phases[..i], x)
    {
      hide IsBoundary, Increasing;
      sorted := AddBoundary(sorted, phases[i].prefillStart);
      sorted := AddBoundary(sorted, phases[i].firstToken);
      sorted := AddBoundary(sorted, phases[i].done);
      BoundariesGrow(phases, i);
    }
    assert phases[..|phases|] == phases;
  }

  lemma BoundariesGrow(phases: seq<Phase>, i: nat)
    requires i < |phases|
    ensures forall x :: IsBoundary(phases[..i + 1], x)
              <==> IsBoundary(phases[..i], x)
                   || x == phases[i].prefillStart || x == phases[i].firstToken || x == phases[i].done
  {
    var more, less := phases[..i + 1], phases[..i];
    assert more == less + [phases[i]];
    forall x ensures IsBoundary(more, x)
               <==> IsBoundary(less, x)
                    || x == phases[i].prefillStart || x == phases[i].firstToken || x == phases[i].done
    {
      if IsBoundary(less, x) {
        var k :| 0 <= k < |less| && (x == less[k].prefillStart || x == less[k].firstToken || x == less[k].done);
        assert more[k] == less[k];
      }
      assert more[i] == phases[i];
    }
  }

  /** `buildRepetitionSegments`: the segments of one repetition, and its shares added to the contention. */
  method BuildRepetitionSegments(phases: seq<Phase>, contention: Contention)
    returns (sorted: seq<real>, segments: seq<Segment>, shares: Contention)
    ensures Increasing(sorted) && forall x :: x in sorted <==> IsBoundary(phases, x)
    ensures |sorted| == 0 ==> segments == [] && shares == contention
    ensures |sorted| > 0 ==> var s := SweepFirst(phases, sorted, |sorted| - 1, contention);
                             segments == s.segments && shares == s.contention
  {
    sorted := SortedBoundaries(phases);
    segments, shares := [], contention;
    if |sorted| == 0 {
      return;
    }
    var cursors: seq<nat> := seq(|phases|, _ => 0);
    for index := 0 to |sorted| - 1
      invariant SweepFirst(phases, sorted, index, contention) == Sweep(shares, cursors, segments)
    {
      var start, end := sorted[index], sorted[index + 1];
      var prefilling, decoding := PrefillCount(phases, start), DecodeCount(phases, start);
      var tokens;
      shares, cursors, tokens := VisitDecoding(phases, shares, cursors, start, end, prefilling > 0 || decoding > 1);
      segments := segments + [Segment(start, end, prefilling, decoding, tokens)];
    }
  }

  /** The loop over the decoding requests of a segment. */
  method VisitDecoding(phases: seq<Phase>, contention: Contention, cursors: seq<nat>, start: real, end: real,
      contended: bool)
    returns (shares: Contention, next: seq<nat>, tokens: real)
    requires |cursors| == |phases| && contended == Contended(phases, start)
    ensures VisitFirst(phases, |phases|, Visit(contention, cursors, 0.0), start, end) == Visit(shares, next, tokens)
  {
    shares, next, tokens := contention, cursors, 0.0;
    for i := 0 to |phases|
      invariant VisitFirst(phases, i, Visit(contention, cursors, 0.0), start, end) == Visit(shares, next, tokens)
    {
      if Decoding(phases[i], start) {
        var chunks, cursor := CountChunksThrough(phases[i], next[i], start, end);
        var added := Times(chunks, phases[i].tokensPerChunk);
        tokens := tokens + added;
        shares := AddShare(shares, phases[i].requestId, added, end - start, contended);
        next := next[i := cursor];
      }
    }
  }

  // The segments.

  lemma {:induction false} SegmentAt(phases: seq<Phase>, sorted: seq<real>, n: nat, c: Contention, k: nat)
    requires k < n < |sorted|
    ensures var s := SweepFirst(phases, sorted, n, c).segments[k];
            && s.startMs == sorted[k] && s.endMs == sorted[k + 1]
            && s.prefillCount == PrefillCount(phases, sorted[k]) && s.decodeCount == DecodeCount(phases, sorted[k])
    decreases n
  {
    hide VisitFirst;
    if k < n - 1 { SegmentAt(phases, sorted, n - 1, c, k); }
  }

  lemma NoBoundaryInside(sorted: seq<real>, k: nat, x: real)
    requires Increasing(sorted) && k + 1 < |sorted| && x in sorted
    ensures x <= sorted[k] || sorted[k + 1] <= x
  {
    var i :| 0 <= i < |sorted| && sorted[i] == x;
  }

  lemma {:induction false} CountsConstant(phases: seq<Phase>, sorted: seq<real>, k: nat, t: real)
    requires Increasing(sorted) && k + 1 < |sorted| && sorted[k] <= t < sorted[k + 1]
    requires forall i | 0 <= i < |phases| ::
        phases[i].prefillStart in sorted && phases[i].firstToken in sorted && phases[i].done in sorted
    ensures PrefillCount(phases, t) == PrefillCount(phases, sorted[k])
        && DecodeCount(phases, t) == DecodeCount(phases, sorted[k])
    decreases |phases|
  {
    if phases != [] {
      var p := phases[|phases| - 1];
      CountsConstant(phases[..|phases| - 1], sorted, k, t);
      NoBoundaryInside(sorted, k, p.prefillStart);
      NoBoundaryInside(sorted, k, p.firstToken);
      NoBoundaryInside(sorted, k, p.done);
    }
  }

  ghost predicate CoversBoundaries(phases: seq<Phase>, sorted: seq<real>) {
    Increasing(sorted) && forall x :: x in sorted <==> IsBoundary(phases, x)
  }

  lemma BoundariesIn(phases: seq<Phase>, sorted: seq<real>)
    requires CoversBoundaries(phases, sorted)
    ensures forall i | 0 <= i < |phases| ::
        phases[i].prefillStart in sorted && phases[i].firstToken in sorted && phases[i].done in sorted
  {
    forall i | 0 <= i < |phases|
      ensures phases[i].prefillStart in sorted && phases[i].firstToken in sorted && phases[i].done in sorted
    {
      assert IsBoundary(phases, phases[i].prefillStart) && IsBoundary(phases, phases[i].firstToken)
          && IsBoundary(phases, phases[i].done);
    }
  }

  /** The segment is not empty, and its counts hold at every moment of it. */
  ghost predicate Steady(phases: seq<Phase>, s: Segment) {
    && s.startMs < s.endMs
    && forall t: real | s.startMs <= t < s.endMs ::
         s.prefillCount == PrefillCount(phases, t) && s.decodeCount == DecodeCount(phases, t)
  }

  lemma SegmentSteady(phases: seq<Phase>, sorted: seq<real>, k: nat, s: Segment)
    requires CoversBoundaries(phases, sorted) && k + 1 < |sorted|
    requires s.startMs == sorted[k] && s.endMs == sorted[k + 1]
    requires s.prefillCount == PrefillCount(phases, sorted[k]) && s.decodeCount == DecodeCount(phases, sorted[k])
    ensures Steady(phases, s)
  {
    hide CoversBoundaries, PrefillCount, DecodeCount, IsBoundary;
    BoundariesIn(phases, sorted);
    CoversIncreasing(phases, sorted);
    forall t: real | s.startMs <= t < s.endMs
      ensures s.prefillCount == PrefillCount(phases, t) && s.decodeCount == DecodeCount(phases, t)
    {
      CountsConstant(phases, sorted, k, t);
    }
  }

  lemma CoversIncreasing(phases: seq<Phase>, sorted: seq<real>)
    requires CoversBoundaries(phases, sorted)
    ensures Increasing(sorted)
  {
  }

  /**
   The segments tile the span from the first boundary to the last, none is empty,
   and inside each the counts of prefilling and decoding requests do not change.
   */
  lemma SegmentsTile(phases: seq<Phase>, sorted: seq<real>, c: Contention)
    requires CoversBoundaries(phases, sorted) && |sorted| > 1
    ensures var segments := SweepFirst(phases, sorted, |sorted| - 1, c).segments;
            && segments[0].startMs == sorted[0] && segments[|segments| - 1].endMs == sorted[|sorted| - 1]
            && (forall k | 0 <= k < |segments| - 1 :: segments[k].endMs == segments[k + 1].startMs)
            && (forall k | 0 <= k < |segments| :: Steady(phases, segments[k]))
  {
    hide SweepFirst, PrefillCount, DecodeCount, Steady;
    var segments := SweepFirst(phases, sorted, |sorted| - 1, c).segments;
    forall k | 0 <= k < |segments|
      ensures segments[k].startMs == sorted[k] && segments[k].endMs == sorted[k + 1] && Steady(phases, segments[k])
    {
      SegmentAt(phases, sorted, |sorted| - 1, c, k);
      SegmentSteady(phases, sorted, k, segments[k]);
    }
  }
}
