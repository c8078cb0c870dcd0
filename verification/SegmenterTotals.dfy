/** Nothing is lost by the sweep: what each request is charged adds up to its own decode phase. */
module SegmenterTotals {
  import opened Options
  import opened Segmenter
  import opened Numbers

  // One request over the segments.

  /** The chunks of p that the first n segments count, by scanning all chunk times. */
  function ScanSum(p: Phase, sorted: seq<real>, n: nat): nat
    requires n < |sorted|
  {
    if n == 0 then 0
    else ScanSum(p, sorted, n - 1) + (if Decoding(p, sorted[n - 1]) then Scan(p, sorted[n - 1], sorted[n]) else 0)
  }

  function TimeSum(p: Phase, sorted: seq<real>, n: nat): real
    requires n < |sorted|
  {
    if n == 0 then 0.0
    else TimeSum(p, sorted, n - 1) + (if Decoding(p, sorted[n - 1]) then sorted[n] - sorted[n - 1] else 0.0)
  }

  /** The time is in the decode phase and before x, the end of the phase counting as inside once x has reached it. */
  predicate SeenBy(p: Phase, time: real, x: real) {
    p.firstToken <= time && (time < x || x >= p.done) && time <= p.done && (time == p.done ==> x >= p.done)
  }

  function SeenCount(p: Phase, n: nat, x: real): nat
    requires n <= |p.chunkTimes|
  {
    if n == 0 then 0 else SeenCount(p, n - 1, x) + (if SeenBy(p, p.chunkTimes[n - 1], x) then 1 else 0)
  }

  lemma {:induction false} SeenGrows(p: Phase, n: nat, start: real, end: real)
    requires n <= |p.chunkTimes| && p.firstToken < p.done && start < end
    requires end <= p.firstToken || p.firstToken <= start
    requires end <= p.done || p.done <= start
    ensures SeenCount(p, n, end)
        == SeenCount(p, n, start) + (if Decoding(p, start) then NaiveCount(p, n, start, end) else 0)
  {
    if n > 0 { SeenGrows(p, n - 1, start, end); }
  }

  lemma {:induction false} SeenAtStart(p: Phase, n: nat, x: real)
    requires n <= |p.chunkTimes| && p.firstToken < p.done && x <= p.firstToken
    ensures SeenCount(p, n, x) == 0
  {
    if n > 0 { SeenAtStart(p, n - 1, x); }
  }

  lemma {:induction false} ScanSumSeen(p: Phase, sorted: seq<real>, n: nat)
    requires n < |sorted| && Increasing(sorted) && p.firstToken in sorted && p.done in sorted && p.firstToken < p.done
    ensures ScanSum(p, sorted, n) == SeenCount(p, |p.chunkTimes|, sorted[n])
    ensures TimeSum(p, sorted, n) == MaxReal(0.0, (if sorted[n] < p.done then sorted[n] else p.done) - p.firstToken)
  {
    if n == 0 {
      FirstIsLeast(sorted, p.firstToken);
      SeenAtStart(p, |p.chunkTimes|, sorted[0]);
    } else {
      ScanSumSeen(p, sorted, n - 1);
      NoBoundaryInside(sorted, n - 1, p.firstToken);
      NoBoundaryInside(sorted, n - 1, p.done);
      SeenGrows(p, |p.chunkTimes|, sorted[n - 1], sorted[n]);
    }
  }

  lemma FirstIsLeast(sorted: seq<real>, x: real)
    requires Increasing(sorted) && x in sorted
    ensures |sorted| > 0 && sorted[0] <= x <= sorted[|sorted| - 1]
  {
    var i :| 0 <= i < |sorted| && sorted[i] == x;
  }

  /** The decode chunks inside the decode phase. */
  function ChunksInside(p: Phase, n: nat): nat
    requires n <= |p.chunkTimes|
  {
    if n == 0 then 0
    else ChunksInside(p, n - 1) + (if p.firstToken <= p.chunkTimes[n - 1] <= p.done then 1 else 0)
  }

  lemma {:induction false} SeenAtEnd(p: Phase, n: nat, x: real)
    requires n <= |p.chunkTimes| && x >= p.done
    ensures SeenCount(p, n, x) == ChunksInside(p, n)
  {
    if n > 0 { SeenAtEnd(p, n - 1, x); }
  }

  lemma {:induction false} AllInside(p: Phase, n: nat)
    requires n <= |p.chunkTimes|
    ensures ChunksInside(p, n) <= n
    ensures ChunksInside(p, n) == n <==> forall k | 0 <= k < n :: p.firstToken <= p.chunkTimes[k] <= p.done
  {
    if n > 0 { AllInside(p, n - 1); }
  }

  lemma {:induction false} NeverDecodes(p: Phase, sorted: seq<real>, n: nat)
    requires n < |sorted| && p.firstToken >= p.done
    ensures ScanSum(p, sorted, n) == 0 && TimeSum(p, sorted, n) == 0.0
  {
    if n > 0 { NeverDecodes(p, sorted, n - 1); }
  }

  /**
   Over all segments a request with a decode phase has each chunk of that phase
   counted in exactly one segment, and its whole decode time.
   */
  lemma SweepCountsPhase(p: Phase, sorted: seq<real>)
    requires Increasing(sorted) && p.firstToken in sorted && p.done in sorted
    ensures |sorted| > 0
    ensures p.firstToken < p.done ==>
              ScanSum(p, sorted, |sorted| - 1) == ChunksInside(p, |p.chunkTimes|)
              && TimeSum(p, sorted, |sorted| - 1) == p.done - p.firstToken
    ensures p.firstToken >= p.done ==>
              ScanSum(p, sorted, |sorted| - 1) == 0 && TimeSum(p, sorted, |sorted| - 1) == 0.0
  {
    FirstIsLeast(sorted, p.done);
    if p.firstToken < p.done {
      ScanSumSeen(p, sorted, |sorted| - 1);
      SeenAtEnd(p, |p.chunkTimes|, sorted[|sorted| - 1]);
    } else {
      NeverDecodes(p, sorted, |sorted| - 1);
    }
  }

  // All requests over the segments.

  function Tokens(s: Share): real { s.soloTokens + s.contendedTokens }

  function Ms(s: Share): real { s.soloMs + s.contendedMs }

  /** What the first n requests with this id are charged for one segment. */
  function SegmentTokens(phases: seq<Phase>, n: nat, id: string, start: real, end: real): real
    requires n <= |phases|
  {
    if n == 0 then 0.0
    else
      var p := phases[n - 1];
      SegmentTokens(phases, n - 1, id, start, end)
      + (if p.requestId == id && Decoding(p, start) then Times(Scan(p, start, end), p.tokensPerChunk) else 0.0)
  }

  function SegmentMs(phases: seq<Phase>, n: nat, id: string, start: real, end: real): real
    requires n <= |phases|
  {
    if n == 0 then 0.0
    else
      var p := phases[n - 1];
      SegmentMs(phases, n - 1, id, start, end) + (if p.requestId == id && Decoding(p, start) then end - start else 0.0)
  }

  /** The decode tokens of one segment, over the first n requests. */
  function AllTokens(phases: seq<Phase>, n: nat, start: real, end: real): real
    requires n <= |phases|
  {
    if n == 0 then 0.0
    else
      var p := phases[n - 1];
      AllTokens(phases, n - 1, start, end)
      + (if Decoding(p, start) then Times(Scan(p, start, end), p.tokensPerChunk) else 0.0)
  }

  predicate AllOrdered(phases: seq<Phase>) { forall i | 0 <= i < |phases| :: Ordered(phases[i]) }

  // A cursor has passed only times before x, for a request that is not over at x.
  predicate CursorBefore(p: Phase, cursor: nat, x: real) {
    cursor <= |p.chunkTimes| && (x < p.done ==> forall k | 0 <= k < cursor :: p.chunkTimes[k] < x)
  }

  predicate CursorsBefore(phases: seq<Phase>, cursors: seq<nat>, from: nat, to: nat, x: real)
    requires from <= to <= |phases| == |cursors|
  {
    forall i | from <= i < to :: CursorBefore(phases[i], cursors[i], x)
  }

  lemma AddShareTotals(c: Contention, id: string, tokens: real, ms: real, contended: bool, other: string)
    ensures var d := AddShare(c, id, tokens, ms, contended);
            && Tokens(ShareOf(d, other)) == Tokens(ShareOf(c, other)) + (if other == id then tokens else 0.0)
            && Ms(ShareOf(d, other)) == Ms(ShareOf(c, other)) + (if other == id then ms else 0.0)
  {
    hide ShareOf;
    var share := ShareOf(c, id);
    var more := if contended
        then share.(contendedTokens := share.contendedTokens + tokens, contendedMs := share.contendedMs + ms)
        else share.(soloTokens := share.soloTokens + tokens, soloMs := share.soloMs + ms);
    assert AddShare(c, id, tokens, ms, contended) == c[id := more];
    if other == id {
      ShareUpdated(c, id, more);
    } else {
      ShareKept(c, id, more, other);
    }
  }

  lemma ShareUpdated(c: Contention, id: string, share: Share)
    ensures ShareOf(c[id := share], id) == share
  {
  }

  lemma ShareKept(c: Contention, id: string, share: Share, other: string)
    requires other != id
    ensures ShareOf(c[id := share], other) == ShareOf(c, other)
  {
  }

  /** One request: its cursor counts what a scan counts, and ends before the end of the segment. */
  lemma CursorCounts(p: Phase, cursor: nat, start: real, end: real)
    requires Ordered(p) && start < end && Decoding(p, start) && end <= p.done && CursorBefore(p, cursor, start)
    ensures CursorCount(p, cursor, start, end) == Scan(p, start, end)
    ensures CursorBefore(p, CursorAfter(p, cursor, end), end)
  {
    hide CursorCount, CursorAfter, NaiveCount, Scan;
    NoneBefore(p, cursor, start, end);
    CursorIsScan(p, cursor, start, end);
  }

  lemma VisitOneCounts(p: Phase, i: nat, v: Visit, start: real, end: real, contended: bool, id: string)
    requires i < |v.cursors| && Ordered(p) && start < end && (end <= p.done || p.done <= start)
    requires CursorBefore(p, v.cursors[i], start)
    ensures var w := VisitOne(p, i, v, start, end, contended);
            && CursorBefore(p, w.cursors[i], end)
            && (forall k | 0 <= k < |v.cursors| && k != i :: w.cursors[k] == v.cursors[k])
            && w.tokens == v.tokens + (if Decoding(p, start) then Times(Scan(p, start, end), p.tokensPerChunk) else 0.0)
            && Tokens(ShareOf(w.contention, id)) == Tokens(ShareOf(v.contention, id))
                 + (if p.requestId == id && Decoding(p, start)
                     then Times(Scan(p, start, end), p.tokensPerChunk) else 0.0)
            && Ms(ShareOf(w.contention, id)) == Ms(ShareOf(v.contention, id))
                 + (if p.requestId == id && Decoding(p, start) then end - start else 0.0)
  {
    hide Scan, CursorCount, CursorAfter, Times, AddShare, ShareOf, Tokens, Ms;
    if Decoding(p, start) {
      CursorCounts(p, v.cursors[i], start, end);
      AddShareTotals(v.contention, p.requestId, Times(Scan(p, start, end), p.tokensPerChunk), end - start, contended,
          id);
    }
  }

  lemma {:induction false} VisitFirstCounts(phases: seq<Phase>, n: nat, v: Visit, start: real, end: real, id: string)
    requires n <= |phases| == |v.cursors| && AllOrdered(phases) && start < end
    requires forall i | 0 <= i < |phases| :: end <= phases[i].done || phases[i].done <= start
    requires CursorsBefore(phases, v.cursors, 0, |phases|, start)
    ensures var w := VisitFirst(phases, n, v, start, end);
            && CursorsBefore(phases, w.cursors, 0, n, end) && CursorsBefore(phases, w.cursors, n, |phases|, start)
            && w.tokens == v.tokens + AllTokens(phases, n, start, end)
            && Tokens(ShareOf(w.contention, id))
                == Tokens(ShareOf(v.contention, id)) + SegmentTokens(phases, n, id, start, end)
            && Ms(ShareOf(w.contention, id)) == Ms(ShareOf(v.contention, id)) + SegmentMs(phases, n, id, start, end)
  {
    hide VisitOne, CursorBefore, Scan, Times, Tokens, Ms, ShareOf;
    if n > 0 {
      VisitFirstCounts(phases, n - 1, v, start, end, id);
      var w := VisitFirst(phases, n - 1, v, start, end);
      assert Ordered(phases[n - 1]);
      VisitOneCounts(phases[n - 1], n - 1, w, start, end, Contended(phases, start), id);
    }
  }

  function SweepTokens(phases: seq<Phase>, sorted: seq<real>, n: nat, id: string): real
    requires n < |sorted|
  {
    if n == 0 then 0.0
    else SweepTokens(phases, sorted, n - 1, id) + SegmentTokens(phases, |phases|, id, sorted[n - 1], sorted[n])
  }

  function SweepMs(phases: seq<Phase>, sorted: seq<real>, n: nat, id: string): real
    requires n < |sorted|
  {
    if n == 0 then 0.0
    else SweepMs(phases, sorted, n - 1, id) + SegmentMs(phases, |phases|, id, sorted[n - 1], sorted[n])
  }

  /** The sweep with its cursors charges what scanning every segment would. */
  lemma {:induction false} SweepCounts(phases: seq<Phase>, sorted: seq<real>, n: nat, c: Contention, id: string)
    requires n < |sorted| && Increasing(sorted) && AllOrdered(phases)
    requires forall i | 0 <= i < |phases| :: phases[i].done in sorted
    ensures var s := SweepFirst(phases, sorted, n, c);
            && CursorsBefore(phases, s.cursors, 0, |phases|, sorted[n])
            && Tokens(ShareOf(s.contention, id)) == Tokens(ShareOf(c, id)) + SweepTokens(phases, sorted, n, id)
            && Ms(ShareOf(s.contention, id)) == Ms(ShareOf(c, id)) + SweepMs(phases, sorted, n, id)
            && (forall k | 0 <= k < n ::
                s.segments[k].decodeTokens == AllTokens(phases, |phases|, sorted[k], sorted[k + 1]))
  {
    hide VisitFirst, AllTokens, SegmentTokens, SegmentMs, Tokens, Ms, ShareOf;
    if n > 0 {
      SweepCounts(phases, sorted, n - 1, c, id);
      var before := SweepFirst(phases, sorted, n - 1, c);
      forall i | 0 <= i < |phases| ensures sorted[n] <= phases[i].done || phases[i].done <= sorted[n - 1] {
        NoBoundaryInside(sorted, n - 1, phases[i].done);
      }
      VisitFirstCounts(phases, |phases|, Visit(before.contention, before.cursors, 0.0), sorted[n - 1], sorted[n], id);
    }
  }

  // Exchanging the sums.

  /** What the first m requests with this id should be charged in all. */
  function OwedTokens(phases: seq<Phase>, m: nat, id: string): real
    requires m <= |phases|
  {
    if m == 0 then 0.0
    else
      var p := phases[m - 1];
      OwedTokens(phases, m - 1, id)
      + (if p.requestId == id && p.firstToken < p.done
          then Times(ChunksInside(p, |p.chunkTimes|), p.tokensPerChunk) else 0.0)
  }

  function OwedMs(phases: seq<Phase>, m: nat, id: string): real
    requires m <= |phases|
  {
    if m == 0 then 0.0
    else
      var p := phases[m - 1];
      OwedMs(phases, m - 1, id) + (if p.requestId == id && p.firstToken < p.done then p.done - p.firstToken else 0.0)
  }

  function PartTokens(phases: seq<Phase>, m: nat, sorted: seq<real>, n: nat, id: string): real
    requires m <= |phases| && n < |sorted|
  {
    if n == 0 then 0.0
    else PartTokens(phases, m, sorted, n - 1, id) + SegmentTokens(phases, m, id, sorted[n - 1], sorted[n])
  }

  function PartMs(phases: seq<Phase>, m: nat, sorted: seq<real>, n: nat, id: string): real
    requires m <= |phases| && n < |sorted|
  {
    if n == 0 then 0.0 else PartMs(phases, m, sorted, n - 1, id) + SegmentMs(phases, m, id, sorted[n - 1], sorted[n])
  }

  lemma TimesAdds(a: nat, b: nat, x: real)
    ensures Times(a + b, x) == Times(a, x) + Times(b, x) && Times(0, x) == 0.0
  {
  }

  lemma {:induction false} PartAdds(phases: seq<Phase>, m: nat, sorted: seq<real>, n: nat, id: string)
    requires 0 < m <= |phases| && n < |sorted|
    ensures var p := phases[m - 1];
            && PartTokens(phases, m, sorted, n, id) == PartTokens(phases, m - 1, sorted, n, id)
                 + (if p.requestId == id then Times(ScanSum(p, sorted, n), p.tokensPerChunk) else 0.0)
            && PartMs(phases, m, sorted, n, id) == PartMs(phases, m - 1, sorted, n, id)
                 + (if p.requestId == id then TimeSum(p, sorted, n) else 0.0)
  {
    hide Scan, Decoding, Times;
    var p := phases[m - 1];
    TimesAdds(0, 0, p.tokensPerChunk);
    if n > 0 {
      PartAdds(phases, m, sorted, n - 1, id);
      TimesAdds(ScanSum(p, sorted, n - 1), Scan(p, sorted[n - 1], sorted[n]), p.tokensPerChunk);
    }
  }

  lemma {:induction false} PartIsOwed(phases: seq<Phase>, m: nat, sorted: seq<real>, id: string)
    requires m <= |phases| && Increasing(sorted) && |sorted| > 0
    requires forall i | 0 <= i < |phases| :: phases[i].firstToken in sorted && phases[i].done in sorted
    ensures PartTokens(phases, m, sorted, |sorted| - 1, id) == OwedTokens(phases, m, id)
    ensures PartMs(phases, m, sorted, |sorted| - 1, id) == OwedMs(phases, m, id)
  {
    hide Times, ScanSum, TimeSum, SegmentTokens, SegmentMs;
    if m == 0 {
      NoPart(phases, sorted, |sorted| - 1, id);
    } else {
      PartIsOwed(phases, m - 1, sorted, id);
      PartAdds(phases, m, sorted, |sorted| - 1, id);
      SweepCountsPhase(phases[m - 1], sorted);
      TimesAdds(0, 0, phases[m - 1].tokensPerChunk);
    }
  }

  lemma {:induction false} NoPart(phases: seq<Phase>, sorted: seq<real>, n: nat, id: string)
    requires n < |sorted|
    ensures PartTokens(phases, 0, sorted, n, id) == 0.0 && PartMs(phases, 0, sorted, n, id) == 0.0
  {
    if n > 0 { NoPart(phases, sorted, n - 1, id); }
  }

  lemma {:induction false} SweepIsPart(phases: seq<Phase>, sorted: seq<real>, n: nat, id: string)
    requires n < |sorted|
    ensures SweepTokens(phases, sorted, n, id) == PartTokens(phases, |phases|, sorted, n, id)
    ensures SweepMs(phases, sorted, n, id) == PartMs(phases, |phases|, sorted, n, id)
  {
    if n > 0 { SweepIsPart(phases, sorted, n - 1, id); }
  }

  /**
   The conservation theorem: after a repetition with chunk times in order, solo and
   contended tokens of a request id have grown by the tokens of the chunks in its
   decode phases, and solo and contended time by the length of those phases.
   */
  lemma SweepConserves(phases: seq<Phase>, sorted: seq<real>, c: Contention, id: string)
    requires CoversBoundaries(phases, sorted) && |sorted| > 0 && AllOrdered(phases)
    ensures var after := SweepFirst(phases, sorted, |sorted| - 1, c).contention;
            && Tokens(ShareOf(after, id)) == Tokens(ShareOf(c, id)) + OwedTokens(phases, |phases|, id)
            && Ms(ShareOf(after, id)) == Ms(ShareOf(c, id)) + OwedMs(phases, |phases|, id)
  {
    hide SweepFirst, Tokens, Ms, ShareOf, OwedTokens, OwedMs, SweepTokens, SweepMs, PartTokens, PartMs;
    BoundariesIn(phases, sorted);
    SweepCounts(phases, sorted, |sorted| - 1, c, id);
    SweepIsPart(phases, sorted, |sorted| - 1, id);
    PartIsOwed(phases, |phases|, sorted, id);
  }

  lemma {:induction false} OwedToOther(phases: seq<Phase>, m: nat, k: nat, id: string)
    requires m <= |phases| && k < |phases| && phases[k].requestId == id
    requires forall i | 0 <= i < |phases| && i != k :: phases[i].requestId != id
    requires phases[k].firstToken < phases[k].done
    ensures OwedTokens(phases, m, id)
            == if k < m then Times(ChunksInside(phases[k], |phases[k].chunkTimes|), phases[k].tokensPerChunk) else 0.0
    ensures OwedMs(phases, m, id) == if k < m then phases[k].done - phases[k].firstToken else 0.0
  {
    hide Times, ChunksInside;
    if m > 0 { OwedToOther(phases, m - 1, k, id); }
  }

  lemma NoShare(id: string)
    ensures Tokens(ShareOf(map[], id)) == 0.0 && Ms(ShareOf(map[], id)) == 0.0
  {
  }

  /** A request with an id of its own is charged for its own decode phase and nothing else. */
  lemma OwnShare(phases: seq<Phase>, k: nat, sorted: seq<real>)
    requires CoversBoundaries(phases, sorted) && |sorted| > 0 && AllOrdered(phases)
    requires k < |phases| && phases[k].firstToken < phases[k].done
    requires forall i | 0 <= i < |phases| && i != k :: phases[i].requestId != phases[k].requestId
    ensures var p, share := phases[k],
        ShareOf(SweepFirst(phases, sorted, |sorted| - 1, map[]).contention, phases[k].requestId);
            && Ms(share) == p.done - p.firstToken
            && Tokens(share) == Times(ChunksInside(p, |p.chunkTimes|), p.tokensPerChunk)
  {
    hide SweepFirst, OwedTokens, OwedMs, ChunksInside, CoversBoundaries, AllOrdered, Times, ShareOf, Tokens, Ms;
    SweepConserves(phases, sorted, map[], phases[k].requestId);
    OwedToOther(phases, |phases|, k, phases[k].requestId);
    NoShare(phases[k].requestId);
  }

  /**
   For one measured request with an id of its own, chunks in order and a decode
   phase: its time is all charged, and all its decode chunks are charged exactly
   when they lie in the phase, or count nothing.
   */
  lemma RequestConserved(r: Measured, phases: seq<Phase>, k: nat, sorted: seq<real>)
    requires CoversBoundaries(phases, sorted) && |sorted| > 0 && AllOrdered(phases)
    requires k < |phases| && PhasesOf(r) == Some(phases[k]) && phases[k].firstToken < phases[k].done
    requires forall i | 0 <= i < |phases| && i != k :: phases[i].requestId != r.requestId
    ensures var share := ShareOf(SweepFirst(phases, sorted, |sorted| - 1, map[]).contention, r.requestId);
            && share.soloMs + share.contendedMs == phases[k].done - phases[k].firstToken
            && (share.soloTokens + share.contendedTokens == Times(DecodeChunks(r), TokensPerChunk(r))
                <==> TokensPerChunk(r) == 0.0
                     || forall m | 1 <= m < |r.chunkTimesMs| ::
                          phases[k].firstToken <= r.chunkTimesMs[m] <= phases[k].done)
  {
    hide SweepFirst, ChunksInside, TokensPerChunk, PrefillStart, CoversBoundaries, AllOrdered, Times, ShareOf;
    var p := phases[k];
    OwnShare(phases, k, sorted);
    AllInside(p, |p.chunkTimes|);
    if p.tokensPerChunk != 0.0 { TimesInjective(ChunksInside(p, |p.chunkTimes|), DecodeChunks(r), p.tokensPerChunk); }
    TimesZero(ChunksInside(p, |p.chunkTimes|));
    TimesZero(DecodeChunks(r));
    forall m | 1 <= m < |r.chunkTimesMs| ensures r.chunkTimesMs[m] == p.chunkTimes[m - 1] {
    }
    if forall m | 1 <= m < |r.chunkTimesMs| :: p.firstToken <= r.chunkTimesMs[m] <= p.done {
      forall n | 0 <= n < |p.chunkTimes| ensures p.firstToken <= p.chunkTimes[n] <= p.done {
        assert p.chunkTimes[n] == r.chunkTimesMs[n + 1];
      }
    }
  }

  /** All chunks but the first. */
  function DecodeChunks(r: Measured): nat { if r.chunkTimesMs == [] then 0 else |r.chunkTimesMs| - 1 }

  lemma TimesZero(n: nat)
    ensures Times(n, 0.0) == 0.0
  {
  }

  lemma TimesInjective(a: nat, b: nat, x: real)
    requires x != 0.0
    ensures Times(a, x) == Times(b, x) <==> a == b
  {
    if Times(a, x) == Times(b, x) {
      assert (a - b) as real * x == 0.0;
    }
  }
}
