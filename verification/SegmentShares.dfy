/** Who is charged what: each request's share of a repetition, read off the segments it returns. */
module SegmentShares {
  import opened Options
  import opened Numbers
  import opened Segmenter
  import opened SegmenterTotals

  const NOTHING := Share(0.0, 0.0, 0.0, 0.0)

  function Held(c: Contention, id: string): Share { if id in c then c[id] else NOTHING }

  function Plus(a: Share, b: Share): Share {
    Share(a.soloTokens + b.soloTokens, a.soloMs + b.soloMs,
          a.contendedTokens + b.contendedTokens, a.contendedMs + b.contendedMs)
  }

  /** The times in the segment: its end counts only where the request is done. */
  function TimesIn(times: seq<real>, s: Segment, done: real): nat {
    if times == [] then 0
    else
      var time := times[|times| - 1];
      TimesIn(times[..|times| - 1], s, done)
      + (if s.startMs <= time && (time < s.endMs || time == s.endMs == done) then 1 else 0)
  }

  /** The segment lies in the request's decode phase. */
  predicate IsInside(p: Phase, s: Segment) { p.firstToken <= s.startMs && s.endMs <= p.done }

  function TokensIn(p: Phase, s: Segment): real {
    if IsInside(p, s) then TimesIn(p.chunkTimes, s, p.done) as real * p.tokensPerChunk else 0.0
  }

  /** A request decodes alone where nobody prefills and it is the only one that decodes. */
  function ChargeOf(p: Phase, s: Segment): Share {
    if !IsInside(p, s) then NOTHING
    else if s.prefillCount == 0 && s.decodeCount == 1 then Share(TokensIn(p, s), s.endMs - s.startMs, 0.0, 0.0)
    else Share(0.0, 0.0, TokensIn(p, s), s.endMs - s.startMs)
  }

  function ChargeIn(phases: seq<Phase>, s: Segment, id: string): Share {
    if phases == [] then NOTHING
    else
      var p := phases[|phases| - 1];
      Plus(ChargeIn(phases[..|phases| - 1], s, id), if p.requestId == id then ChargeOf(p, s) else NOTHING)
  }

  function Charge(phases: seq<Phase>, segments: seq<Segment>, id: string): Share {
    if segments == [] then NOTHING
    else
      Plus(Charge(phases, segments[..|segments| - 1], id), ChargeIn(phases, segments[|segments| - 1], id))
  }

  function TokensOf(phases: seq<Phase>, s: Segment): real {
    if phases == [] then 0.0
    else TokensOf(phases[..|phases| - 1], s) + TokensIn(phases[|phases| - 1], s)
  }

  /** What a segment says of itself: how many prefill, how many decode, and the tokens of its chunks. */
  predicate IsCounted(phases: seq<Phase>, s: Segment) {
    && s.startMs < s.endMs
    && s.prefillCount
       == |set i | 0 <= i < |phases| && phases[i].prefillStart <= s.startMs && s.endMs <= phases[i].firstToken|
    && s.decodeCount == |set i | 0 <= i < |phases| && IsInside(phases[i], s)|
    && s.decodeTokens == TokensOf(phases, s)
  }

  // The boundaries of a segment are next to each other: no phase begins or ends inside.

  predicate IsCut(phases: seq<Phase>, s: Segment) {
    s.startMs < s.endMs
    && forall i | 0 <= i < |phases| ::
         && (phases[i].prefillStart <= s.startMs || s.endMs <= phases[i].prefillStart)
         && (phases[i].firstToken <= s.startMs || s.endMs <= phases[i].firstToken)
         && (phases[i].done <= s.startMs || s.endMs <= phases[i].done)
  }

  lemma SegmentCut(phases: seq<Phase>, sorted: seq<real>, k: nat, s: Segment)
    requires CoversBoundaries(phases, sorted) && k + 1 < |sorted|
    requires s.startMs == sorted[k] && s.endMs == sorted[k + 1]
    ensures IsCut(phases, s)
  {
    hide IsBoundary;
    BoundariesIn(phases, sorted);
    forall i | 0 <= i < |phases|
      ensures phases[i].prefillStart <= s.startMs || s.endMs <= phases[i].prefillStart
      ensures phases[i].firstToken <= s.startMs || s.endMs <= phases[i].firstToken
      ensures phases[i].done <= s.startMs || s.endMs <= phases[i].done
    {
      NoBoundaryInside(sorted, k, phases[i].prefillStart);
      NoBoundaryInside(sorted, k, phases[i].firstToken);
      NoBoundaryInside(sorted, k, phases[i].done);
    }
  }

  lemma InsideDecodes(phases: seq<Phase>, s: Segment, i: nat)
    requires IsCut(phases, s) && i < |phases|
    ensures IsInside(phases[i], s) <==> Decoding(phases[i], s.startMs)
    ensures phases[i].prefillStart <= s.startMs && s.endMs <= phases[i].firstToken <==> Prefilling(phases[i], s.startMs)
  {
  }

  lemma {:induction false} ScanShown(p: Phase, n: nat, s: Segment)
    requires n <= |p.chunkTimes|
    ensures NaiveCount(p, n, s.startMs, s.endMs) == TimesIn(p.chunkTimes[..n], s, p.done)
  {
    if n > 0 {
      ScanShown(p, n - 1, s);
      assert p.chunkTimes[..n][..n - 1] == p.chunkTimes[..n - 1];
    }
  }

  lemma TokensShown(phases: seq<Phase>, s: Segment, i: nat)
    requires IsCut(phases, s) && i < |phases|
    ensures var p := phases[i];
            TokensIn(p, s)
            == if Decoding(p, s.startMs) then Times(Scan(p, s.startMs, s.endMs), p.tokensPerChunk) else 0.0
  {
    InsideDecodes(phases, s, i);
    ScanShown(phases[i], |phases[i].chunkTimes|, s);
    assert phases[i].chunkTimes[..|phases[i].chunkTimes|] == phases[i].chunkTimes;
  }

  // The counts.

  lemma {:induction false} PrefillsCounted(phases: seq<Phase>, n: nat, t: real)
    requires n <= |phases|
    ensures PrefillCount(phases[..n], t) == |set i | 0 <= i < n && Prefilling(phases[i], t)|
  {
    if n > 0 {
      PrefillsCounted(phases, n - 1, t);
      assert phases[..n][..n - 1] == phases[..n - 1];
      var before := set i | 0 <= i < n - 1 && Prefilling(phases[i], t);
      assert (set i | 0 <= i < n && Prefilling(phases[i], t))
          == before + (if Prefilling(phases[n - 1], t) then {n - 1} else {});
    }
  }

  lemma {:induction false} DecodesCounted(phases: seq<Phase>, n: nat, t: real)
    requires n <= |phases|
    ensures DecodeCount(phases[..n], t) == |set i | 0 <= i < n && Decoding(phases[i], t)|
  {
    if n > 0 {
      DecodesCounted(phases, n - 1, t);
      assert phases[..n][..n - 1] == phases[..n - 1];
      var before := set i | 0 <= i < n - 1 && Decoding(phases[i], t);
      assert (set i | 0 <= i < n && Decoding(phases[i], t))
          == before + (if Decoding(phases[n - 1], t) then {n - 1} else {});
    }
  }

  lemma CountsShown(phases: seq<Phase>, s: Segment)
    requires IsCut(phases, s)
    ensures PrefillCount(phases, s.startMs)
            == |set i | 0 <= i < |phases| && phases[i].prefillStart <= s.startMs && s.endMs <= phases[i].firstToken|
    ensures DecodeCount(phases, s.startMs) == |set i | 0 <= i < |phases| && IsInside(phases[i], s)|
  {
    hide IsCut, IsInside, Prefilling, Decoding;
    var n := |phases|;
    assert phases[..n] == phases;
    PrefillsCounted(phases, n, s.startMs);
    DecodesCounted(phases, n, s.startMs);
    forall i | 0 <= i < n
      ensures IsInside(phases[i], s) <==> Decoding(phases[i], s.startMs)
      ensures phases[i].prefillStart <= s.startMs && s.endMs <= phases[i].firstToken
              <==> Prefilling(phases[i], s.startMs)
    {
      InsideDecodes(phases, s, i);
    }
    assert (set i | 0 <= i < n && phases[i].prefillStart <= s.startMs && s.endMs <= phases[i].firstToken)
        == set i | 0 <= i < n && Prefilling(phases[i], s.startMs);
    assert (set i | 0 <= i < n && IsInside(phases[i], s)) == set i | 0 <= i < n && Decoding(phases[i], s.startMs);
  }

  // The shares.

  lemma AddShareParts(c: Contention, id: string, tokens: real, ms: real, contended: bool, other: string)
    ensures Held(AddShare(c, id, tokens, ms, contended), other)
            == Plus(Held(c, other),
                    if other != id then NOTHING
                    else if contended then Share(0.0, 0.0, tokens, ms) else Share(tokens, ms, 0.0, 0.0))
  {
  }

  lemma OneDecodes(phases: seq<Phase>, i: nat, t: real)
    requires i < |phases| && Decoding(phases[i], t)
    ensures DecodeCount(phases, t) >= 1
  {
    DecodesCounted(phases, |phases|, t);
    assert phases[..|phases|] == phases;
    assert i in set i | 0 <= i < |phases| && Decoding(phases[i], t);
  }

  predicate IsOf(phases: seq<Phase>, s: Segment) {
    IsCut(phases, s) && s.prefillCount == PrefillCount(phases, s.startMs)
    && s.decodeCount == DecodeCount(phases, s.startMs)
  }

  lemma VisitOneShares(phases: seq<Phase>, i: nat, v: Visit, s: Segment, id: string)
    requires i < |phases| == |v.cursors| && IsOf(phases, s) && Ordered(phases[i])
    requires CursorBefore(phases[i], v.cursors[i], s.startMs)
    ensures var p := phases[i];
            var w := VisitOne(p, i, v, s.startMs, s.endMs, Contended(phases, s.startMs));
            Held(w.contention, id)
            == Plus(Held(v.contention, id), if p.requestId == id then ChargeOf(p, s) else NOTHING)
  {
    hide TokensIn, Scan, CursorCount, CursorAfter, AddShare, Held, PrefillCount, DecodeCount, Times;
    var p := phases[i];
    InsideDecodes(phases, s, i);
    TokensShown(phases, s, i);
    if Decoding(p, s.startMs) {
      CursorCounts(p, v.cursors[i], s.startMs, s.endMs);
      OneDecodes(phases, i, s.startMs);
      AddShareParts(v.contention, p.requestId, TokensIn(p, s), s.endMs - s.startMs, Contended(phases, s.startMs), id);
    }
  }

  lemma {:induction false} VisitFirstShares(phases: seq<Phase>, n: nat, v: Visit, s: Segment, id: string)
    requires n <= |phases| == |v.cursors| && AllOrdered(phases) && IsOf(phases, s)
    requires CursorsBefore(phases, v.cursors, 0, |phases|, s.startMs)
    ensures var w := VisitFirst(phases, n, v, s.startMs, s.endMs);
            Held(w.contention, id) == Plus(Held(v.contention, id), ChargeIn(phases[..n], s, id))
  {
    hide VisitOne, CursorBefore, ChargeOf, Held, Tokens, Ms, ShareOf, SegmentTokens, SegmentMs, AllTokens, Contended;
    if n > 0 {
      VisitFirstShares(phases, n - 1, v, s, id);
      assert phases[..n][..n - 1] == phases[..n - 1];
      assert s.startMs < s.endMs && forall i | 0 <= i < |phases| ::
          s.endMs <= phases[i].done || phases[i].done <= s.startMs
        by { CutAtDone(phases, s); }
      VisitFirstCounts(phases, n - 1, v, s.startMs, s.endMs, id);
      assert Ordered(phases[n - 1]);
      VisitOneShares(phases, n - 1, VisitFirst(phases, n - 1, v, s.startMs, s.endMs), s, id);
    }
  }

  lemma CutAtDone(phases: seq<Phase>, s: Segment)
    requires IsOf(phases, s)
    ensures s.startMs < s.endMs && forall i | 0 <= i < |phases| ::
        s.endMs <= phases[i].done || phases[i].done <= s.startMs
  {
  }

  lemma SegmentIsOf(phases: seq<Phase>, sorted: seq<real>, n: nat, c: Contention, k: nat)
    requires CoversBoundaries(phases, sorted) && k < n < |sorted|
    ensures var s := SweepFirst(phases, sorted, n, c).segments[k];
            IsOf(phases, s) && s.startMs == sorted[k] && s.endMs == sorted[k + 1]
  {
    hide CoversBoundaries, SweepFirst, PrefillCount, DecodeCount, IsCut;
    SegmentAt(phases, sorted, n, c, k);
    SegmentCut(phases, sorted, k, SweepFirst(phases, sorted, n, c).segments[k]);
  }

  lemma {:induction false} SweepShares(phases: seq<Phase>, sorted: seq<real>, n: nat, c: Contention, id: string)
    requires n < |sorted| && CoversBoundaries(phases, sorted) && AllOrdered(phases)
    ensures var sweep := SweepFirst(phases, sorted, n, c);
            Held(sweep.contention, id) == Plus(Held(c, id), Charge(phases, sweep.segments, id))
  {
    hide VisitFirst, Held, ChargeIn, CoversBoundaries, AllOrdered, IsOf, Tokens, Ms, ShareOf, AllTokens, SweepTokens,
         SweepMs, PrefillCount, DecodeCount;
    if n > 0 {
      SweepShares(phases, sorted, n - 1, c, id);
      var before, sweep := SweepFirst(phases, sorted, n - 1, c), SweepFirst(phases, sorted, n, c);
      assert sweep.segments[..n - 1] == before.segments;
      SegmentIsOf(phases, sorted, n, c, n - 1);
      CoversIncreasing(phases, sorted);
      BoundariesIn(phases, sorted);
      SweepCounts(phases, sorted, n - 1, c, id);
      VisitFirstShares(phases, |phases|, Visit(before.contention, before.cursors, 0.0), sweep.segments[n - 1], id);
      assert phases[..|phases|] == phases;
    }
  }

  lemma {:induction false} TokensAdd(phases: seq<Phase>, n: nat, s: Segment)
    requires IsCut(phases, s) && n <= |phases|
    ensures AllTokens(phases, n, s.startMs, s.endMs) == TokensOf(phases[..n], s)
  {
    hide IsCut, Scan, Times, TokensIn;
    if n > 0 {
      TokensAdd(phases, n - 1, s);
      TokensShown(phases, s, n - 1);
      assert phases[..n][..n - 1] == phases[..n - 1];
    }
  }

  lemma SegmentTokensShown(phases: seq<Phase>, sorted: seq<real>, c: Contention, k: nat)
    requires CoversBoundaries(phases, sorted) && AllOrdered(phases) && k + 1 < |sorted|
    ensures var s := SweepFirst(phases, sorted, |sorted| - 1, c).segments[k];
            s.decodeTokens == AllTokens(phases, |phases|, sorted[k], sorted[k + 1])
  {
    hide CoversBoundaries, AllOrdered, SweepFirst, AllTokens, CursorsBefore, Tokens, Ms, ShareOf, SweepTokens, SweepMs;
    CoversIncreasing(phases, sorted);
    BoundariesIn(phases, sorted);
    SweepCounts(phases, sorted, |sorted| - 1, c, "");
  }

  lemma SegmentsCounted(phases: seq<Phase>, sorted: seq<real>, c: Contention, k: nat)
    requires CoversBoundaries(phases, sorted) && AllOrdered(phases) && k + 1 < |sorted|
    ensures IsCounted(phases, SweepFirst(phases, sorted, |sorted| - 1, c).segments[k])
  {
    hide CoversBoundaries, AllOrdered, SweepFirst, PrefillCount, DecodeCount, AllTokens, TokensOf, IsInside;
    var s := SweepFirst(phases, sorted, |sorted| - 1, c).segments[k];
    SegmentIsOf(phases, sorted, |sorted| - 1, c, k);
    SegmentTokensShown(phases, sorted, c, k);
    CountsShown(phases, s);
    TokensAdd(phases, |phases|, s);
    assert phases[..|phases|] == phases;
  }

  predicate IsTiled(segments: seq<Segment>) {
    forall i, j | 0 <= i < j == i + 1 < |segments| :: segments[i].endMs == segments[j].startMs
  }

  lemma SweepTiles(phases: seq<Phase>, sorted: seq<real>, c: Contention)
    requires CoversBoundaries(phases, sorted) && |sorted| > 0
    ensures IsTiled(SweepFirst(phases, sorted, |sorted| - 1, c).segments)
  {
    hide CoversBoundaries, SweepFirst, IsOf;
    var segments := SweepFirst(phases, sorted, |sorted| - 1, c).segments;
    forall i, j | 0 <= i < j == i + 1 < |segments| ensures segments[i].endMs == segments[j].startMs {
      SegmentIsOf(phases, sorted, |sorted| - 1, c, i);
      SegmentIsOf(phases, sorted, |sorted| - 1, c, j);
    }
  }

  /**
   One repetition: the segments tile it and count what is in them, and every request
   id is charged, alone or contended, for the segments inside its decode phases.
   */
  method ChargeRepetition(phases: seq<Phase>, contention: Contention)
    returns (segments: seq<Segment>, shares: Contention)
    requires AllOrdered(phases)
    ensures IsTiled(segments) && forall k | 0 <= k < |segments| :: IsCounted(phases, segments[k])
    ensures forall id :: Held(shares, id) == Plus(Held(contention, id), Charge(phases, segments, id))
  {
    var sorted;
    sorted, segments, shares := BuildRepetitionSegments(phases, contention);
    hide AllOrdered, Held, Charge, SweepFirst, IsCounted, IsTiled;
    if |sorted| == 0 {
      NothingCharged(phases, contention);
    } else {
      assert CoversBoundaries(phases, sorted);
      SweepTiles(phases, sorted, contention);
      forall k | 0 <= k < |segments| ensures IsCounted(phases, segments[k]) {
        SegmentsCounted(phases, sorted, contention, k);
      }
      forall id ensures Held(shares, id) == Plus(Held(contention, id), Charge(phases, segments, id)) {
        SweepShares(phases, sorted, |sorted| - 1, contention, id);
      }
    }
  }

  lemma NothingCharged(phases: seq<Phase>, contention: Contention)
    ensures IsTiled([])
    ensures forall id :: Held(contention, id) == Plus(Held(contention, id), Charge(phases, [], id))
  {
  }

  // One request.

  /** A request that has a repetition to itself is never contended. */
  lemma {:induction false} OnlyRequestIsAlone(p: Phase, segments: seq<Segment>, id: string)
    requires forall k | 0 <= k < |segments| :: IsCounted([p], segments[k])
    ensures var charge := Charge([p], segments, id); charge.contendedTokens == charge.contendedMs == 0.0
    decreases |segments|
  {
    hide TokensIn, TokensOf;
    if segments != [] {
      var s := segments[|segments| - 1];
      OnlyRequestIsAlone(p, segments[..|segments| - 1], id);
      AloneInSegment(p, s, id);
    }
  }

  lemma AloneInSegment(p: Phase, s: Segment, id: string)
    requires IsCounted([p], s)
    ensures var charge := ChargeIn([p], s, id); charge.contendedTokens == charge.contendedMs == 0.0
  {
    hide TokensIn, IsCounted, IsInside;
    assert [p][..0] == [] && ChargeIn([], s, id) == NOTHING;
    if IsInside(p, s) { CountedAlone(p, s); }
  }

  lemma CountedAlone(p: Phase, s: Segment)
    requires IsCounted([p], s) && IsInside(p, s)
    ensures s.prefillCount == 0 && s.decodeCount == 1
  {
    hide TokensOf;
    var phases := [p];
    assert (set i | 0 <= i < |phases| && phases[i].prefillStart <= s.startMs && s.endMs <= phases[i].firstToken) == {};
    assert (set i | 0 <= i < |phases| && IsInside(phases[i], s)) == {0};
  }

  /**
   A request's phases in its own times: it prefills from its submission, or later if
   its prompt took less time than that, and each chunk has an equal share of its tokens.
   */
  lemma PhaseOfRequest(r: Measured, t: real)
    ensures PhasesOf(r).Some? <==> r.firstTokenMs.Some? && r.doneMs.Some?
    ensures PhasesOf(r).Some? ==>
              var p := PhasesOf(r).value;
              && p.requestId == r.requestId && Some(p.firstToken) == r.firstTokenMs && Some(p.done) == r.doneMs
              && (p.prefillStart <= t
                  <==> r.submitMs <= t && (r.promptMs.Some? ==> p.firstToken - r.promptMs.value <= t))
              && (r.chunkTimesMs != [] ==> [r.chunkTimesMs[0]] + p.chunkTimes == r.chunkTimesMs)
              && (r.chunkTimesMs == [] ==> p.chunkTimes == [])
              && (if r.chunkTimesMs == [] || r.completionTokens.None? then p.tokensPerChunk == 1.0
                  else p.tokensPerChunk * |r.chunkTimesMs| as real == r.completionTokens.value)
  {
  }

  lemma {:induction false} InsideCounted(p: Phase, n: nat)
    requires n <= |p.chunkTimes|
    ensures ChunksInside(p, n) == |set k | 0 <= k < n && p.firstToken <= p.chunkTimes[k] <= p.done|
  {
    if n > 0 {
      InsideCounted(p, n - 1);
      assert (set k | 0 <= k < n && p.firstToken <= p.chunkTimes[k] <= p.done)
          == (set k | 0 <= k < n - 1 && p.firstToken <= p.chunkTimes[k] <= p.done)
             + (if p.firstToken <= p.chunkTimes[n - 1] <= p.done then {n - 1} else {});
    }
  }

  lemma HeldIsShare(c: Contention, id: string)
    ensures Held(c, id) == ShareOf(c, id)
  {
  }

  /** A request alone: its whole decode time and the tokens of its chunks in it, all of it alone. */
  lemma OnlyRequest(r: Measured, p: Phase, sorted: seq<real>, c: Contention)
    requires PhasesOf(r) == Some(p) && p.firstToken < p.done && Ordered(p)
    requires CoversBoundaries([p], sorted) && |sorted| > 0
    ensures var inside := |set k | 0 <= k < |p.chunkTimes| && p.firstToken <= p.chunkTimes[k] <= p.done|;
            Held(SweepFirst([p], sorted, |sorted| - 1, c).contention, r.requestId)
            == Plus(Held(c, r.requestId),
                    Share(inside as real * p.tokensPerChunk, r.doneMs.value - r.firstTokenMs.value, 0.0, 0.0))
  {
    hide CoversBoundaries, SweepFirst, Held, Charge, IsCounted, ChunksInside, ShareOf, Ordered, TokensPerChunk,
         PrefillStart;
    var phases, n := [p], |sorted| - 1;
    assert AllOrdered(phases);
    var sweep := SweepFirst(phases, sorted, n, c);
    SweepShares(phases, sorted, n, c, p.requestId);
    forall k | 0 <= k < n ensures IsCounted(phases, sweep.segments[k]) {
      SegmentsCounted(phases, sorted, c, k);
    }
    OnlyRequestIsAlone(p, sweep.segments, p.requestId);
    SweepConserves(phases, sorted, c, p.requestId);
    HeldIsShare(c, p.requestId);
    HeldIsShare(sweep.contention, p.requestId);
    InsideCounted(p, |p.chunkTimes|);
    OwedToOther(phases, 1, 0, p.requestId);
  }
}
