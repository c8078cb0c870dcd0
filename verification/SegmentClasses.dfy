/** Segments grouped by how many requests prefill and decode in them, `aggregateSegmentClasses`. */
module SegmentClasses {
  import opened Segmenter

  datatype Class = Class(prefillCount: nat, decodeCount: nat, wallMs: real, tokens: real)

  predicate IsFor(c: Class, s: Segment) { c.prefillCount == s.prefillCount && c.decodeCount == s.decodeCount }

  function Wall(s: Segment): real { s.endMs - s.startMs }

  /** The entry of a segment's class grows by it; a new class goes last. */
  function AddSegment(classes: seq<Class>, s: Segment): seq<Class> {
    if classes == [] then [Class(s.prefillCount, s.decodeCount, Wall(s), s.decodeTokens)]
    else if IsFor(classes[0], s)
    then [classes[0].(wallMs := classes[0].wallMs + Wall(s), tokens := classes[0].tokens + s.decodeTokens)]
        + classes[1..]
    else [classes[0]] + AddSegment(classes[1..], s)
  }

  function Grouped(segments: seq<Segment>): seq<Class> {
    if segments == [] then [] else AddSegment(Grouped(segments[..|segments| - 1]), segments[|segments| - 1])
  }

  predicate Before(a: Class, b: Class) {
    a.prefillCount < b.prefillCount || (a.prefillCount == b.prefillCount && a.decodeCount < b.decodeCount)
  }

  function InsertClass(sorted: seq<Class>, c: Class): seq<Class> {
    if sorted == [] || Before(c, sorted[0]) then [c] + sorted else [sorted[0]] + InsertClass(sorted[1..], c)
  }

  function SortClasses(classes: seq<Class>): seq<Class> {
    if classes == [] then [] else InsertClass(SortClasses(classes[1..]), classes[0])
  }

  // Sums over classes and over segments; with a key, only of that class.

  function ClassSum(classes: seq<Class>, prefill: nat, decode: nat): (real, real) {
    if classes == [] then (0.0, 0.0)
    else
      var rest := ClassSum(classes[1..], prefill, decode);
      if classes[0].prefillCount == prefill && classes[0].decodeCount == decode
      then (rest.0 + classes[0].wallMs, rest.1 + classes[0].tokens) else rest
  }

  function SegmentSum(segments: seq<Segment>, prefill: nat, decode: nat): (real, real) {
    if segments == [] then (0.0, 0.0)
    else
      var last := segments[|segments| - 1];
      var rest := SegmentSum(segments[..|segments| - 1], prefill, decode);
      if last.prefillCount == prefill && last.decodeCount == decode
      then (rest.0 + Wall(last), rest.1 + last.decodeTokens) else rest
  }

  function WallTotal(classes: seq<Class>): real {
    if classes == [] then 0.0 else WallTotal(classes[1..]) + classes[0].wallMs
  }

  function SegmentTotal(segments: seq<Segment>): real {
    if segments == [] then 0.0 else SegmentTotal(segments[..|segments| - 1]) + Wall(segments[|segments| - 1])
  }

  predicate DistinctKeys(classes: seq<Class>) {
    forall i, j | 0 <= i < j < |classes| ::
      classes[i].prefillCount != classes[j].prefillCount || classes[i].decodeCount != classes[j].decodeCount
  }

  lemma {:induction false} AddSegmentKeys(classes: seq<Class>, s: Segment)
    requires DistinctKeys(classes)
    ensures DistinctKeys(AddSegment(classes, s))
    ensures forall i | 0 <= i < |AddSegment(classes, s)| ::
              IsFor(AddSegment(classes, s)[i], s) || HasKey(classes, AddSegment(classes, s)[i])
    decreases |classes|
  {
    if classes != [] && !IsFor(classes[0], s) {
      AddSegmentKeys(classes[1..], s);
      var rest, all := AddSegment(classes[1..], s), AddSegment(classes, s);
      assert all == [classes[0]] + rest;
      forall j | 0 <= j < |rest| ensures !SameKey(rest[j], classes[0])
          && (IsFor(rest[j], s) || HasKey(classes, rest[j])) {
        if !IsFor(rest[j], s) {
          var k :| 0 <= k < |classes[1..]| && SameKey(rest[j], classes[1..][k]);
          assert classes[1..][k] == classes[k + 1];
        }
      }
      assert SameKey(classes[0], classes[0]);
    } else if classes != [] {
      var all := AddSegment(classes, s);
      assert forall i | 0 <= i < |all| :: SameKey(all[i], classes[i]);
    }
  }

  predicate HasKey(classes: seq<Class>, c: Class) { exists k | 0 <= k < |classes| :: SameKey(c, classes[k]) }

  lemma {:induction false} AddSegmentSums(classes: seq<Class>, s: Segment, prefill: nat, decode: nat)
    ensures var all := AddSegment(classes, s);
            && WallTotal(all) == WallTotal(classes) + Wall(s)
            && ClassSum(all, prefill, decode)
               == (if s.prefillCount == prefill && s.decodeCount == decode
                   then (ClassSum(classes, prefill, decode).0 + Wall(s),
                         ClassSum(classes, prefill, decode).1 + s.decodeTokens)
                   else ClassSum(classes, prefill, decode))
    decreases |classes|
  {
    if classes != [] {
      if !IsFor(classes[0], s) { AddSegmentSums(classes[1..], s, prefill, decode); }
      var all := AddSegment(classes, s);
      assert all[1..] == if IsFor(classes[0], s) then classes[1..] else AddSegment(classes[1..], s);
    }
  }

  predicate SameKey(a: Class, b: Class) { a.prefillCount == b.prefillCount && a.decodeCount == b.decodeCount }

  lemma {:induction false} GroupedSums(segments: seq<Segment>, prefill: nat, decode: nat)
    ensures var classes := Grouped(segments);
            && DistinctKeys(classes)
            && WallTotal(classes) == SegmentTotal(segments)
            && ClassSum(classes, prefill, decode) == SegmentSum(segments, prefill, decode)
    decreases |segments|
  {
    if segments != [] {
      GroupedSums(segments[..|segments| - 1], prefill, decode);
      AddSegmentKeys(Grouped(segments[..|segments| - 1]), segments[|segments| - 1]);
      AddSegmentSums(Grouped(segments[..|segments| - 1]), segments[|segments| - 1], prefill, decode);
    }
  }

  predicate Sorted(classes: seq<Class>) { forall i, j | 0 <= i < j < |classes| :: Before(classes[i], classes[j]) }

  lemma {:induction false} InsertClassSorted(sorted: seq<Class>, c: Class)
    requires Sorted(sorted) && forall k | 0 <= k < |sorted| :: !SameKey(sorted[k], c)
    ensures Sorted(InsertClass(sorted, c)) && forall x :: x in InsertClass(sorted, c) <==> x in sorted || x == c
    decreases |sorted|
  {
    if sorted != [] && !Before(c, sorted[0]) {
      assert sorted == [sorted[0]] + sorted[1..];
      InsertClassSorted(sorted[1..], c);
      var rest := InsertClass(sorted[1..], c);
      forall k | 0 <= k < |rest| ensures Before(sorted[0], rest[k]) {
        assert rest[k] in rest;
        if rest[k] in sorted[1..] {
          var m :| 0 <= m < |sorted[1..]| && sorted[1..][m] == rest[k];
          assert sorted[m + 1] == rest[k];
        }
      }
    }
  }

  lemma {:induction false} InsertClassSums(sorted: seq<Class>, c: Class, prefill: nat, decode: nat)
    ensures var all := InsertClass(sorted, c);
            && WallTotal(all) == WallTotal(sorted) + c.wallMs
            && ClassSum(all, prefill, decode) == ClassSum([c] + sorted, prefill, decode)
    decreases |sorted|
  {
    assert ([c] + sorted)[1..] == sorted;
    if sorted != [] && !Before(c, sorted[0]) {
      InsertClassSums(sorted[1..], c, prefill, decode);
      assert InsertClass(sorted, c)[1..] == InsertClass(sorted[1..], c) && ([c] + sorted[1..])[1..] == sorted[1..];
    }
  }

  lemma {:induction false} SortClassesSums(classes: seq<Class>, prefill: nat, decode: nat)
    requires DistinctKeys(classes)
    ensures var sorted := SortClasses(classes);
            && Sorted(sorted) && (forall x :: x in sorted <==> x in classes)
            && WallTotal(sorted) == WallTotal(classes)
            && ClassSum(sorted, prefill, decode) == ClassSum(classes, prefill, decode)
    decreases |classes|
  {
    if classes != [] {
      assert classes == [classes[0]] + classes[1..];
      SortClassesSums(classes[1..], prefill, decode);
      var sorted := SortClasses(classes[1..]);
      forall k | 0 <= k < |sorted| ensures !SameKey(sorted[k], classes[0]) {
        assert sorted[k] in sorted;
        var m :| 0 <= m < |classes[1..]| && classes[1..][m] == sorted[k];
        assert classes[m + 1] == sorted[k];
      }
      InsertClassSorted(sorted, classes[0]);
      InsertClassSums(sorted, classes[0], prefill, decode);
      assert ([classes[0]] + sorted)[1..] == sorted;
    }
  }

  function ShareTotal(classes: seq<Class>, total: real): real
    requires total > 0.0
  {
    if classes == [] then 0.0 else ShareTotal(classes[1..], total) + classes[0].wallMs / total
  }

  lemma {:induction false} SharesScale(classes: seq<Class>, total: real)
    requires total > 0.0
    ensures ShareTotal(classes, total) * total == WallTotal(classes)
  {
    if classes != [] {
      SharesScale(classes[1..], total);
      assert classes[0].wallMs / total * total == classes[0].wallMs;
      assert (ShareTotal(classes[1..], total) + classes[0].wallMs / total) * total
          == ShareTotal(classes[1..], total) * total + classes[0].wallMs / total * total;
    }
  }

  /**
   The classes come in order, one for each pair of counts; each has the time and the
   tokens of its own segments; and their shares of the wall time add up to one.
   */
  lemma ClassesConserve(segments: seq<Segment>, prefill: nat, decode: nat)
    ensures var classes := SortClasses(Grouped(segments));
            && Sorted(classes)
            && ClassSum(classes, prefill, decode) == SegmentSum(segments, prefill, decode)
            && WallTotal(classes) == SegmentTotal(segments)
            && (SegmentTotal(segments) > 0.0 ==> ShareTotal(classes, SegmentTotal(segments)) == 1.0)
  {
    GroupedSums(segments, prefill, decode);
    SortClassesSums(Grouped(segments), prefill, decode);
    var total, classes := SegmentTotal(segments), SortClasses(Grouped(segments));
    if total > 0.0 {
      SharesScale(classes, total);
      OneIfSame(ShareTotal(classes, total), total);
    }
  }

  lemma OneIfSame(x: real, total: real)
    requires total > 0.0 && x * total == total
    ensures x == 1.0
  {
    assert x == total / total;
  }

  // The classes without the grouping and sorting that make them.

  function TimeOf(segments: seq<Segment>, prefill: nat, decode: nat): real {
    if segments == [] then 0.0
    else
      var s := segments[0];
      (if s.prefillCount == prefill && s.decodeCount == decode then s.endMs - s.startMs else 0.0)
      + TimeOf(segments[1..], prefill, decode)
  }

  function TokensOf(segments: seq<Segment>, prefill: nat, decode: nat): real {
    if segments == [] then 0.0
    else
      var s := segments[0];
      (if s.prefillCount == prefill && s.decodeCount == decode then s.decodeTokens else 0.0)
      + TokensOf(segments[1..], prefill, decode)
  }

  function WholeTime(segments: seq<Segment>): real {
    if segments == [] then 0.0 else segments[0].endMs - segments[0].startMs + WholeTime(segments[1..])
  }

  predicate AppearsIn(segments: seq<Segment>, prefill: nat, decode: nat) {
    exists s <- segments :: s.prefillCount == prefill && s.decodeCount == decode
  }

  /** One class for every pair of counts that appears, by prefill and then by decode count, with its time and tokens. */
  ghost predicate AreClasses(segments: seq<Segment>, classes: seq<Class>) {
    && (forall i, j | 0 <= i < j < |classes| ::
          classes[i].prefillCount < classes[j].prefillCount
          || (classes[i].prefillCount == classes[j].prefillCount && classes[i].decodeCount < classes[j].decodeCount))
    && (forall c <- classes ::
          && AppearsIn(segments, c.prefillCount, c.decodeCount)
          && c.wallMs == TimeOf(segments, c.prefillCount, c.decodeCount)
          && c.tokens == TokensOf(segments, c.prefillCount, c.decodeCount))
    && (forall s <- segments :: exists c <- classes ::
        c.prefillCount == s.prefillCount && c.decodeCount == s.decodeCount)
  }

  lemma {:induction false} TimeAppend(segments: seq<Segment>, s: Segment, prefill: nat, decode: nat)
    ensures var own := s.prefillCount == prefill && s.decodeCount == decode;
            && TimeOf(segments + [s], prefill, decode)
               == TimeOf(segments, prefill, decode) + (if own then s.endMs - s.startMs else 0.0)
            && TokensOf(segments + [s], prefill, decode)
               == TokensOf(segments, prefill, decode) + (if own then s.decodeTokens else 0.0)
            && WholeTime(segments + [s]) == WholeTime(segments) + (s.endMs - s.startMs)
    decreases |segments|
  {
    if segments == [] {
      assert segments + [s] == [s] && [s][1..] == [];
    } else {
      assert (segments + [s])[1..] == segments[1..] + [s];
      TimeAppend(segments[1..], s, prefill, decode);
    }
  }

  lemma {:induction false} SumsShown(segments: seq<Segment>, prefill: nat, decode: nat)
    ensures SegmentSum(segments, prefill, decode)
            == (TimeOf(segments, prefill, decode), TokensOf(segments, prefill, decode))
    ensures SegmentTotal(segments) == WholeTime(segments)
    decreases |segments|
  {
    if segments != [] {
      var init, last := segments[..|segments| - 1], segments[|segments| - 1];
      assert segments == init + [last];
      SumsShown(init, prefill, decode);
      TimeAppend(init, last, prefill, decode);
    }
  }

  predicate HasPair(classes: seq<Class>, prefill: nat, decode: nat) {
    exists c <- classes :: c.prefillCount == prefill && c.decodeCount == decode
  }

  lemma {:induction false} AddSegmentPairs(classes: seq<Class>, s: Segment, prefill: nat, decode: nat)
    ensures HasPair(AddSegment(classes, s), prefill, decode)
            <==> HasPair(classes, prefill, decode) || (s.prefillCount == prefill && s.decodeCount == decode)
    decreases |classes|
  {
    if classes != [] {
      assert classes == [classes[0]] + classes[1..];
      PairSplits(classes[0], classes[1..], prefill, decode);
      var all := AddSegment(classes, s);
      if !IsFor(classes[0], s) { AddSegmentPairs(classes[1..], s, prefill, decode); }
      assert all == [all[0]] + all[1..];
      PairSplits(all[0], all[1..], prefill, decode);
    } else {
      PairSplits(AddSegment(classes, s)[0], [], prefill, decode);
    }
  }

  lemma PairSplits(c: Class, rest: seq<Class>, prefill: nat, decode: nat)
    ensures HasPair([c] + rest, prefill, decode)
            <==> (c.prefillCount == prefill && c.decodeCount == decode) || HasPair(rest, prefill, decode)
  {
    assert c in [c] + rest;
    assert forall x :: x in [c] + rest <==> x == c || x in rest;
  }

  lemma {:induction false} GroupedPairs(segments: seq<Segment>, prefill: nat, decode: nat)
    ensures HasPair(Grouped(segments), prefill, decode) <==> AppearsIn(segments, prefill, decode)
    decreases |segments|
  {
    if segments != [] {
      var init, last := segments[..|segments| - 1], segments[|segments| - 1];
      assert segments == init + [last];
      GroupedPairs(init, prefill, decode);
      AddSegmentPairs(Grouped(init), last, prefill, decode);
    }
  }

  lemma {:induction false} OwnSum(classes: seq<Class>, c: Class)
    requires DistinctKeys(classes) && c in classes
    ensures ClassSum(classes, c.prefillCount, c.decodeCount) == (c.wallMs, c.tokens)
    decreases |classes|
  {
    if classes[0] == c {
      NoSum(classes[1..], c.prefillCount, c.decodeCount);
    } else {
      assert classes == [classes[0]] + classes[1..];
      OwnSum(classes[1..], c);
    }
  }

  lemma {:induction false} NoSum(classes: seq<Class>, prefill: nat, decode: nat)
    requires forall k | 0 <= k < |classes| :: classes[k].prefillCount != prefill || classes[k].decodeCount != decode
    ensures ClassSum(classes, prefill, decode) == (0.0, 0.0)
    decreases |classes|
  {
    if classes != [] { NoSum(classes[1..], prefill, decode); }
  }

  lemma ClassesExactly(segments: seq<Segment>)
    ensures AreClasses(segments, SortClasses(Grouped(segments))) && SegmentTotal(segments) == WholeTime(segments)
  {
    var grouped := Grouped(segments);
    var classes := SortClasses(grouped);
    ClassesConserve(segments, 0, 0);
    SumsShown(segments, 0, 0);
    GroupedSums(segments, 0, 0);
    SortClassesSums(grouped, 0, 0);
    hide Grouped, SortClasses, SegmentSum, ClassSum, TimeOf, TokensOf, WholeTime, AppearsIn, WallTotal, SegmentTotal,
         ShareTotal;
    forall c | c in classes
      ensures AppearsIn(segments, c.prefillCount, c.decodeCount)
      ensures (c.wallMs, c.tokens)
              == (TimeOf(segments, c.prefillCount, c.decodeCount), TokensOf(segments, c.prefillCount, c.decodeCount))
    {
      GroupedPairs(segments, c.prefillCount, c.decodeCount);
      OwnSum(grouped, c);
      GroupedSums(segments, c.prefillCount, c.decodeCount);
      SumsShown(segments, c.prefillCount, c.decodeCount);
    }
    forall s | s in segments
      ensures exists c <- classes :: c.prefillCount == s.prefillCount && c.decodeCount == s.decodeCount
    {
      Appears(segments, s);
      GroupedPairs(segments, s.prefillCount, s.decodeCount);
      var c :| c in grouped && c.prefillCount == s.prefillCount && c.decodeCount == s.decodeCount;
      assert c in classes;
    }
  }

  lemma Appears(segments: seq<Segment>, s: Segment)
    requires s in segments
    ensures AppearsIn(segments, s.prefillCount, s.decodeCount)
  {
  }

  method AggregateSegmentClasses(segments: seq<Segment>) returns (classes: seq<Class>, totalWallMs: real)
    ensures AreClasses(segments, classes) && totalWallMs == WholeTime(segments)
    ensures classes == SortClasses(Grouped(segments)) && totalWallMs == SegmentTotal(segments)
  {
    var entries: seq<Class> := [];
    totalWallMs := 0.0;
    for i := 0 to |segments|
      invariant entries == Grouped(segments[..i]) && totalWallMs == SegmentTotal(segments[..i])
    {
      assert segments[..i + 1][..i] == segments[..i];
      entries := AddSegment(entries, segments[i]);
      totalWallMs := totalWallMs + (segments[i].endMs - segments[i].startMs);
    }
    assert segments[..|segments|] == segments;
    classes := SortClasses(entries);
    ClassesExactly(segments);
  }
}
