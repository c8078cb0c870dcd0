/**
 The frame splitter for server-sent events, over text that is already decoded.
 A blank line ends a frame: section 9.2.5 of the WHATWG HTML standard, with \n and
 \r\n as line ends and a lone \r left as text.
 */
module SseFrames {
  import opened Options

  /** The length of the match of \r?\n\r?\n at position i, 0 if there is none. */
  function SeparatorAt(s: string, i: nat): nat {
    var p := if i < |s| && s[i] == '\r' then i + 1 else i;
    if p >= |s| || s[p] != '\n' then 0
    else
      var q := if p + 1 < |s| && s[p + 1] == '\r' then p + 2 else p + 1;
      if q >= |s| || s[q] != '\n' then 0 else q + 1 - i
  }

  lemma SeparatorShape(s: string, i: nat)
    ensures var n := SeparatorAt(s, i);
            n > 0 ==> 2 <= n <= 4 && i + n <= |s|
  {
  }

  predicate HasSeparator(s: string) { exists i | 0 <= i < |s| :: SeparatorAt(s, i) > 0 }

  /** The position of the leftmost match at or after `from`, |s| if there is none. */
  function FirstSeparator(s: string, from: nat): (i: nat)
    requires from <= |s|
    ensures from <= i <= |s|
    ensures forall k | from <= k < i :: SeparatorAt(s, k) == 0
    ensures i < |s| ==> SeparatorAt(s, i) > 0
    decreases |s| - from
  {
    if from == |s| then from
    else if SeparatorAt(s, from) > 0 then from
    else FirstSeparator(s, from + 1)
  }

  datatype Frames = Frames(frames: seq<string>, separators: seq<string>, rest: string)

  function Prepend(frame: string, separator: string, later: Frames): Frames {
    Frames([frame] + later.frames, [separator] + later.separators, later.rest)
  }

  /** All complete frames of a text, the separators that end them, and what is left. */
  function Split(s: string): Frames
    decreases |s|
  {
    var i := FirstSeparator(s, 0);
    if i == |s| then Frames([], [], s)
    else
      SeparatorShape(s, i);
      var n := SeparatorAt(s, i);
      var later := Split(s[i + n..]);
      Prepend(s[..i], s[i..i + n], later)
  }

  function Rebuilt(f: Frames): string
    requires |f.frames| == |f.separators|
    decreases |f.frames|
  {
    if f.frames == [] then f.rest
    else f.frames[0] + f.separators[0] + Rebuilt(Frames(f.frames[1..], f.separators[1..], f.rest))
  }

  lemma FrameHasNone(s: string, i: nat)
    requires i <= |s| && forall k | 0 <= k < i :: SeparatorAt(s, k) == 0
    ensures !HasSeparator(s[..i])
  {
    hide SeparatorAt;
    assert s[..i] + s[i..] == s;
    forall k | 0 <= k < i ensures SeparatorAt(s[..i], k) == 0 {
      if SeparatorAt(s[..i], k) > 0 {
        LongerKeeps(s[..i], s[i..], k);
      }
    }
  }

  lemma SeparatorIsAll(s: string, i: nat)
    requires SeparatorAt(s, i) > 0
    ensures var n := SeparatorAt(s, i);
            i + n <= |s| && SeparatorAt(s[i..i + n], 0) == n
  {
  }

  lemma RebuiltPrepend(frame: string, separator: string, later: Frames)
    requires |later.frames| == |later.separators|
    ensures Rebuilt(Prepend(frame, separator, later)) == frame + separator + Rebuilt(later)
  {
    var f := Prepend(frame, separator, later);
    assert f.frames[1..] == later.frames && f.separators[1..] == later.separators;
  }

  /** Splitting loses nothing, and no frame and no rest holds a separator of its own. */
  lemma {:induction false} SplitRebuilds(s: string)
    ensures var f := Split(s);
            && |f.frames| == |f.separators| && Rebuilt(f) == s
            && (forall frame <- f.frames :: !HasSeparator(frame)) && !HasSeparator(f.rest)
            && (forall separator <- f.separators :: |separator| > 0 && SeparatorAt(separator, 0) == |separator|)
    decreases |s|
  {
    hide SeparatorAt, FirstSeparator, HasSeparator, Rebuilt;
    var i := FirstSeparator(s, 0);
    FrameHasNone(s, i);
    if i < |s| {
      SeparatorIsAll(s, i);
      var n := SeparatorAt(s, i);
      SplitRebuilds(s[i + n..]);
      RebuiltPrepend(s[..i], s[i..i + n], Split(s[i + n..]));
      assert s[..i] + s[i..i + n] + s[i + n..] == s;
    } else {
      assert s[..i] == s;
      assert Rebuilt(Frames([], [], s)) == s by { NothingRebuilt(s); }
    }
  }

  lemma NothingRebuilt(s: string)
    ensures Rebuilt(Frames([], [], s)) == s
  {
  }

  /** A match stays where it is when text is appended. */
  lemma LongerKeeps(a: string, b: string, i: nat)
    requires SeparatorAt(a, i) > 0
    ensures SeparatorAt(a + b, i) == SeparatorAt(a, i)
  {
  }

  /** And no match appears before one that is already there. */
  lemma LongerAddsNoneBefore(a: string, b: string, i: nat, k: nat)
    requires k < i < |a| && SeparatorAt(a, i) > 0 && SeparatorAt(a, k) == 0
    ensures SeparatorAt(a + b, k) == 0
  {
    SeparatorShape(a, i);
    SeparatorShape(a + b, k);
  }

  lemma FirstSeparatorStays(a: string, b: string)
    requires FirstSeparator(a, 0) < |a|
    ensures FirstSeparator(a + b, 0) == FirstSeparator(a, 0)
  {
    var i, j := FirstSeparator(a, 0), FirstSeparator(a + b, 0);
    LongerKeeps(a, b, i);
    if j < i {
      LongerAddsNoneBefore(a, b, i, j);
    }
  }

  function Join(first: Frames, second: Frames): Frames {
    Frames(first.frames + second.frames, first.separators + second.separators, second.rest)
  }

  lemma JoinPrepend(frame: string, separator: string, first: Frames, second: Frames)
    ensures Join(Prepend(frame, separator, first), second) == Prepend(frame, separator, Join(first, second))
    ensures Join(Frames([], [], first.rest), second) == second
  {
    assert [frame] + first.frames + second.frames == [frame] + (first.frames + second.frames);
    assert [separator] + first.separators + second.separators == [separator] + (first.separators + second.separators);
  }

  /** Splitting in two goes is splitting at once. */
  lemma {:induction false} SplitInTwo(a: string, b: string)
    ensures Split(a + b) == Join(Split(a), Split(Split(a).rest + b))
    decreases |a|
  {
    hide SeparatorAt, FirstSeparator, Join, Prepend;
    var i := FirstSeparator(a, 0);
    if i < |a| {
      SeparatorShape(a, i);
      var n := SeparatorAt(a, i);
      FirstSeparatorStays(a, b);
      LongerKeeps(a, b, i);
      SplitInTwo(a[i + n..], b);
      assert (a + b)[i + n..] == a[i + n..] + b && (a + b)[..i] == a[..i] && (a + b)[i..i + n] == a[i..i + n];
      RestPrepend(a[..i], a[i..i + n], Split(a[i + n..]));
      JoinPrepend(a[..i], a[i..i + n], Split(a[i + n..]), Split(Split(a).rest + b));
    } else {
      JoinPrepend("", "", Split(a), Split(a + b));
    }
  }

  lemma RestPrepend(frame: string, separator: string, later: Frames)
    ensures Prepend(frame, separator, later).rest == later.rest
  {
  }

  // The splitting without its scan.

  /** A blank line: two line ends in a row, each with or without a carriage return. */
  predicate IsBreak(text: string) { text == "\n\n" || text == "\r\n\n" || text == "\n\r\n" || text == "\r\n\r\n" }

  predicate BreakBegins(s: string, i: nat, n: nat) { i + n <= |s| && IsBreak(s[i..i + n]) }

  lemma SeparatorExactly(s: string, i: nat, n: nat)
    ensures n > 0 && SeparatorAt(s, i) == n <==> BreakBegins(s, i, n)
  {
    if n > 0 && SeparatorAt(s, i) == n {
      SeparatorShape(s, i);
      BreakHere(s, i);
    }
    if BreakBegins(s, i, n) {
      var text := s[i..i + n];
      assert 2 <= n <= 4 && text[0] == s[i] && text[1] == s[i + 1];
      assert n > 2 ==> text[2] == s[i + 2];
      assert n > 3 ==> text[3] == s[i + 3];
    }
  }

  lemma BreakHere(s: string, i: nat)
    requires SeparatorAt(s, i) > 0
    ensures var n := SeparatorAt(s, i); i + n <= |s| && IsBreak(s[i..i + n])
  {
    var n := SeparatorAt(s, i);
    SeparatorShape(s, i);
    var text := s[i..i + n];
    assert text == if n == 2 then [s[i], s[i + 1]]
                   else if n == 3 then [s[i], s[i + 1], s[i + 2]] else [s[i], s[i + 1], s[i + 2], s[i + 3]];
  }

  /** No blank line begins in the first `before` characters. */
  predicate NoneBegins(s: string, before: nat) { forall i, n | 0 <= i < before && 2 <= n <= 4 :: !BreakBegins(s, i, n) }

  /** The text is cut at blank lines, each at the first place where one begins, and none is left in the rest. */
  predicate IsCut(s: string, f: Frames)
    decreases |f.frames|
  {
    && |f.frames| == |f.separators|
    && if f.frames == [] then f.rest == s && NoneBegins(s, |s|)
       else
         var head := f.frames[0] + f.separators[0];
         && IsBreak(f.separators[0]) && NoneBegins(head, |f.frames[0]|)
         && head <= s && IsCut(s[|head|..], Frames(f.frames[1..], f.separators[1..], f.rest))
  }

  lemma NoneExactly(s: string, before: nat)
    ensures NoneBegins(s, before) <==> forall i | 0 <= i < before :: SeparatorAt(s, i) == 0
  {
    hide SeparatorAt, BreakBegins;
    if NoneBegins(s, before) {
      forall i | 0 <= i < before ensures SeparatorAt(s, i) == 0 {
        SeparatorShape(s, i);
        SeparatorExactly(s, i, SeparatorAt(s, i));
      }
    }
    forall i, n | 0 <= i < before && 2 <= n <= 4 ensures BreakBegins(s, i, n) <==> SeparatorAt(s, i) == n {
      SeparatorExactly(s, i, n);
    }
  }

  /** A first frame ends at the leftmost blank line. */
  lemma FirstFrame(s: string, frame: string, separator: string)
    requires IsBreak(separator) && NoneBegins(frame + separator, |frame|) && frame + separator <= s
    ensures FirstSeparator(s, 0) == |frame| < |s| && SeparatorAt(s, |frame|) == |separator|
  {
    hide SeparatorAt, NoneBegins, IsBreak;
    var head, i, n := frame + separator, |frame|, |separator|;
    var later := s[|head|..];
    assert s == head + later;
    BreakLength(separator);
    assert head[i..i + n] == separator;
    SeparatorExactly(head, i, n);
    LongerKeeps(head, later, i);
    NoneExactly(head, i);
    forall k | 0 <= k < i ensures SeparatorAt(s, k) == 0 {
      LongerAddsNoneBefore(head, later, i, k);
    }
  }

  lemma BreakLength(text: string)
    requires IsBreak(text)
    ensures 2 <= |text| <= 4
  {
  }

  /** There is one way to cut a text, and it is the splitting. */
  lemma {:induction false} SplitExactly(s: string, f: Frames)
    ensures f == Split(s) <==> IsCut(s, f)
    decreases |s|
  {
    hide SeparatorAt, FirstSeparator, NoneBegins, IsBreak;
    SplitCuts(s);
    if IsCut(s, f) {
      if f.frames == [] {
        NoneExactly(s, |s|);
      } else {
        var frame, separator := f.frames[0], f.separators[0];
        var n := |frame + separator|;
        FirstFrame(s, frame, separator);
        BreakLength(separator);
        SplitExactly(s[n..], Frames(f.frames[1..], f.separators[1..], f.rest));
        assert s[..|frame|] == frame && s[|frame|..n] == separator;
        assert f.frames == [frame] + f.frames[1..] && f.separators == [separator] + f.separators[1..];
      }
    }
  }

  lemma {:induction false} SplitCuts(s: string)
    ensures IsCut(s, Split(s))
    decreases |s|
  {
    hide SeparatorAt, FirstSeparator, NoneBegins, IsBreak;
    var i := FirstSeparator(s, 0);
    if i == |s| {
      NoneExactly(s, |s|);
    } else {
      SeparatorShape(s, i);
      var n := SeparatorAt(s, i);
      SplitCuts(s[i + n..]);
      FirstCut(s, i, n);
      CutMore(s, i, n, Split(s[i + n..]));
    }
  }

  lemma CutMore(s: string, i: nat, n: nat, later: Frames)
    requires i + n <= |s| && IsBreak(s[i..i + n]) && NoneBegins(s[..i] + s[i..i + n], i) && IsCut(s[i + n..], later)
    ensures IsCut(s, Prepend(s[..i], s[i..i + n], later))
  {
    hide NoneBegins, IsBreak;
    var f := Prepend(s[..i], s[i..i + n], later);
    assert f.frames[1..] == later.frames && f.separators[1..] == later.separators;
    assert s[..i] + s[i..i + n] == s[..i + n];
  }

  lemma FirstCut(s: string, i: nat, n: nat)
    requires i == FirstSeparator(s, 0) < |s| && n == SeparatorAt(s, i)
    ensures n > 0 && i + n <= |s| && IsBreak(s[i..i + n]) && NoneBegins(s[..i] + s[i..i + n], i)
  {
    hide SeparatorAt, NoneBegins, IsBreak;
    SeparatorShape(s, i);
    BreakHere(s, i);
    var head := s[..i] + s[i..i + n];
    assert s == head + s[i + n..];
    NoneExactly(head, i);
    forall k | 0 <= k < i ensures SeparatorAt(head, k) == 0 {
      if SeparatorAt(head, k) > 0 { LongerKeeps(head, s[i + n..], k); }
    }
  }

  // Feeding a text in pieces.

  function Concat(chunks: seq<string>): string {
    if chunks == [] then "" else chunks[0] + Concat(chunks[1..])
  }

  /** The frames that pushing the chunks one by one gives, from a given pending text. */
  function FramesOf(pending: string, chunks: seq<string>): seq<string>
    decreases |chunks|
  {
    if chunks == [] then []
    else
      var f := Split(pending + chunks[0]);
      f.frames + FramesOf(f.rest, chunks[1..])
  }

  function RestOf(pending: string, chunks: seq<string>): string
    decreases |chunks|
  {
    if chunks == [] then pending else RestOf(Split(pending + chunks[0]).rest, chunks[1..])
  }

  lemma {:induction false} PiecewiseFrom(pending: string, chunks: seq<string>)
    requires !HasSeparator(pending)
    ensures var whole := Split(pending + Concat(chunks));
            FramesOf(pending, chunks) == whole.frames && RestOf(pending, chunks) == whole.rest
    decreases |chunks|
  {
    hide SeparatorAt, FirstSeparator, HasSeparator, Rebuilt, Split;
    if chunks == [] {
      assert pending + "" == pending;
      NothingToSplit(pending);
    } else {
      var f := Split(pending + chunks[0]);
      SplitRebuilds(pending + chunks[0]);
      PiecewiseFrom(f.rest, chunks[1..]);
      SplitInTwo(pending + chunks[0], Concat(chunks[1..]));
      assert pending + chunks[0] + Concat(chunks[1..]) == pending + Concat(chunks);
    }
  }

  /** One turn of the loop in `push`. */
  lemma SplitOnce(s: string)
    ensures var i := FirstSeparator(s, 0);
            if i == |s| then Split(s) == Frames([], [], s)
            else
              var n := SeparatorAt(s, i);
              && n > 0 && i + n <= |s|
              && Split(s).frames == [s[..i]] + Split(s[i + n..]).frames && Split(s).rest == Split(s[i + n..]).rest
  {
    hide SeparatorAt, FirstSeparator;
    SeparatorShape(s, FirstSeparator(s, 0));
  }

  lemma NothingToSplit(s: string)
    requires !HasSeparator(s)
    ensures Split(s) == Frames([], [], s)
  {
  }

  /** However the text is cut, the frames and the pending rest are those of one push of the whole. */
  lemma ChunkingDoesNotMatter(chunks: seq<string>)
    ensures FramesOf("", chunks) == Split(Concat(chunks)).frames
    ensures RestOf("", chunks) == Split(Concat(chunks)).rest
  {
    PiecewiseFrom("", chunks);
    assert "" + Concat(chunks) == Concat(chunks);
  }

  lemma AppendAssociates(a: seq<string>, x: string, b: seq<string>)
    ensures a + [x] + b == a + ([x] + b)
  {
  }

  predicate IsSpace(c: char) {
    c in {' ', '\t', '\n', '\r', '\U{000B}', '\U{000C}', '\U{00A0}', '\U{1680}', '\U{2028}', '\U{2029}', '\U{202F}',
        '\U{205F}', '\U{3000}', '\U{FEFF}'}
    || '\U{2000}' <= c <= '\U{200A}'
  }

  /** White space and line ends by their code points, as sections 12.2 and 12.3 of ECMA-262 list them. */
  lemma SpacesExactly(c: char)
    ensures var n := c as int;
            IsSpace(c) <==> 9 <= n <= 13 || n == 32 || n == 160 || n == 5760 || 8192 <= n <= 8202 || 8232 <= n <= 8233
                            || n == 8239 || n == 8287 || n == 12288 || n == 65279
  {
  }

  predicate IsBlank(s: string) { forall c <- s :: IsSpace(c) }

  class SseFrameBuffer {
    var pending: string

    constructor ()
      ensures pending == ""
    {
      pending := "";
    }

    method Push(chunk: string) returns (frames: seq<string>)
      modifies this
      ensures var whole := Split(old(pending) + chunk);
              frames == whole.frames && pending == whole.rest
    {
      hide SeparatorAt, Split;
      pending := pending + chunk;
      frames := [];
      ghost var whole := Split(pending);
      var separator := FirstSeparator(pending, 0);
      while separator < |pending|
        invariant separator == FirstSeparator(pending, 0)
        invariant frames + Split(pending).frames == whole.frames && Split(pending).rest == whole.rest
        decreases |pending|
      {
        SplitOnce(pending);
        var frame := pending[..separator];
        var next := pending[separator + SeparatorAt(pending, separator)..];
        AppendAssociates(frames, frame, Split(next).frames);
        frames := frames + [frame];
        pending := next;
        separator := FirstSeparator(pending, 0);
      }
      SplitOnce(pending);
      assert frames + [] == frames;
    }

    /** `tail` is what the decoder still held. */
    method Flush(tail: string) returns (rest: Option<string>)
      modifies this
      ensures pending == old(pending) + tail
      ensures rest == if IsBlank(pending) then None else Some(pending)
    {
      pending := pending + tail;
      rest := if IsBlank(pending) then None else Some(pending);
    }
  }
}
