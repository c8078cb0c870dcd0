/** Names of the shards of a split model file, and the grouping of files into models. */
module GgufSplit {
  import opened Options
  import opened Decimals

  datatype Split = Split(prefix: string, index: nat, count: nat, indexWidth: nat, countWidth: nat)

  // The pattern ^(.+)-(\d+)-of-(\d+)\.gguf$, letters in either case.

  function LowerCase(c: char): char { if 'A' <= c <= 'Z' then c - 'A' + 'a' else c }

  predicate SameIgnoringCase(a: string, b: string) {
    |a| == |b| && forall i | 0 <= i < |a| :: LowerCase(a[i]) == b[i]
  }

  // What `.` does not match.
  predicate IsLineEnd(c: char) { c in {'\n', '\r', '\U{2028}', '\U{2029}'} }

  predicate IsPrefix(text: string) { |text| > 0 && forall i | 0 <= i < |text| :: !IsLineEnd(text[i]) }

  /** How many digits the text ends with. */
  function TrailingDigits(text: string): (n: nat)
    ensures n <= |text|
  {
    if text == "" || !IsDigit(text[|text| - 1]) then 0 else TrailingDigits(text[..|text| - 1]) + 1
  }

  const OF := "-of-"
  const GGUF := ".gguf"

  datatype Parts = Parts(prefix: string, indexText: string, middle: string, countText: string, extension: string)

  function Assemble(p: Parts): string { p.prefix + "-" + p.indexText + p.middle + p.countText + p.extension }

  predicate IsMatch(p: Parts) {
    && IsPrefix(p.prefix)
    && |p.indexText| > 0 && IsDigits(p.indexText)
    && SameIgnoringCase(p.middle, OF)
    && |p.countText| > 0 && IsDigits(p.countText)
    && SameIgnoringCase(p.extension, GGUF)
  }

  /** Cuts a name from its end; the digit runs are as long as they can be. */
  function Cut(name: string): Option<Parts> {
    if |name| < 5 then None
    else
      var stem, extension := name[..|name| - 5], name[|name| - 5..];
      var m := TrailingDigits(stem);
      var countText, left := stem[|stem| - m..], stem[..|stem| - m];
      if |left| < 4 then None
      else
        var middle, lead := left[|left| - 4..], left[..|left| - 4];
        var k := TrailingDigits(lead);
        var indexText, head := lead[|lead| - k..], lead[..|lead| - k];
        if |head| < 1 || head[|head| - 1] != '-' then None
        else Some(Parts(head[..|head| - 1], indexText, middle, countText, extension))
  }

  function Match(name: string): (p: Option<Parts>)
    ensures p.Some? ==> IsMatch(p.value)
  {
    var cut := Cut(name);
    if cut.Some? && IsMatch(cut.value) then cut else None
  }

  function ParseSplitInfo(name: string): Option<Split> {
    var p := Match(name);
    if p.None? then None
    else
      var index, count := ToNat(p.value.indexText), ToNat(p.value.countText);
      if count <= 1 || index < 1 || index > count then None
      else Some(Split(p.value.prefix, index, count, |p.value.indexText|, |p.value.countText|))
  }

  function ShardName(split: Split, index: nat, count: nat): string {
    split.prefix + "-" + PadStart(FromNat(index), split.indexWidth) + OF + PadStart(FromNat(count), split.countWidth)
        + GGUF
  }

  function ShardNames(split: Split): seq<string> {
    seq(split.count, offset requires 0 <= offset < split.count => ShardName(split, offset + 1, split.count))
  }

  // The pattern matches in one way only.

  lemma {:induction false} DigitsBehind(front: string, digits: string)
    requires IsDigits(digits) && (front == "" || !IsDigit(front[|front| - 1]))
    ensures TrailingDigits(front + digits) == |digits|
    decreases |digits|
  {
    var whole := front + digits;
    if digits == "" {
      assert whole == front;
    } else {
      assert whole[..|whole| - 1] == front + digits[..|digits| - 1];
      DigitsBehind(front, digits[..|digits| - 1]);
    }
  }

  lemma CutAssembled(p: Parts)
    requires IsMatch(p)
    ensures Cut(Assemble(p)) == Some(p)
  {
    hide TrailingDigits, IsDigits;
    var name := Assemble(p);
    var lead := p.prefix + "-" + p.indexText;
    var left := lead + p.middle;
    var stem := left + p.countText;
    assert name == stem + p.extension;
    assert name[..|name| - 5] == stem && name[|name| - 5..] == p.extension;
    assert LowerCase(p.middle[3]) == '-' && left[|left| - 1] == p.middle[3];
    DigitsBehind(left, p.countText);
    assert stem[|stem| - |p.countText|..] == p.countText && stem[..|stem| - |p.countText|] == left;
    assert left[|left| - 4..] == p.middle && left[..|left| - 4] == lead;
    DigitsBehind(p.prefix + "-", p.indexText);
    assert lead[|lead| - |p.indexText|..] == p.indexText && lead[..|lead| - |p.indexText|] == p.prefix + "-";
  }

  lemma MatchAssembled(p: Parts)
    requires IsMatch(p)
    ensures Match(Assemble(p)) == Some(p)
  {
    CutAssembled(p);
  }

  lemma MatchedAssembles(name: string)
    ensures Match(name).Some? ==> Assemble(Match(name).value) == name
  {
    hide TrailingDigits, IsDigits, IsMatch;
    if Match(name).Some? {
      var p := Match(name).value;
      var stem := name[..|name| - 5];
      assert name == stem + p.extension;
      var m := TrailingDigits(stem);
      var left := stem[..|stem| - m];
      assert stem == left + p.countText;
      var lead := left[..|left| - 4];
      assert left == lead + p.middle;
      var head := lead[..|lead| - TrailingDigits(lead)];
      assert lead == head + p.indexText;
      assert head == p.prefix + "-";
    }
  }

  /** A name matches exactly when it can be put together from matching parts, and then in one way. */
  lemma MatchIsUnique(name: string, p: Parts)
    ensures Match(name) == Some(p) <==> IsMatch(p) && Assemble(p) == name
  {
    MatchedAssembles(name);
    if IsMatch(p) { MatchAssembled(p); }
  }

  // What parses, character by character.

  predicate IsLetter(c: char, lower: char, upper: char) { c == lower || c == upper }

  /** "-of-" with its letters in either case. */
  predicate IsMarker(text: string) {
    |text| == 4 && text[0] == '-' && IsLetter(text[1], 'o', 'O') && IsLetter(text[2], 'f', 'F') && text[3] == '-'
  }

  /** ".gguf" with its letters in either case. */
  predicate IsEnding(text: string) {
    && |text| == 5 && text[0] == '.' && IsLetter(text[1], 'g', 'G') && IsLetter(text[2], 'g', 'G')
    && IsLetter(text[3], 'u', 'U') && IsLetter(text[4], 'f', 'F')
  }

  /**
   A shard's name: prefix, index, marker, count and ending with nothing between them, the
   prefix on one line and not empty, the index from 1 to a count of at least 2.
   */
  predicate IsShardName(name: string, split: Split) {
    var a := |split.prefix| + 1;
    var b := a + split.indexWidth;
    var c := b + 4;
    var d := c + split.countWidth;
    && |name| == d + 5 && split.prefix != "" && split.indexWidth > 0 && split.countWidth > 0
    && name[..a] == split.prefix + "-"
    && (forall x <- split.prefix :: x as int != 10 && x as int != 13 && x as int != 8232 && x as int != 8233)
    && IsDigits(name[a..b]) && ToNat(name[a..b]) == split.index
    && IsMarker(name[b..c])
    && IsDigits(name[c..d]) && ToNat(name[c..d]) == split.count
    && IsEnding(name[d..])
    && 1 <= split.index <= split.count && 2 <= split.count
  }

  lemma MarkersRead(text: string)
    ensures SameIgnoringCase(text, OF) <==> IsMarker(text)
    ensures SameIgnoringCase(text, GGUF) <==> IsEnding(text)
  {
    if SameIgnoringCase(text, OF) {
      assert OF[0] == '-' && OF[1] == 'o' && OF[2] == 'f' && OF[3] == '-';
    }
    if SameIgnoringCase(text, GGUF) {
      assert GGUF[0] == '.' && GGUF[1] == 'g' && GGUF[2] == 'g' && GGUF[3] == 'u' && GGUF[4] == 'f';
    }
  }

  lemma PrefixRead(text: string)
    ensures IsPrefix(text)
            <==> text != ""
                 && forall x <- text :: x as int != 10 && x as int != 13 && x as int != 8232 && x as int != 8233
  {
    hide IsLineEnd;
    forall x: char ensures IsLineEnd(x) <==> x as int == 10 || x as int == 13 || x as int == 8232 || x as int == 8233 {
      LineEndRead(x);
    }
    assert forall i | 0 <= i < |text| :: text[i] in text;
  }

  lemma LineEndRead(x: char)
    ensures IsLineEnd(x) <==> x as int == 10 || x as int == 13 || x as int == 8232 || x as int == 8233
  {
  }

  /** The parts of a name cut at given lengths. */
  function PartsAt(name: string, prefix: string, a: nat, b: nat, c: nat, d: nat): Parts
    requires a <= b <= c <= d <= |name|
  {
    Parts(prefix, name[a..b], name[b..c], name[c..d], name[d..])
  }

  lemma ShardNameParses(name: string, split: Split)
    requires IsShardName(name, split)
    ensures ParseSplitInfo(name) == Some(split)
  {
    hide IsMarker, IsEnding, SameIgnoringCase, IsDigits, ToNat, Match, Assemble, IsPrefix;
    var a := |split.prefix| + 1;
    var b := a + split.indexWidth;
    var c := b + 4;
    var d := c + split.countWidth;
    var p := PartsAt(name, split.prefix, a, b, c, d);
    MarkersRead(p.middle);
    MarkersRead(p.extension);
    PrefixRead(split.prefix);
    PartsAssemble(name, split.prefix, a, b, c, d);
    MatchIsUnique(name, p);
  }

  lemma PartsAssemble(name: string, prefix: string, a: nat, b: nat, c: nat, d: nat)
    requires a <= b <= c <= d <= |name| && name[..a] == prefix + "-"
    ensures Assemble(PartsAt(name, prefix, a, b, c, d)) == name
  {
    assert prefix + "-" + name[a..b] == name[..b];
    assert name[..b] + name[b..c] == name[..c];
    assert name[..c] + name[c..d] == name[..d];
  }

  lemma ParsedIsShardName(name: string)
    requires ParseSplitInfo(name).Some?
    ensures IsShardName(name, ParseSplitInfo(name).value)
  {
    hide IsMarker, IsEnding, SameIgnoringCase, IsDigits, ToNat, Match, Assemble, IsPrefix;
    var p := Match(name).value;
    MatchIsUnique(name, p);
    AssembledParts(p);
    MarkersRead(p.middle);
    MarkersRead(p.extension);
    MarkerLengths(p);
    PrefixRead(p.prefix);
  }

  lemma MarkerLengths(p: Parts)
    requires IsMatch(p)
    ensures |p.middle| == 4 && |p.extension| == 5
  {
  }

  lemma AssembledParts(p: Parts)
    ensures var name := Assemble(p);
            var a := |p.prefix| + 1;
            var b := a + |p.indexText|;
            var c := b + |p.middle|;
            var d := c + |p.countText|;
            && |name| == d + |p.extension| && name[..a] == p.prefix + "-" && name[a..b] == p.indexText
            && name[b..c] == p.middle && name[c..d] == p.countText && name[d..] == p.extension
  {
  }

  /** Exactly the names of shards parse, and to the split they name. */
  lemma ParsedExactly(name: string, split: Split)
    ensures ParseSplitInfo(name) == Some(split) <==> IsShardName(name, split)
  {
    hide ParseSplitInfo, IsShardName;
    if ParseSplitInfo(name).Some? { ParsedIsShardName(name); }
    if IsShardName(name, split) { ShardNameParses(name, split); }
  }

  // Parsing and printing.

  function Widest(a: nat, b: nat): nat { if a < b then b else a }

  function PrintedParts(split: Split, index: nat, count: nat): Parts {
    Parts(split.prefix, PadStart(FromNat(index), split.indexWidth), OF, PadStart(FromNat(count), split.countWidth),
        GGUF)
  }

  /** Parsing a printed shard name gives the split back, with widths that hold the numbers. */
  lemma ParsePrinted(split: Split, index: nat, count: nat)
    requires IsPrefix(split.prefix) && 1 <= index <= count && count > 1
    ensures ParseSplitInfo(ShardName(split, index, count))
            == Some(Split(split.prefix, index, count,
                          Widest(|FromNat(index)|, split.indexWidth), Widest(|FromNat(count)|, split.countWidth)))
  {
    hide Match, PadStart, FromNat, ToNat;
    var p := PrintedParts(split, index, count);
    ReadPadded(index, split.indexWidth);
    ReadPadded(count, split.countWidth);
    assert IsMatch(p);
    assert Assemble(p) == ShardName(split, index, count);
    MatchAssembled(p);
  }

  /** The two markers are in lower case. */
  predicate HasLowerMarkers(name: string) {
    Match(name).Some? && Match(name).value.middle == OF && Match(name).value.extension == GGUF
  }

  /** Printing a parsed name gives it back exactly when its markers are in lower case. */
  lemma PrintParsed(name: string)
    requires ParseSplitInfo(name).Some?
    ensures var split := ParseSplitInfo(name).value;
            && (ShardName(split, split.index, split.count) == name <==> HasLowerMarkers(name))
            && IsPrefix(split.prefix) && 1 <= split.index <= split.count && split.count > 1
            && |FromNat(split.index)| <= split.indexWidth && |FromNat(split.count)| <= split.countWidth
                && split.indexWidth >= 1
  {
    hide Match, PadStart, FromNat, ToNat, Assemble;
    var p := Match(name).value;
    MatchedAssembles(name);
    PrintRead(p.indexText);
    PrintRead(p.countText);
    var split := ParseSplitInfo(name).value;
    var printed := PrintedParts(split, split.index, split.count);
    assert Assemble(printed)
        == ShardName(split, split.index, split.count) by { PrintedAssembles(split, split.index, split.count); }
    assert printed == p.(middle := OF, extension := GGUF);
    if Assemble(printed) == name {
      MatchAssembled(printed);
    }
  }

  lemma PrintedAssembles(split: Split, index: nat, count: nat)
    ensures Assemble(PrintedParts(split, index, count)) == ShardName(split, index, count)
  {
  }

  // Grouping.

  function Key(path: string): string {
    var split := ParseSplitInfo(path);
    if split.Some? then ShardName(split.value, 1, split.value.count) else path
  }

  /** Files share a key exactly when they are shards of one split, or the same unsplit file. */
  lemma SameKey(a: string, b: string)
    requires ParseSplitInfo(a).Some?
    ensures Key(a) == Key(b) <==>
              ParseSplitInfo(b).Some? && ParseSplitInfo(b).value
                  == ParseSplitInfo(a).value.(index := ParseSplitInfo(b).value.index)
  {
    hide ParseSplitInfo, ShardName, FromNat;
    var split := ParseSplitInfo(a).value;
    PrintParsed(a);
    ParsePrinted(split, 1, split.count);
    OneDigit();
    if ParseSplitInfo(b).Some? {
      var other := ParseSplitInfo(b).value;
      PrintParsed(b);
      ParsePrinted(other, 1, other.count);
      if other == split.(index := other.index) {
        SamePrint(split, other);
      }
    }
  }

  lemma SamePrint(a: Split, b: Split)
    requires b == a.(index := b.index)
    ensures ShardName(a, 1, a.count) == ShardName(b, 1, b.count)
  {
  }

  lemma OneDigit()
    ensures |FromNat(1)| == 1
  {
  }

  predicate OneKey(group: seq<string>) { forall i | 0 <= i < |group| :: Key(group[i]) == Key(group[0]) }

  function PathSet(group: seq<string>): set<string> { set path | path in group }

  /** Whether a group is reported complete. */
  predicate IsComplete(group: seq<string>)
    requires |group| > 0
  {
    var split := ParseSplitInfo(group[0]);
    split.None? ||
    (&& |PathSet(group)| == split.value.count
     && |group| == split.value.count
     && forall i | 0 <= i < |group| ::
          ParseSplitInfo(group[i]).Some?
          && ShardName(split.value, ParseSplitInfo(group[i]).value.index, split.value.count) in PathSet(group))
  }

  function IndexOf(path: string): nat {
    if ParseSplitInfo(path).Some? then ParseSplitInfo(path).value.index else 0
  }

  predicate HasShard(group: seq<string>, n: nat) { exists i | 0 <= i < |group| :: IndexOf(group[i]) == n }

  /** The files are all of shards 1..count, each once. */
  predicate AllShardsOnce(group: seq<string>, count: nat) {
    |group| == count && forall n | 1 <= n <= count :: HasShard(group, n)
  }

  predicate AllLower(group: seq<string>) { forall i | 0 <= i < |group| :: HasLowerMarkers(group[i]) }

  // Counting.

  function UpTo(n: nat): (s: set<nat>)
    ensures forall x :: x in s <==> 1 <= x <= n
  {
    if n == 0 then {} else UpTo(n - 1) + {n}
  }

  lemma {:induction false} UpToSize(n: nat)
    ensures |UpTo(n)| == n
  {
    if n > 0 {
      UpToSize(n - 1);
    }
  }

  function Values(s: seq<nat>): set<nat> { set x | x in s }

  lemma {:induction false} ValuesSize(s: seq<nat>)
    ensures |Values(s)| <= |s|
    ensures |Values(s)| == |s| <==> forall i, j | 0 <= i < j < |s| :: s[i] != s[j]
  {
    if s != [] {
      var init, last := s[..|s| - 1], s[|s| - 1];
      assert s == init + [last];
      ValuesSize(init);
      assert Values(s) == Values(init) + {last};
      if last in init {
        var m :| 0 <= m < |init| && init[m] == last;
        assert s[m] == s[|s| - 1];
        assert Values(s) == Values(init);
      } else {
        forall i | 0 <= i < |init| ensures s[i] != last { assert s[i] == init[i] && init[i] in init; }
        assert forall i, j | 0 <= i < j < |init| :: s[i] == init[i] && s[j] == init[j];
      }
    }
  }

  /** Values within 1..n, n of them: all different exactly when every one occurs. */
  lemma Pigeonhole(s: seq<nat>, n: nat)
    requires |s| == n && forall i | 0 <= i < |s| :: 1 <= s[i] <= n
    ensures (forall i, j | 0 <= i < j < |s| :: s[i] != s[j]) <==> forall x | 1 <= x <= n :: x in s
  {
    ValuesSize(s);
    UpToSize(n);
    assert Values(s) <= UpTo(n);
    if |Values(s)| == n {
      SubsetOfSameSize(Values(s), UpTo(n));
    }
    if forall x | 1 <= x <= n :: x in s {
      assert Values(s) == UpTo(n);
    }
    if forall i, j | 0 <= i < j < |s| :: s[i] != s[j] {
      forall x | 1 <= x <= n ensures x in s { assert x in UpTo(n); }
    }
  }

  lemma SubsetOfSameSize(a: set<nat>, b: set<nat>)
    requires a <= b && |a| == |b|
    ensures a == b
  {
    assert b == a + (b - a);
  }

  lemma {:induction false} PathSetSize(group: seq<string>)
    ensures |PathSet(group)| <= |group|
    ensures |PathSet(group)| == |group| <==> forall i, j | 0 <= i < j < |group| :: group[i] != group[j]
  {
    if group != [] {
      var init, last := group[..|group| - 1], group[|group| - 1];
      assert group == init + [last];
      PathSetSize(init);
      assert PathSet(group) == PathSet(init) + {last};
      if last in init {
        var m :| 0 <= m < |init| && init[m] == last;
        assert group[m] == group[|group| - 1];
        assert PathSet(group) == PathSet(init);
      } else {
        forall i | 0 <= i < |init| ensures group[i] != last { assert group[i] == init[i] && init[i] in init; }
        assert forall i, j | 0 <= i < j < |init| :: group[i] == init[i] && group[j] == init[j];
      }
    }
  }

  /** The members of a split group differ in their index alone, and lower-case ones are named by it. */
  lemma GroupMember(group: seq<string>, i: nat)
    requires |group| > 0 && OneKey(group) && ParseSplitInfo(group[0]).Some? && i < |group|
    ensures var split, member := ParseSplitInfo(group[0]).value, ParseSplitInfo(group[i]);
            && member.Some? && member.value == split.(index := member.value.index)
            && 1 <= IndexOf(group[i]) <= split.count
            && (ShardName(split, IndexOf(group[i]), split.count) == group[i] <==> HasLowerMarkers(group[i]))
            && IndexOf(ShardName(split, IndexOf(group[i]), split.count)) == IndexOf(group[i])
            && HasLowerMarkers(ShardName(split, IndexOf(group[i]), split.count))
  {
    hide ParseSplitInfo, ShardName, FromNat, Key, HasLowerMarkers;
    SameKey(group[0], group[i]);
    PrintParsed(group[i]);
    var split, member := ParseSplitInfo(group[0]).value, ParseSplitInfo(group[i]).value;
    SameShard(split, member);
    var name := ShardName(split, member.index, split.count);
    ParsePrinted(split, member.index, split.count);
    PrintParsed(name);
  }

  lemma SameShard(a: Split, b: Split)
    requires b == a.(index := b.index)
    ensures ShardName(a, b.index, a.count) == ShardName(b, b.index, b.count)
  {
  }

  function Indices(group: seq<string>): seq<nat> {
    seq(|group|, i requires 0 <= i < |group| => IndexOf(group[i]))
  }

  lemma AllShardsDistinct(group: seq<string>)
    requires |group| > 0 && OneKey(group) && ParseSplitInfo(group[0]).Some?
    requires |group| == ParseSplitInfo(group[0]).value.count
    ensures AllShardsOnce(group, |group|)
            <==> forall i, j | 0 <= i < j < |group| :: IndexOf(group[i]) != IndexOf(group[j])
  {
    hide ParseSplitInfo, OneKey, IndexOf;
    var s := Indices(group);
    forall i | 0 <= i < |s| ensures 1 <= s[i] <= |group| { GroupMember(group, i); }
    Pigeonhole(s, |group|);
    forall n: nat ensures n in s <==> HasShard(group, n) {
      if n in s { var i :| 0 <= i < |s| && s[i] == n; assert IndexOf(group[i]) == n; }
      if HasShard(group, n) { var i :| 0 <= i < |group| && IndexOf(group[i]) == n; assert s[i] == n; }
    }
    assert (forall i, j | 0 <= i < j < |s| :: s[i] != s[j])
           <==> forall i, j | 0 <= i < j < |group| :: IndexOf(group[i]) != IndexOf(group[j]) by {
      if forall i, j | 0 <= i < j < |s| :: s[i] != s[j] {
        forall i, j | 0 <= i < j < |group| ensures IndexOf(group[i]) != IndexOf(group[j]) { assert s[i] != s[j]; }
      }
    }
  }

  /** With lower-case markers a split group is complete exactly when it is all shards, each once. */
  lemma CompleteExactly(group: seq<string>)
    requires |group| > 0 && OneKey(group) && ParseSplitInfo(group[0]).Some? && AllLower(group)
    ensures IsComplete(group) <==> AllShardsOnce(group, ParseSplitInfo(group[0]).value.count)
  {
    hide ParseSplitInfo, OneKey, IndexOf, ShardName, HasLowerMarkers, AllShardsOnce;
    var split := ParseSplitInfo(group[0]).value;
    forall i | 0 <= i < |group|
      ensures ParseSplitInfo(group[i]).Some? && ParseSplitInfo(group[i]).value.index == IndexOf(group[i])
      ensures ShardName(split, IndexOf(group[i]), split.count) == group[i] && group[i] in PathSet(group)
    {
      GroupMember(group, i);
      IndexIs(group[i]);
    }
    PathSetSize(group);
    ShardsCounted(group, split.count);
    if |group| == split.count {
      AllShardsDistinct(group);
      SamePathSameIndex(group, split);
    }
  }

  lemma IndexIs(path: string)
    ensures ParseSplitInfo(path).Some? ==> ParseSplitInfo(path).value.index == IndexOf(path)
  {
  }

  lemma ShardsCounted(group: seq<string>, count: nat)
    ensures AllShardsOnce(group, count) ==> |group| == count
  {
  }

  lemma SamePathSameIndex(group: seq<string>, split: Split)
    requires forall i | 0 <= i < |group| :: ShardName(split, IndexOf(group[i]), split.count) == group[i]
    ensures (forall i, j | 0 <= i < j < |group| :: group[i] != group[j])
            <==> forall i, j | 0 <= i < j < |group| :: IndexOf(group[i]) != IndexOf(group[j])
  {
    hide ShardName, IndexOf;
    if forall i, j | 0 <= i < j < |group| :: group[i] != group[j] {
      forall i, j | 0 <= i < j < |group| ensures IndexOf(group[i]) != IndexOf(group[j]) {
        assert ShardName(split, IndexOf(group[i]), split.count) == group[i];
        assert ShardName(split, IndexOf(group[j]), split.count) == group[j];
      }
    }
  }

  /** A file of the group with lower-case markers has the index n. */
  predicate HasLowerShard(group: seq<string>, n: nat) {
    exists j | 0 <= j < |group| :: IndexOf(group[j]) == n && HasLowerMarkers(group[j])
  }

  /**
   When a split group is reported complete, whatever the case of its markers: as many
   different files as there are shards, and every index found in lower case.
   */
  lemma CompleteInAnyCase(group: seq<string>)
    requires |group| > 0 && OneKey(group) && ParseSplitInfo(group[0]).Some?
    ensures IsComplete(group)
            <==> && |group| == ParseSplitInfo(group[0]).value.count && |PathSet(group)| == |group|
                 && forall i | 0 <= i < |group| :: HasLowerShard(group, IndexOf(group[i]))
  {
    hide ParseSplitInfo, OneKey, IndexOf, ShardName, HasLowerMarkers;
    var split := ParseSplitInfo(group[0]).value;
    forall i | 0 <= i < |group|
      ensures ParseSplitInfo(group[i]).Some? && ParseSplitInfo(group[i]).value.index == IndexOf(group[i])
      ensures HasLowerShard(group, IndexOf(group[i]))
          <==> ShardName(split, IndexOf(group[i]), split.count) in PathSet(group)
    {
      GroupMember(group, i);
      IndexIs(group[i]);
      LowerShardPrinted(group, i);
    }
  }

  lemma LowerShardPrinted(group: seq<string>, i: nat)
    requires |group| > 0 && OneKey(group) && ParseSplitInfo(group[0]).Some? && i < |group|
    ensures var split := ParseSplitInfo(group[0]).value;
            HasLowerShard(group, IndexOf(group[i]))
            <==> ShardName(split, IndexOf(group[i]), split.count) in PathSet(group)
  {
    hide ParseSplitInfo, OneKey, IndexOf, ShardName, HasLowerMarkers;
    var split := ParseSplitInfo(group[0]).value;
    var name := ShardName(split, IndexOf(group[i]), split.count);
    GroupMember(group, i);
    if HasLowerShard(group, IndexOf(group[i])) {
      var j :| 0 <= j < |group| && IndexOf(group[j]) == IndexOf(group[i]) && HasLowerMarkers(group[j]);
      GroupMember(group, j);
      assert group[j] == name;
    }
    if name in group {
      var j :| 0 <= j < |group| && group[j] == name;
      assert IndexOf(group[j]) == IndexOf(group[i]) && HasLowerMarkers(group[j]);
    }
  }

  /** With a marker in another case, a group reported complete is never all shards once. */
  lemma OtherCaseNeverRight(group: seq<string>)
    requires |group| > 0 && OneKey(group) && ParseSplitInfo(group[0]).Some? && !AllLower(group)
    ensures !(IsComplete(group) && AllShardsOnce(group, ParseSplitInfo(group[0]).value.count))
  {
    hide ParseSplitInfo, OneKey, IndexOf, ShardName, HasLowerMarkers, AllShardsOnce;
    var split := ParseSplitInfo(group[0]).value;
    var i :| 0 <= i < |group| && !HasLowerMarkers(group[i]);
    GroupMember(group, i);
    IndexIs(group[i]);
    var name := ShardName(split, IndexOf(group[i]), split.count);
    if IsComplete(group) {
      assert name in group;
      var j :| 0 <= j < |group| && group[j] == name;
      assert IndexOf(group[i]) == IndexOf(group[j]) && i != j;
      ShardsCounted(group, split.count);
      AllShardsDistinct(group);
    }
  }

  lemma ParseParts(p: Parts)
    requires IsMatch(p)
    ensures var index, count := ToNat(p.indexText), ToNat(p.countText);
            count > 1 && 1 <= index <= count ==>
              ParseSplitInfo(Assemble(p)) == Some(Split(p.prefix, index, count, |p.indexText|, |p.countText|))
              && (HasLowerMarkers(Assemble(p)) <==> p.middle == OF && p.extension == GGUF)
  {
    hide Match, Assemble, IsMatch, ToNat;
    MatchAssembled(p);
  }

  const SHARD_ONE := "m-1-of-2.gguf"
  const SHARD_ONE_IN_CAPITALS := "m-1-OF-2.gguf"

  lemma BothAreShardOne()
    ensures ParseSplitInfo(SHARD_ONE) == ParseSplitInfo(SHARD_ONE_IN_CAPITALS) == Some(Split("m", 1, 2, 1, 1))
    ensures HasLowerMarkers(SHARD_ONE)
  {
    hide ParseSplitInfo, HasLowerMarkers, Cut;
    var a, b := Parts("m", "1", "-of-", "2", ".gguf"), Parts("m", "1", "-OF-", "2", ".gguf");
    assert ToNat("1") == 1 && ToNat("2") == 2;
    assert IsMatch(a) && IsMatch(b);
    ParseParts(a);
    ParseParts(b);
    assert Assemble(a) == SHARD_ONE && Assemble(b) == SHARD_ONE_IN_CAPITALS;
  }

  /** Shard 1 twice, once with the marker in capitals, is reported complete without shard 2. */
  lemma CapitalMarkerFoolsCompleteness()
    ensures var group := [SHARD_ONE, SHARD_ONE_IN_CAPITALS];
            OneKey(group) && IsComplete(group) && !AllShardsOnce(group, 2)
  {
    hide ParseSplitInfo, HasLowerMarkers, Key, ShardName;
    BothAreShardOne();
    var group := [SHARD_ONE, SHARD_ONE_IN_CAPITALS];
    SameKey(SHARD_ONE, SHARD_ONE_IN_CAPITALS);
    PrintParsed(SHARD_ONE);
    PathSetSize(group);
    assert SHARD_ONE[4] != SHARD_ONE_IN_CAPITALS[4];
    assert SHARD_ONE in group;
    assert !HasShard(group, 2);
  }

  // The grouping loop.

  function FilesWithKey(files: seq<string>, key: string): seq<string> {
    if files == [] then []
    else
      FilesWithKey(files[..|files| - 1], key)
      + (if Key(files[|files| - 1]) == key then [files[|files| - 1]] else [])
  }

  lemma {:induction false} FilesShareKey(files: seq<string>, key: string)
    ensures forall i | 0 <= i < |FilesWithKey(files, key)| :: Key(FilesWithKey(files, key)[i]) == key
    decreases |files|
  {
    if files != [] { FilesShareKey(files[..|files| - 1], key); }
  }

  datatype Group = Group(files: seq<string>, complete: bool)

  lemma FilesWithKeyAppend(files: seq<string>, file: string, key: string)
    ensures FilesWithKey(files + [file], key) == FilesWithKey(files, key) + (if Key(file) == key then [file] else [])
  {
    assert (files + [file])[..|files|] == files;
  }

  /** The groups of the files so far: one for each key that occurs, with the files of that key. */
  ghost predicate AreGroups(files: seq<string>, groups: map<string, seq<string>>) {
    && (forall i | 0 <= i < |files| :: Key(files[i]) in groups)
    && (forall key :: FilesWithKey(files, key) == if key in groups then groups[key] else [])
    && (forall key <- groups :: |groups[key]| > 0)
  }

  lemma GroupsGrow(files: seq<string>, groups: map<string, seq<string>>, file: string)
    requires AreGroups(files, groups)
    ensures var key := Key(file);
            AreGroups(files + [file], groups[key := (if key in groups then groups[key] else []) + [file]])
  {
    hide Key, FilesWithKey;
    var more := groups[Key(file) := (if Key(file) in groups then groups[Key(file)] else []) + [file]];
    forall key ensures FilesWithKey(files + [file], key) == if key in more then more[key] else [] {
      FilesWithKeyAppend(files, file, key);
      assert FilesWithKey(files, key) == if key in groups then groups[key] else [];
    }
    forall i | 0 <= i < |files + [file]| ensures Key((files + [file])[i]) in more {
      if i < |files| { assert Key(files[i]) in groups; }
    }
  }

  /** The keys in order of first appearance. */
  function KeysOf(files: seq<string>): seq<string> {
    if files == [] then []
    else
      var earlier, key := KeysOf(files[..|files| - 1]), Key(files[|files| - 1]);
      if key in earlier then earlier else earlier + [key]
  }

  /** The map of `groupGgufFiles`: every file lands in the group of its key, in the order given. */
  method GroupByKey(files: seq<string>) returns (keys: seq<string>, groups: map<string, seq<string>>)
    ensures keys == KeysOf(files) && forall i, j | 0 <= i < j < |keys| :: keys[i] != keys[j]
    ensures forall key :: key in keys <==> key in groups
    ensures AreGroups(files, groups)
  {
    hide Key, AreGroups;
    keys, groups := [], map[];
    assert AreGroups([], map[]) by { NoGroups(); }
    for i := 0 to |files|
      invariant keys == KeysOf(files[..i]) && forall a, b | 0 <= a < b < |keys| :: keys[a] != keys[b]
      invariant forall key :: key in keys <==> key in groups
      invariant AreGroups(files[..i], groups)
    {
      assert files[..i + 1] == files[..i] + [files[i]] && files[..i + 1][..i] == files[..i];
      GroupsGrow(files[..i], groups, files[i]);
      var key := Key(files[i]);
      if key !in groups {
        keys := keys + [key];
      }
      groups := groups[key := (if key in groups then groups[key] else []) + [files[i]]];
    }
    assert files[..|files|] == files;
  }

  lemma NoGroups()
    ensures AreGroups([], map[])
  {
  }

  predicate HasGroup(result: seq<Group>, key: string) {
    exists g | 0 <= g < |result| :: |result[g].files| > 0 && Key(result[g].files[0]) == key
  }

  // The sort of each group. How two paths compare depends on the locale and is given;
  // all that is asked of it is that it orders them, ties allowed.

  ghost predicate IsCollation(notAfter: (string, string) -> bool) {
    && (forall a, b :: notAfter(a, b) || notAfter(b, a))
    && (forall a, b, c :: notAfter(a, b) && notAfter(b, c) ==> notAfter(a, c))
  }

  function Place(notAfter: (string, string) -> bool, sorted: seq<string>, path: string): seq<string> {
    if sorted == [] || notAfter(sorted[|sorted| - 1], path) then sorted + [path]
    else Place(notAfter, sorted[..|sorted| - 1], path) + [sorted[|sorted| - 1]]
  }

  function Collated(notAfter: (string, string) -> bool, group: seq<string>): seq<string> {
    if group == [] then []
    else Place(notAfter, Collated(notAfter, group[..|group| - 1]), group[|group| - 1])
  }

  predicate IsCollated(notAfter: (string, string) -> bool, group: seq<string>) {
    forall i, j | 0 <= i < j < |group| :: notAfter(group[i], group[j])
  }

  lemma {:induction false} PlaceKeeps(notAfter: (string, string) -> bool, sorted: seq<string>, path: string)
    ensures multiset(Place(notAfter, sorted, path)) == multiset(sorted) + multiset{path}
    decreases |sorted|
  {
    if sorted != [] {
      PlaceKeeps(notAfter, sorted[..|sorted| - 1], path);
      assert sorted == sorted[..|sorted| - 1] + [sorted[|sorted| - 1]];
    }
  }

  lemma Compares(notAfter: (string, string) -> bool, a: string, b: string, c: string)
    requires IsCollation(notAfter)
    ensures notAfter(a, b) || notAfter(b, a)
    ensures notAfter(a, b) && notAfter(b, c) ==> notAfter(a, c)
  {
  }

  lemma CollatedAppend(notAfter: (string, string) -> bool, sorted: seq<string>, last: string)
    requires IsCollated(notAfter, sorted) && forall i | 0 <= i < |sorted| :: notAfter(sorted[i], last)
    ensures IsCollated(notAfter, sorted + [last])
  {
  }

  lemma CollatedInit(notAfter: (string, string) -> bool, sorted: seq<string>)
    requires IsCollated(notAfter, sorted) && sorted != []
    ensures IsCollated(notAfter, sorted[..|sorted| - 1])
    ensures forall i | 0 <= i < |sorted| - 1 :: notAfter(sorted[i], sorted[|sorted| - 1])
  {
  }

  lemma {:induction false} PlaceShape(notAfter: (string, string) -> bool, sorted: seq<string>, path: string)
    requires IsCollation(notAfter) && IsCollated(notAfter, sorted)
    ensures IsCollated(notAfter, Place(notAfter, sorted, path))
    decreases |sorted|
  {
    hide IsCollation, IsCollated;
    if sorted == [] {
      assert Place(notAfter, sorted, path) == [path];
      OneIsCollated(notAfter, path);
    } else {
      var init, last := sorted[..|sorted| - 1], sorted[|sorted| - 1];
      CollatedInit(notAfter, sorted);
      Compares(notAfter, last, path, path);
      if notAfter(last, path) {
        forall i | 0 <= i < |sorted| ensures notAfter(sorted[i], path) { Compares(notAfter, sorted[i], last, path); }
        CollatedAppend(notAfter, sorted, path);
      } else {
        PlaceShape(notAfter, init, path);
        var placed := Place(notAfter, init, path);
        PlaceKeeps(notAfter, init, path);
        forall i | 0 <= i < |placed| ensures notAfter(placed[i], last) { PlacedBefore(placed, init, path, i); }
        CollatedAppend(notAfter, placed, last);
      }
    }
  }

  lemma PlacedBefore(placed: seq<string>, init: seq<string>, path: string, i: nat)
    requires multiset(placed) == multiset(init) + multiset{path} && i < |placed|
    ensures placed[i] == path || exists k :: 0 <= k < |init| && init[k] == placed[i]
  {
    assert placed[i] in multiset(placed);
  }

  lemma OneIsCollated(notAfter: (string, string) -> bool, path: string)
    ensures IsCollated(notAfter, [path])
  {
  }

  /** Sorting a group keeps its files, each as often as it was there, and puts them in order. */
  lemma {:induction false} CollatedShape(notAfter: (string, string) -> bool, group: seq<string>)
    requires IsCollation(notAfter)
    ensures IsCollated(notAfter, Collated(notAfter, group)) && multiset(Collated(notAfter, group)) == multiset(group)
    decreases |group|
  {
    hide IsCollation, IsCollated, Place;
    if group == [] {
      assert IsCollated(notAfter, []) by { NothingToCollate(notAfter); }
    } else {
      var init, last := group[..|group| - 1], group[|group| - 1];
      assert group == init + [last];
      CollatedShape(notAfter, init);
      PlaceShape(notAfter, Collated(notAfter, init), last);
      PlaceKeeps(notAfter, Collated(notAfter, init), last);
    }
  }

  lemma NothingToCollate(notAfter: (string, string) -> bool)
    ensures IsCollated(notAfter, [])
  {
  }

  lemma SameFiles(a: seq<string>, b: seq<string>)
    requires multiset(a) == multiset(b)
    ensures |a| == |b| && PathSet(a) == PathSet(b)
    ensures forall i | 0 <= i < |b| :: b[i] in a
  {
    assert |multiset(a)| == |a| && |multiset(b)| == |b|;
    forall path ensures path in a <==> path in b {
      assert path in multiset(a) <==> path in multiset(b);
    }
  }

  /** Two files of one group are both shards of one split, or neither is a shard. */
  lemma SameSplit(a: string, b: string)
    requires Key(a) == Key(b)
    ensures ParseSplitInfo(a).Some? <==> ParseSplitInfo(b).Some?
    ensures ParseSplitInfo(a).Some? ==>
              ParseSplitInfo(b).value == ParseSplitInfo(a).value.(index := ParseSplitInfo(b).value.index)
  {
    hide ParseSplitInfo, Key;
    if ParseSplitInfo(a).Some? { SameKey(a, b); }
    if ParseSplitInfo(b).Some? { SameKey(b, a); }
  }

  lemma SamePrintAll(a: Split, b: Split)
    requires b == a.(index := b.index)
    ensures forall n :: ShardName(a, n, a.count) == ShardName(b, n, b.count)
  {
  }

  predicate MemberFound(group: seq<string>, i: nat)
    requires i < |group| && ParseSplitInfo(group[0]).Some?
  {
    var split := ParseSplitInfo(group[0]).value;
    ParseSplitInfo(group[i]).Some?
    && ShardName(split, ParseSplitInfo(group[i]).value.index, split.count) in PathSet(group)
  }

  lemma VerdictCarries(a: seq<string>, b: seq<string>)
    requires |a| > 0 && |b| > 0 && multiset(a) == multiset(b) && Key(a[0]) == Key(b[0]) && IsComplete(a)
    ensures IsComplete(b)
  {
    hide ParseSplitInfo, Key, ShardName;
    SameFiles(a, b);
    SameSplit(a[0], b[0]);
    if ParseSplitInfo(a[0]).Some? {
      SamePrintAll(ParseSplitInfo(a[0]).value, ParseSplitInfo(b[0]).value);
      forall i | 0 <= i < |b| ensures MemberFound(b, i) {
        var k :| 0 <= k < |a| && a[k] == b[i];
      }
    }
  }

  /** The verdict does not depend on the order of the files. */
  lemma VerdictKept(a: seq<string>, b: seq<string>)
    requires |a| > 0 && |b| > 0 && multiset(a) == multiset(b) && OneKey(a)
    ensures OneKey(b) && Key(a[0]) == Key(b[0]) && IsComplete(a) == IsComplete(b)
  {
    hide Key, IsComplete, PathSet;
    SameFiles(a, b);
    forall i | 0 <= i < |b| ensures Key(b[i]) == Key(a[0]) {
      var k :| 0 <= k < |a| && a[k] == b[i];
    }
    if IsComplete(a) { VerdictCarries(a, b); }
    if IsComplete(b) { VerdictCarries(b, a); }
  }

  /** `groupGgufFiles`: the groups in order of first appearance, each sorted and with its verdict. */
  method GroupGgufFiles(files: seq<string>, notAfter: (string, string) -> bool) returns (result: seq<Group>)
    requires IsCollation(notAfter)
    ensures |result| == |KeysOf(files)|
    ensures forall i | 0 <= i < |result| ::
              && |result[i].files| > 0 && OneKey(result[i].files) && Key(result[i].files[0]) == KeysOf(files)[i]
              && result[i].files == Collated(notAfter, FilesWithKey(files, KeysOf(files)[i]))
              && result[i].complete == IsComplete(result[i].files)
              && FilesWithKey(files, KeysOf(files)[i]) != []
              && result[i].complete == IsComplete(FilesWithKey(files, KeysOf(files)[i]))
    ensures forall i | 0 <= i < |files| :: HasGroup(result, Key(files[i]))
    ensures forall g, h | 0 <= g < h < |result| :: Key(result[g].files[0]) != Key(result[h].files[0])
  {
    hide Key, IsComplete, FilesWithKey, Collated, OneKey, IsCollated, IsCollation, KeysOf;
    var keys, groups := GroupByKey(files);
    result := [];
    for n := 0 to |keys|
      invariant |result| == n
      invariant forall i | 0 <= i < n ::
                  && |result[i].files| > 0 && OneKey(result[i].files) && Key(result[i].files[0]) == keys[i]
                  && result[i].files == Collated(notAfter, FilesWithKey(files, keys[i]))
                  && result[i].complete == IsComplete(result[i].files)
                  && FilesWithKey(files, keys[i]) != []
                  && result[i].complete == IsComplete(FilesWithKey(files, keys[i]))
    {
      assert keys[n] in groups;
      var group := groups[keys[n]];
      assert group == FilesWithKey(files, keys[n]) && |group| > 0;
      OneKeyOfKey(files, keys[n]);
      CollatedShape(notAfter, group);
      var sorted := Collated(notAfter, group);
      SameFiles(group, sorted);
      VerdictKept(group, sorted);
      result := result + [Group(sorted, IsComplete(sorted))];
    }
    forall i | 0 <= i < |files| ensures HasGroup(result, Key(files[i])) {
      assert Key(files[i]) in keys;
      var g :| 0 <= g < |keys| && keys[g] == Key(files[i]);
      assert Key(result[g].files[0]) == keys[g];
    }
  }

  lemma OneKeyOfKey(files: seq<string>, key: string)
    ensures var group := FilesWithKey(files, key);
            OneKey(group) && (group != [] ==> Key(group[0]) == key)
  {
    hide Key, FilesWithKey;
    FilesShareKey(files, key);
  }
}
