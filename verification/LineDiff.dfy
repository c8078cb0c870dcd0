/** The line diff of the stored and the current help text, `diffLines`, and its two users. */
module LineDiff {
  import opened Numbers

  datatype Kind = Equal | Remove | Add

  datatype Op = Op(kind: Kind, line: string)

  // What a diff says of its two sides.

  function Side(ops: seq<Op>, skipped: Kind): seq<string> {
    if ops == [] then []
    else
      var last := ops[|ops| - 1];
      Side(ops[..|ops| - 1], skipped) + (if last.kind == skipped then [] else [last.line])
  }

  function LeftOf(ops: seq<Op>): seq<string> { Side(ops, Add) }

  function RightOf(ops: seq<Op>): seq<string> { Side(ops, Remove) }

  function EqualLines(ops: seq<Op>): seq<string> {
    if ops == [] then []
    else
      var last := ops[|ops| - 1];
      EqualLines(ops[..|ops| - 1]) + (if last.kind.Equal? then [last.line] else [])
  }

  lemma Append(ops: seq<Op>, op: Op)
    ensures LeftOf(ops + [op]) == LeftOf(ops) + (if op.kind.Add? then [] else [op.line])
    ensures RightOf(ops + [op]) == RightOf(ops) + (if op.kind.Remove? then [] else [op.line])
    ensures EqualLines(ops + [op]) == EqualLines(ops) + (if op.kind.Equal? then [op.line] else [])
  {
    assert (ops + [op])[..|ops|] == ops;
  }

  // Common subsequences.

  predicate IsSubsequence(c: seq<string>, s: seq<string>) {
    c == [] || (s != [] && ((c[0] == s[0] && IsSubsequence(c[1..], s[1..])) || IsSubsequence(c, s[1..])))
  }

  /** The recurrence behind the table. */
  function LcsLength(left: seq<string>, right: seq<string>): nat
    decreases |left| + |right|
  {
    if left == [] || right == [] then 0
    else if left[0] == right[0] then LcsLength(left[1..], right[1..]) + 1
    else Max(LcsLength(left[1..], right), LcsLength(left, right[1..]))
  }

  lemma {:induction false} TailIsSubsequence(c: seq<string>, s: seq<string>)
    requires IsSubsequence(c, s) && c != []
    ensures s != [] && IsSubsequence(c[1..], s[1..])
    decreases |s|
  {
    if !(c[0] == s[0] && IsSubsequence(c[1..], s[1..])) {
      TailIsSubsequence(c, s[1..]);
    }
  }

  /** No common subsequence is longer than the recurrence says. */
  lemma {:induction false} NoLongerCommonSubsequence(c: seq<string>, left: seq<string>, right: seq<string>)
    requires IsSubsequence(c, left) && IsSubsequence(c, right)
    ensures |c| <= LcsLength(left, right)
    decreases |left| + |right|
  {
    if c != [] {
      if left[0] == right[0] {
        TailIsSubsequence(c, left);
        TailIsSubsequence(c, right);
        NoLongerCommonSubsequence(c[1..], left[1..], right[1..]);
      } else if c[0] != left[0] {
        NoLongerCommonSubsequence(c, left[1..], right);
      } else {
        NoLongerCommonSubsequence(c, left, right[1..]);
      }
    }
  }

  lemma {:induction false} AppendSubsequence(c: seq<string>, s: seq<string>, line: string)
    requires IsSubsequence(c, s)
    ensures IsSubsequence(c, s + [line]) && IsSubsequence(c + [line], s + [line])
    decreases |s|
  {
    if s == [] {
      assert [line][1..] == [] && c + [line] == [line];
    } else {
      assert (s + [line])[1..] == s[1..] + [line];
      if c == [] {
        AppendSubsequence(c, s[1..], line);
      } else if c[0] == s[0] && IsSubsequence(c[1..], s[1..]) {
        AppendSubsequence(c[1..], s[1..], line);
        assert (c + [line])[1..] == c[1..] + [line];
      } else {
        AppendSubsequence(c, s[1..], line);
      }
    }
  }

  /** The equal lines of any diff are a common subsequence of its sides. */
  lemma {:induction false} EqualLinesAreCommon(ops: seq<Op>)
    ensures IsSubsequence(EqualLines(ops), LeftOf(ops)) && IsSubsequence(EqualLines(ops), RightOf(ops))
    decreases |ops|
  {
    if ops != [] {
      var init, last := ops[..|ops| - 1], ops[|ops| - 1];
      assert ops == init + [last];
      Append(init, last);
      EqualLinesAreCommon(init);
      AppendSubsequence(EqualLines(init), LeftOf(init), last.line);
      AppendSubsequence(EqualLines(init), RightOf(init), last.line);
      assert EqualLines(init) + [] == EqualLines(init) && LeftOf(init) + [] == LeftOf(init)
          && RightOf(init) + [] == RightOf(init);
    }
  }

  /** The table: entry [i, j] is the longest common subsequence length of the two suffixes. */
  method FillTable(left: seq<string>, right: seq<string>) returns (lengths: array2<nat>)
    ensures fresh(lengths) && lengths.Length0 == |left| + 1 && lengths.Length1 == |right| + 1
    ensures forall i, j | 0 <= i <= |left| && 0 <= j <= |right| :: lengths[i, j] == LcsLength(left[i..], right[j..])
  {
    lengths := new nat[|left| + 1, |right| + 1]((_, _) => 0);
    for i := |left| downto 0
      invariant forall a, b | i <= a <= |left| && 0 <= b <= |right| :: lengths[a, b] == LcsLength(left[a..], right[b..])
      invariant forall a | 0 <= a <= |left| :: lengths[a, |right|] == 0
    {
      for j := |right| downto 0
        invariant forall a, b | i < a <= |left| && 0 <= b <= |right| ::
            lengths[a, b] == LcsLength(left[a..], right[b..])
        invariant forall b | j <= b <= |right| :: lengths[i, b] == LcsLength(left[i..], right[b..])
        invariant forall a | 0 <= a <= |left| :: lengths[a, |right|] == 0
      {
        assert left[i..][1..] == left[i + 1..] && right[j..][1..] == right[j + 1..];
        lengths[i, j] :=
          if left[i] == right[j] then lengths[i + 1, j + 1] + 1
          else Max(lengths[i + 1, j], lengths[i, j + 1]);
      }
    }
  }

  /** The ops so far rebuild the first i lines of the left and the first j lines of the right. */
  predicate Rebuilds(ops: seq<Op>, left: seq<string>, i: nat, right: seq<string>, j: nat)
    requires i <= |left| && j <= |right|
  {
    LeftOf(ops) == left[..i] && RightOf(ops) == right[..j]
  }

  lemma RebuildMore(ops: seq<Op>, left: seq<string>, i: nat, right: seq<string>, j: nat)
    requires i <= |left| && j <= |right| && Rebuilds(ops, left, i, right, j)
    ensures i < |left| ==> Rebuilds(ops + [Op(Remove, left[i])], left, i + 1, right, j)
    ensures j < |right| ==> Rebuilds(ops + [Op(Add, right[j])], left, i, right, j + 1)
    ensures i < |left| && j < |right| && left[i] == right[j]
            ==> Rebuilds(ops + [Op(Equal, left[i])], left, i + 1, right, j + 1)
    ensures forall op: Op :: |EqualLines(ops + [op])| == |EqualLines(ops)| + (if op.kind.Equal? then 1 else 0)
  {
    forall op: Op ensures |EqualLines(ops + [op])| == |EqualLines(ops)| + (if op.kind.Equal? then 1 else 0) {
      Append(ops, op);
    }
    if i < |left| {
      assert left[..i + 1] == left[..i] + [left[i]];
      Append(ops, Op(Remove, left[i]));
      Append(ops, Op(Equal, left[i]));
    }
    if j < |right| {
      assert right[..j + 1] == right[..j] + [right[j]];
      Append(ops, Op(Add, right[j]));
    }
  }

  lemma LcsStep(left: seq<string>, right: seq<string>, i: nat, j: nat)
    requires i < |left| && j < |right|
    ensures LcsLength(left[i..], right[j..])
            == if left[i] == right[j] then LcsLength(left[i + 1..], right[j + 1..]) + 1
               else Max(LcsLength(left[i + 1..], right[j..]), LcsLength(left[i..], right[j + 1..]))
  {
    assert left[i..][1..] == left[i + 1..] && right[j..][1..] == right[j + 1..];
  }

  /** One line more or less changes the length by at most one, and never against it. */
  lemma {:induction false} LcsBounds(left: seq<string>, right: seq<string>)
    ensures left != [] ==> LcsLength(left[1..], right) <= LcsLength(left, right) <= LcsLength(left[1..], right) + 1
    ensures right != [] ==> LcsLength(left, right[1..]) <= LcsLength(left, right) <= LcsLength(left, right[1..]) + 1
    decreases |left| + |right|
  {
    if left != [] && right != [] {
      LcsBounds(left[1..], right);
      LcsBounds(left, right[1..]);
    }
  }

  /** In a block of changes the removed lines come first: no line is removed right after one was added. */
  predicate RemovesFirst(ops: seq<Op>) {
    forall k, next | 0 <= k < next == k + 1 < |ops| :: ops[k].kind.Add? ==> !ops[next].kind.Remove?
  }

  lemma RemovesFirstMore(ops: seq<Op>, op: Op)
    requires RemovesFirst(ops) && (op.kind.Remove? && ops != [] ==> !ops[|ops| - 1].kind.Add?)
    ensures RemovesFirst(ops + [op])
  {
  }

  // After an added line, removing the next line of the left would lose a common line.
  predicate AddedLast(ops: seq<Op>, left: seq<string>, i: nat, right: seq<string>, j: nat)
    requires i <= |left| && j <= |right|
  {
    ops != [] && ops[|ops| - 1].kind.Add? && i < |left| ==>
      LcsLength(left[i + 1..], right[j..]) < LcsLength(left[i..], right[j..])
  }

  lemma AddedLastMore(ops: seq<Op>, left: seq<string>, i: nat, right: seq<string>, j: nat)
    requires i < |left| && j < |right| && LcsLength(left[i + 1..], right[j..]) < LcsLength(left[i..], right[j + 1..])
    ensures AddedLast(ops, left, i, right, j + 1)
  {
    assert right[j..][1..] == right[j + 1..];
    LcsBounds(left[i + 1..], right[j..]);
  }

  /**
   `diffLines`: the ops rebuild both sides, and they keep as many lines as any
   common subsequence of the two sides has. Of the diffs that do, it is one that
   removes before it adds.
   */
  method DiffLines(left: seq<string>, right: seq<string>) returns (ops: seq<Op>)
    ensures LeftOf(ops) == left && RightOf(ops) == right
    ensures |EqualLines(ops)| == LcsLength(left, right)
    ensures RemovesFirst(ops)
  {
    hide LcsLength, LeftOf, RightOf, EqualLines, RemovesFirst;
    var lengths := FillTable(left, right);
    ops := [];
    var i, j := 0, 0;
    EmptyRebuilds(left, right);
    assert left[0..] == left && right[0..] == right;
    while i < |left| && j < |right|
      invariant 0 <= i <= |left| && 0 <= j <= |right|
      invariant Rebuilds(ops, left, i, right, j)
      invariant |EqualLines(ops)| + LcsLength(left[i..], right[j..]) == LcsLength(left, right)
      invariant RemovesFirst(ops) && AddedLast(ops, left, i, right, j)
      modifies {}
      decreases |left| - i + |right| - j
    {
      RebuildMore(ops, left, i, right, j);
      LcsStep(left, right, i, j);
      if left[i] == right[j] {
        RemovesFirstMore(ops, Op(Equal, left[i]));
        ops := ops + [Op(Equal, left[i])];
        i, j := i + 1, j + 1;
      } else if lengths[i + 1, j] >= lengths[i, j + 1] {
        RemovesFirstMore(ops, Op(Remove, left[i]));
        ops := ops + [Op(Remove, left[i])];
        i := i + 1;
      } else {
        RemovesFirstMore(ops, Op(Add, right[j]));
        AddedLastMore(ops + [Op(Add, right[j])], left, i, right, j);
        ops := ops + [Op(Add, right[j])];
        j := j + 1;
      }
    }
    assert LcsLength(left[i..], right[j..]) == 0 by { EmptyLcs(left[i..], right[j..]); }
    assert i < |left| && ops != [] ==> !ops[|ops| - 1].kind.Add?;
    while i < |left|
      invariant 0 <= i <= |left| && 0 <= j <= |right| && (i == |left| || j == |right|)
      invariant Rebuilds(ops, left, i, right, j)
      invariant |EqualLines(ops)| == LcsLength(left, right)
      invariant RemovesFirst(ops) && (i < |left| && ops != [] ==> !ops[|ops| - 1].kind.Add?)
    {
      RebuildMore(ops, left, i, right, j);
      RemovesFirstMore(ops, Op(Remove, left[i]));
      ops := ops + [Op(Remove, left[i])];
      i := i + 1;
    }
    while j < |right|
      invariant i == |left| && 0 <= j <= |right|
      invariant Rebuilds(ops, left, i, right, j)
      invariant |EqualLines(ops)| == LcsLength(left, right)
      invariant RemovesFirst(ops)
    {
      RebuildMore(ops, left, i, right, j);
      RemovesFirstMore(ops, Op(Add, right[j]));
      ops := ops + [Op(Add, right[j])];
      j := j + 1;
    }
    assert left[..|left|] == left && right[..|right|] == right;
  }

  lemma EmptyRebuilds(left: seq<string>, right: seq<string>)
    ensures Rebuilds([], left, 0, right, 0) && EqualLines([]) == [] && RemovesFirst([])
  {
  }

  lemma EmptyLcs(left: seq<string>, right: seq<string>)
    requires left == [] || right == []
    ensures LcsLength(left, right) == 0
  {
  }

  predicate IsDiff(ops: seq<Op>, left: seq<string>, right: seq<string>) {
    LeftOf(ops) == left && RightOf(ops) == right && |EqualLines(ops)| == LcsLength(left, right)
  }

  /** What the method computes is optimal: its equal lines are a longest common subsequence. */
  lemma DiffIsOptimal(ops: seq<Op>, left: seq<string>, right: seq<string>, c: seq<string>)
    requires IsDiff(ops, left, right) && IsSubsequence(c, left) && IsSubsequence(c, right)
    ensures IsSubsequence(EqualLines(ops), left) && IsSubsequence(EqualLines(ops), right)
    ensures |c| <= |EqualLines(ops)|
  {
    EqualLinesAreCommon(ops);
    NoLongerCommonSubsequence(c, left, right);
  }

  // The two users.

  function Mark(op: Op): string {
    match op.kind
    case Add => "+" + op.line
    case Remove => "-" + op.line
    case Equal => " " + op.line
  }

  /** `generatedHelpChangedLines`, before joining. */
  function ChangedLines(ops: seq<Op>): seq<string> {
    if ops == [] then []
    else
      var last := ops[|ops| - 1];
      ChangedLines(ops[..|ops| - 1]) + (if last.kind.Equal? then [] else [Mark(last)])
  }

  /** Some op within three lines of the op at `index` is a change. */
  predicate HasChangeNearby(ops: seq<Op>, index: int) {
    exists k | 0 <= k < |ops| && index - 3 <= k < index + 4 :: !ops[k].kind.Equal?
  }

  predicate IsShown(ops: seq<Op>, index: int)
    requires 0 <= index < |ops|
  {
    !ops[index].kind.Equal? || HasChangeNearby(ops, index)
  }

  /** The first n ops of `generatedHelpDiff` that are shown, marked. */
  function ShownLines(ops: seq<Op>, n: nat): seq<string>
    requires n <= |ops|
  {
    if n == 0 then []
    else ShownLines(ops, n - 1) + (if IsShown(ops, n - 1) then [Mark(ops[n - 1])] else [])
  }

  lemma {:induction false} AllEqual(ops: seq<Op>)
    ensures |EqualLines(ops)| <= |LeftOf(ops)| && |EqualLines(ops)| <= |RightOf(ops)|
    ensures |EqualLines(ops)| == |LeftOf(ops)| == |RightOf(ops)| <==> forall op <- ops :: op.kind.Equal?
    ensures (forall op <- ops :: op.kind.Equal?) ==> LeftOf(ops) == RightOf(ops)
    ensures ChangedLines(ops) == [] <==> forall op <- ops :: op.kind.Equal?
    decreases |ops|
  {
    if ops != [] {
      var init, last := ops[..|ops| - 1], ops[|ops| - 1];
      assert ops == init + [last];
      AllEqual(init);
      assert forall op :: op in ops <==> op in init || op == last;
    }
  }

  lemma {:induction false} SameLcs(s: seq<string>)
    ensures LcsLength(s, s) == |s|
  {
    if s != [] { SameLcs(s[1..]); }
  }

  lemma {:induction false} NothingShown(ops: seq<Op>, n: nat)
    requires n <= |ops|
    ensures ShownLines(ops, n) == [] <==> forall k | 0 <= k < n :: !IsShown(ops, k)
  {
    if n > 0 { NothingShown(ops, n - 1); }
  }

  /** Both reports are empty exactly when the two texts are the same, and the diff then keeps every line. */
  lemma ReportsEmptyExactly(ops: seq<Op>, left: seq<string>, right: seq<string>)
    requires IsDiff(ops, left, right)
    ensures ChangedLines(ops) == [] <==> left == right
    ensures ShownLines(ops, |ops|) == [] <==> left == right
  {
    AllEqual(ops);
    if left == right {
      SameLcs(left);
    }
    NothingShown(ops, |ops|);
    if forall op <- ops :: op.kind.Equal? {
      forall k | 0 <= k < |ops| ensures !IsShown(ops, k) {
        assert forall m | 0 <= m < |ops| :: ops[m] in ops;
      }
    } else {
      var op :| op in ops && !op.kind.Equal?;
      var k :| 0 <= k < |ops| && ops[k] == op;
      assert IsShown(ops, k);
    }
  }

  // What the reports say, read back.

  /** A marked line: added after a plus, removed after a minus, unchanged after a blank. */
  predicate Says(text: string, op: Op) {
    && text != "" && text[1..] == op.line
    && text[0] == (if op.kind.Add? then '+' else if op.kind.Remove? then '-' else ' ')
  }

  /** Each line of the report says the op at its position, and the positions go up. */
  predicate Reads(ops: seq<Op>, report: seq<string>, at: seq<nat>) {
    && |at| == |report|
    && (forall m | 0 <= m < |at| :: at[m] < |ops| && Says(report[m], ops[at[m]]))
    && (forall m, n | 0 <= m < n < |at| :: at[m] < at[n])
  }

  predicate IsChange(ops: seq<Op>, k: nat) { k < |ops| && !ops[k].kind.Equal? }

  /** A change lies at most three lines away. */
  predicate IsNearChange(ops: seq<Op>, k: nat) {
    exists c | 0 <= c < |ops| :: IsChange(ops, c) && k <= c + 3 && c <= k + 3
  }

  lemma MarkSays(op: Op)
    ensures Says(Mark(op), op)
  {
  }

  lemma ReadsMore(ops: seq<Op>, report: seq<string>, at: seq<nat>, n: nat)
    requires Reads(ops, report, at) && n < |ops| && forall k <- at :: k < n
    ensures Reads(ops, report + [Mark(ops[n])], at + [n])
  {
    MarkSays(ops[n]);
    var more := at + [n];
    forall m | 0 <= m < |at| ensures more[m] < n {
      assert at[m] in at;
    }
  }

  lemma ShownIsNear(ops: seq<Op>, k: nat)
    requires k < |ops|
    ensures IsShown(ops, k) <==> IsNearChange(ops, k)
  {
    if !ops[k].kind.Equal? {
      assert IsChange(ops, k);
    } else if HasChangeNearby(ops, k) {
      var c :| 0 <= c < |ops| && k - 3 <= c < k + 4 && !ops[c].kind.Equal?;
      assert IsChange(ops, c);
    }
    if IsNearChange(ops, k) {
      var c :| 0 <= c < |ops| && IsChange(ops, c) && k <= c + 3 && c <= k + 3;
      assert !ops[c].kind.Equal?;
    }
  }

  /** The diff shows, in order and each once, the lines at most three away from a change. */
  lemma {:induction false} ShownExactly(ops: seq<Op>, n: nat) returns (at: seq<nat>)
    requires n <= |ops|
    ensures Reads(ops, ShownLines(ops, n), at) && forall k: nat :: k in at <==> k < n && IsNearChange(ops, k)
  {
    hide IsShown, IsNearChange, Reads, Mark;
    if n == 0 {
      at := [];
      assert Reads(ops, [], []) by { NothingReads(ops); }
    } else {
      var before := ShownExactly(ops, n - 1);
      ShownIsNear(ops, n - 1);
      assert ShownLines(ops, n - 1) + [] == ShownLines(ops, n - 1);
      at := if IsShown(ops, n - 1) then before + [n - 1] else before;
      if IsShown(ops, n - 1) { ReadsMore(ops, ShownLines(ops, n - 1), before, n - 1); }
    }
  }

  lemma NothingReads(ops: seq<Op>)
    ensures Reads(ops, [], [])
  {
  }

  lemma ReadsLonger(ops: seq<Op>, op: Op, report: seq<string>, at: seq<nat>)
    requires Reads(ops, report, at)
    ensures Reads(ops + [op], report, at)
  {
  }

  lemma ChangesMore(init: seq<Op>, last: Op, before: seq<nat>)
    requires forall k: nat :: k in before <==> IsChange(init, k)
    ensures var at := if last.kind.Equal? then before else before + [|init|];
            forall k: nat :: k in at <==> IsChange(init + [last], k)
  {
  }

  /** The changed lines are, in order and each once, the lines that were added or removed. */
  lemma {:induction false} ChangedExactly(ops: seq<Op>) returns (at: seq<nat>)
    ensures Reads(ops, ChangedLines(ops), at) && forall k: nat :: k in at <==> IsChange(ops, k)
    decreases |ops|
  {
    hide Reads, Mark, IsChange;
    if ops == [] {
      at := [];
      NothingReads(ops);
      NoChange();
    } else {
      var init, last := ops[..|ops| - 1], ops[|ops| - 1];
      var before := ChangedExactly(init);
      assert ops == init + [last] && ChangedLines(init) + [] == ChangedLines(init);
      ReadsLonger(init, last, ChangedLines(init), before);
      ChangesMore(init, last, before);
      at := if last.kind.Equal? then before else before + [|init|];
      if !last.kind.Equal? {
        ChangesBelow(init, before);
        ReadsMore(ops, ChangedLines(init), before, |init|);
      }
    }
  }

  lemma NoChange()
    ensures forall k: nat :: !IsChange([], k)
  {
  }

  lemma ChangesBelow(ops: seq<Op>, at: seq<nat>)
    requires forall k: nat :: k in at <==> IsChange(ops, k)
    ensures forall k <- at :: k < |ops|
  {
  }
}
