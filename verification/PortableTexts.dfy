/** Printing and expanding told by the texts alone: which directory a path is printed under, and where a text is cut. */
module PortableTexts {
  import opened Options
  import opened TextSearch
  import opened ConfigPaths

  // Printing.

  /** The path is the directory or something in it. */
  predicate LiesIn(path: string, dir: string) { dir <= path && (|path| == |dir| || path[|dir|] == '/') }

  /** The path lies in the directory of this root, in none that is longer, and in none as long that comes first. */
  predicate IsDeepest(roots: seq<Root>, path: string, i: nat) {
    && i < |roots| && LiesIn(path, roots[i].dir)
    && forall j | 0 <= j < |roots| && LiesIn(path, roots[j].dir) ::
         |roots[j].dir| <= |roots[i].dir| && (j < i ==> |roots[j].dir| < |roots[i].dir|)
  }

  predicate IsPrinted(roots: seq<Root>, path: string, text: string) {
    if path == "" || path[0] != '/' || forall i | 0 <= i < |roots| :: !LiesIn(path, roots[i].dir) then text == path
    else
      exists i | 0 <= i < |roots| ::
        IsDeepest(roots, path, i) && text == "${" + roots[i].token + "}" + path[|roots[i].dir|..]
  }

  lemma EnclosesIsIn(root: Root, path: string)
    ensures Encloses(root, path) <==> LiesIn(path, root.dir)
  {
    if LiesIn(path, root.dir) && |path| > |root.dir| {
      assert path[..|root.dir| + 1] == root.dir + "/";
    }
  }

  lemma {:induction false} BestIsDeepest(roots: seq<Root>, path: string, n: nat)
    requires n <= |roots|
    ensures var best := BestOf(roots, path, n);
            && (best.None? ==> forall i | 0 <= i < n :: !LiesIn(path, roots[i].dir))
            && (best.Some? ==> exists i | 0 <= i < n :: IsDeepest(roots[..n], path, i) && roots[i] == best.value)
  {
    hide LiesIn, Encloses;
    if n > 0 {
      BestIsDeepest(roots, path, n - 1);
      EnclosesIsIn(roots[n - 1], path);
      DeepestStays(roots, path, n);
    }
  }

  /** One more root is the deepest if the path lies in it and in none as long before it; else the deepest stays. */
  lemma DeepestStays(roots: seq<Root>, path: string, n: nat)
    requires 0 < n <= |roots|
    ensures forall i | 0 <= i < n - 1 && IsDeepest(roots[..n - 1], path, i) ::
              if LiesIn(path, roots[n - 1].dir) && |roots[n - 1].dir| > |roots[i].dir|
                  then IsDeepest(roots[..n], path, n - 1)
              else IsDeepest(roots[..n], path, i)
    ensures LiesIn(path, roots[n - 1].dir) && (forall i | 0 <= i < n - 1 :: !LiesIn(path, roots[i].dir))
            ==> IsDeepest(roots[..n], path, n - 1)
  {
    hide LiesIn;
    var before, now := roots[..n - 1], roots[..n];
    assert forall i | 0 <= i < n - 1 :: before[i] == roots[i] == now[i];
    assert now[n - 1] == roots[n - 1];
    forall i | 0 <= i < n - 1 && IsDeepest(before, path, i)
      ensures if LiesIn(path, roots[n - 1].dir) && |roots[n - 1].dir| > |roots[i].dir| then IsDeepest(now, path, n - 1)
              else IsDeepest(now, path, i)
    {
      forall j | 0 <= j < n && LiesIn(path, now[j].dir) ensures j < n - 1 ==> |now[j].dir| <= |now[i].dir| {
        if j < n - 1 { assert LiesIn(path, before[j].dir); }
      }
      forall j | 0 <= j < i && LiesIn(path, now[j].dir) ensures |now[j].dir| < |now[i].dir| {
        assert LiesIn(path, before[j].dir);
      }
    }
  }

  /** A path is printed under its deepest directory, and any other text is left as it is. */
  lemma PrintedExactly(roots: seq<Root>, path: string, text: string)
    ensures text == ToPortable(roots, path) <==> IsPrinted(roots, path, text)
  {
    hide LiesIn, BestOf;
    assert roots[..|roots|] == roots;
    BestIsDeepest(roots, path, |roots|);
    RootIsLongest(roots, path, |roots|);
    assert IsAbsolute(path) <==> path != "" && path[0] == '/' by { if IsAbsolute(path) { assert path[0] == "/"[0]; } }
    if IsAbsolute(path) && RootOf(roots, path).Some? {
      var root := RootOf(roots, path).value;
      var i :| 0 <= i < |roots| && IsDeepest(roots, path, i) && roots[i] == root;
      forall j | 0 <= j < |roots| && IsDeepest(roots, path, j) ensures j == i {
        assert LiesIn(path, roots[i].dir) && LiesIn(path, roots[j].dir);
      }
    }
  }

  // Expanding.

  /** The text cut at every occurrence of a part, from left to right. */
  predicate IsCutAt(text: string, part: string, pieces: seq<string>)
    decreases |pieces|
  {
    && pieces != []
    && pieces[0] <= text
    && (forall i | 0 <= i < |pieces[0]| :: !(part <= text[i..]))
    && if |pieces| == 1 then pieces[0] == text else
         var rest := text[|pieces[0]|..];
         part <= rest && IsCutAt(rest[|part|..], part, pieces[1..])
  }

  function Joined(pieces: seq<string>, with: string): string {
    if pieces == [] then "" else if |pieces| == 1 then pieces[0] else pieces[0] + with + Joined(pieces[1..], with)
  }

  /** Replacing is cutting at a part and joining with what takes its place. */
  lemma {:induction false} ReplacedExactly(text: string, part: string, sub: string) returns (pieces: seq<string>)
    requires part != ""
    ensures IsCutAt(text, part, pieces) && ReplaceAll(text, part, sub) == Joined(pieces, sub)
    decreases |text|
  {
    if text == "" {
      pieces := [""];
    } else if part <= text {
      var later := ReplacedExactly(text[|part|..], part, sub);
      pieces := [""] + later;
      assert pieces[1..] == later && text[0..] == text;
    } else {
      var later := ReplacedExactly(text[1..], part, sub);
      pieces := [[text[0]] + later[0]] + later[1..];
      CutLater(text, part, later);
      JoinedLater(text[0], later, sub);
    }
  }

  lemma CutLater(text: string, part: string, later: seq<string>)
    requires text != "" && !(part <= text) && IsCutAt(text[1..], part, later)
    ensures IsCutAt(text, part, [[text[0]] + later[0]] + later[1..])
  {
    var first := [text[0]] + later[0];
    var pieces := [first] + later[1..];
    assert first == text[..|first|];
    forall i | 0 <= i < |first| ensures !(part <= text[i..]) {
      if i > 0 { assert text[i..] == text[1..][i - 1..]; } else { assert text[0..] == text; }
    }
    assert text[|first|..] == text[1..][|later[0]|..];
    assert pieces[1..] == later[1..];
  }

  lemma JoinedLater(c: char, later: seq<string>, sub: string)
    requires later != []
    ensures Joined([[c] + later[0]] + later[1..], sub) == [c] + Joined(later, sub)
  {
    var pieces := [[c] + later[0]] + later[1..];
    assert pieces[1..] == later[1..];
  }

  /** Every occurrence of the root's placeholder gives way to its directory. */
  ghost predicate IsExpansion(root: Root, before: string, after: string) {
    var placeholder := "${" + root.token + "}";
    exists pieces :: IsCutAt(before, placeholder, pieces) && after == Joined(pieces, root.dir)
  }

  /** The texts an expansion goes through, root by root. */
  ghost predicate AreExpansions(roots: seq<Root>, texts: seq<string>) {
    && |texts| == |roots| + 1
    && forall k, next | 0 <= k < next == k + 1 < |texts| :: IsExpansion(roots[k], texts[k], texts[next])
  }

  lemma {:induction false} ExpandSteps(roots: seq<Root>, text: string, n: nat) returns (texts: seq<string>)
    requires n <= |roots|
    ensures AreExpansions(roots[..n], texts) && texts[0] == text && texts[n] == Expand(roots, text, n)
  {
    hide ReplaceAll, IsCutAt, Joined, IsExpansion;
    if n == 0 {
      texts := [text];
    } else {
      var before := ExpandSteps(roots, text, n - 1);
      var root := roots[n - 1];
      var after := Expand(roots, text, n);
      ExpansionShown(root, before[n - 1]);
      texts := before + [after];
      forall k, next | 0 <= k < next == k + 1 < |texts| ensures IsExpansion(roots[..n][k], texts[k], texts[next]) {
        if k < n - 1 {
          assert roots[..n - 1][k] == roots[..n][k] && before[k] == texts[k] && before[next] == texts[next];
        }
      }
    }
  }

  lemma ExpansionShown(root: Root, text: string)
    ensures IsExpansion(root, text, ReplaceAll(text, Placeholder(root.token), root.dir))
  {
    hide ReplaceAll, IsCutAt, Joined;
    var pieces := ReplacedExactly(text, Placeholder(root.token), root.dir);
  }

  /** Expanding replaces the placeholders of all roots, one root after the other. */
  lemma ExpandedExactly(roots: seq<Root>, text: string) returns (texts: seq<string>)
    ensures AreExpansions(roots, texts) && texts[0] == text && texts[|roots|] == FromPortable(roots, text)
  {
    hide Expand, Occurs;
    texts := ExpandSteps(roots, text, |roots|);
    assert roots[..|roots|] == roots;
    if !Occurs(text, "${") { NothingToExpand(roots, text, |roots|); }
  }

  lemma {:induction false} NothingToExpand(roots: seq<Root>, text: string, n: nat)
    requires n <= |roots| && !Occurs(text, "${")
    ensures Expand(roots, text, n) == text
  {
    hide Occurs, ReplaceAll;
    if n > 0 {
      NothingToExpand(roots, text, n - 1);
      NoDollarNoPlaceholder(text, Placeholder(roots[n - 1].token));
      NothingToReplace(text, Placeholder(roots[n - 1].token), roots[n - 1].dir);
    }
  }

  // The roots.

  /** Absolute directories count, other than the top. */
  predicate Counts(dir: string) { |dir| > 1 && dir[0] == '/' }

  predicate AreCounted(dirs: seq<string>, n: nat, at: seq<nat>)
    requires n <= |dirs|
  {
    && (forall m, k | 0 <= m < k < |at| :: at[m] < at[k])
    && (forall i <- at :: i < n)
    && (forall i | 0 <= i < n :: i in at <==> Counts(dirs[i]))
  }

  lemma CountedMore(dirs: seq<string>, n: nat, before: seq<nat>)
    requires 0 < n <= |dirs| && AreCounted(dirs, n - 1, before)
    ensures AreCounted(dirs, n, if Counts(dirs[n - 1]) then before + [n - 1] else before)
  {
    hide Counts;
    forall m | 0 <= m < |before| ensures before[m] < n - 1 {
      assert before[m] in before;
    }
    var after := if Counts(dirs[n - 1]) then before + [n - 1] else before;
    forall i | 0 <= i < n ensures i in after <==> Counts(dirs[i]) {
      assert i in after <==> i in before || (Counts(dirs[n - 1]) && i == n - 1);
    }
  }

  /** The roots are the directories that count, in order and each under its own token. */
  lemma {:induction false} RootsExactly(dirs: seq<string>, n: nat) returns (at: seq<nat>)
    requires n <= |dirs| == |TOKENS|
    ensures AreCounted(dirs, n, at)
    ensures var roots := PortableRoots(dirs, n);
            |roots| == |at| && forall m | 0 <= m < |at| :: at[m] < n && roots[m] == Root(TOKENS[at[m]], dirs[at[m]])
  {
    hide AreCounted;
    if n == 0 {
      at := [];
      assert AreCounted(dirs, 0, []) by { NoneCounted(dirs); }
    } else {
      var before := RootsExactly(dirs, n - 1);
      CountedMore(dirs, n, before);
      at := if Counts(dirs[n - 1]) then before + [n - 1] else before;
    }
  }

  lemma NoneCounted(dirs: seq<string>)
    ensures AreCounted(dirs, 0, [])
  {
  }
}
