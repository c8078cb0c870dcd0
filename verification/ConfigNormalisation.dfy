/**
 Whether one pass of expanding and printing settles a configuration: exactly when it
 does for a value, and roots for which it always does.
 */
module ConfigNormalisation {
  import opened Options
  import opened JsonValues
  import opened TextSearch
  import opened ConfigPaths

  // The one obstacle: the root that encloses the expanded text, with nothing behind it
  // that keeps `hasPortablePathCandidate` from looking, expands to another directory.

  predicate IsUnsettled(roots: seq<Root>, value: string) {
    var e := FromPortable(roots, value);
    var root := RootOf(roots, e);
    IsAbsolute(e) && root.Some? &&
    (RootIsLongest(roots, e, |roots|);
     !Occurs(e[|root.value.dir|..], "${") && FromPortable(roots, Placeholder(root.value.token)) != root.value.dir)
  }

  lemma ReplaceLeading(part: string, sub: string)
    requires part != ""
    ensures ReplaceAll(part, part, sub) == sub
  {
    assert part[|part|..] == "";
  }

  lemma PrefixOccurs(value: string, q: string)
    requires q <= value
    ensures Occurs(value, q)
  {
  }

  lemma {:induction false} NoDollar(value: string, q: string)
    requires Without('$', value) && Opens(q)
    ensures !Occurs(value, q)
  {
    if Occurs(value, q) {
      assert value + "" == value;
      NotInside(value, "", q);
      EmptyHasNone(q);
      assert false;
    }
  }

  lemma EmptyHasNone(q: string)
    requires q != ""
    ensures !Occurs("", q)
  {
  }

  lemma NotInPlaceholder(a: string, b: string)
    requires IsPlain(a) && IsPlain(b) && a != b
    ensures !Occurs(Placeholder(b), Placeholder(a))
  {
    assert Placeholder(b) + "" == Placeholder(b);
    if Occurs(Placeholder(b), Placeholder(a)) { OccursBehind(a, b, ""); }
  }

  // What stands behind an expanded placeholder.

  /** Nothing, or a further part of the path, that opens no placeholder. */
  predicate IsPathRest(rest: string) { (rest == "" || rest[0] == '/') && !Occurs(rest, "${") }

  /** Before such a rest, a placeholder starts where it starts without it. */
  lemma StartsBefore(a: string, rest: string, part: string)
    requires IsPathRest(rest) && Without('/', part)
    ensures part <= a + rest <==> part <= a
    ensures part <= a ==> (a + rest)[|part|..] == a[|part|..] + rest
  {
    if part <= a + rest && |part| > |a| { SlashInside(a, rest, part); }
  }

  lemma SlashInside(a: string, rest: string, part: string)
    requires IsPathRest(rest) && part <= a + rest && |part| > |a|
    ensures !Without('/', part)
  {
    assert part[|a|] == (a + rest)[|a|] == rest[0];
  }

  lemma {:induction false} ReplaceBefore(a: string, rest: string, part: string, sub: string)
    requires IsPathRest(rest) && Opens(part) && Without('/', part)
    ensures ReplaceAll(a + rest, part, sub) == ReplaceAll(a, part, sub) + rest
    decreases |a|
  {
    hide IsPathRest, Without, Occurs;
    if a == "" {
      assert a + rest == rest && ReplaceAll("", part, sub) + rest == rest;
      RestHoldsNone(rest, part);
      NothingToReplace(rest, part, sub);
    } else {
      var whole := a + rest;
      StartsBefore(a, rest, part);
      if part <= a {
        ReplaceBefore(a[|part|..], rest, part, sub);
        var replaced := ReplaceAll(a[|part|..], part, sub);
        assert sub + (replaced + rest) == (sub + replaced) + rest;
      } else {
        assert whole[0] == a[0] && whole[1..] == a[1..] + rest;
        ReplaceBefore(a[1..], rest, part, sub);
        var replaced := ReplaceAll(a[1..], part, sub);
        assert [a[0]] + (replaced + rest) == ([a[0]] + replaced) + rest;
      }
    }
  }

  lemma RestHoldsNone(rest: string, part: string)
    requires IsPathRest(rest) && Opens(part)
    ensures !Occurs(rest, part)
  {
    assert part[..2] == "${";
    NoDollarNoPlaceholder(rest, part);
  }

  lemma {:induction false} ExpandBefore(roots: seq<Root>, a: string, rest: string, n: nat)
    requires ArePortable(roots) && n <= |roots| && IsPathRest(rest)
    ensures Expand(roots, a + rest, n) == Expand(roots, a, n) + rest
  {
    hide ReplaceAll, IsPathRest;
    if n > 0 {
      ExpandBefore(roots, a, rest, n - 1);
      PlaceholderShape(roots[n - 1].token);
      ReplaceBefore(Expand(roots, a, n - 1), rest, Placeholder(roots[n - 1].token), roots[n - 1].dir);
    }
  }

  /** A placeholder expands to an absolute path. */
  lemma {:induction false} ExpandIsAbsolute(roots: seq<Root>, k: nat, n: nat)
    requires ArePortable(roots) && k < |roots| && n <= |roots|
    ensures var p := Placeholder(roots[k].token);
            if n <= k then Expand(roots, p, n) == p else IsAbsolute(Expand(roots, p, n))
  {
    hide Occurs;
    if n > 0 {
      ExpandIsAbsolute(roots, k, n - 1);
      var p, root := Placeholder(roots[k].token), roots[n - 1];
      if n - 1 < k {
        NotInPlaceholder(root.token, roots[k].token);
        NothingToReplace(p, Placeholder(root.token), root.dir);
      } else if n - 1 == k {
        ReplaceLeading(p, root.dir);
      } else {
        assert Expand(roots, p, n)[0] == '/';
      }
    }
  }

  /** No expanded text starts with a placeholder, whatever the directories hold. */
  lemma {:induction false} ExpandLeadsNone(roots: seq<Root>, value: string, n: nat, i: nat)
    requires ArePortable(roots) && i < n <= |roots|
    ensures !(Placeholder(roots[i].token) <= Expand(roots, value, n))
  {
    var q := Placeholder(roots[i].token);
    PlaceholderShape(roots[i].token);
    if q <= Expand(roots, value, n) {
      CopiedPrefix(Expand(roots, value, n - 1), Placeholder(roots[n - 1].token), roots[n - 1].dir, q);
      if i < n - 1 { ExpandLeadsNone(roots, value, n - 1, i); }
      assert false;
    }
  }

  lemma FromPortableLeadsNone(roots: seq<Root>, value: string)
    requires ArePortable(roots)
    ensures LeadingRoot(roots, FromPortable(roots, value)) == None
  {
    hide Expand, Occurs;
    var e := FromPortable(roots, value);
    LeadingRootLeads(roots, e);
    var lead := LeadingRoot(roots, e);
    if lead.Some? {
      var i :| 0 <= i < |roots| && roots[i] == lead.value;
      if Occurs(value, "${") {
        ExpandLeadsNone(roots, value, |roots|, i);
      } else {
        NoDollarNoPlaceholder(value, Placeholder(lead.value.token));
        PrefixOccurs(value, Placeholder(lead.value.token));
      }
      assert false;
    }
  }

  lemma SameToken(roots: seq<Root>, a: Root, b: Root)
    requires ArePortable(roots) && a in roots && b in roots && a.token == b.token
    ensures a == b
  {
  }

  lemma RootParts(roots: seq<Root>, root: Root)
    requires ArePortable(roots) && root in roots
    ensures IsPlain(root.token) && |root.dir| > 1 && root.dir[0] == '/'
  {
  }

  lemma LeadingRootIs(roots: seq<Root>, root: Root, rest: string)
    requires ArePortable(roots) && root in roots
    ensures LeadingRoot(roots, Placeholder(root.token) + rest) == Some(root)
  {
    var p := Placeholder(root.token) + rest;
    assert Placeholder(root.token) <= p;
    LeadingRootLeads(roots, p);
    var lead := LeadingRoot(roots, p).value;
    RootParts(roots, lead);
    RootParts(roots, root);
    PlaceholdersApart(lead.token, root.token, rest);
    SameToken(roots, lead, root);
  }

  /** Printing gives root and rest only for the root's own directory before that rest. */
  lemma PrintsBack(roots: seq<Root>, root: Root, rest: string, dir: string)
    requires ArePortable(roots) && root in roots && IsAbsolute(dir)
    requires ToPortable(roots, dir + rest) == Placeholder(root.token) + rest
    ensures dir == root.dir
  {
    hide Encloses, BestOf;
    var text := dir + rest;
    var other := RootOf(roots, text);
    RootIsLongest(roots, text, |roots|);
    assert roots[..|roots|] == roots;
    assert text[0] == '/' && (Placeholder(root.token) + rest)[0] == '$';
    RootParts(roots, other.value);
    RootParts(roots, root);
    assert Placeholder(other.value.token) <= Placeholder(root.token) + rest;
    PlaceholdersApart(other.value.token, root.token, rest);
    SameToken(roots, other.value, root);
    var p := Placeholder(root.token);
    assert (p + text[|root.dir|..])[|p|..] == text[|root.dir|..] && (p + rest)[|p|..] == rest;
    assert text[..|dir|] == dir && text[..|root.dir|] == root.dir;
  }

  lemma EnclosedRest(roots: seq<Root>, e: string)
    requires RootOf(roots, e).Some?
    ensures var root := RootOf(roots, e).value;
            && root in roots && root.dir <= e
            && (e[|root.dir|..] == "" || e[|root.dir|..][0] == '/')
  {
    RootIsLongest(roots, e, |roots|);
    assert roots[..|roots|] == roots;
    var root := RootOf(roots, e).value;
    if e != root.dir {
      assert e[|root.dir|] == (root.dir + "/")[|root.dir|];
    }
  }

  /**
   Printed under a root, with nothing opening behind it: stale exactly if the root's placeholder
   expands elsewhere.
   */
  lemma PrintedStale(roots: seq<Root>, root: Root, rest: string)
    requires ArePortable(roots) && root in roots && IsPathRest(rest)
    requires ToPortable(roots, root.dir + rest) == Placeholder(root.token) + rest
    ensures Stale(roots, Placeholder(root.token) + rest) <==> FromPortable(roots, Placeholder(root.token)) != root.dir
  {
    hide Occurs, Expand, ToPortable, LeadingRoot;
    var q := Placeholder(root.token);
    var p := q + rest;
    LeadingRootIs(roots, root, rest);
    assert p[|q|..] == rest;
    assert !Occurs(rest, "${") by { RestOpensNone(rest); }
    IncludesOpening(root.token, rest);
    IncludesOpening(root.token, "");
    assert q + "" == q;
    ExpandBefore(roots, q, rest, |roots|);
    var k :| 0 <= k < |roots| && roots[k] == root;
    ExpandIsAbsolute(roots, k, |roots|);
    var dir := FromPortable(roots, q);
    assert FromPortable(roots, p) == dir + rest;
    if ToPortable(roots, dir + rest) == p { PrintsBack(roots, root, rest, dir); }
  }

  lemma RestOpensNone(rest: string)
    requires IsPathRest(rest)
    ensures !Occurs(rest, "${")
  {
  }

  /** After one pass a string asks for another exactly when it is unsettled. */
  lemma StringSettlesExactly(roots: seq<Root>, value: string)
    requires ArePortable(roots)
    ensures HasCandidate(roots, Str(ToPortable(roots, FromPortable(roots, value)))) <==> IsUnsettled(roots, value)
  {
    hide Occurs, Expand, Encloses, FromPortable, BestOf, Stale, LeadingRoot;
    var e := FromPortable(roots, value);
    var found := RootOf(roots, e);
    var p := ToPortable(roots, e);
    if IsAbsolute(e) && found.Some? {
      var root := found.value;
      EnclosedRest(roots, e);
      RootIsLongest(roots, e, |roots|);
      var rest := e[|root.dir|..];
      assert e == root.dir + rest && p == Placeholder(root.token) + rest;
      assert p[0] == '$' && ToPortable(roots, p) == p;
      if Occurs(rest, "${") {
        OpenRestIsFresh(roots, root, rest);
      } else {
        PrintedStale(roots, root, rest);
      }
    } else {
      assert p == e && ToPortable(roots, p) == p;
      FromPortableLeadsNone(roots, value);
      NoLeadIsFresh(roots, p);
    }
  }

  lemma OpenRestIsFresh(roots: seq<Root>, root: Root, rest: string)
    requires ArePortable(roots) && root in roots && Occurs(rest, "${")
    ensures !Stale(roots, Placeholder(root.token) + rest)
  {
    hide Occurs, LeadingRoot;
    LeadingRootIs(roots, root, rest);
    assert (Placeholder(root.token) + rest)[|Placeholder(root.token)|..] == rest;
  }

  lemma NoLeadIsFresh(roots: seq<Root>, value: string)
    requires LeadingRoot(roots, value) == None
    ensures !Stale(roots, value)
  {
  }

  /** Some string of the tree is unsettled; an entry that the pass drops does not count. */
  predicate HasUnsettled(roots: seq<Root>, value: Json)
    decreases value
  {
    match value
    case Str(s) => IsUnsettled(roots, s)
    case Arr(items) => exists i | 0 <= i < |items| :: HasUnsettled(roots, items[i])
    case Obj(fields) => exists key <- fields :: key != PROTO && HasUnsettled(roots, fields[key])
    case _ => false
  }

  function OnePass(roots: seq<Root>, value: Json): Json { ToPortableConfig(roots, FromPortableConfig(roots, value)) }

  /** One pass of expanding and printing settles a configuration tree exactly when none of its strings is unsettled. */
  lemma {:induction false} SettlesExactly(roots: seq<Root>, value: Json)
    requires ArePortable(roots)
    ensures HasCandidate(roots, OnePass(roots, value)) <==> HasUnsettled(roots, value)
    decreases value
  {
    hide ToPortable, FromPortable, Stale, IsUnsettled, ArePortable;
    match value {
      case Str(s) => StringSettlesExactly(roots, s);
      case Arr(items) =>
        var out := OnePass(roots, value).items;
        forall i | 0 <= i < |items|
          ensures out[i] == OnePass(roots, items[i])
          ensures HasCandidate(roots, out[i]) <==> HasUnsettled(roots, items[i])
        {
          SettlesExactly(roots, items[i]);
        }
      case Obj(fields) =>
        var out := OnePass(roots, value).fields;
        assert out.Keys == fields.Keys - {PROTO};
        forall key | key in out
          ensures out[key] == OnePass(roots, fields[key])
          ensures HasCandidate(roots, out[key]) <==> HasUnsettled(roots, fields[key])
        {
          SettlesExactly(roots, fields[key]);
        }
      case _ =>
    }
  }

  // Roots for which a pass always settles.

  /** Each root's placeholder expands to the root's own directory. */
  predicate ExpandToThemselves(roots: seq<Root>) {
    forall root <- roots :: FromPortable(roots, Placeholder(root.token)) == root.dir
  }

  /**
   One pass of expanding and printing reaches a fixed point on every configuration
   tree: nothing in it still asks to be printed differently.
   */
  lemma {:induction false} NormalisedInOnePass(roots: seq<Root>, value: Json)
    requires ArePortable(roots) && ExpandToThemselves(roots)
    ensures !HasCandidate(roots, OnePass(roots, value))
  {
    hide HasCandidate, OnePass, ArePortable, ExpandToThemselves;
    SettlesExactly(roots, value);
    NoneUnsettled(roots, value);
  }

  lemma {:induction false} NoneUnsettled(roots: seq<Root>, value: Json)
    requires ExpandToThemselves(roots)
    ensures !HasUnsettled(roots, value)
    decreases value
  {
    hide IsUnsettled, ExpandToThemselves;
    match value {
      case Str(s) => Settled(roots, s);
      case Arr(items) =>
        forall i | 0 <= i < |items| ensures !HasUnsettled(roots, items[i]) { NoneUnsettled(roots, items[i]); }
      case Obj(fields) =>
        forall key | key in fields ensures !HasUnsettled(roots, fields[key]) { NoneUnsettled(roots, fields[key]); }
      case _ =>
    }
  }

  lemma Settled(roots: seq<Root>, value: string)
    requires ExpandToThemselves(roots)
    ensures !IsUnsettled(roots, value)
  {
    hide FromPortable, Occurs, BestOf;
    var e := FromPortable(roots, value);
    RootIsLongest(roots, e, |roots|);
    assert roots[..|roots|] == roots;
  }

  /** So do directories that open no placeholder. */
  lemma ClosedExpandToThemselves(roots: seq<Root>)
    requires ArePortable(roots) && AreClosed(roots)
    ensures ExpandToThemselves(roots)
  {
    hide Occurs, Expand;
    forall root | root in roots ensures FromPortable(roots, Placeholder(root.token)) == root.dir {
      var k :| 0 <= k < |roots| && roots[k] == root;
      var p := Placeholder(root.token);
      assert p + "" == p && root.dir + "" == root.dir;
      forall i | 0 <= i < |roots|
        ensures !Occurs(root.dir, Placeholder(roots[i].token)) && !Occurs("", Placeholder(roots[i].token))
      {
        PlaceholderShape(roots[i].token);
        ClosedHoldsNone(root.dir, Placeholder(roots[i].token));
        EmptyHasNone(Placeholder(roots[i].token));
      }
      ExpandLeading(roots, k, "", |roots|);
      IncludesOpening(root.token, "");
    }
  }

  lemma ClosedHoldsNone(dir: string, q: string)
    requires OpensNone(dir) && Opens(q)
    ensures !Occurs(dir, q)
  {
    if Occurs(dir, q) {
      assert dir + "" == dir;
      NotInside(dir, "", q);
      EmptyHasNone(q);
      assert false;
    }
  }

  /** And a single root, whatever its directory holds, a '$' at its end included. */
  lemma OneRootExpandsToItself(root: Root)
    ensures ExpandToThemselves([root])
  {
    hide Occurs, ReplaceAll;
    var roots, p := [root], Placeholder(root.token);
    ReplaceLeading(p, root.dir);
    IncludesOpening(root.token, "");
    assert p + "" == p && Expand(roots, p, 0) == p && Expand(roots, p, 1) == root.dir;
  }

  // Roots for which it does not: the home directory holds the placeholder of the data directory.

  const H := "ARRIERO_HOME"
  const D := "ARRIERO_DATA_DIR"
  const S := "ARRIERO_SLOTS_DIR"
  const DOLLAR_DIR := "/h" + Placeholder(D)
  const DOLLAR_ROOTS := [Root(H, DOLLAR_DIR), Root(D, "/d"), Root(S, DOLLAR_DIR)]

  lemma ReplaceAfterTwo(a: char, b: char, part: string, sub: string)
    requires part != "" && part[0] != a && part[0] != b
    ensures ReplaceAll([a, b] + part, part, sub) == [a, b] + sub
  {
    assert ([a, b] + part)[0] == a && ([a, b] + part)[1..] == [b] + part;
    assert ([b] + part)[0] == b && ([b] + part)[1..] == part;
    ReplaceLeading(part, sub);
    assert ReplaceAll([b] + part, part, sub) == [b] + sub;
    assert [a] + ([b] + sub) == [a, b] + sub;
  }

  lemma SlotsExpand()
    ensures FromPortable(DOLLAR_ROOTS, Placeholder(S)) == DOLLAR_DIR
  {
    hide Occurs, ReplaceAll;
    var roots := DOLLAR_ROOTS;
    NotInPlaceholder(H, S);
    NotInPlaceholder(D, S);
    NothingToReplace(Placeholder(S), Placeholder(H), DOLLAR_DIR);
    NothingToReplace(Placeholder(S), Placeholder(D), "/d");
    ReplaceLeading(Placeholder(S), DOLLAR_DIR);
    IncludesOpening(S, "");
    assert Placeholder(S) + "" == Placeholder(S);
    assert Expand(roots, Placeholder(S), 1) == Placeholder(S);
    assert Expand(roots, Placeholder(S), 2) == Placeholder(S);
  }

  lemma DollarDirPrints()
    ensures ToPortable(DOLLAR_ROOTS, DOLLAR_DIR) == Placeholder(H)
  {
    var roots := DOLLAR_ROOTS;
    assert BestOf(roots, DOLLAR_DIR, 1) == Some(roots[0]);
    assert !Encloses(roots[1], DOLLAR_DIR) by { assert DOLLAR_DIR[1] == 'h' && roots[1].dir[1] == 'd'; }
    assert BestOf(roots, DOLLAR_DIR, 2) == Some(roots[0]);
    assert RootOf(roots, DOLLAR_DIR) == Some(roots[0]);
    assert Placeholder(H) + "" == Placeholder(H);
  }

  lemma HomeExpands()
    ensures FromPortable(DOLLAR_ROOTS, Placeholder(H)) == "/h/d"
  {
    hide Occurs, ReplaceAll;
    var roots, p := DOLLAR_ROOTS, Placeholder(H);
    ReplaceLeading(p, DOLLAR_DIR);
    ReplaceAfterTwo('/', 'h', Placeholder(D), "/d");
    assert DOLLAR_DIR == ['/', 'h'] + Placeholder(D);
    assert ['/', 'h'] + "/d" == "/h/d";
    assert Expand(roots, p, 1) == DOLLAR_DIR;
    assert Expand(roots, p, 2) == "/h/d";
    NoDollar("/h/d", Placeholder(S));
    NothingToReplace("/h/d", Placeholder(S), DOLLAR_DIR);
    IncludesOpening(H, "");
    assert p + "" == p;
  }

  lemma NoRootEncloses()
    ensures ToPortable(DOLLAR_ROOTS, "/h/d") == "/h/d"
  {
    var roots := DOLLAR_ROOTS;
    assert !Encloses(roots[1], "/h/d") by { assert (roots[1].dir + "/")[1] == 'd' && "/h/d"[1] == 'h'; }
    assert !Encloses(roots[0], "/h/d") by { assert (roots[0].dir + "/")[2] == '$'; }
    assert !Encloses(roots[2], "/h/d") by { assert (roots[2].dir + "/")[2] == '$'; }
    hide Encloses;
    assert BestOf(roots, "/h/d", 0) == None;
    assert BestOf(roots, "/h/d", 1) == None;
    assert BestOf(roots, "/h/d", 2) == None;
  }

  /** With a '$' in a directory, one pass can leave a value that asks for another. */
  lemma DollarInRootBreaks()
    ensures ArePortable(DOLLAR_ROOTS)
    ensures HasCandidate(DOLLAR_ROOTS, Str(ToPortable(DOLLAR_ROOTS, FromPortable(DOLLAR_ROOTS, Placeholder(S)))))
  {
    hide Occurs, ReplaceAll, ToPortable, FromPortable;
    var roots, p := DOLLAR_ROOTS, Placeholder(H);
    SlotsExpand();
    DollarDirPrints();
    HomeExpands();
    NoRootEncloses();
    assert LeadingRoot(roots, p) == Some(roots[0]);
    assert p[|p|..] == "";
    NoDollar("", "${");
    assert Stale(roots, p);
  }
}
