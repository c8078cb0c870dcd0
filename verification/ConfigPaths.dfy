/** Managed directories in configuration files, printed as placeholders and expanded back. */
module ConfigPaths {
  import opened Options
  import opened JsonValues
  import opened TextSearch

  datatype Root = Root(token: string, dir: string)

  const TOKENS := [
    "ARRIERO_HOME", "ARRIERO_DATA_DIR", "ARRIERO_CONFIG_DIR", "ARRIERO_RUNTIME_DIR", "ARRIERO_LOGS_DIR",
    "ARRIERO_BUILDS_DIR", "ARRIERO_SOURCES_DIR", "ARRIERO_ENVS_DIR", "ARRIERO_MODELS_DIR", "ARRIERO_SLOTS_DIR"]

  /** The configured directories that are absolute, `dirs` being in the order of the tokens. */
  function PortableRoots(dirs: seq<string>, n: nat): seq<Root>
    requires n <= |dirs| == |TOKENS|
  {
    if n == 0 then []
    else
      PortableRoots(dirs, n - 1)
      + (if |dirs[n - 1]| > 1 && dirs[n - 1][0] == '/' then [Root(TOKENS[n - 1], dirs[n - 1])] else [])
  }

  function Placeholder(token: string): string { "${" + token + "}" }

  predicate Encloses(root: Root, value: string) { value == root.dir || root.dir + "/" <= value }

  function BestOf(roots: seq<Root>, value: string, n: nat): Option<Root>
    requires n <= |roots|
  {
    if n == 0 then None
    else
      var best := BestOf(roots, value, n - 1);
      var root := roots[n - 1];
      if Encloses(root, value) && (best.None? || |root.dir| > |best.value.dir|) then Some(root) else best
  }

  function RootOf(roots: seq<Root>, value: string): Option<Root> { BestOf(roots, value, |roots|) }

  predicate IsAbsolute(value: string) { "/" <= value }

  function ToPortable(roots: seq<Root>, value: string): string {
    if !IsAbsolute(value) then value
    else
      var root := RootOf(roots, value);
      if root.None? then value
      else
        RootIsLongest(roots, value, |roots|);
        Placeholder(root.value.token) + value[|root.value.dir|..]
  }

  /** `value.split(part).join(sub)`. */
  function ReplaceAll(value: string, part: string, sub: string): string
    requires part != ""
  {
    if value == "" then ""
    else if part <= value then sub + ReplaceAll(value[|part|..], part, sub)
    else [value[0]] + ReplaceAll(value[1..], part, sub)
  }

  function Expand(roots: seq<Root>, value: string, n: nat): string
    requires n <= |roots|
  {
    if n == 0 then value
    else ReplaceAll(Expand(roots, value, n - 1), Placeholder(roots[n - 1].token), roots[n - 1].dir)
  }

  function FromPortable(roots: seq<Root>, value: string): string {
    if !Occurs(value, "${") then value else Expand(roots, value, |roots|)
  }

  function LeadingRoot(roots: seq<Root>, value: string): Option<Root> {
    if roots == [] then None
    else if Placeholder(roots[0].token) <= value then Some(roots[0])
    else LeadingRoot(roots[1..], value)
  }

  predicate Stale(roots: seq<Root>, value: string) {
    var root := LeadingRoot(roots, value);
    if root.None? then false
    else
      LeadingRootLeads(roots, value);
      var rest := value[|Placeholder(root.value.token)|..];
      if Occurs(rest, "${") then false
      else
        var expanded := FromPortable(roots, value);
        IsAbsolute(expanded) && ToPortable(roots, expanded) != value
  }

  // Assigning to this key of an object sets its prototype and adds no entry.
  const PROTO := "__proto__"

  function MapStrings(value: Json, f: string -> string): Json
    decreases value
  {
    match value
    case Str(s) => Str(f(s))
    case Arr(items) => Arr(seq(|items|, i requires 0 <= i < |items| => MapStrings(items[i], f)))
    case Obj(fields) => Obj(map key | key in fields && key != PROTO :: MapStrings(fields[key], f))
    case _ => value
  }

  function ToPortableConfig(roots: seq<Root>, value: Json): Json { MapStrings(value, s => ToPortable(roots, s)) }

  function FromPortableConfig(roots: seq<Root>, value: Json): Json { MapStrings(value, s => FromPortable(roots, s)) }

  predicate HasCandidate(roots: seq<Root>, value: Json)
    decreases value
  {
    match value
    case Str(s) => ToPortable(roots, s) != s || Stale(roots, s)
    case Arr(items) => exists i | 0 <= i < |items| :: HasCandidate(roots, items[i])
    case Obj(fields) => exists key <- fields :: HasCandidate(roots, fields[key])
    case _ => false
  }

  // The loops.

  method ContainingRoot(roots: seq<Root>, value: string) returns (best: Option<Root>)
    ensures best == RootOf(roots, value)
  {
    best := None;
    for i := 0 to |roots|
      invariant best == BestOf(roots, value, i)
    {
      if value != roots[i].dir && !(roots[i].dir + "/" <= value) {
        continue;
      }
      if best.None? || |roots[i].dir| > |best.value.dir| {
        best := Some(roots[i]);
      }
    }
  }

  method FromPortablePath(roots: seq<Root>, value: string) returns (expanded: string)
    ensures expanded == FromPortable(roots, value)
  {
    expanded := value;
    if !Occurs(value, "${") {
      return;
    }
    for i := 0 to |roots|
      invariant expanded == Expand(roots, value, i)
    {
      expanded := ReplaceAll(expanded, Placeholder(roots[i].token), roots[i].dir);
    }
  }

  lemma FieldsMapped(fields: map<string, Json>, f: string -> string, mapped: map<string, Json>)
    requires mapped.Keys == fields.Keys - {PROTO} && forall key <- mapped :: mapped[key] == MapStrings(fields[key], f)
    ensures Obj(mapped) == MapStrings(Obj(fields), f)
  {
  }

  /** The object case of `mapStrings`. */
  method MapFields(fields: map<string, Json>, f: string -> string) returns (mapped: map<string, Json>)
    ensures Obj(mapped) == MapStrings(Obj(fields), f)
    ensures mapped.Keys == fields.Keys - {"__proto__"}
  {
    hide MapStrings;
    mapped := map[];
    var keys := fields.Keys;
    while keys != {}
      invariant keys <= fields.Keys && mapped.Keys == fields.Keys - keys - {PROTO}
      invariant forall key <- mapped :: mapped[key] == MapStrings(fields[key], f)
      decreases |keys|
    {
      var key :| key in keys;
      keys := keys - {key};
      if key != PROTO {
        mapped := mapped[key := MapStrings(fields[key], f)];
      }
    }
    FieldsMapped(fields, f, mapped);
  }

  // The longest enclosing root.

  /** The root chosen encloses the path, no enclosing root is longer, and there is one if any encloses it. */
  lemma {:induction false} RootIsLongest(roots: seq<Root>, value: string, n: nat)
    requires n <= |roots|
    ensures var best := BestOf(roots, value, n);
            && (best.Some? ==> best.value in roots[..n] && Encloses(best.value, value) && best.value.dir <= value)
            && (forall i | 0 <= i < n && Encloses(roots[i], value) :: best.Some? && |roots[i].dir| <= |best.value.dir|)
  {
    if n > 0 {
      RootIsLongest(roots, value, n - 1);
      assert roots[..n] == roots[..n - 1] + [roots[n - 1]];
    }
  }

  lemma LeadingRootLeads(roots: seq<Root>, value: string)
    ensures var root := LeadingRoot(roots, value);
            && (root.Some? ==> root.value in roots && Placeholder(root.value.token) <= value)
            && (root.None? ==> forall r <- roots :: !(Placeholder(r.token) <= value))
  {
  }

  // Placeholders in expanded text.

  predicate IsPlain(token: string) { forall i | 0 <= i < |token| :: 'A' <= token[i] <= 'Z' || token[i] == '_' }

  predicate Without(c: char, s: string) { forall i | 0 <= i < |s| :: s[i] != c }

  /** What portableRoots guarantees of its result: absolute directories under distinct plain tokens. */
  predicate ArePortable(roots: seq<Root>) {
    && (forall i | 0 <= i < |roots| :: IsPlain(roots[i].token) && |roots[i].dir| > 1 && roots[i].dir[0] == '/')
    && (forall i, j | 0 <= i < j < |roots| :: roots[i].token != roots[j].token)
  }

  /** The text neither holds "${" nor ends in '$', so it opens no placeholder, whatever follows it. */
  predicate OpensNone(s: string) { forall i | 0 <= i < |s| && s[i] == '$' :: i + 1 < |s| && s[i + 1] != '{' }

  predicate AreClosed(roots: seq<Root>) { forall i | 0 <= i < |roots| :: OpensNone(roots[i].dir) }

  predicate Opens(q: string) { |q| >= 2 && q[0] == '$' && q[1] == '{' }

  /** No placeholder of a root occurs in the value. */
  predicate IsExpanded(roots: seq<Root>, value: string) {
    forall i | 0 <= i < |roots| :: !Occurs(value, Placeholder(roots[i].token))
  }

  lemma PlaceholderShape(token: string)
    requires IsPlain(token)
    ensures var p := Placeholder(token);
            Opens(p) && Without('/', p) && Without('$', p[1..])
  {
  }

  /** A prefix without '/' of a replaced text was copied, char by char. */
  lemma {:induction false} CopiedPrefix(value: string, part: string, sub: string, q: string)
    requires part != "" && sub != "" && sub[0] == '/' && Without('/', q)
    requires q <= ReplaceAll(value, part, sub)
    ensures q <= value && (q != "" ==> !(part <= value))
    decreases |q|
  {
    if q != "" {
      var out := ReplaceAll(value, part, sub);
      assert q[0] == out[0];
      CopiedPrefix(value[1..], part, sub, q[1..]);
    }
  }

  lemma ClosedTail(s: string)
    requires OpensNone(s) && s != ""
    ensures OpensNone(s[1..])
  {
    forall i | 0 <= i < |s| - 1 && s[1..][i] == '$' ensures i + 1 < |s| - 1 && s[1..][i + 1] != '{' {
      assert s[i + 1] == '$';
    }
  }

  lemma {:induction false} NotInside(dir: string, rest: string, q: string)
    requires OpensNone(dir) && Opens(q) && Occurs(dir + rest, q)
    ensures Occurs(rest, q)
    decreases |dir|
  {
    if dir == "" {
      assert dir + rest == rest;
    } else {
      assert (dir + rest)[1..] == dir[1..] + rest;
      assert (dir + rest)[0] == dir[0] && (|dir| > 1 ==> (dir + rest)[1] == dir[1]);
      assert OpensNone(dir[1..]) by { ClosedTail(dir); }
      NotInside(dir[1..], rest, q);
    }
  }

  lemma {:induction false} OccursInSuffix(value: string, n: nat, q: string)
    requires n <= |value| && Occurs(value[n..], q)
    ensures Occurs(value, q)
    decreases n
  {
    if n == 0 {
      assert value[0..] == value;
    } else {
      assert value[1..][n - 1..] == value[n..];
      OccursInSuffix(value[1..], n - 1, q);
    }
  }

  /** Replacing creates no new placeholder and leaves none of its own. */
  lemma {:induction false} ReplacingOnlyRemoves(value: string, part: string, sub: string, q: string)
    requires part != "" && sub != "" && sub[0] == '/' && OpensNone(sub)
    requires Opens(q) && Without('/', q)
    requires Occurs(ReplaceAll(value, part, sub), q)
    ensures Occurs(value, q) && q != part
    decreases |value|
  {
    if part <= value {
      NotInside(sub, ReplaceAll(value[|part|..], part, sub), q);
      ReplacingOnlyRemoves(value[|part|..], part, sub, q);
      OccursInSuffix(value, |part|, q);
    } else {
      var out := ReplaceAll(value, part, sub);
      assert out[1..] == ReplaceAll(value[1..], part, sub);
      if q <= out {
        CopiedPrefix(value, part, sub, q);
      } else {
        ReplacingOnlyRemoves(value[1..], part, sub, q);
      }
    }
  }

  lemma {:induction false} NothingToReplace(value: string, part: string, sub: string)
    requires part != "" && !Occurs(value, part)
    ensures ReplaceAll(value, part, sub) == value
    decreases |value|
  {
    if value != "" { NothingToReplace(value[1..], part, sub); }
  }

  /** Expanding leaves no placeholder of the first n roots. */
  lemma {:induction false} ExpandExpands(roots: seq<Root>, value: string, n: nat)
    requires ArePortable(roots) && AreClosed(roots) && n <= |roots|
    ensures IsExpanded(roots[..n], Expand(roots, value, n))
  {
    hide ReplaceAll, Occurs;
    if n > 0 {
      ExpandExpands(roots, value, n - 1);
      var before, last := Expand(roots, value, n - 1), roots[n - 1];
      forall i | 0 <= i < n
        ensures !Occurs(Expand(roots, value, n), Placeholder(roots[i].token))
      {
        var q := Placeholder(roots[i].token);
        PlaceholderShape(roots[i].token);
        if i < n - 1 { assert roots[..n - 1][i] == roots[i]; }
        if Occurs(Expand(roots, value, n), q) {
          ReplacingOnlyRemoves(before, Placeholder(last.token), last.dir, q);
          assert false;
        }
      }
    }
  }

  lemma {:induction false} NoDollarNoPlaceholder(value: string, q: string)
    requires "${" <= q && !Occurs(value, "${")
    ensures !Occurs(value, q)
    decreases |value|
  {
    if value != "" { NoDollarNoPlaceholder(value[1..], q); }
  }

  lemma FromPortableExpands(roots: seq<Root>, value: string)
    requires ArePortable(roots) && AreClosed(roots)
    ensures IsExpanded(roots, FromPortable(roots, value))
  {
    hide Occurs, Expand;
    if !Occurs(value, "${") {
      forall i | 0 <= i < |roots| ensures !Occurs(value, Placeholder(roots[i].token)) {
        NoDollarNoPlaceholder(value, Placeholder(roots[i].token));
      }
    } else {
      ExpandExpands(roots, value, |roots|);
      assert roots[..|roots|] == roots;
    }
  }

  // Printing and expanding back.

  lemma {:induction false} TokensApart(a: string, b: string, rest: string)
    requires IsPlain(a) && IsPlain(b) && a + "}" <= b + "}" + rest
    ensures a == b
    decreases |a|
  {
    var whole := b + "}" + rest;
    assert (a + "}")[0] == whole[0];
    if a != "" && b != "" {
      assert (a + "}")[1..] == a[1..] + "}" && whole[1..] == b[1..] + "}" + rest;
      TokensApart(a[1..], b[1..], rest);
      assert a == [a[0]] + a[1..] && b == [b[0]] + b[1..];
    }
  }

  lemma PlaceholdersApart(a: string, b: string, rest: string)
    requires IsPlain(a) && IsPlain(b) && Placeholder(a) <= Placeholder(b) + rest
    ensures a == b
  {
    var whole := Placeholder(b) + rest;
    assert Placeholder(a)[2..] == a + "}" && whole[2..] == b + "}" + rest;
    TokensApart(a, b, rest);
  }

  /** Behind its own leading placeholder, a text holds another's only where the rest does. */
  lemma OccursBehind(a: string, b: string, rest: string)
    requires IsPlain(a) && IsPlain(b) && a != b && Occurs(Placeholder(b) + rest, Placeholder(a))
    ensures Occurs(rest, Placeholder(a))
  {
    PlaceholderShape(a);
    PlaceholderShape(b);
    var whole := Placeholder(b) + rest;
    if Placeholder(a) <= whole { PlaceholdersApart(a, b, rest); }
    assert whole[1..] == Placeholder(b)[1..] + rest;
    NotInside(Placeholder(b)[1..], rest, Placeholder(a));
  }

  lemma {:induction false} ExpandLeading(roots: seq<Root>, k: nat, rest: string, n: nat)
    requires ArePortable(roots) && k < |roots| && n <= |roots|
    requires IsExpanded(roots, rest) && IsExpanded(roots, roots[k].dir + rest)
    ensures Expand(roots, Placeholder(roots[k].token) + rest, n)
            == if n <= k then Placeholder(roots[k].token) + rest else roots[k].dir + rest
  {
    hide Occurs;
    if n > 0 {
      ExpandLeading(roots, k, rest, n - 1);
      var root, p := roots[n - 1], Placeholder(roots[k].token);
      if n - 1 < k {
        if Occurs(p + rest, Placeholder(root.token)) { OccursBehind(root.token, roots[k].token, rest); }
        NothingToReplace(p + rest, Placeholder(root.token), root.dir);
      } else if n - 1 == k {
        assert p <= p + rest && (p + rest)[|p|..] == rest;
        NothingToReplace(rest, p, root.dir);
      } else {
        NothingToReplace(roots[k].dir + rest, Placeholder(root.token), root.dir);
      }
    }
  }

  lemma IncludesOpening(token: string, rest: string)
    ensures Occurs(Placeholder(token) + rest, "${")
  {
    assert (Placeholder(token) + rest)[..2] == "${";
  }

  lemma {:induction false} SuffixIsExpanded(roots: seq<Root>, value: string, n: nat)
    requires IsExpanded(roots, value) && n <= |value|
    ensures IsExpanded(roots, value[n..])
  {
    forall i | 0 <= i < |roots| ensures !Occurs(value[n..], Placeholder(roots[i].token)) {
      if Occurs(value[n..], Placeholder(roots[i].token)) { OccursInSuffix(value, n, Placeholder(roots[i].token)); }
    }
  }

  /** Expanding undoes printing, for every text that holds no known placeholder. */
  lemma RoundTrip(roots: seq<Root>, value: string)
    requires ArePortable(roots) && IsExpanded(roots, value)
    ensures FromPortable(roots, ToPortable(roots, value)) == value
  {
    hide Occurs, Expand, Encloses;
    RootIsLongest(roots, value, |roots|);
    assert roots[..|roots|] == roots;
    var root := RootOf(roots, value);
    if IsAbsolute(value) && root.Some? {
      var k :| 0 <= k < |roots| && roots[k] == root.value;
      var rest := value[|root.value.dir|..];
      assert value == root.value.dir + rest;
      SuffixIsExpanded(roots, value, |root.value.dir|);
      ExpandLeading(roots, k, rest, |roots|);
      IncludesOpening(root.value.token, rest);
    } else {
      ExpandedStays(roots, value, |roots|);
    }
  }

  lemma {:induction false} ExpandedStays(roots: seq<Root>, value: string, n: nat)
    requires IsExpanded(roots, value) && n <= |roots|
    ensures Expand(roots, value, n) == value
  {
    hide Occurs;
    if n > 0 {
      ExpandedStays(roots, value, n - 1);
      NothingToReplace(value, Placeholder(roots[n - 1].token), roots[n - 1].dir);
    }
  }

  /**
   What has been expanded once stays as it is when printed and expanded again, if no directory opens
   a placeholder.
   */
  lemma ExpandingSettles(roots: seq<Root>, value: string)
    requires ArePortable(roots) && AreClosed(roots)
    ensures var e := FromPortable(roots, value); FromPortable(roots, ToPortable(roots, e)) == e
  {
    hide FromPortable, ToPortable, IsExpanded;
    FromPortableExpands(roots, value);
    RoundTrip(roots, FromPortable(roots, value));
  }

  // The configured roots are portable.

  lemma TokensArePlain()
    ensures forall i | 0 <= i < |TOKENS| :: IsPlain(TOKENS[i])
    ensures forall i, j | 0 <= i < j < |TOKENS| :: TOKENS[i] != TOKENS[j]
  {
  }

  lemma {:induction false} ConfiguredRootsArePortable(dirs: seq<string>, n: nat)
    requires n <= |dirs| == |TOKENS|
    ensures ArePortable(PortableRoots(dirs, n))
    ensures forall root <- PortableRoots(dirs, n) :: exists i | 0 <= i < n :: root == Root(TOKENS[i], dirs[i])
  {
    TokensArePlain();
    if n > 0 {
      ConfiguredRootsArePortable(dirs, n - 1);
      var earlier := PortableRoots(dirs, n - 1);
      forall k | 0 <= k < |earlier| ensures earlier[k].token != TOKENS[n - 1] {
        assert earlier[k] in earlier;
      }
    }
  }
}
