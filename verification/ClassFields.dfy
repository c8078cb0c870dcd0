/**
 Fields of a config class and of its bases, found by depth-first search over a class
 graph read from source files, where bases may be missing and may form cycles.
 */
module ClassFields {
  import opened Options

  datatype Entry = Entry(path: string, bases: seq<string>, fields: seq<string>, docs: map<string, string>)

  type Graph = map<string, Entry>

  datatype Field = Field(className: string, path: string, doc: Option<string>)

  // Reachability through bases.

  predicate IsPath(classes: Graph, path: seq<string>) {
    |path| > 0 && forall i | 0 <= i < |path| - 1 :: path[i] in classes && path[i + 1] in classes[path[i]].bases
  }

  ghost predicate Reaches(classes: Graph, from: string, to: string) {
    exists path :: IsPath(classes, path) && path[0] == from && path[|path| - 1] == to
  }

  predicate DeclaresHere(classes: Graph, name: string, field: string) {
    name in classes && field in classes[name].fields
  }

  /** Some class reachable through bases declares the field. */
  ghost predicate Declares(classes: Graph, from: string, field: string) {
    exists name :: Reaches(classes, from, name) && DeclaresHere(classes, name, field)
  }

  lemma ReachesItself(classes: Graph, name: string)
    ensures Reaches(classes, name, name)
  {
    assert IsPath(classes, [name]);
  }

  lemma ReachesThroughBase(classes: Graph, name: string, base: string, to: string)
    requires name in classes && base in classes[name].bases && Reaches(classes, base, to)
    ensures Reaches(classes, name, to)
  {
    var path :| IsPath(classes, path) && path[0] == base && path[|path| - 1] == to;
    var longer := [name] + path;
    assert IsPath(classes, longer) by {
      forall i | 0 <= i < |longer| - 1 ensures longer[i] in classes && longer[i + 1] in classes[longer[i]].bases {
        if i > 0 { assert longer[i] == path[i - 1] && longer[i + 1] == path[i]; }
      }
    }
    assert longer[0] == name && longer[|longer| - 1] == to;
  }

  // What a search leaves behind in the set of seen names.

  /** Every base of every class in `names` is in `all`. */
  predicate BasesWithin(classes: Graph, names: set<string>, all: set<string>) {
    forall name <- names :: name in classes ==> forall base <- classes[name].bases :: base in all
  }

  predicate NoneDeclares(classes: Graph, names: set<string>, field: string) {
    forall name <- names :: !DeclaresHere(classes, name, field)
  }

  lemma {:induction false} ClosedHoldsPath(classes: Graph, names: set<string>, path: seq<string>, n: nat)
    requires BasesWithin(classes, names, names) && IsPath(classes, path) && path[0] in names && n < |path|
    ensures path[n] in names
  {
    if n > 0 {
      ClosedHoldsPath(classes, names, path, n - 1);
      assert path[n - 1] in classes && path[n - 1 + 1] in classes[path[n - 1]].bases;
    }
  }

  /** A set closed under bases holds everything its members reach. */
  lemma ClosedHoldsReached(classes: Graph, names: set<string>, from: string, to: string)
    requires BasesWithin(classes, names, names) && from in names && Reaches(classes, from, to)
    ensures to in names
  {
    var path :| IsPath(classes, path) && path[0] == from && path[|path| - 1] == to;
    ClosedHoldsPath(classes, names, path, |path| - 1);
  }

  // Which declaration wins: the first in depth-first order, by an explicit worklist.

  function FirstIn(classes: Graph, pending: seq<string>, seen: set<string>, field: string): Option<string>
    decreases classes.Keys - seen, |pending|
  {
    if pending == [] then None
    else
      var name, rest := pending[0], pending[1..];
      if name in seen then FirstIn(classes, rest, seen, field)
      else if name !in classes then FirstIn(classes, rest, seen + {name}, field)
      else if field in classes[name].fields then Some(name)
      else FirstIn(classes, classes[name].bases + rest, seen + {name}, field)
  }

  /** Searching `names` before whatever is pending ends in `found`, or goes on with what is pending. */
  ghost predicate Searches(classes: Graph, names: seq<string>, field: string, before: set<string>,
      found: Option<Field>, after: set<string>)
  {
    forall rest: seq<string> ::
      FirstIn(classes, names + rest, before, field)
      == if found.Some? then Some(found.value.className) else FirstIn(classes, rest, after, field)
  }

  function FieldOf(classes: Graph, className: string, field: string): Field
    requires className in classes
  {
    var entry := classes[className];
    Field(className, entry.path, if field in entry.docs then Some(entry.docs[field]) else None)
  }

  /**
   What searching `names` in turn leaves behind: a declaration by a class that one of
   them reaches, or a set of seen names that is explored and declares no such field.
   */
  ghost predicate Resolved(classes: Graph, names: seq<string>, field: string, before: set<string>,
      found: Option<Field>, after: set<string>)
  {
    && before <= after
    && Searches(classes, names, field, before, found, after)
    && match found
       case None =>
         && (forall name <- names :: name in after)
         && BasesWithin(classes, after - before, after)
         && NoneDeclares(classes, after - before, field)
       case Some(f) =>
         && DeclaresHere(classes, f.className, field)
         && f == FieldOf(classes, f.className, field)
         && exists name <- names :: Reaches(classes, name, f.className)
  }

  lemma ResolvedNothing(classes: Graph, field: string, seen: set<string>)
    ensures Resolved(classes, [], field, seen, None, seen)
  {
    assert forall rest: seq<string> :: [] + rest == rest;
  }

  lemma ResolvedNext(classes: Graph, names: seq<string>, name: string, field: string, start: set<string>,
      before: set<string>, found: Option<Field>, after: set<string>)
    requires Resolved(classes, names, field, start, None, before)
    requires Resolved(classes, [name], field, before, found, after)
    ensures Resolved(classes, names + [name], field, start, found, after)
  {
    hide DeclaresHere, Reaches, FieldOf;
    assert Searches(classes, names + [name], field, start, found, after) by {
      SearchesNext(classes, names, name, field, start, before, found, after);
    }
    hide Searches;
    assert after - start == (before - start) + (after - before);
    if found.Some? {
      assert name in names + [name];
    }
  }

  lemma SearchesNext(classes: Graph, names: seq<string>, name: string, field: string, start: set<string>,
      before: set<string>, found: Option<Field>, after: set<string>)
    requires Searches(classes, names, field, start, None, before)
    requires Searches(classes, [name], field, before, found, after)
    ensures Searches(classes, names + [name], field, start, found, after)
  {
    forall rest: seq<string>
      ensures FirstIn(classes, names + [name] + rest, start, field)
              == if found.Some? then Some(found.value.className) else FirstIn(classes, rest, after, field)
    {
      assert names + [name] + rest == names + ([name] + rest);
    }
  }

  /** A search that has found something does not go on. */
  lemma ResolvedNoFurther(classes: Graph, names: seq<string>, more: seq<string>, field: string, before: set<string>,
      found: Option<Field>, after: set<string>)
    requires Resolved(classes, names, field, before, found, after) && found.Some?
    ensures Resolved(classes, names + more, field, before, found, after)
  {
    hide DeclaresHere, Reaches, FieldOf;
    forall rest: seq<string>
      ensures FirstIn(classes, names + more + rest, before, field) == Some(found.value.className)
    {
      assert names + more + rest == names + (more + rest);
    }
    var name :| name in names && Reaches(classes, name, found.value.className);
    assert name in names + more;
  }

  // One class: seen or missing, declaring the field itself, or searched through its bases.

  lemma ResolvedClass(classes: Graph, name: string, field: string, before: set<string>, found: Option<Field>,
      after: set<string>)
    requires name !in before && name in classes && field !in classes[name].fields
    requires Resolved(classes, classes[name].bases, field, before + {name}, found, after)
    ensures Resolved(classes, [name], field, before, found, after)
  {
    hide Reaches, FieldOf;
    assert Searches(classes, [name], field, before, found, after) by {
      SearchesClass(classes, name, field, before, found, after);
    }
    hide Searches;
    match found {
      case None =>
        assert after - before == (after - (before + {name})) + {name};
      case Some(f) =>
        var base :| base in classes[name].bases && Reaches(classes, base, f.className);
        ReachesThroughBase(classes, name, base, f.className);
        assert name in [name];
    }
  }

  lemma SearchesClass(classes: Graph, name: string, field: string, before: set<string>, found: Option<Field>,
      after: set<string>)
    requires name !in before && name in classes && field !in classes[name].fields
    requires Searches(classes, classes[name].bases, field, before + {name}, found, after)
    ensures Searches(classes, [name], field, before, found, after)
  {
    forall rest: seq<string>
      ensures FirstIn(classes, [name] + rest, before, field)
              == if found.Some? then Some(found.value.className) else FirstIn(classes, rest, after, field)
    {
      assert ([name] + rest)[1..] == rest;
    }
  }

  lemma ResolvedOne(classes: Graph, name: string, field: string, before: set<string>)
    ensures name in before ==> Resolved(classes, [name], field, before, None, before)
    ensures name !in before && name !in classes ==> Resolved(classes, [name], field, before, None, before + {name})
    ensures name !in before && name in classes && field in classes[name].fields ==>
              Resolved(classes, [name], field, before, Some(FieldOf(classes, name, field)), before + {name})
  {
    hide Reaches;
    ReachesItself(classes, name);
    assert name in [name];
    assert forall rest: seq<string> :: ([name] + rest)[1..] == rest;
  }

  // The set shared by the recursive calls.
  class Seen {
    var names: set<string>

    constructor ()
      ensures names == {}
    {
      names := {};
    }
  }

  /** `resolve_field` with its shared set. */
  method ResolveSeen(classes: Graph, className: string, field: string, seen: Seen) returns (found: Option<Field>)
    modifies seen
    ensures Resolved(classes, [className], field, old(seen.names), found, seen.names)
    decreases classes.Keys - seen.names
  {
    hide Resolved;
    ResolvedOne(classes, className, field, seen.names);
    if className in seen.names {
      return None;
    }
    ghost var start := seen.names;
    seen.names := seen.names + {className};
    if className !in classes {
      return None;
    }
    var entry := classes[className];
    if field in entry.fields {
      return Some(Field(className, entry.path, if field in entry.docs then Some(entry.docs[field]) else None));
    }
    ResolvedNothing(classes, field, seen.names);
    assert entry.bases[..0] == [];
    for i := 0 to |entry.bases|
      invariant start + {className} <= seen.names
      invariant Resolved(classes, entry.bases[..i], field, start + {className}, None, seen.names)
    {
      ghost var before := seen.names;
      found := ResolveSeen(classes, entry.bases[i], field, seen);
      SeenGrows(classes, [entry.bases[i]], field, before, found, seen.names);
      ResolvedNext(classes, entry.bases[..i], entry.bases[i], field, start + {className}, before, found, seen.names);
      assert entry.bases[..i] + [entry.bases[i]] == entry.bases[..i + 1];
      if found.Some? {
        ResolvedNoFurther(classes, entry.bases[..i + 1], entry.bases[i + 1..], field, start + {className}, found,
                          seen.names);
        assert entry.bases[..i + 1] + entry.bases[i + 1..] == entry.bases;
        ResolvedClass(classes, className, field, start, found, seen.names);
        return;
      }
    }
    found := None;
    assert entry.bases[..|entry.bases|] == entry.bases;
    ResolvedClass(classes, className, field, start, found, seen.names);
  }

  lemma SeenGrows(classes: Graph, names: seq<string>, field: string, before: set<string>, found: Option<Field>,
      after: set<string>)
    requires Resolved(classes, names, field, before, found, after)
    ensures before <= after
  {
  }

  /**
   `resolve_field` as its callers use it: it finds a field exactly when a reachable
   class declares it, and then in the first such class in depth-first order.
   */
  method ResolveField(classes: Graph, className: string, field: string) returns (found: Option<Field>)
    ensures found.Some? <==> Declares(classes, className, field)
    ensures FirstIn(classes, [className], {}, field) == if found.Some? then Some(found.value.className) else None
    ensures found.Some? ==> Reaches(classes, className, found.value.className)
                            && DeclaresHere(classes, found.value.className, field)
                            && found.value == FieldOf(classes, found.value.className, field)
  {
    var seen := new Seen();
    found := ResolveSeen(classes, className, field, seen);
    assert [className] + [] == [className] && FirstIn(classes, [], seen.names, field) == None;
    assert className in [className];
    if found.None? && Declares(classes, className, field) {
      var name :| Reaches(classes, className, name) && DeclaresHere(classes, name, field);
      assert seen.names - {} == seen.names;
      ClosedHoldsReached(classes, seen.names, className, name);
      assert false;
    }
  }

  // The fields listed: those of the bases first, each where it first occurs.

  datatype Visit = Enter(name: string) | Emit(fields: seq<string>)

  /** The fields of the classes visited, bases before the class itself, by an explicit worklist. */
  function ListingOf(classes: Graph, pending: seq<Visit>, seen: set<string>): seq<string>
    decreases classes.Keys - seen, |pending|
  {
    if pending == [] then []
    else
      var rest := pending[1..];
      match pending[0]
      case Emit(fields) => fields + ListingOf(classes, rest, seen)
      case Enter(name) =>
        if name in seen then ListingOf(classes, rest, seen)
        else if name !in classes then ListingOf(classes, rest, seen + {name})
        else ListingOf(classes, EnterAll(classes[name].bases) + [Emit(classes[name].fields)] + rest, seen + {name})
  }

  function EnterAll(names: seq<string>): seq<Visit> { seq(|names|, i requires 0 <= i < |names| => Enter(names[i])) }

  /** Visiting `visits` lists `flat` and goes on with what is pending. */
  ghost predicate Lists(classes: Graph, visits: seq<Visit>, before: set<string>, flat: seq<string>,
      after: set<string>) {
    forall rest: seq<Visit> :: ListingOf(classes, visits + rest, before) == flat + ListingOf(classes, rest, after)
  }

  lemma ListsNothing(classes: Graph, seen: set<string>)
    ensures Lists(classes, [], seen, [], seen)
  {
    assert forall rest: seq<Visit> :: [] + rest == rest;
    assert forall rest: seq<Visit> :: [] + ListingOf(classes, rest, seen) == ListingOf(classes, rest, seen);
  }

  lemma ListsNext(classes: Graph, visits: seq<Visit>, visit: Visit, start: set<string>, a: seq<string>,
      before: set<string>, b: seq<string>, after: set<string>)
    requires Lists(classes, visits, start, a, before) && Lists(classes, [visit], before, b, after)
    ensures Lists(classes, visits + [visit], start, a + b, after)
  {
    forall rest: seq<Visit>
      ensures ListingOf(classes, visits + [visit] + rest, start) == a + b + ListingOf(classes, rest, after)
    {
      assert visits + [visit] + rest == visits + ([visit] + rest);
      assert a + (b + ListingOf(classes, rest, after)) == a + b + ListingOf(classes, rest, after);
    }
  }

  lemma ListsEmit(classes: Graph, fields: seq<string>, seen: set<string>)
    ensures Lists(classes, [Emit(fields)], seen, fields, seen)
  {
    assert forall rest: seq<Visit> :: ([Emit(fields)] + rest)[1..] == rest;
  }

  lemma ListsClass(classes: Graph, name: string, before: set<string>, flat: seq<string>, after: set<string>)
    requires name !in before && name in classes
    requires Lists(classes, EnterAll(classes[name].bases), before + {name}, flat, after)
    ensures Lists(classes, [Enter(name)], before, flat + classes[name].fields, after)
  {
    var entry := classes[name];
    ListsEmit(classes, entry.fields, after);
    ListsNext(classes, EnterAll(entry.bases), Emit(entry.fields), before + {name}, flat, after, entry.fields, after);
    forall rest: seq<Visit>
      ensures ListingOf(classes, [Enter(name)] + rest, before) == flat + entry.fields + ListingOf(classes, rest, after)
    {
      assert ([Enter(name)] + rest)[1..] == rest;
    }
  }

  lemma ListsOne(classes: Graph, name: string, before: set<string>)
    ensures name in before ==> Lists(classes, [Enter(name)], before, [], before)
    ensures name !in before && name !in classes ==> Lists(classes, [Enter(name)], before, [], before + {name})
  {
    assert forall rest: seq<Visit> :: ([Enter(name)] + rest)[1..] == rest;
    assert forall s: seq<string> :: [] + s == s;
  }

  // First occurrences.

  predicate NoRepeats(names: seq<string>) { forall i, j | 0 <= i < j < |names| :: names[i] != names[j] }

  function Unique(names: seq<string>): seq<string> {
    if names == [] then []
    else
      var earlier, last := Unique(names[..|names| - 1]), names[|names| - 1];
      if last in earlier then earlier else earlier + [last]
  }

  function Without(names: seq<string>, others: seq<string>): seq<string> {
    if names == [] then []
    else Without(names[..|names| - 1], others) + (if names[|names| - 1] in others then [] else [names[|names| - 1]])
  }

  lemma {:induction false} UniqueHas(names: seq<string>)
    ensures NoRepeats(Unique(names)) && forall x :: x in Unique(names) <==> x in names
    decreases |names|
  {
    if names != [] {
      UniqueHas(names[..|names| - 1]);
      assert names == names[..|names| - 1] + [names[|names| - 1]];
    }
  }

  lemma UniqueOneMore(names: seq<string>, x: string)
    ensures Unique(names + [x]) == if x in Unique(names) then Unique(names) else Unique(names) + [x]
  {
    assert (names + [x])[..|names|] == names;
  }

  lemma WithoutOneMore(names: seq<string>, x: string, others: seq<string>)
    ensures Without(names + [x], others) == Without(names, others) + (if x in others then [] else [x])
  {
    assert (names + [x])[..|names|] == names;
  }

  lemma {:induction false} UniqueConcat(a: seq<string>, b: seq<string>)
    ensures Unique(a + b) == Unique(a) + Without(Unique(b), a)
    decreases |b|
  {
    hide Unique, Without;
    if b == [] {
      assert a + b == a && Unique(b) == [] && Without([], a) == [] by { NothingUnique(a); }
    } else {
      var init, x := b[..|b| - 1], b[|b| - 1];
      assert b == init + [x] && a + b == (a + init) + [x];
      UniqueConcat(a, init);
      UniqueOneMore(a + init, x);
      UniqueOneMore(init, x);
      WithoutOneMore(Unique(init), x, a);
      UniqueHas(a + init);
      UniqueHas(init);
    }
  }

  lemma NothingUnique(a: seq<string>)
    ensures Unique([]) == [] && Without([], a) == []
  {
  }

  lemma {:induction false} UniqueStays(names: seq<string>)
    requires NoRepeats(names)
    ensures Unique(names) == names
    decreases |names|
  {
    if names != [] {
      UniqueStays(names[..|names| - 1]);
      assert names == names[..|names| - 1] + [names[|names| - 1]];
    }
  }

  lemma {:induction false} WithoutSame(names: seq<string>, a: seq<string>, b: seq<string>)
    requires forall x :: x in a <==> x in b
    ensures Without(names, a) == Without(names, b)
    decreases |names|
  {
    if names != [] { WithoutSame(names[..|names| - 1], a, b); }
  }

  /** Repeats may be dropped early. */
  lemma UniqueEarly(names: seq<string>, flats: seq<string>, flat: seq<string>)
    requires Unique(names) == Unique(flats)
    ensures Unique(names + Unique(flat)) == Unique(flats + flat)
    ensures Unique(names + flat) == Unique(flats + flat)
  {
    hide Unique, Without;
    UniqueConcat(names, Unique(flat));
    UniqueConcat(names, flat);
    UniqueConcat(flats, flat);
    UniqueHas(flat);
    UniqueStays(Unique(flat));
    UniqueHas(names);
    UniqueHas(flats);
    WithoutSame(Unique(flat), names, flats);
  }

  /** `list(dict.fromkeys(names))`: first occurrences, in order. */
  method Deduplicate(names: seq<string>) returns (unique: seq<string>)
    ensures unique == Unique(names)
  {
    unique := [];
    for i := 0 to |names|
      invariant unique == Unique(names[..i])
    {
      assert names[..i + 1][..i] == names[..i];
      if names[i] !in unique {
        unique := unique + [names[i]];
      }
    }
    assert names[..|names|] == names;
  }

  ghost predicate ListsFieldsOf(classes: Graph, listed: seq<string>, names: set<string>) {
    forall field :: field in listed <==> exists name <- names :: DeclaresHere(classes, name, field)
  }

  /** What listing `names` in turn leaves behind: exactly the fields of the classes newly seen, all reachable. */
  ghost predicate Inherited(classes: Graph, from: seq<string>, before: set<string>, flat: seq<string>,
      after: set<string>) {
    && before <= after
    && (forall name <- from :: name in after)
    && BasesWithin(classes, after - before, after)
    && (forall name <- after - before :: exists first <- from :: Reaches(classes, first, name))
    && ListsFieldsOf(classes, flat, after - before)
    && Lists(classes, EnterAll(from), before, flat, after)
  }

  lemma InheritedNothing(classes: Graph, seen: set<string>)
    ensures Inherited(classes, [], seen, [], seen)
  {
    ListsNothing(classes, seen);
    assert EnterAll([]) == [];
  }

  lemma InheritedNext(classes: Graph, from: seq<string>, name: string, start: set<string>, a: seq<string>,
      before: set<string>, b: seq<string>, after: set<string>)
    requires Inherited(classes, from, start, a, before) && Inherited(classes, [name], before, b, after)
    ensures Inherited(classes, from + [name], start, a + b, after)
  {
    hide Reaches, DeclaresHere;
    assert Lists(classes, EnterAll(from + [name]), start, a + b, after) by {
      ListsNext(classes, EnterAll(from), Enter(name), start, a, before, b, after);
      assert EnterAll([name]) == [Enter(name)] && EnterAll(from + [name]) == EnterAll(from) + [Enter(name)];
    }
    hide Lists;
    assert after - start == (before - start) + (after - before);
    FieldsJoin(classes, a, before - start, b, after - before);
    forall seen | seen in after - start ensures exists first <- from + [name] :: Reaches(classes, first, seen) {
      if seen in before {
        var first :| first in from && Reaches(classes, first, seen);
        assert first in from + [name];
      } else {
        assert name in from + [name];
      }
    }
  }

  lemma FieldsJoin(classes: Graph, a: seq<string>, names: set<string>, b: seq<string>, more: set<string>)
    requires ListsFieldsOf(classes, a, names) && ListsFieldsOf(classes, b, more)
    ensures ListsFieldsOf(classes, a + b, names + more)
  {
    hide DeclaresHere;
    forall field ensures field in a + b <==> exists name <- names + more :: DeclaresHere(classes, name, field) {
      if field in a + b {
        if field in a { var name :| name in names && DeclaresHere(classes, name, field); assert name in names + more; }
        else { var name :| name in more && DeclaresHere(classes, name, field); assert name in names + more; }
      }
    }
  }

  lemma InheritedClass(classes: Graph, name: string, before: set<string>, flat: seq<string>, after: set<string>)
    requires name !in before && name in classes
    requires Inherited(classes, classes[name].bases, before + {name}, flat, after)
    ensures Inherited(classes, [name], before, flat + classes[name].fields, after)
  {
    hide Reaches;
    var entry := classes[name];
    assert Lists(classes, EnterAll([name]), before, flat + entry.fields, after) by {
      ListsClass(classes, name, before, flat, after);
      assert EnterAll([name]) == [Enter(name)];
    }
    hide Lists;
    assert after - before == (after - (before + {name})) + {name};
    FieldsJoin(classes, flat, after - (before + {name}), entry.fields, {name});
    ReachesItself(classes, name);
    forall seen | seen in after - before ensures exists first <- [name] :: Reaches(classes, first, seen) {
      assert name in [name];
      if seen != name {
        var base :| base in entry.bases && Reaches(classes, base, seen);
        ReachesThroughBase(classes, name, base, seen);
      }
    }
  }

  lemma InheritedOne(classes: Graph, name: string, before: set<string>)
    ensures name in before ==> Inherited(classes, [name], before, [], before)
    ensures name !in before && name !in classes ==> Inherited(classes, [name], before, [], before + {name})
  {
    hide Reaches, Lists;
    ListsOne(classes, name, before);
    ReachesItself(classes, name);
    assert EnterAll([name]) == [Enter(name)] && name in [name];
  }

  lemma InheritedGrows(classes: Graph, from: seq<string>, before: set<string>, flat: seq<string>, after: set<string>)
    requires Inherited(classes, from, before, flat, after)
    ensures before <= after
  {
  }

  /** `inherited_fields` with its shared set; `flat` is the list before repeats are dropped. */
  method InheritedSeen(classes: Graph, className: string, seen: Seen)
      returns (listed: seq<string>, ghost flat: seq<string>)
    modifies seen
    ensures Inherited(classes, [className], old(seen.names), flat, seen.names)
    ensures listed == Unique(flat)
    decreases classes.Keys - seen.names
  {
    hide Inherited, Unique;
    InheritedOne(classes, className, seen.names);
    NothingUnique([]);
    if className in seen.names {
      return [], [];
    }
    ghost var start := seen.names;
    seen.names := seen.names + {className};
    if className !in classes {
      return [], [];
    }
    var entry := classes[className];
    var names: seq<string> := [];
    flat := [];
    InheritedNothing(classes, seen.names);
    assert entry.bases[..0] == [];
    for i := 0 to |entry.bases|
      invariant start + {className} <= seen.names
      invariant Inherited(classes, entry.bases[..i], start + {className}, flat, seen.names)
      invariant Unique(names) == Unique(flat)
    {
      ghost var before := seen.names;
      var more; ghost var added;
      more, added := InheritedSeen(classes, entry.bases[i], seen);
      InheritedGrows(classes, [entry.bases[i]], before, added, seen.names);
      InheritedNext(classes, entry.bases[..i], entry.bases[i], start + {className}, flat, before, added, seen.names);
      assert entry.bases[..i] + [entry.bases[i]] == entry.bases[..i + 1];
      UniqueEarly(names, flat, added);
      names, flat := names + more, flat + added;
    }
    assert entry.bases[..|entry.bases|] == entry.bases;
    InheritedClass(classes, className, start, flat, seen.names);
    UniqueEarly(names, flat, entry.fields);
    names, flat := names + entry.fields, flat + entry.fields;
    listed := Deduplicate(names);
  }

  lemma InheritedAll(classes: Graph, name: string, flat: seq<string>, after: set<string>)
    requires Inherited(classes, [name], {}, flat, after)
    ensures forall field :: field in flat <==> Declares(classes, name, field)
  {
    hide Lists, Reaches, DeclaresHere;
    assert after - {} == after && name in [name];
    forall field ensures field in flat <==> Declares(classes, name, field) {
      if Declares(classes, name, field) {
        var declaring :| Reaches(classes, name, declaring) && DeclaresHere(classes, declaring, field);
        ClosedHoldsReached(classes, after, name, declaring);
        assert declaring in after;
      }
    }
  }

  lemma InheritedOrder(classes: Graph, name: string, flat: seq<string>, after: set<string>)
    requires Inherited(classes, [name], {}, flat, after)
    ensures flat == ListingOf(classes, [Enter(name)], {})
  {
    hide BasesWithin, ListsFieldsOf, Reaches;
    assert EnterAll([name]) == [Enter(name)] == [Enter(name)] + [];
    assert ListingOf(classes, [Enter(name)] + [], {}) == flat + ListingOf(classes, [], after) == flat;
  }

  /**
   `inherited_fields` as its callers use it: exactly the fields some reachable class
   declares, those of bases first and each where it first occurs.
   */
  method InheritedFields(classes: Graph, className: string) returns (listed: seq<string>)
    ensures NoRepeats(listed) && forall field :: field in listed <==> Declares(classes, className, field)
    ensures listed == Unique(ListingOf(classes, [Enter(className)], {}))
  {
    hide Inherited, Unique, ListingOf, Declares;
    var seen := new Seen();
    ghost var flat;
    listed, flat := InheritedSeen(classes, className, seen);
    UniqueHas(flat);
    InheritedAll(classes, className, flat, seen.names);
    InheritedOrder(classes, className, flat, seen.names);
  }

  /** `frontend_options`: one option for each inherited field, and none left unresolved. */
  method FrontendOptions(classes: Graph, frontend: string)
      returns (options: seq<Field>, names: seq<string>, unresolved: seq<string>)
    ensures unresolved == [] && |options| == |names|
    ensures names == Unique(ListingOf(classes, [Enter(frontend)], {}))
    ensures forall field :: field in names <==> Declares(classes, frontend, field)
    ensures forall i | 0 <= i < |names| ::
              && FirstIn(classes, [frontend], {}, names[i]) == Some(options[i].className)
              && DeclaresHere(classes, options[i].className, names[i])
              && options[i] == FieldOf(classes, options[i].className, names[i])
  {
    names := InheritedFields(classes, frontend);
    options, unresolved := [], [];
    for i := 0 to |names|
      invariant unresolved == [] && |options| == i
      invariant forall k | 0 <= k < i ::
                  && FirstIn(classes, [frontend], {}, names[k]) == Some(options[k].className)
                  && DeclaresHere(classes, options[k].className, names[k])
                  && options[k] == FieldOf(classes, options[k].className, names[k])
    {
      var name := names[i];
      assert name in names;
      var field := ResolveField(classes, frontend, name);
      if field.None? {
        unresolved := unresolved + [frontend + "." + name];
        continue;
      }
      options := options + [field.value];
    }
  }
}
