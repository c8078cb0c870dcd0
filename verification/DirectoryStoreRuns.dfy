/** The directory store over whole runs, alone on its directory and beside other writers. */
module DirectoryStoreRuns {
  import opened Options
  import opened DirectoryStore

  datatype Action =
    | AWrite(value: Value, previousKey: Option<string>, stamp: int, listing: seq<string>)
    | ARemove(name: string, listing: seq<string>)
    | AReset
    | ARead(listing: seq<string>)
    | OutsideEdit(path: string, content: Content, stamp: int)
    | OutsideDelete(path: string)

  predicate IsOutside(a: Action) { a.OutsideEdit? || a.OutsideDelete? }

  // Listings are of the directory as it is; an outside edit gives the file a time it has not had.
  predicate CanAct(s: State, a: Action) {
    match a
    case AWrite(_, _, _, listing) => IsListing(s.files, listing)
    case ARemove(_, listing) => IsListing(s.files, listing)
    case AReset => true
    case ARead(listing) => IsListing(s.files, listing)
    case OutsideEdit(path, _, stamp) => (path, stamp) !in s.used
    case OutsideDelete(_) => true
  }

  function Act(s: State, a: Action): State {
    match a
    case AWrite(value, previousKey, stamp, listing) => Write(s, value, previousKey, stamp, listing).0
    case ARemove(name, listing) => Remove(s, name, listing).0
    case AReset => Reset(s)
    case ARead(listing) => Load(s, listing)
    case OutsideEdit(path, content, stamp) =>
      s.(files := s.files[path := File(content, stamp)],
         foreign := s.foreign + {path},
         used := s.used + {(path, stamp)})
    case OutsideDelete(path) => s.(files := s.files - {path}, foreign := s.foreign - {path})
  }

  predicate Runs(s: State, actions: seq<Action>)
    decreases |actions|
  {
    actions == [] || (CanAct(s, actions[0]) && Runs(Act(s, actions[0]), actions[1..]))
  }

  function RunTo(s: State, actions: seq<Action>): State
    decreases |actions|
  {
    if actions == [] then s else RunTo(Act(s, actions[0]), actions[1..])
  }

  // Alone on the directory.

  /** Every record lies in the file named by its key. */
  predicate NamedByKey(files: Files) {
    forall path <- files :: IsJson(path) && files[path].content.Record?
        ==> path == FilePath(files[path].content.value.key)
  }

  function RecordAt(files: Files, path: string): Option<Value> {
    if path in files && files[path].content.Record? then Some(files[path].content.value) else None
  }

  function RecordTime(files: Files, path: string): Option<int> {
    if path in files && IsJson(path) && files[path].content.Record? then Some(files[path].mtime) else None
  }

  /** The cache is what the directory says: one value per record file, with its time. */
  ghost predicate IsFresh(files: Files, l: Loaded) {
    && (forall name :: Lookup(l.values, name) == RecordAt(files, FilePath(name)))
    && (forall path :: Lookup(l.mtimes, path) == RecordTime(files, path))
  }

  lemma {:induction false} LoadLooksUp(files: Files, listing: seq<string>, name: string, path: string)
    requires NamedByKey(files) && forall p <- listing :: p in files && IsJson(p)
    ensures Lookup(LoadFrom(files, listing).values, name)
            == if FilePath(name) in listing then RecordAt(files, FilePath(name)) else None
    ensures Lookup(LoadFrom(files, listing).mtimes, path) == if path in listing then RecordTime(files, path) else None
    decreases |listing|
  {
    if listing != [] {
      var init, last := listing[..|listing| - 1], listing[|listing| - 1];
      assert listing == init + [last];
      assert last in listing && forall p :: p in init ==> p in listing;
      LoadLooksUp(files, init, name, path);
      if files[last].content.Record? {
        FilePathInjective(name, files[last].content.value.key);
      }
    }
  }

  lemma LoadIsFresh(files: Files, listing: seq<string>)
    requires NamedByKey(files) && IsListing(files, listing)
    ensures IsFresh(files, LoadFrom(files, listing))
  {
    var l := LoadFrom(files, listing);
    forall name ensures Lookup(l.values, name) == RecordAt(files, FilePath(name)) {
      LoadLooksUp(files, listing, name, "");
      FilePathInjective(name, name);
    }
    forall path ensures Lookup(l.mtimes, path) == RecordTime(files, path) {
      LoadLooksUp(files, listing, "", path);
    }
  }

  lemma FreshUnique(files: Files, a: Loaded, b: Loaded)
    requires IsFresh(files, a) && IsFresh(files, b)
    ensures a.values == b.values && a.mtimes == b.mtimes
  {
    forall name ensures (name in a.values <==> name in b.values)
                        && (name in a.values && name in b.values ==> a.values[name] == b.values[name]) {
      assert Lookup(a.values, name) == Lookup(b.values, name);
    }
    forall path ensures (path in a.mtimes <==> path in b.mtimes)
                        && (path in a.mtimes && path in b.mtimes ==> a.mtimes[path] == b.mtimes[path]) {
      assert Lookup(a.mtimes, path) == Lookup(b.mtimes, path);
    }
  }

  ghost predicate Current(s: State) {
    NamedByKey(s.files) && (s.loaded.Some? ==> IsFresh(s.files, s.loaded.value))
  }

  lemma LoadCurrent(s: State, listing: seq<string>)
    requires Current(s) && IsListing(s.files, listing)
    ensures Current(Load(s, listing))
  {
    hide IsFresh;
    if s.loaded.None? { LoadIsFresh(s.files, listing); }
  }

  lemma StoredCurrent(s: State, value: Value, stamp: int)
    requires Current(s) && s.loaded.Some?
    ensures Current(Stored(s, value, stamp))
  {
    var t := Stored(s, value, stamp);
    var l, m := s.loaded.value, t.loaded.value;
    forall name ensures Lookup(m.values, name) == RecordAt(t.files, FilePath(name)) {
      FilePathInjective(name, value.key);
      assert Lookup(l.values, name) == RecordAt(s.files, FilePath(name));
    }
    forall path ensures Lookup(m.mtimes, path) == RecordTime(t.files, path) {
      FilePathInjective(value.key, value.key);
      assert Lookup(l.mtimes, path) == RecordTime(s.files, path);
    }
  }

  lemma ForgottenCurrent(s: State, key: string)
    requires Current(s) && s.loaded.Some?
    ensures Current(Forgotten(s, key))
  {
    var t := Forgotten(s, key);
    var l, m := s.loaded.value, t.loaded.value;
    forall name ensures Lookup(m.values, name) == RecordAt(t.files, FilePath(name)) {
      FilePathInjective(name, key);
      assert Lookup(l.values, name) == RecordAt(s.files, FilePath(name));
    }
    forall path ensures Lookup(m.mtimes, path) == RecordTime(t.files, path) {
      assert Lookup(l.mtimes, path) == RecordTime(s.files, path);
    }
  }

  lemma WriteCurrent(s: State, value: Value, previousKey: Option<string>, stamp: int)
    requires Current(s) && s.loaded.Some?
    ensures Current(WriteLoaded(s, value, previousKey, stamp))
  {
    hide Current, Forgotten;
    StoredCurrent(s, value, stamp);
    if Renames(value, previousKey) { ForgottenCurrent(Stored(s, value, stamp), previousKey.value); }
  }

  /** A cached value is cached under its own key. */
  lemma CachedUnderKey(s: State, name: string)
    requires Current(s) && s.loaded.Some? && name in s.loaded.value.values
    ensures s.loaded.value.values[name].key == name
  {
    assert Lookup(s.loaded.value.values, name) == RecordAt(s.files, FilePath(name));
    FilePathInjective(name, s.loaded.value.values[name].key);
    assert FilePath(name) in s.files && IsJson(FilePath(name));
  }

  lemma RemoveCurrent(s: State, name: string, listing: seq<string>)
    requires Current(s) && IsListing(s.files, listing)
    ensures Current(Remove(s, name, listing).0)
  {
    hide Load, Current;
    LoadCurrent(s, listing);
    var t := Load(s, listing);
    if name in t.loaded.value.values {
      CachedUnderKey(t, name);
      ForgottenCurrent(t, name);
    }
  }

  lemma ActCurrent(s: State, a: Action)
    requires Current(s) && CanAct(s, a) && !IsOutside(a)
    ensures Current(Act(s, a))
  {
    hide IsFresh, Load, WriteLoaded;
    match a {
      case AWrite(value, previousKey, stamp, listing) =>
        LoadCurrent(s, listing);
        if !HasConflict(Load(s, listing), value) { WriteCurrent(Load(s, listing), value, previousKey, stamp); }
      case ARemove(name, listing) => RemoveCurrent(s, name, listing);
      case AReset =>
      case ARead(listing) => LoadCurrent(s, listing);
    }
  }

  lemma {:induction false} RunCurrent(s: State, actions: seq<Action>)
    requires Current(s) && Runs(s, actions) && forall a <- actions :: !IsOutside(a)
    ensures Current(RunTo(s, actions))
    decreases |actions|
  {
    hide Current, Act;
    if actions != [] {
      assert actions[0] in actions;
      ActCurrent(s, actions[0]);
      RunCurrent(Act(s, actions[0]), actions[1..]);
    }
  }

  /** Alone on a directory of files named by key, the cache is always what a fresh load would give. */
  lemma CacheIsFresh(s: State, actions: seq<Action>, listing: seq<string>)
    requires NamedByKey(s.files) && s.loaded.None? && Runs(s, actions) && forall a <- actions :: !IsOutside(a)
    requires IsListing(RunTo(s, actions).files, listing)
    ensures var t := RunTo(s, actions);
            t.loaded.Some? ==>
              var reloaded := LoadFrom(t.files, listing);
              t.loaded.value.values == reloaded.values && t.loaded.value.mtimes == reloaded.mtimes
  {
    hide Runs, RunTo, LoadFrom, IsFresh;
    RunCurrent(s, actions);
    var t := RunTo(s, actions);
    if t.loaded.Some? {
      LoadIsFresh(t.files, listing);
      FreshUnique(t.files, t.loaded.value, LoadFrom(t.files, listing));
    }
  }

  // Beside other writers.

  /**
   The times tell what is foreign: a file's time is the cached one exactly when the
   store has loaded or written what is in the file.
   */
  predicate Guarded(s: State) {
    && Stamps(s.files) <= s.used
    && s.foreign <= s.files.Keys
    && (forall path <- s.known :: s.known[path].Record?)
    && (forall path <- s.files :: path !in s.foreign ==>
          IsJson(path) && path in s.known && s.files[path].content == s.known[path])
    && (s.loaded.Some? ==>
          && (forall path <- s.loaded.value.mtimes :: (path, s.loaded.value.mtimes[path]) in s.used)
          && (forall path <- s.files :: path !in s.foreign <==> HasCachedTime(s, path)))
  }

  predicate HasCachedTime(s: State, path: string)
    requires s.loaded.Some?
  {
    MtimeOf(s.files, path) == Lookup(s.loaded.value.mtimes, path)
  }

  lemma FreshGuarded(files: Files)
    ensures Guarded(Fresh(files))
  {
  }

  lemma {:induction false} LoadedTimes(files: Files, listing: seq<string>, path: string)
    ensures Lookup(LoadFrom(files, listing).mtimes, path)
            == if path in listing && path in files && files[path].content.Record? then Some(files[path].mtime) else None
    decreases |listing|
  {
    if listing != [] {
      assert listing == listing[..|listing| - 1] + [listing[|listing| - 1]];
      LoadedTimes(files, listing[..|listing| - 1], path);
    }
  }

  lemma LoadGuarded(s: State, listing: seq<string>)
    requires Guarded(s) && IsListing(s.files, listing)
    ensures Guarded(Load(s, listing))
  {
    hide LoadFrom, IsJson;
    if s.loaded.None? {
      var t := Load(s, listing);
      forall path | path in t.loaded.value.mtimes ensures (path, t.loaded.value.mtimes[path]) in t.used {
        LoadedTimes(s.files, listing, path);
      }
      forall path | path in t.files ensures path !in t.foreign <==> HasCachedTime(t, path) {
        LoadedTimes(s.files, listing, path);
      }
    }
  }

  lemma StoredGuarded(s: State, value: Value, stamp: int)
    requires Guarded(s) && s.loaded.Some?
    ensures Guarded(Stored(s, value, stamp))
  {
    FilePathInjective(value.key, value.key);
  }

  lemma ForgottenGuarded(s: State, key: string)
    requires Guarded(s) && s.loaded.Some?
    ensures Guarded(Forgotten(s, key))
  {
  }

  lemma WriteGuarded(s: State, value: Value, previousKey: Option<string>, stamp: int)
    requires Guarded(s) && s.loaded.Some?
    ensures Guarded(WriteLoaded(s, value, previousKey, stamp))
  {
    hide Guarded, Forgotten;
    StoredGuarded(s, value, stamp);
    if Renames(value, previousKey) { ForgottenGuarded(Stored(s, value, stamp), previousKey.value); }
  }

  lemma RemoveGuarded(s: State, name: string, listing: seq<string>)
    requires Guarded(Load(s, listing))
    ensures Guarded(Remove(s, name, listing).0)
  {
    hide Load;
  }

  lemma OutsideGuarded(s: State, a: Action)
    requires Guarded(s) && CanAct(s, a) && IsOutside(a)
    ensures Guarded(Act(s, a))
  {
  }

  lemma ActGuarded(s: State, a: Action)
    requires Guarded(s) && CanAct(s, a)
    ensures Guarded(Act(s, a))
  {
    hide Load, WriteLoaded, Remove, Guarded, IsListing;
    match a {
      case AWrite(value, previousKey, stamp, listing) =>
        LoadGuarded(s, listing);
        WriteGuarded(Load(s, listing), value, previousKey, stamp);
      case ARemove(name, listing) =>
        LoadGuarded(s, listing);
        RemoveGuarded(s, name, listing);
      case AReset => assert Guarded(Reset(s)) by { ResetGuarded(s); }
      case ARead(listing) => LoadGuarded(s, listing);
      case OutsideEdit(path, content, stamp) => OutsideGuarded(s, a);
      case OutsideDelete(path) => OutsideGuarded(s, a);
    }
  }

  lemma ResetGuarded(s: State)
    requires Guarded(s)
    ensures Guarded(Reset(s))
  {
  }

  lemma {:induction false} RunGuarded(s: State, actions: seq<Action>)
    requires Guarded(s) && Runs(s, actions)
    ensures Guarded(RunTo(s, actions))
    decreases |actions|
  {
    hide Guarded, Act, CanAct;
    if actions != [] {
      ActGuarded(s, actions[0]);
      RunGuarded(Act(s, actions[0]), actions[1..]);
    }
  }

  // Where foreign content comes from.

  predicate LeftBy(a: Action, path: string, file: File) {
    a.OutsideEdit? && a.path == path && file == File(a.content, a.stamp)
  }

  lemma ActForeign(s: State, a: Action, path: string)
    requires Guarded(s) && CanAct(s, a) && path in Act(s, a).foreign
    ensures path in Act(s, a).files
    ensures (path in s.foreign && Act(s, a).files[path] == s.files[path]) || LeftBy(a, path, Act(s, a).files[path])
  {
    hide LoadFrom, IsListing, IsJson, Stamps;
    ActGuarded(s, a);
  }

  /**
   A file is foreign only because it was so from the start and has not been touched, or
   because an outside edit of the run left it as it is.
   */
  lemma {:induction false} ForeignIsOutside(s: State, actions: seq<Action>, path: string)
    requires Guarded(s) && Runs(s, actions) && path in RunTo(s, actions).foreign
    ensures path in RunTo(s, actions).files
    ensures var file := RunTo(s, actions).files[path];
            || (path in s.foreign && path in s.files && file == s.files[path])
            || exists a <- actions :: LeftBy(a, path, file)
    decreases |actions|
  {
    hide Guarded, Act, CanAct, LeftBy;
    ForeignThere(s, path);
    if actions != [] {
      var next := Act(s, actions[0]);
      ActGuarded(s, actions[0]);
      ForeignIsOutside(next, actions[1..], path);
      ForeignThere(next, path);
      if path in next.foreign && RunTo(s, actions).files[path] == next.files[path] {
        ActForeign(s, actions[0], path);
        assert actions[0] in actions;
      }
    }
  }

  lemma ForeignThere(s: State, path: string)
    requires Guarded(s)
    ensures path in s.foreign ==> path in s.files
  {
  }

  // What the operations replace and delete.

  /** A write conflicts exactly when its file is foreign, or gone although its time is cached. */
  lemma ConflictsExactly(s: State, actions: seq<Action>, value: Value, previousKey: Option<string>, stamp: int,
      listing: seq<string>)
    requires Guarded(s) && Runs(s, actions) && IsListing(RunTo(s, actions).files, listing)
    ensures var t := Load(RunTo(s, actions), listing);
            var path := FilePath(value.key);
            Write(RunTo(s, actions), value, previousKey, stamp, listing).1.Conflict?
            <==> if path in t.files then path in t.foreign else path in t.loaded.value.mtimes
  {
    hide Runs, RunTo, Load, IsListing, IsJson;
    RunGuarded(s, actions);
    LoadGuarded(RunTo(s, actions), listing);
  }

  /**
   Whatever others did in between, as long as their edits change the modification
   time: a write that goes through either creates its file or replaces content that
   the store itself loaded or wrote, and so never a quarantined file.
   */
  lemma WriteReplacesOnlyKnown(s: State, actions: seq<Action>, value: Value, previousKey: Option<string>, stamp: int,
      listing: seq<string>)
    requires Guarded(s) && Runs(s, actions) && IsListing(RunTo(s, actions).files, listing)
    ensures var t := RunTo(s, actions);
            var path := FilePath(value.key);
            Write(t, value, previousKey, stamp, listing).1.Done? && path in t.files ==>
              var known := Load(t, listing).known;
              path in known && t.files[path].content == known[path] && known[path].Record?
  {
    hide Runs, RunTo, Load, IsListing, IsJson;
    RunGuarded(s, actions);
    LoadGuarded(RunTo(s, actions), listing);
  }

  /** Deleting `path`, with no check of its own, drops what the store knows or what is foreign; the time tells which. */
  predicate DropsByTime(t: State, path: string)
    requires t.loaded.Some? && path in t.files
  {
    && (path !in t.foreign <==> HasCachedTime(t, path))
    && (HasCachedTime(t, path) ==> path in t.known && t.files[path].content == t.known[path] && t.known[path].Record?)
  }

  lemma Drops(t: State, path: string)
    requires Guarded(t) && t.loaded.Some? && path in t.files
    ensures DropsByTime(t, path)
  {
    hide IsJson, Stamps;
  }

  /**
   A rename deletes the old file unchecked. What goes is content the store itself loaded
   or wrote if the file's time is the cached one, and foreign content if and only if it
   is not.
   */
  lemma RenameDeletes(s: State, actions: seq<Action>, value: Value, previousKey: string, stamp: int,
      listing: seq<string>)
    requires Guarded(s) && Runs(s, actions) && IsListing(RunTo(s, actions).files, listing)
    requires Renames(value, Some(previousKey)) && FilePath(previousKey) in RunTo(s, actions).files
    requires Write(RunTo(s, actions), value, Some(previousKey), stamp, listing).1.Done?
    ensures FilePath(previousKey) !in Write(RunTo(s, actions), value, Some(previousKey), stamp, listing).0.files
    ensures DropsByTime(Load(RunTo(s, actions), listing), FilePath(previousKey))
  {
    hide Runs, RunTo, Load, IsListing, DropsByTime;
    RunGuarded(s, actions);
    LoadGuarded(RunTo(s, actions), listing);
    Drops(Load(RunTo(s, actions), listing), FilePath(previousKey));
  }

  /** So does a removal, which checks nothing at all. */
  lemma RemovalDeletes(s: State, actions: seq<Action>, name: string, listing: seq<string>)
    requires Guarded(s) && Runs(s, actions) && IsListing(RunTo(s, actions).files, listing)
    requires name in Load(RunTo(s, actions), listing).loaded.value.values
    ensures var t := Load(RunTo(s, actions), listing);
            var path := FilePath(t.loaded.value.values[name].key);
            && Remove(RunTo(s, actions), name, listing).1
            && Remove(RunTo(s, actions), name, listing).0.files == t.files - {path}
            && (path in t.files ==> DropsByTime(t, path))
  {
    hide Runs, RunTo, Load, IsListing, DropsByTime;
    RunGuarded(s, actions);
    LoadGuarded(RunTo(s, actions), listing);
    var t := Load(RunTo(s, actions), listing);
    var path := FilePath(t.loaded.value.values[name].key);
    if path in t.files { Drops(t, path); }
  }

  // What the operations leave in the directory, by file names.

  /** The JSON files that hold no record. */
  function BrokenFiles(files: Files): set<string> {
    set path | path in files && |path| >= 5 && path[|path| - 5..] == ".json" && files[path].content.Broken?
  }

  lemma {:induction false} LoadListsBroken(files: Files, listing: seq<string>)
    ensures LoadFrom(files, listing).invalid == set path | path in listing && path in files
        && files[path].content.Broken?
    decreases |listing|
  {
    if listing != [] {
      var init, last := listing[..|listing| - 1], listing[|listing| - 1];
      assert listing == init + [last];
      LoadListsBroken(files, init);
    }
  }

  /** A load lists exactly the JSON files that hold no record. */
  lemma BrokenAreListed(files: Files, listing: seq<string>)
    requires IsListing(files, listing)
    ensures LoadFrom(files, listing).invalid == BrokenFiles(files)
  {
    LoadListsBroken(files, listing);
  }

  /**
   A write that goes through leaves its record under its key, deletes the file of a
   key it replaces, and touches no other file; one that conflicts touches none. Either
   way the record can then be read.
   */
  lemma WriteLeaves(s: State, value: Value, previousKey: Option<string>, stamp: int, listing: seq<string>)
    ensures var (t, outcome) := Write(s, value, previousKey, stamp, listing);
            var previous := previousKey.GetOr("");
            && t.loaded.Some?
            && (outcome.Conflict? ==> t.files == s.files)
            && (outcome.Done? ==>
                  && t.files == s.files[value.key + ".json" := File(Record(value), stamp)]
                                - (if previous == "" || previous == value.key then {} else {previous + ".json"})
                  && value.key in t.loaded.value.values && t.loaded.value.values[value.key] == value
                  && (previous != "" && previous != value.key ==> previous !in t.loaded.value.values))
  {
    hide LoadFrom, IsJson;
    FilePathInjective(value.key, previousKey.GetOr(""));
  }

  /** A removal deletes the file of the record and no other. */
  lemma RemovalLeaves(s: State, name: string, listing: seq<string>)
    ensures var (t, removed) := Remove(s, name, listing);
            var values := Load(s, listing).loaded.value.values;
            && t.loaded.Some? && name !in t.loaded.value.values && (removed <==> name in values)
            && t.files == if removed then s.files - {values[name].key + ".json"} else s.files
  {
    hide LoadFrom;
  }

  // An edit between the load and the deletion, from a store just created.

  lemma EditedRun(before: Value, edit: Content)
    ensures var path := FilePath(before.key);
            var s := Fresh(map[path := File(Record(before), 1)]);
            var actions := [ARead([path]), OutsideEdit(path, edit, 2)];
            && Runs(s, actions)
            && RunTo(s, actions) == State(map[path := File(edit, 2)],
                                          Some(Loaded(map[before.key := before], map[path := 1], {})),
                                          map[path := Record(before)], {path}, {(path, 1), (path, 2)})
  {
    var path := FilePath(before.key);
    FilePathInjective(before.key, before.key);
    var files := map[path := File(Record(before), 1)];
    var s := Fresh(files);
    var actions := [ARead([path]), OutsideEdit(path, edit, 2)];
    assert [path][..0] == [] && LoadFrom(files, [path]) == Loaded(map[before.key := before], map[path := 1], {});
    assert Remember(map[], files) == map[path := Record(before)];
    assert Stamps(files) == {(path, 1)};
    assert Unreadable(files) == {};
    var s1 := Act(s, actions[0]);
    assert s1 == State(files, Some(LoadFrom(files, [path])), map[path := Record(before)], {}, {(path, 1)});
    assert actions[1..] == [actions[1]] && actions[1..][1..] == [];
    var s2 := Act(s1, actions[1]);
    assert CanAct(s1, actions[1]) && Runs(s2, []) && RunTo(s1, actions[1..]) == RunTo(s2, []) == s2;
    assert s2.files == map[path := File(edit, 2)] && s2.foreign == {path} && s2.used == {(path, 1), (path, 2)};
  }

  /** Renaming drops an edit that came after the load: the conflict check covers the target only. */
  lemma RenameDropsOutsideEdit(before: Value, after: Value, edit: Content)
    requires before.key != "" && after.key != before.key
    ensures var path := FilePath(before.key);
            var s := Fresh(map[path := File(Record(before), 1)]);
            var t := RunTo(s, [ARead([path]), OutsideEdit(path, edit, 2)]);
            && Runs(s, [ARead([path]), OutsideEdit(path, edit, 2)])
            && t.files == map[path := File(edit, 2)]
            && Write(t, after, Some(before.key), 3, [path]).1.Done?
            && path !in Write(t, after, Some(before.key), 3, [path]).0.files
  {
    hide Runs, RunTo;
    EditedRun(before, edit);
    FilePathInjective(before.key, after.key);
  }

  /** Removing drops it too. */
  lemma RemovalDropsOutsideEdit(before: Value, edit: Content)
    ensures var path := FilePath(before.key);
            var s := Fresh(map[path := File(Record(before), 1)]);
            var t := RunTo(s, [ARead([path]), OutsideEdit(path, edit, 2)]);
            && Runs(s, [ARead([path]), OutsideEdit(path, edit, 2)])
            && t.files == map[path := File(edit, 2)]
            && Remove(t, before.key, [path]).1 && Remove(t, before.key, [path]).0.files == map[]
  {
    hide Runs, RunTo;
    EditedRun(before, edit);
  }
}
