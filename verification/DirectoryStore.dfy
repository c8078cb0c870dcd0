/** A directory of JSON records cached in memory, with conflict detection by modification time. */
module DirectoryStore {
  import opened Options

  datatype Value = Value(key: string, body: string)

  // What a file holds: a record the schema accepts, or something it does not. That
  // writing a record and reading it back gives the record is taken as given.
  datatype Content = Record(value: Value) | Broken(text: string)

  datatype File = File(content: Content, mtime: int)

  type Files = map<string, File>

  const SUFFIX := ".json"

  function FilePath(name: string): string { name + SUFFIX }

  predicate IsJson(path: string) { |path| >= |SUFFIX| && path[|path| - |SUFFIX|..] == SUFFIX }

  lemma FilePathInjective(a: string, b: string)
    ensures IsJson(FilePath(a)) && (FilePath(a) == FilePath(b) ==> a == b)
  {
    assert FilePath(a)[..|a|] == a && FilePath(b)[..|b|] == b;
  }

  function MtimeOf(files: Files, path: string): Option<int> {
    if path in files then Some(files[path].mtime) else None
  }

  function Lookup<T>(m: map<string, T>, key: string): Option<T> { if key in m then Some(m[key]) else None }

  datatype Loaded = Loaded(values: map<string, Value>, mtimes: map<string, int>, invalid: set<string>)

  /** The directory's JSON files in the order the file system lists them. */
  predicate IsListing(files: Files, listing: seq<string>) {
    && (forall path :: path in listing ==> path in files && IsJson(path))
    && (forall path <- files :: IsJson(path) ==> path in listing)
  }

  function LoadFile(loaded: Loaded, path: string, file: File): Loaded {
    match file.content
    case Broken(_) => loaded.(invalid := loaded.invalid + {path})
    case Record(value) =>
      loaded.(values := loaded.values[value.key := value], mtimes := loaded.mtimes[path := file.mtime])
  }

  function LoadFrom(files: Files, listing: seq<string>): Loaded {
    if listing == [] then Loaded(map[], map[], {})
    else
      var path := listing[|listing| - 1];
      var before := LoadFrom(files, listing[..|listing| - 1]);
      if path in files then LoadFile(before, path, files[path]) else before
  }

  // The store and its directory. The last three are history that no operation reads:
  // `known` is the record in each file as the store last loaded or wrote it, `foreign`
  // the files whose present content it has neither loaded nor written, and `used` the
  // modification times a path has had.
  datatype State = State(
    files: Files,
    loaded: Option<Loaded>,
    known: map<string, Content>,
    foreign: set<string>,
    used: set<(string, int)>)

  /** A store that has just been created over a directory. */
  function Fresh(files: Files): State {
    State(files, None, map[], files.Keys, Stamps(files))
  }

  function Stamps(files: Files): set<(string, int)> { set path | path in files :: (path, files[path].mtime) }

  datatype Outcome = Done | Conflict

  predicate IsReadable(files: Files, path: string) { path in files && IsJson(path) && files[path].content.Record? }

  function Remember(known: map<string, Content>, files: Files): map<string, Content> {
    known + map path | path in files && IsReadable(files, path) :: files[path].content
  }

  function Unreadable(files: Files): set<string> { set path | path in files && !IsReadable(files, path) }

  function Load(s: State, listing: seq<string>): (t: State)
    ensures t.loaded.Some? && t.files == s.files
  {
    if s.loaded.Some? then s
    else
      s.(loaded := Some(LoadFrom(s.files, listing)),
         known := Remember(s.known, s.files),
         foreign := Unreadable(s.files))
  }

  predicate Renames(value: Value, previousKey: Option<string>) {
    previousKey.Some? && previousKey.value != "" && previousKey.value != value.key
  }

  predicate HasConflict(s: State, value: Value)
    requires s.loaded.Some?
  {
    MtimeOf(s.files, FilePath(value.key)) != Lookup(s.loaded.value.mtimes, FilePath(value.key))
  }

  /** The file of a value written and its time cached. */
  function Stored(s: State, value: Value, stamp: int): State
    requires s.loaded.Some?
  {
    var path, l := FilePath(value.key), s.loaded.value;
    s.(files := s.files[path := File(Record(value), stamp)],
       known := s.known[path := Record(value)],
       foreign := s.foreign - {path},
       used := s.used + {(path, stamp)},
       loaded := Some(l.(mtimes := l.mtimes[path := stamp], values := l.values[value.key := value])))
  }

  /** The file of a key deleted and the key forgotten. */
  function Forgotten(s: State, key: string): State
    requires s.loaded.Some?
  {
    var path, l := FilePath(key), s.loaded.value;
    s.(files := s.files - {path},
       foreign := s.foreign - {path},
       loaded := Some(l.(values := l.values - {key}, mtimes := l.mtimes - {path})))
  }

  /** A write that finds no conflict; the file system stamps the new file. */
  function WriteLoaded(s: State, value: Value, previousKey: Option<string>, stamp: int): (t: State)
    requires s.loaded.Some?
    ensures t.loaded.Some?
  {
    var written := Stored(s, value, stamp);
    if Renames(value, previousKey) then Forgotten(written, previousKey.value) else written
  }

  function Write(s: State, value: Value, previousKey: Option<string>, stamp: int, listing: seq<string>)
      : (State, Outcome)
  {
    var t := Load(s, listing);
    if HasConflict(t, value) then (t, Conflict) else (WriteLoaded(t, value, previousKey, stamp), Done)
  }

  function Remove(s: State, name: string, listing: seq<string>): (State, bool) {
    var t := Load(s, listing);
    var l := t.loaded.value;
    if name !in l.values then (t, false)
    else
      var path := FilePath(l.values[name].key);
      (t.(files := t.files - {path},
          foreign := t.foreign - {path},
          loaded := Some(l.(values := l.values - {name}, mtimes := l.mtimes - {path}))), true)
  }

  function Reset(s: State): State { s.(loaded := None) }

  // The imperative store.

  class Disk {
    var files: map<string, File>

    method Write(path: string, content: Content, stamp: int)
      modifies this
      ensures files == old(files)[path := File(content, stamp)]
    {
      files := files[path := File(content, stamp)];
    }

    /** `if (existsSync(path)) unlinkSync(path)`. */
    method Unlink(path: string)
      modifies this
      ensures files == old(files) - {path}
    {
      if path in files {
        files := files - {path};
      }
    }
  }

  class JsonDirectoryStore {
    const disk: Disk
    var state: Option<Loaded>
    ghost var known: map<string, Content>
    ghost var foreign: set<string>
    ghost var used: set<(string, int)>

    ghost function Model(): State
      reads this, disk
    {
      State(disk.files, state, known, foreign, used)
    }

    constructor (disk: Disk)
      ensures this.disk == disk && Model() == Fresh(disk.files)
    {
      this.disk := disk;
      state, known, foreign, used := None, map[], disk.files.Keys, Stamps(disk.files);
    }

    method EnsureLoaded(listing: seq<string>) returns (loaded: Loaded)
      requires IsListing(disk.files, listing)
      modifies this
      ensures Model() == Load(old(Model()), listing) && Some(loaded) == state
    {
      if state.Some? {
        return state.value;
      }
      loaded := Loaded(map[], map[], {});
      for i := 0 to |listing|
        invariant loaded == LoadFrom(disk.files, listing[..i])
        invariant Model() == old(Model())
      {
        assert listing[..i + 1][..i] == listing[..i] && listing[i] in disk.files;
        var path := listing[i];
        var file := disk.files[path];
        if file.content.Broken? {
          loaded := loaded.(invalid := loaded.invalid + {path});
        } else {
          loaded := loaded.(values := loaded.values[file.content.value.key := file.content.value],
                            mtimes := loaded.mtimes[path := file.mtime]);
        }
      }
      assert listing[..|listing|] == listing;
      state := Some(loaded);
      known, foreign := Remember(known, disk.files), Unreadable(disk.files);
    }

    method WriteValue(value: Value, previousKey: Option<string>, stamp: int, listing: seq<string>)
        returns (outcome: Outcome)
      requires IsListing(disk.files, listing)
      modifies this, disk
      ensures (Model(), outcome) == Write(old(Model()), value, previousKey, stamp, listing)
    {
      var loaded := EnsureLoaded(listing);
      var path := FilePath(value.key);
      if MtimeOf(disk.files, path) != Lookup(loaded.mtimes, path) {
        return Conflict;
      }
      disk.Write(path, Record(value), stamp);
      known, foreign, used := known[path := Record(value)], foreign - {path}, used + {(path, stamp)};
      var mtimes, values := loaded.mtimes[path := stamp], loaded.values;
      ghost var written := values[value.key := value];
      if previousKey.Some? && previousKey.value != "" && previousKey.value != value.key {
        var previousPath := FilePath(previousKey.value);
        disk.Unlink(previousPath);
        values := values - {previousKey.value};
        mtimes, foreign := mtimes - {previousPath}, foreign - {previousPath};
        assert values[value.key := value] == written - {previousKey.value};
      }
      values := values[value.key := value];
      state := Some(loaded.(values := values, mtimes := mtimes));
      outcome := Done;
    }

    method RemoveValue(name: string, listing: seq<string>) returns (removed: bool)
      requires IsListing(disk.files, listing)
      modifies this, disk
      ensures (Model(), removed) == Remove(old(Model()), name, listing)
    {
      var loaded := EnsureLoaded(listing);
      if name !in loaded.values {
        return false;
      }
      var path := FilePath(loaded.values[name].key);
      disk.Unlink(path);
      state := Some(loaded.(values := loaded.values - {name}, mtimes := loaded.mtimes - {path}));
      foreign := foreign - {path};
      removed := true;
    }

    method ResetState()
      modifies this`state
      ensures Model() == Reset(old(Model()))
    {
      state := None;
    }
  }
}
