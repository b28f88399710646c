/**
 * The settings store of dist/shared/settings.js as a value: the module-level
 * `settings` object (absent until first use), the JSON file behind it (absent
 * until first written) and the number of times that file has been read.
 * JSON encoding is not modelled: the file holds the map it was written from.
 */
module Settings {
  import opened Wrappers

  type Store = map<string, string>

  datatype SettingsState = SettingsState(cache: Option<Store>, file: Option<Store>, fileReads: nat)

  /** The state at process start, before any `get` or `set`. */
  function Fresh(file: Option<Store>): SettingsState {
    SettingsState(None, file, 0)
  }

  /** The in-memory map, once loaded, is what was read from the file and is written back to it. */
  predicate Valid(s: SettingsState) {
    match s.cache
    case None => s.fileReads == 0
    case Some(m) => s.file == Some(m) && s.fileReads == 1
  }

  /** The key/value map a `get` would see: the loaded map, else the file, else nothing. */
  function View(s: SettingsState): Store {
    match s.cache
    case Some(m) => m
    case None => if s.file.Some? then s.file.value else map[]
  }

  function Lookup(m: Store, key: string): Option<string> {
    if key in m then Some(m[key]) else None
  }

  /** `ensureFile`: on first use, create the file as `{}` if missing, then read it once. */
  function EnsureFile(s: SettingsState): (r: SettingsState)
    ensures r.cache.Some? && View(r) == View(s)
    ensures s.cache.Some? ==> r == s
    ensures s.cache.None? ==> r.fileReads == s.fileReads + 1 && r.file == r.cache
    ensures s.file.None? && s.cache.None? ==> View(r) == map[]
    ensures Valid(s) ==> Valid(r)
  {
    if s.cache.Some? then s
    else
      var f := if s.file.None? then Some(map[]) else s.file;
      SettingsState(f, f, s.fileReads + 1)
  }

  /** `get(key)`: the value stored under `key`, if any; only the lazy load changes the state. */
  function Get(s: SettingsState, key: string): (r: (Option<string>, SettingsState))
    ensures r.0 == Lookup(View(s), key)
    ensures View(r.1) == View(s) && r.1.cache.Some?
    ensures Valid(s) ==> Valid(r.1)
  {
    var s1 := EnsureFile(s);
    (Lookup(s1.cache.value, key), s1)
  }

  /** `set(key, value)`: update one key in memory, then rewrite the whole file from memory. */
  function Set(s: SettingsState, key: string, value: string): (r: SettingsState)
    ensures View(r) == View(s)[key := value]
    ensures r.cache.Some? && r.file == r.cache
    ensures Valid(s) ==> Valid(r)
  {
    var s1 := EnsureFile(s);
    var m := s1.cache.value[key := value];
    SettingsState(Some(m), Some(m), s1.fileReads)
  }

  /** A `get` after `set(k, v)` reads `v`; every other key reads as before. */
  lemma GetAfterSet(s: SettingsState, k: string, v: string, k': string)
    ensures Get(Set(s, k, v), k').0 == if k' == k then Some(v) else Get(s, k').0
  {
  }

  /** A sequence of calls into the store. */
  datatype Op = GetOp(key: string) | SetOp(key: string, value: string)

  function Run(s: SettingsState, ops: seq<Op>): SettingsState
    decreases |ops|
  {
    if ops == [] then s
    else
      var s1 := match ops[0]
                case GetOp(k) => Get(s, k).1
                case SetOp(k, v) => Set(s, k, v);
      Run(s1, ops[1..])
  }

  /** Whatever the calls, the file is read at most once and memory and file agree after the first call. */
  lemma {:induction false} ReadAtMostOnce(s: SettingsState, ops: seq<Op>)
    requires Valid(s)
    ensures Valid(Run(s, ops)) && Run(s, ops).fileReads <= 1
    ensures ops != [] ==> Run(s, ops).cache.Some? && Run(s, ops).file == Run(s, ops).cache
    decreases |ops|
  {
    if ops != [] {
      var s1 := match ops[0]
                case GetOp(k) => Get(s, k).1
                case SetOp(k, v) => Set(s, k, v);
      ReadAtMostOnce(s1, ops[1..]);
    }
  }

  /** Starting with no file, every key reads as absent and the file now exists as `{}`. */
  lemma FirstUseWithoutFile(k: string)
    ensures Get(Fresh(None), k).0 == None
    ensures Get(Fresh(None), k).1.file == Some(map[])
  {
  }
}

/** The same store as an object whose methods update it in place. */
module SettingsStore {
  import opened Wrappers
  import Settings

  class Store {
    var cache: Option<Settings.Store>
    var file: Option<Settings.Store>
    var fileReads: nat

    function State(): Settings.SettingsState
      reads this
    {
      Settings.SettingsState(cache, file, fileReads)
    }

    constructor (persisted: Option<Settings.Store>)
      ensures State() == Settings.Fresh(persisted) && Settings.Valid(State())
    {
      cache, file, fileReads := None, persisted, 0;
    }

    method EnsureFile()
      modifies this
      ensures State() == Settings.EnsureFile(old(State()))
    {
      if cache.None? {
        if file.None? {
          file := Some(map[]);
        }
        cache := file;
        fileReads := fileReads + 1;
      }
    }

    method Get(key: string) returns (v: Option<string>)
      modifies this
      ensures v == Settings.Lookup(Settings.View(old(State())), key)
      ensures (v, State()) == Settings.Get(old(State()), key)
    {
      EnsureFile();
      v := Settings.Lookup(cache.value, key);
    }

    method Set(key: string, value: string)
      modifies this
      ensures Settings.View(State()) == Settings.View(old(State()))[key := value]
      ensures file == cache
      ensures State() == Settings.Set(old(State()), key, value)
    {
      EnsureFile();
      cache := Some(cache.value[key := value]);
      file := cache;
    }
  }
}
