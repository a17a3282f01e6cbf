/**
 * The plugin store of the server (`PluginStore` in `server/src/plugins.rs`):
 * it loads every media plugin found in the search directories, brings the
 * database up to date with the loaded plugins, and selects the plugins that
 * have a configuration for indexing.
 */
module ServerPluginStore {
  import W = Wrappers
  import opened StdPath
  import opened PluglibVersion
  import opened ServerPlugins
  import opened ServerMediaPlugin

  // ----------------------------------------------------------- loading

  /**
   * What `std::fs::read_dir` gives for a directory: it does not exist, it
   * cannot be read, or its entries (`None` for an entry that fails to read).
   */
  datatype DirListing = NotFound | ReadFailed | Listing(entries: seq<W.Option<string>>)

  /** The file system as plugin loading sees it: listings, and what opening a library gives. */
  datatype PluginFs = PluginFs(readDir: string -> DirListing, open: string -> W.Result<Library, LibError>)

  /** The paths of the readable entries of a directory, in listing order. */
  function EntryPaths(dir: string, entries: seq<W.Option<string>>): (ps: seq<string>)
    ensures |ps| <= |entries|
  {
    if entries == [] then []
    else
      var init := EntryPaths(dir, entries[..|entries| - 1]);
      match entries[|entries| - 1]
      case Some(name) => init + [JoinPath(dir, name)]
      case None => init
  }

  /** The paths found in one directory: none when it is missing or unreadable. */
  function DirPaths(dir: string, listing: DirListing): seq<string> {
    match listing
    case Listing(entries) => EntryPaths(dir, entries)
    case _ => []
  }

  /** The paths found in the search directories, directory by directory. */
  function AllPaths(dirs: seq<string>, readDir: string -> DirListing): seq<string> {
    if dirs == [] then []
    else AllPaths(dirs[..|dirs| - 1], readDir) + DirPaths(dirs[|dirs| - 1], readDir(dirs[|dirs| - 1]))
  }

  /**
   * The plugin a path yields: a `.media` file with a stem whose library
   * loads; the plugin is named after that stem.
   */
  function Loaded(fs: PluginFs, path: string): (r: W.Option<MediaPlugin>)
    ensures r.Some? <==> IsMediaCandidate(path) && TryFrom(path, fs.open(path)).Ok?
    ensures r.Some? ==> r.value == TryFrom(path, fs.open(path)).value && r.value.name == FileStem(path).value
  {
    var stem := FileStem(path);
    if stem.Some? && Extension(path) == W.Some(MEDIA_EXTENSION) then
      match TryFrom(path, fs.open(path))
      case Ok(plugin) => W.Some(plugin)
      case Err(_) => W.None
    else W.None
  }

  /** What loading gives for each path. */
  type Loader = string -> W.Option<MediaPlugin>

  function LoaderOf(fs: PluginFs): Loader {
    path => Loaded(fs, path)
  }

  /** Handling one path: a loaded plugin is inserted under its stem; anything else is skipped. */
  function LoadOne(load: Loader, m: map<string, MediaPlugin>, path: string): map<string, MediaPlugin> {
    match load(path)
    case Some(plugin) => m[plugin.name := plugin]
    case None => m
  }

  /** The plugins loaded from `paths`, in order, into `m`. */
  function LoadAll(load: Loader, m: map<string, MediaPlugin>, paths: seq<string>): map<string, MediaPlugin> {
    if paths == [] then m else LoadOne(load, LoadAll(load, m, paths[..|paths| - 1]), paths[|paths| - 1])
  }

  /** Every plugin is stored under its own name. */
  predicate NamedAfterKey(media: map<string, MediaPlugin>) {
    forall n :: n in media ==> media[n].name == n
  }

  /**
   * The loaded plugins are exactly those named after the stem of a path that
   * loads, each under its own name; a path that fails to load is skipped and
   * does not stop the others.
   */
  lemma {:induction false} LoadAllSpec(load: Loader, m: map<string, MediaPlugin>, paths: seq<string>)
    ensures forall n :: n in LoadAll(load, m, paths) <==>
      n in m || exists i :: 0 <= i < |paths| && load(paths[i]).Some? && load(paths[i]).value.name == n
    decreases |paths|
  {
    if paths != [] {
      var init := paths[..|paths| - 1];
      LoadAllSpec(load, m, init);
      assert forall i :: 0 <= i < |init| ==> init[i] == paths[i];
    }
  }

  /** Loading keeps every plugin under its own name: the stem it was loaded from. */
  lemma {:induction false} LoadAllNamed(load: Loader, m: map<string, MediaPlugin>, paths: seq<string>)
    requires NamedAfterKey(m)
    ensures NamedAfterKey(LoadAll(load, m, paths))
    decreases |paths|
  {
    if paths != [] {
      LoadAllNamed(load, m, paths[..|paths| - 1]);
    }
  }

  /** When two paths share a stem, the later one that loads wins. */
  lemma {:induction false} LoadAllLastWins(load: Loader, m: map<string, MediaPlugin>, paths: seq<string>, i: nat)
    requires i < |paths| && load(paths[i]).Some?
    requires forall j :: i < j < |paths| && load(paths[j]).Some? ==>
      load(paths[j]).value.name != load(paths[i]).value.name
    ensures load(paths[i]).value.name in LoadAll(load, m, paths)
    ensures LoadAll(load, m, paths)[load(paths[i]).value.name] == load(paths[i]).value
    decreases |paths|
  {
    if i < |paths| - 1 {
      var init := paths[..|paths| - 1];
      assert init[i] == paths[i];
      LoadAllLastWins(load, m, init, i);
    }
  }

  lemma LoadAllSnoc(load: Loader, m: map<string, MediaPlugin>, paths: seq<string>, p: string)
    ensures LoadAll(load, m, paths + [p]) == LoadOne(load, LoadAll(load, m, paths), p)
  {
    assert (paths + [p])[..|paths|] == paths;
  }

  lemma {:induction false} LoadAllAppend(load: Loader, m: map<string, MediaPlugin>, ps: seq<string>, qs: seq<string>)
    ensures LoadAll(load, m, ps + qs) == LoadAll(load, LoadAll(load, m, ps), qs)
    decreases |qs|
  {
    if qs == [] {
      assert ps + qs == ps;
    } else {
      var init := qs[..|qs| - 1];
      LoadAllAppend(load, m, ps, init);
      assert (ps + qs)[..|ps + qs| - 1] == ps + init;
    }
  }

  /** The plugin's record in the `plugins` table (`From<&MediaPlugin> for DbPlugin`). */
  function DbOf(p: MediaPlugin): (rec: DbPlugin)
    ensures KeyOf(rec) == RecordKey(p.name, Media) && rec.version == p.version
  {
    DbPlugin(p.name, Media, p.version)
  }

  /** The plugin is rebuilt by `update_database`: its record needs it, and the INSERT goes through. */
  predicate WillRebuild(db: Db, policy: ConflictPolicy, p: MediaPlugin) {
    NeedsRebuild(StoredVersions(db), DbOf(p)) && (policy == Replace || KeyOf(DbOf(p)) !in db.plugins)
  }

  /** No plugin among `names` is rebuilt into table `t`. */
  predicate UntouchedTable(media: map<string, MediaPlugin>, names: set<string>, db: Db, policy: ConflictPolicy, t: string) {
    forall n :: n in names && n in media && WillRebuild(db, policy, media[n]) ==> TableIdent(media[n].media) != t
  }

  /** No plugin other than `n` is rebuilt into `n`'s table, so the table `n`'s rebuild creates stays. */
  predicate SoleRebuildInto(media: map<string, MediaPlugin>, db: Db, policy: ConflictPolicy, n: string)
    requires n in media
  {
    forall m :: m in media && m != n && WillRebuild(db, policy, media[m]) ==> TableIdent(media[m].media) != TableIdent(media[n].media)
  }

  /** `MediaConfig`: the root directories of a plugin's media files. */
  datatype MediaConfig = MediaConfig(paths: seq<string>)

  /** `PluginStore`: the loaded media plugins by name. */
  class PluginStore {
    var media: map<string, MediaPlugin>

    predicate Valid()
      reads this
    {
      NamedAfterKey(media)
    }

    /** `PluginStore::default`. */
    constructor ()
      ensures media == map[] && Valid()
    {
      media := map[];
    }

    /**
     * `PluginStore::load_plugins`: every entry of every search directory, in
     * order; a `.media` file whose library loads is stored under its stem.
     */
    static method LoadPlugins(env: Env, exeName: string, fs: PluginFs) returns (store: PluginStore)
      ensures fresh(store) && store.Valid()
      ensures store.media == LoadAll(LoaderOf(fs), map[], AllPaths(PluginDirs(env, exeName), fs.readDir))
    {
      store := new PluginStore();
      var dirs := GetPluginDirs(env, exeName);
      store.LoadFromDirs(dirs, fs);
      LoadAllNamed(LoaderOf(fs), map[], AllPaths(dirs, fs.readDir));
    }

    /** The search directories in order; one that is missing or unreadable is skipped. */
    method LoadFromDirs(dirs: seq<string>, fs: PluginFs)
      modifies this
      ensures media == LoadAll(LoaderOf(fs), old(media), AllPaths(dirs, fs.readDir))
    {
      ghost var m0 := media;
      for i := 0 to |dirs|
        invariant media == LoadAll(LoaderOf(fs), m0, AllPaths(dirs[..i], fs.readDir))
      {
        var dir := dirs[i];
        ghost var before := AllPaths(dirs[..i], fs.readDir);
        assert dirs[..i + 1][..i] == dirs[..i];
        assert AllPaths(dirs[..i + 1], fs.readDir) == before + DirPaths(dir, fs.readDir(dir));
        LoadAllAppend(LoaderOf(fs), m0, before, DirPaths(dir, fs.readDir(dir)));
        match fs.readDir(dir) {
          case Listing(entries) => LoadDir(dir, entries, fs);
          case _ =>
        }
      }
      assert dirs[..|dirs|] == dirs;
    }

    /** The entries of one listed directory, in order. */
    method LoadDir(dir: string, entries: seq<W.Option<string>>, fs: PluginFs)
      modifies this
      ensures media == LoadAll(LoaderOf(fs), old(media), EntryPaths(dir, entries))
    {
      ghost var m0 := media;
      for j := 0 to |entries|
        invariant media == LoadAll(LoaderOf(fs), m0, EntryPaths(dir, entries[..j]))
      {
        assert entries[..j + 1][..j] == entries[..j];
        match entries[j] {
          case Some(name) =>
            var path := JoinPath(dir, name);
            LoadAllSnoc(LoaderOf(fs), m0, EntryPaths(dir, entries[..j]), path);
            var stem := FileStem(path);
            if stem.Some? && Extension(path) == W.Some(MEDIA_EXTENSION) {
              match TryFrom(path, fs.open(path)) {
                case Ok(plugin) => media := media[stem.value := plugin];
                case Err(_) =>
              }
            }
          case None =>
        }
      }
      assert entries[..|entries|] == entries;
    }

    /**
     * `PluginStore::update_database`: compare each loaded plugin with its
     * stored record and rebuild the ones that need it, each in its own
     * transaction; a failed rebuild leaves the database as it was and does
     * not stop the others.
     */
    method UpdateDatabase(db: Db, policy: ConflictPolicy) returns (out: Db)
      requires Valid()
      ensures forall n :: n in media && WillRebuild(db, policy, media[n]) ==>
        && RecordKey(n, Media) in out.plugins && out.plugins[RecordKey(n, Media)] == Readable(media[n].version)
        && TableIdent(media[n].media) in out.tables
      ensures forall n :: n in media && WillRebuild(db, policy, media[n]) && SoleRebuildInto(media, db, policy, n) ==>
        out.tables[TableIdent(media[n].media)] == Columns(media[n].media.fields)
      ensures forall k: RecordKey :: !(k.kind == Media && k.name in media && WillRebuild(db, policy, media[k.name])) ==>
        (k in out.plugins <==> k in db.plugins) && (k in db.plugins ==> out.plugins[k] == db.plugins[k])
      ensures db.tables.Keys <= out.tables.Keys
      ensures forall t :: t in db.tables && UntouchedTable(media, media.Keys, db, policy, t) ==>
        out.tables[t] == db.tables[t]
    {
      var stored := StoredVersions(db);
      ghost var rebuilt := set n | n in media && WillRebuild(db, policy, media[n]);
      out := db;
      var todo := media.Keys;
      ghost var done: set<string> := {};
      while todo != {}
        invariant todo <= media.Keys && done == media.Keys - todo
        invariant Progress(media, rebuilt, done, db, out)
        decreases |todo|
      {
        var n :| n in todo;
        out := UpdatePlugin(media[n], stored, policy, out, rebuilt, done, db);
        todo := todo - {n};
        done := done + {n};
      }
      ProgressDone(media, rebuilt, db, policy, out);
    }

    /**
     * One plugin of `update_database`: rebuild it when its stored record
     * calls for it; a rebuild whose INSERT fails changes nothing.
     */
    method UpdatePlugin(p: MediaPlugin, stored: map<RecordKey, Version>, policy: ConflictPolicy, out: Db,
                        ghost rebuilt: set<string>, ghost done: set<string>, ghost db: Db) returns (next: Db)
      requires Valid() && p.name in media && media[p.name] == p && p.name !in done
      requires stored == StoredVersions(db)
      requires rebuilt == set n | n in media && WillRebuild(db, policy, media[n])
      requires Progress(media, rebuilt, done, db, out)
      ensures Progress(media, rebuilt, done + {p.name}, db, next)
    {
      var n := p.name;
      var rec := DbOf(p);
      assert n in rebuilt <==> WillRebuild(db, policy, p);
      next := out;
      if NeedsRebuild(stored, rec) {
        RebuildOutcome(media, rebuilt, done, n, db, policy, out);
        match Rebuild(out, p, rec, policy) {
          case Ok(db1) =>
            RebuiltStep(media, rebuilt, done, n, db, policy, out);
            next := db1;
          case Err(_) =>
            SkippedStep(media, rebuilt, done, n, db, out);
        }
      } else {
        SkippedStep(media, rebuilt, done, n, db, out);
      }
    }

    /** `PluginStore::load_media`'s selection: each plugin that has a configuration, with it. */
    function MediaTargets(config: map<string, MediaConfig>): (r: map<string, (MediaPlugin, MediaConfig)>)
      reads this
      ensures r.Keys == media.Keys * config.Keys
      ensures forall n :: n in r ==> r[n].0 == media[n] && r[n].1 == config[n]
    {
      map n | n in media && n in config :: (media[n], config[n])
    }
  }

  /**
   * What `update_database` has achieved once the plugins in `done` are
   * handled, `rebuilt` being the names of those that get a rebuild: each of
   * them has its record and its table, and every other record and table is
   * as it was.
   */
  ghost predicate Progress(media: map<string, MediaPlugin>, rebuilt: set<string>, done: set<string>, db: Db, out: Db)
    requires rebuilt <= media.Keys
  {
    && (forall m :: m in done && m in rebuilt ==>
         && RecordKey(m, Media) in out.plugins && out.plugins[RecordKey(m, Media)] == Readable(media[m].version)
         && TableIdent(media[m].media) in out.tables)
    && (forall m :: m in done && m in rebuilt && OwnTable(media, rebuilt, m) ==>
         out.tables[TableIdent(media[m].media)] == Columns(media[m].media.fields))
    && (forall k: RecordKey :: !(k.kind == Media && k.name in done && k.name in rebuilt) ==>
         (k in out.plugins <==> k in db.plugins) && (k in db.plugins ==> out.plugins[k] == db.plugins[k]))
    && db.tables.Keys <= out.tables.Keys
    && (forall t :: t in db.tables && (forall m :: m in done && m in rebuilt ==> TableIdent(media[m].media) != t) ==>
         out.tables[t] == db.tables[t])
  }

  /** No plugin of `rebuilt` other than `m` is rebuilt into `m`'s table. */
  ghost predicate OwnTable(media: map<string, MediaPlugin>, rebuilt: set<string>, m: string)
    requires rebuilt <= media.Keys && m in media
  {
    forall m' :: m' in rebuilt && m' != m ==> TableIdent(media[m'].media) != TableIdent(media[m].media)
  }

  /** The record of a plugin not yet handled is still the stored one, so its INSERT fails exactly as it would have at the start. */
  lemma RebuildOutcome(media: map<string, MediaPlugin>, rebuilt: set<string>, done: set<string>, n: string,
                       db: Db, policy: ConflictPolicy, before: Db)
    requires NamedAfterKey(media) && rebuilt <= media.Keys && n in media && n !in done
    requires Progress(media, rebuilt, done, db, before)
    ensures Rebuild(before, media[n], DbOf(media[n]), policy).Ok? <==>
      (policy == Replace || KeyOf(DbOf(media[n])) !in db.plugins)
  {
    assert KeyOf(DbOf(media[n])) == RecordKey(media[n].name, Media);
    var key := KeyOf(DbOf(media[n]));
    assert key in before.plugins <==> key in db.plugins;
  }

  /** Handling a plugin that gets its rebuild keeps the invariants. */
  lemma RebuiltStep(media: map<string, MediaPlugin>, rebuilt: set<string>, done: set<string>, n: string,
                    db: Db, policy: ConflictPolicy, before: Db)
    requires NamedAfterKey(media) && rebuilt <= media.Keys && n in rebuilt && n !in done
    requires Progress(media, rebuilt, done, db, before)
    requires Rebuild(before, media[n], DbOf(media[n]), policy).Ok?
    ensures Progress(media, rebuilt, done + {n}, db, Rebuild(before, media[n], DbOf(media[n]), policy).value)
  {
    var key := RecordKey(n, Media);
    var after := Rebuild(before, media[n], DbOf(media[n]), policy).value;
    assert KeyOf(DbOf(media[n])) == key;
    forall m | m in done && m in rebuilt
      ensures RecordKey(m, Media) != key
    {
    }
    forall m | m in done + {n} && m in rebuilt && OwnTable(media, rebuilt, m)
      ensures after.tables[TableIdent(media[m].media)] == Columns(media[m].media.fields)
    {
      if m != n {
        assert TableIdent(media[n].media) != TableIdent(media[m].media);
      }
    }
  }

  /** Once every plugin is handled, the invariants are what `update_database` promises. */
  lemma ProgressDone(media: map<string, MediaPlugin>, rebuilt: set<string>, db: Db, policy: ConflictPolicy, out: Db)
    requires rebuilt == set n | n in media && WillRebuild(db, policy, media[n])
    requires Progress(media, rebuilt, media.Keys, db, out)
    ensures forall n :: n in media && WillRebuild(db, policy, media[n]) ==>
      && RecordKey(n, Media) in out.plugins && out.plugins[RecordKey(n, Media)] == Readable(media[n].version)
      && TableIdent(media[n].media) in out.tables
    ensures forall n :: n in media && WillRebuild(db, policy, media[n]) && SoleRebuildInto(media, db, policy, n) ==>
      out.tables[TableIdent(media[n].media)] == Columns(media[n].media.fields)
    ensures forall k: RecordKey :: !(k.kind == Media && k.name in media && WillRebuild(db, policy, media[k.name])) ==>
      (k in out.plugins <==> k in db.plugins) && (k in db.plugins ==> out.plugins[k] == db.plugins[k])
    ensures db.tables.Keys <= out.tables.Keys
    ensures forall t :: t in db.tables && UntouchedTable(media, media.Keys, db, policy, t) ==>
      out.tables[t] == db.tables[t]
  {
    forall n | n in media && WillRebuild(db, policy, media[n]) && SoleRebuildInto(media, db, policy, n)
      ensures OwnTable(media, rebuilt, n)
    {
    }
  }

  /** Handling a plugin that is not rebuilt changes nothing and keeps the invariants. */
  lemma SkippedStep(media: map<string, MediaPlugin>, rebuilt: set<string>, done: set<string>, n: string,
                    db: Db, before: Db)
    requires rebuilt <= media.Keys && n in media && n !in rebuilt && n !in done
    requires Progress(media, rebuilt, done, db, before)
    ensures Progress(media, rebuilt, done + {n}, db, before)
  {
  }

  /**
   * With a `plugins` table that replaces a record on conflict, one
   * `update_database` settles every plugin with a real version: the next
   * startup finds nothing to rebuild.
   */
  lemma UpdateSettles(media: map<string, MediaPlugin>, db: Db, out: Db)
    requires forall n :: n in media && WillRebuild(db, Replace, media[n]) ==>
      RecordKey(n, Media) in out.plugins && out.plugins[RecordKey(n, Media)] == Readable(media[n].version)
    requires forall k: RecordKey :: !(k.kind == Media && k.name in media && WillRebuild(db, Replace, media[k.name])) ==>
      (k in out.plugins <==> k in db.plugins) && (k in db.plugins ==> out.plugins[k] == db.plugins[k])
    requires NamedAfterKey(media)
    ensures forall n :: n in media && media[n].version != Default ==> !NeedsRebuild(StoredVersions(out), DbOf(media[n]))
  {
    forall n | n in media && media[n].version != Default
      ensures !NeedsRebuild(StoredVersions(out), DbOf(media[n]))
    {
      var rec := DbOf(media[n]);
      NeedsRebuildSpec(StoredVersions(out), rec, KeyOf(rec), rec.version);
      if !WillRebuild(db, Replace, media[n]) {
        assert KeyOf(rec) == RecordKey(n, Media);
      }
    }
  }
}
