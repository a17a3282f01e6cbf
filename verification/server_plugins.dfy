/**
 * The plugin vocabulary of the server (`server/src/plugins.rs`): the plugin
 * kind and its text form, the `plugins` table record and its key, the
 * decision whether a plugin's table must be rebuilt, the directories plugins
 * are searched in, and which directory entries are attempted as plugins.
 */
module ServerPlugins {
  import W = Wrappers
  import opened StdStr
  import opened StdPath
  import opened PluglibVersion
  import SJ = SqlJson

  // ------------------------------------------------------------ plugin kind

  /** `PluginKind`. */
  datatype PluginKind = Media

  /** `InvalidPluginKind`. */
  datatype InvalidPluginKind = InvalidPluginKind

  /** The derived `Debug` name of a kind. */
  function DebugName(k: PluginKind): string {
    match k
    case Media => "Media"
  }

  /** `char::to_ascii_lowercase`. */
  function AsciiLower(c: char): (r: char)
    ensures 'A' <= c <= 'Z' ==> 'a' <= r <= 'z'
    ensures !('A' <= c <= 'Z') ==> r == c
  {
    if 'A' <= c <= 'Z' then (c as int + 32) as char else c
  }

  /** `str::to_ascii_lowercase`. */
  function AsciiLowercase(s: string): (r: string)
    ensures |r| == |s|
    ensures forall i :: 0 <= i < |s| ==> r[i] == AsciiLower(s[i])
    decreases |s|
  {
    if s == [] then [] else [AsciiLower(s[0])] + AsciiLowercase(s[1..])
  }

  /** `Display for PluginKind`: the `Debug` name in ASCII lower case. */
  function DisplayKind(k: PluginKind): (r: string)
  {
    AsciiLowercase(DebugName(k))
  }

  /** `FromStr for PluginKind`: `"media"` and nothing else. */
  function ParseKind(s: string): (r: W.Result<PluginKind, InvalidPluginKind>)
    ensures r.Ok? <==> s == "media"
  {
    if s == "media" then W.Ok(Media) else W.Err(InvalidPluginKind)
  }

  /** `ToSql for PluginKind`: the kind's name as SQL text. */
  function KindToSql(k: PluginKind): (r: SJ.SqlValue)
    ensures r.Text?
  {
    match k
    case Media => SJ.Text("media")
  }

  /** The two ways `FromSql` can fail. */
  datatype FromSqlError = InvalidType | Other

  /**
   * `FromSql for PluginKind`: a value that is not text is the wrong type; a
   * text is parsed, and a parse failure is reported as another error. The
   * ISO 8601 and JSON texts the model keeps symbolic never spell `media`.
   */
  function KindFromSql(v: SJ.SqlValue): (r: W.Result<PluginKind, FromSqlError>)
    ensures r.Ok? <==> v == SJ.Text("media")
    ensures r == W.Err(InvalidType) <==> !(v.Text? || v.IsoDateText? || v.IsoTimeText? || v.JsonText?)
  {
    match v
    case Text(s) =>
      (match ParseKind(s)
       case Ok(k) => W.Ok(k)
       case Err(_) => W.Err(Other))
    case IsoDateText(_) => W.Err(Other)
    case IsoTimeText(_) => W.Err(Other)
    case JsonText(_) => W.Err(Other)
    case _ => W.Err(InvalidType)
  }

  /** Every kind prints as what it parses from, and stores as what it loads from. */
  lemma KindRoundTrips(k: PluginKind)
    ensures DisplayKind(k) == "media"
    ensures ParseKind(DisplayKind(k)) == W.Ok(k)
    ensures KindFromSql(KindToSql(k)) == W.Ok(k)
  {
    var d := DisplayKind(k);
    assert d[0] == AsciiLower('M') == 'm';
  }

  // ---------------------------------------------------------- plugin record

  /** `DbPlugin`: one row of the `plugins` table. */
  datatype DbPlugin = DbPlugin(name: string, kind: PluginKind, version: Version)

  /** What `DbPlugin`'s equality and hash look at: the table's primary key. */
  datatype RecordKey = RecordKey(name: string, kind: PluginKind)

  function KeyOf(p: DbPlugin): (k: RecordKey)
    ensures k.name == p.name && k.kind == p.kind
  {
    RecordKey(p.name, p.kind)
  }

  /** `PartialEq for DbPlugin`. */
  predicate SameRecord(a: DbPlugin, b: DbPlugin) {
    a.name == b.name && a.kind == b.kind
  }

  /** Two records are equal iff they have the same key, whatever their versions. */
  lemma SameRecordIsSameKey(a: DbPlugin, b: DbPlugin)
    ensures SameRecord(a, b) <==> KeyOf(a) == KeyOf(b)
    ensures SameRecord(a, b) ==> SameRecord(a, b.(version := a.version))
  {
  }

  /**
   * A row of the `plugins` table as it reads back: a record, or a row whose
   * columns do not decode (`update_database` logs and drops those).
   */
  datatype StoredRecord = Readable(version: Version) | Unreadable

  /** How the `plugins` table resolves an INSERT whose key is already present. */
  datatype ConflictPolicy = Abort | Replace

  /**
   * The database as the plugin code uses it: the `plugins` table, keyed by
   * its primary key, and the column definitions of each media table.
   */
  datatype Db = Db(plugins: map<RecordKey, StoredRecord>, tables: map<string, seq<string>>)

  /**
   * The stored versions `update_database` compares against: every record
   * that decodes. Keys are unique in the table, so the `HashSet` the rows
   * are collected into loses nothing.
   */
  function StoredVersions(db: Db): (m: map<RecordKey, Version>)
    ensures forall k :: k in m <==> k in db.plugins && db.plugins[k].Readable?
    ensures forall k :: k in m ==> m[k] == db.plugins[k].version
  {
    map k | k in db.plugins && db.plugins[k].Readable? :: db.plugins[k].version
  }

  /**
   * The rebuild decision of `update_database`: a plugin's table is rebuilt
   * when no stored record has its key, or when the stored version is not
   * compatible with the plugin's.
   */
  predicate NeedsRebuild(stored: map<RecordKey, Version>, p: DbPlugin) {
    KeyOf(p) !in stored || !IsCompatible(p.version, stored[KeyOf(p)])
  }

  /** A compatible update keeps the table; a major bump or a missing record rebuilds it. */
  lemma RebuildExamples(stored: map<RecordKey, Version>, name: string)
    ensures var k := RecordKey(name, Media);
      && (stored == map[k := Version(1, 2, 0)] ==> !NeedsRebuild(stored, DbPlugin(name, Media, Version(1, 3, 0))))
      && (stored == map[k := Version(1, 2, 0)] ==> NeedsRebuild(stored, DbPlugin(name, Media, Version(2, 0, 0))))
      && (stored == map[k := Version(0, 2, 0)] ==> NeedsRebuild(stored, DbPlugin(name, Media, Version(0, 3, 0))))
      && (k !in stored ==> NeedsRebuild(stored, DbPlugin(name, Media, Version(1, 2, 0))))
  {
  }

  /**
   * A plugin at version 0.0.0 is rebuilt on every start, and the decision for
   * a plugin only looks at the stored record with its own key.
   */
  lemma NeedsRebuildSpec(stored: map<RecordKey, Version>, p: DbPlugin, other: RecordKey, v: Version)
    ensures p.version == Default ==> NeedsRebuild(stored, p)
    ensures other != KeyOf(p) ==> (NeedsRebuild(stored[other := v], p) <==> NeedsRebuild(stored, p))
    ensures KeyOf(p) in stored && stored[KeyOf(p)] == p.version ==> (NeedsRebuild(stored, p) <==> p.version == Default)
  {
    DefaultIsPoison(p.version);
    if KeyOf(p) in stored {
      CompatibleIsPartialEquivalence(p.version, stored[KeyOf(p)], p.version);
    }
  }

  // ------------------------------------------------------------- load error

  /** What `libloading` reports: the library does not open, or a symbol is missing. */
  datatype LibError = OpenFailed | MissingSymbol(symbol: string)

  /** `PluginLoadError`. */
  datatype PluginLoadError =
    | LibLoading(error: LibError)
    | IncompatibleLibVersions(kind: PluginKind, name: string, plugin: Version)

  // ------------------------------------------------------- search directories

  /** `PLUGINS_DIR`. */
  const PLUGINS_DIR: string := "plugins"

  /**
   * What `get_plugin_dirs` reads from the process: the executable's path
   * (`None` when `current_exe` fails) and the two XDG variables.
   */
  datatype Env = Env(currentExe: W.Option<string>, xdgDataHome: W.Option<string>, xdgDataDirs: W.Option<string>)

  /** `base.join(parts[0]).join(parts[1])…`. */
  function JoinAll(base: string, parts: seq<string>): string
    decreases |parts|
  {
    if parts == [] then base else JoinPath(JoinAll(base, parts[..|parts| - 1]), parts[|parts| - 1])
  }

  /** `<base>/<exe name>/plugins`. */
  function DataPluginDir(base: string, exeName: string): string {
    JoinAll(base, [exeName, PLUGINS_DIR])
  }

  /** The directory of the executable, or the empty path when it has none. */
  function ExeDir(exe: string): string {
    match Parent(exe)
    case Some(d) => d
    case None => ""
  }

  /** `std::env::split_paths` on Unix: the pieces between colons. */
  function SplitEnvPaths(s: string): (r: seq<string>)
    ensures |r| >= 1
  {
    Split(s, ':')
  }

  function ExeDirs(env: Env): seq<string> {
    if env.currentExe.Some? then [JoinPath(ExeDir(env.currentExe.value), PLUGINS_DIR)] else []
  }

  function HomeDirs(env: Env, exeName: string): seq<string> {
    if env.xdgDataHome.Some? then [DataPluginDir(env.xdgDataHome.value, exeName)] else []
  }

  function DataDirs(env: Env, exeName: string): (r: seq<string>)
    ensures env.xdgDataDirs.None? ==> r == []
    ensures env.xdgDataDirs.Some? ==> |r| == |SplitEnvPaths(env.xdgDataDirs.value)|
    ensures env.xdgDataDirs.Some? ==> forall i :: 0 <= i < |r| ==>
      r[i] == DataPluginDir(SplitEnvPaths(env.xdgDataDirs.value)[i], exeName)
  {
    match env.xdgDataDirs
    case None => []
    case Some(s) => DataDirsOf(SplitEnvPaths(s), exeName)
  }

  function DataDirsOf(bases: seq<string>, exeName: string): (r: seq<string>)
    ensures |r| == |bases|
    ensures forall i :: 0 <= i < |bases| ==> r[i] == DataPluginDir(bases[i], exeName)
    decreases |bases|
  {
    if bases == [] then []
    else DataDirsOf(bases[..|bases| - 1], exeName) + [DataPluginDir(bases[|bases| - 1], exeName)]
  }

  /** The search directories: the executable's, the XDG data home's, then the XDG data directories'. */
  function PluginDirs(env: Env, exeName: string): seq<string> {
    ExeDirs(env) + HomeDirs(env, exeName) + DataDirs(env, exeName)
  }

  /**
   * The search directories come in order: the executable's directory (when
   * the executable's path is known), then the XDG data home, then each XDG
   * data directory.
   */
  lemma PluginDirsOrder(env: Env, exeName: string)
    ensures var dirs := PluginDirs(env, exeName);
      && |dirs| == |ExeDirs(env)| + |HomeDirs(env, exeName)| + |DataDirs(env, exeName)|
      && (env.currentExe.Some? ==> dirs[0] == JoinPath(ExeDir(env.currentExe.value), PLUGINS_DIR))
      && (env.xdgDataHome.Some? ==> dirs[|ExeDirs(env)|] == DataPluginDir(env.xdgDataHome.value, exeName))
      && (forall i :: 0 <= i < |DataDirs(env, exeName)| ==>
            dirs[|ExeDirs(env)| + |HomeDirs(env, exeName)| + i] == DataDirs(env, exeName)[i])
  {
  }

  /** `PluginStore::get_plugin_dirs`. */
  method GetPluginDirs(env: Env, exeName: string) returns (dirs: seq<string>)
    ensures dirs == PluginDirs(env, exeName)
  {
    dirs := [];
    match env.currentExe {
      case Some(path) =>
        dirs := dirs + [JoinPath(ExeDir(path), PLUGINS_DIR)];
      case None =>
    }
    assert dirs == ExeDirs(env);
    if env.xdgDataHome.Some? {
      dirs := dirs + [DataPluginDir(env.xdgDataHome.value, exeName)];
    }
    assert dirs == ExeDirs(env) + HomeDirs(env, exeName);
    if env.xdgDataDirs.Some? {
      var bases := SplitEnvPaths(env.xdgDataDirs.value);
      var prefix := dirs;
      var i := 0;
      while i < |bases|
        invariant 0 <= i <= |bases|
        invariant dirs == prefix + DataDirsOf(bases[..i], exeName)
      {
        assert bases[..i + 1][..i] == bases[..i];
        dirs := dirs + [DataPluginDir(bases[i], exeName)];
        i := i + 1;
      }
      assert bases[..i] == bases;
    }
  }

  // ----------------------------------------------------------- candidates

  /** `MEDIA_EXTENSION`: the extension of a media plugin's library file. */
  const MEDIA_EXTENSION: string := "media"

  /**
   * An entry of a plugin directory is attempted as a media plugin iff it has
   * a file stem and its extension is exactly `media`.
   */
  predicate IsMediaCandidate(path: string) {
    FileStem(path).Some? && Extension(path) == W.Some(MEDIA_EXTENSION)
  }

  /** A file name is attempted iff it is a non-empty stem, a dot and `media`. */
  lemma MediaCandidateByName(dir: string, name: string)
    requires IsComponent(name)
    ensures IsMediaCandidate(JoinPath(dir, name)) <==> ExtensionOf(name) == W.Some(MEDIA_EXTENSION)
    ensures IsMediaCandidate(JoinPath(dir, name)) ==>
      name == FileStem(JoinPath(dir, name)).value + "." + MEDIA_EXTENSION && |FileStem(JoinPath(dir, name)).value| > 0
  {
    FileNameOfJoin(dir, name);
    StemAndExtension(name);
  }

  /** `music.media` is attempted, under the name `music`. */
  lemma MediaCandidateExample(dir: string)
    ensures IsMediaCandidate(JoinPath(dir, "music.media"))
    ensures FileStem(JoinPath(dir, "music.media")) == W.Some("music")
  {
    MusicMediaName();
    FileNameOfJoin(dir, "music.media");
  }

  lemma MusicMediaName()
    ensures IsComponent("music.media")
    ensures StemOf("music.media") == "music" && ExtensionOf("music.media") == W.Some("media")
  {
    var n := "music.media";
    assert n[5] == '.' && n != "." && n != "..";
    LastIndexOfAt(n, '.', 5);
    assert n[..5] == "music" && n[6..] == "media";
  }

  /** A dot-file with no other dot, such as `.media`, has no extension, so it is never attempted. */
  lemma DotFileIsIgnored(dir: string, rest: string)
    requires |rest| > 0 && SEP !in rest && '.' !in rest
    ensures !IsMediaCandidate(JoinPath(dir, "." + rest))
  {
    var name := "." + rest;
    assert name[1] == rest[0] != '.';
    assert forall i :: 0 < i < |name| ==> name[i] == rest[i - 1];
    MediaCandidateByName(dir, name);
    DotFileHasNoExtension(rest);
  }

  /** The extension is what follows the last dot: `music.media.bak` is not attempted. */
  lemma BackupIsIgnored(dir: string)
    ensures !IsMediaCandidate(JoinPath(dir, "music.media.bak"))
  {
    var n := "music.media.bak";
    MediaCandidateByName(dir, n);
    assert n[11] == '.' && n[12..] == "bak";
    LastIndexOfAt(n, '.', 11);
  }
}
