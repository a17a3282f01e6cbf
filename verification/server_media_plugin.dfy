/**
 * A media plugin as the server holds it (`server/src/plugins/media.rs`): the
 * checks made while its library is loaded, the name of its table, the column
 * definitions that table is rebuilt with, the INSERT statement the indexing
 * pass prepares, and the indexing pass itself, which brings the table in line
 * with the files found under the configured directories.
 */
module ServerMediaPlugin {
  import W = Wrappers
  import opened StdStr
  import opened StdPath
  import opened PluglibVersion
  import opened PluglibFfi
  import PM = PluglibMedia
  import opened ServerPlugins
  import SJ = SqlJson

  // ------------------------------------------------------------------ loading

  /** What a plugin's `extract_metadata` returns for a path. */
  type Extraction = FfiResult<seq<FfiOption<PM.MetadataFieldValue>>, ()>

  /**
   * A dynamic library as the loader sees it: for each symbol a media plugin
   * exports, `None` when the symbol does not resolve, otherwise what the
   * static holds or what the function returns.
   */
  datatype Library = Library(
    pluglibVersion: W.Option<Version>,
    pluginVersion: W.Option<Version>,
    describeMedia: W.Option<PM.Media>,
    supportedTypes: W.Option<seq<FfiStr>>,
    extractMetadata: W.Option<string -> Extraction>)

  /** `MediaPlugin`: the library, the plugin's name, its version and its media descriptor. */
  datatype MediaPlugin = MediaPlugin(lib: Library, name: string, version: Version, media: PM.Media)

  /** The two symbols the indexing pass looks up again resolve. */
  predicate HasIndexSymbols(p: MediaPlugin) {
    p.lib.supportedTypes.Some? && p.lib.extractMetadata.Some?
  }

  /** Every symbol resolves and the library was built against a compatible pluglib. */
  predicate Loadable(l: Library) {
    && l.pluglibVersion.Some? && IsCompatible(PM.PLUGLIB_VERSION, l.pluglibVersion.value)
    && l.pluginVersion.Some? && l.describeMedia.Some?
    && l.supportedTypes.Some? && l.extractMetadata.Some?
  }

  /**
   * `MediaPlugin::try_from`: open the library, name the plugin after the file
   * stem, check the pluglib version, then resolve the plugin's functions in
   * order; the first failure is the error.
   */
  function TryFrom(path: string, lib: W.Result<Library, LibError>): (r: W.Result<MediaPlugin, PluginLoadError>)
    requires lib.Ok? ==> FileStem(path).Some?
    ensures r.Ok? <==> lib.Ok? && Loadable(lib.value)
    ensures lib.Err? ==> r == W.Err(LibLoading(lib.error))
    ensures r.Ok? ==> && r.value.lib == lib.value
                      && r.value.name == FileStem(path).value
                      && r.value.version == lib.value.pluginVersion.value
                      && r.value.media == lib.value.describeMedia.value
                      && HasIndexSymbols(r.value)
  {
    match lib
    case Err(e) => W.Err(LibLoading(e))
    case Ok(l) =>
      var name := FileStem(path).value;
      if l.pluglibVersion.None? then W.Err(LibLoading(MissingSymbol("PLUGLIB_VERSION")))
      else if !IsCompatible(PM.PLUGLIB_VERSION, l.pluglibVersion.value) then
        W.Err(IncompatibleLibVersions(Media, name, l.pluglibVersion.value))
      else if l.pluginVersion.None? then W.Err(LibLoading(MissingSymbol("plugin_version")))
      else if l.describeMedia.None? then W.Err(LibLoading(MissingSymbol("describe_media")))
      else if l.supportedTypes.None? then W.Err(LibLoading(MissingSymbol("supported_types")))
      else if l.extractMetadata.None? then W.Err(LibLoading(MissingSymbol("extract_metadata")))
      else W.Ok(MediaPlugin(l, name, l.pluginVersion.value, l.describeMedia.value))
  }

  /**
   * The version check comes before any plugin function is looked up or
   * called: an incompatible library is rejected with its stem and version,
   * whatever else it exports, and only pluglib 0.2.x libraries load.
   */
  lemma IncompatibleRejectedFirst(path: string, l: Library)
    requires FileStem(path).Some?
    requires l.pluglibVersion.Some? && !IsCompatible(PM.PLUGLIB_VERSION, l.pluglibVersion.value)
    ensures TryFrom(path, W.Ok(l))
         == W.Err(IncompatibleLibVersions(Media, FileStem(path).value, l.pluglibVersion.value))
    ensures TryFrom(path, W.Ok(l))
         == TryFrom(path, W.Ok(Library(l.pluglibVersion, W.None, W.None, W.None, W.None)))
  {
  }

  /** A loaded plugin was built against pluglib 0.2. */
  lemma LoadedIsPluglib02(path: string, lib: W.Result<Library, LibError>)
    requires lib.Ok? ==> FileStem(path).Some?
    requires TryFrom(path, lib).Ok?
    ensures lib.value.pluglibVersion.value.major == 0 && lib.value.pluglibVersion.value.minor == 2
  {
    PM.HostAcceptsExactly(lib.value.pluglibVersion.value);
  }

  /** `MediaPlugin::table_ident`: `media_` followed by the descriptor's identifier. */
  function TableIdent(m: PM.Media): (t: string)
  {
    "media_" + FfiStrToStr(m.ident)
  }

  /** Two plugins share a table exactly when their descriptors have the same identifier. */
  lemma TableIdentInjective(a: PM.Media, b: PM.Media)
    ensures StartsWith(TableIdent(a), "media_")
    ensures TableIdent(a) == TableIdent(b) <==> FfiStrToStr(a.ident) == FfiStrToStr(b.ident)
  {
    if TableIdent(a) == TableIdent(b) {
      assert FfiStrToStr(a.ident) == TableIdent(a)[6..];
      assert FfiStrToStr(b.ident) == TableIdent(b)[6..];
    }
  }

  // ------------------------------------------------------------- statements

  const PATH_COLUMN: string := "path TEXT NOT NULL PRIMARY KEY ON CONFLICT REPLACE"
  const MTIME_COLUMN: string := "mtime TEXT NOT NULL"
  const LIST_COLUMN_TYPE: string := "TEXT NOT NULL DEFAULT (json_array())"
  const LIST_BIND: string := "ifnull(?, json_array())"

  /** The declared type of a field's column: a list is a JSON array in TEXT. */
  function ColumnType(f: PM.MetadataField): (t: string)
    ensures f.isList ==> t == LIST_COLUMN_TYPE
    ensures !f.isList ==> t == PM.TypeToSql(f.ty)
  {
    if f.isList then LIST_COLUMN_TYPE else PM.TypeToSql(f.ty)
  }

  /** A field's column definition: its identifier, a space, its type. */
  function ColumnDef(f: PM.MetadataField): string {
    FfiStrToStr(f.ident) + " " + ColumnType(f)
  }

  /** The column definitions of a media table: path, mtime, then one per field in order. */
  function Columns(fields: seq<PM.MetadataField>): (cols: seq<string>)
    ensures |cols| == 2 + |fields|
  {
    [PATH_COLUMN, MTIME_COLUMN] + W.MapSeq(fields, ColumnDef)
  }

  /** The key column first, then the mtime column, then one column per field, in order. */
  lemma ColumnsSpec(fields: seq<PM.MetadataField>)
    ensures Columns(fields)[0] == PATH_COLUMN && Columns(fields)[1] == MTIME_COLUMN
    ensures forall i :: 0 <= i < |fields| ==> Columns(fields)[2 + i] == ColumnDef(fields[i])
  {
  }

  /** The column list `update_database` builds, one field at a time. */
  method TableColumns(media: PM.Media) returns (cols: seq<string>)
    ensures cols == Columns(media.fields)
  {
    cols := [PATH_COLUMN, MTIME_COLUMN];
    assert cols == Columns([]);
    var i := 0;
    while i < |media.fields|
      invariant i <= |media.fields|
      invariant cols == Columns(media.fields[..i])
    {
      ColumnsPrefixStep(media.fields, i);
      cols := cols + [ColumnDef(media.fields[i])];
      i := i + 1;
    }
    assert media.fields[..i] == media.fields;
  }

  /** Extending the prefix of fields by one adds that field's column definition. */
  lemma ColumnsPrefixStep(fields: seq<PM.MetadataField>, i: nat)
    requires i < |fields|
    ensures Columns(fields[..i + 1]) == Columns(fields[..i]) + [ColumnDef(fields[i])]
  {
    var pre, f := fields[..i], fields[i];
    assert fields[..i + 1] == pre + [f];
    W.MapSeqSnoc(pre, f, ColumnDef);
  }

  /** How many `?` placeholders a bind expression holds. */
  function Placeholders(s: string): nat {
    if s == [] then 0 else Placeholders(s[..|s| - 1]) + (if s[|s| - 1] == '?' then 1 else 0)
  }

  lemma {:induction false} PlaceholdersAppend(a: string, b: string)
    ensures Placeholders(a + b) == Placeholders(a) + Placeholders(b)
    decreases |b|
  {
    if b == [] {
      assert a + b == a;
    } else {
      assert (a + b)[..|a + b| - 1] == a + b[..|b| - 1];
      PlaceholdersAppend(a, b[..|b| - 1]);
    }
  }

  lemma {:induction false} PlaceholdersAbsent(s: string)
    requires '?' !in s
    ensures Placeholders(s) == 0
    decreases |s|
  {
    if s != [] {
      assert '?' !in s[..|s| - 1] by {
        assert forall k :: 0 <= k < |s| - 1 ==> s[..|s| - 1][k] == s[k];
      }
      PlaceholdersAbsent(s[..|s| - 1]);
    }
  }

  lemma PlaceholdersOne(pre: string, post: string)
    requires '?' !in pre && '?' !in post
    ensures Placeholders(pre + "?" + post) == 1
  {
    PlaceholdersAbsent(pre);
    PlaceholdersAbsent(post);
    assert Placeholders("?") == 1 by { assert "?"[..0] == []; }
    PlaceholdersAppend(pre, "?");
    PlaceholdersAppend(pre + "?", post);
  }

  /** A field's bind expression: an absent list value becomes an empty JSON array. */
  function BindOf(f: PM.MetadataField): string {
    if f.isList then LIST_BIND else "?"
  }

  /** Each bind expression holds exactly one placeholder. */
  lemma BindHasOnePlaceholder(f: PM.MetadataField)
    ensures Placeholders(BindOf(f)) == 1
  {
    if f.isList {
      assert LIST_BIND == "ifnull(" + "?" + ", json_array())";
      PlaceholdersOne("ifnull(", ", json_array())");
    } else {
      PlaceholdersOne("", "");
      assert "" + "?" + "" == "?";
    }
  }

  /** A field's column name. */
  function FieldIdent(f: PM.MetadataField): string {
    FfiStrToStr(f.ident)
  }

  /** The column names of the INSERT: path, mtime, then each field's. */
  function InsertNames(fields: seq<PM.MetadataField>): (r: seq<string>)
    ensures |r| == 2 + |fields|
    ensures r[0] == "path" && r[1] == "mtime"
    ensures forall i :: 0 <= i < |fields| ==> r[2 + i] == FfiStrToStr(fields[i].ident)
  {
    ["path", "mtime"] + W.MapSeq(fields, FieldIdent)
  }

  /**
   * The bind expressions of the INSERT, one per column, each holding exactly
   * one placeholder: one value per field makes the parameter count match.
   */
  function InsertBinds(fields: seq<PM.MetadataField>): (r: seq<string>)
    ensures |r| == 2 + |fields|
    ensures r[0] == "?" && r[1] == "?"
    ensures forall i :: 0 <= i < |fields| ==> r[2 + i] == BindOf(fields[i])
  {
    ["?", "?"] + W.MapSeq(fields, BindOf)
  }

  /** Every bind expression of the INSERT holds exactly one placeholder. */
  lemma InsertPlaceholders(fields: seq<PM.MetadataField>)
    ensures forall i :: 0 <= i < |InsertBinds(fields)| ==> Placeholders(InsertBinds(fields)[i]) == 1
  {
    forall i | 0 <= i < |InsertBinds(fields)|
      ensures Placeholders(InsertBinds(fields)[i]) == 1
    {
      if i < 2 {
        assert Placeholders("?") == 1 by { assert "?"[..0] == []; }
      } else {
        BindHasOnePlaceholder(fields[i - 2]);
      }
    }
  }

  /** The column names and bind expressions of the INSERT `load_media` prepares. */
  method InsertStatement(media: PM.Media) returns (names: seq<string>, binds: seq<string>)
    ensures names == InsertNames(media.fields) && binds == InsertBinds(media.fields)
  {
    names := ["path", "mtime"];
    binds := ["?", "?"];
    assert names == InsertNames([]) && binds == InsertBinds([]);
    for i := 0 to |media.fields|
      invariant names == InsertNames(media.fields[..i]) && binds == InsertBinds(media.fields[..i])
    {
      InsertPrefixStep(media.fields, i);
      names := names + [FieldIdent(media.fields[i])];
      binds := binds + [BindOf(media.fields[i])];
    }
    assert media.fields[..|media.fields|] == media.fields;
  }

  /** Extending the prefix of fields by one extends both lists by that field's entries. */
  lemma InsertPrefixStep(fields: seq<PM.MetadataField>, i: nat)
    requires i < |fields|
    ensures InsertNames(fields[..i + 1]) == InsertNames(fields[..i]) + [FieldIdent(fields[i])]
    ensures InsertBinds(fields[..i + 1]) == InsertBinds(fields[..i]) + [BindOf(fields[i])]
  {
    var pre, f := fields[..i], fields[i];
    assert fields[..i + 1] == pre + [f];
    InsertNamesSnoc(pre, f);
    W.MapSeqSnoc(pre, f, BindOf);
  }

  lemma InsertNamesSnoc(fields: seq<PM.MetadataField>, f: PM.MetadataField)
    ensures InsertNames(fields + [f]) == InsertNames(fields) + [FieldIdent(f)]
  {
    W.MapSeqSnoc(fields, f, FieldIdent);
  }

  // ------------------------------------------------------------ candidates

  /**
   * An entry the directory walk yields: the file names from the walk's root
   * down to the entry itself (`None` for one that is not UTF-8), its full path
   * (`None` when not UTF-8), whether it is a directory (`None` when its
   * metadata cannot be read), and its last modification time.
   */
  datatype WalkEntry = WalkEntry(names: seq<W.Option<string>>, path: W.Option<string>, isDir: W.Option<bool>, mtime: int)

  /** `filter_entry`'s test on one name: UTF-8 and not starting with a dot. */
  predicate ShownName(n: W.Option<string>) {
    n.Some? && !(|n.value| > 0 && n.value[0] == '.')
  }

  /** The walk only reaches an entry when no name on the way to it is hidden. */
  predicate Reached(e: WalkEntry) {
    forall k :: 0 <= k < |e.names| ==> ShownName(e.names[k])
  }

  /** A file the pass considers: its path and last modification time. */
  datatype Candidate = Candidate(path: string, mtime: int)

  /**
   * The walk's two filters: a reached, readable, non-directory entry whose
   * name maps to a supported MIME type and whose path is UTF-8.
   */
  function Select(e: W.Result<WalkEntry, ()>, supported: set<string>, mime: string -> W.Option<string>): (r: W.Option<Candidate>)
    ensures r.Some? <==> && e.Ok? && Reached(e.value) && e.value.isDir == W.Some(false)
                         && |e.value.names| > 0
                         && mime(e.value.names[|e.value.names| - 1].value).Some?
                         && mime(e.value.names[|e.value.names| - 1].value).value in supported
                         && e.value.path.Some?
    ensures r.Some? ==> r.value == Candidate(e.value.path.value, e.value.mtime)
  {
    match e
    case Err(_) => W.None
    case Ok(en) =>
      if !Reached(en) || en.isDir != W.Some(false) || |en.names| == 0 then W.None
      else
        var m := mime(en.names[|en.names| - 1].value);
        if m.Some? && m.value in supported && en.path.Some? then W.Some(Candidate(en.path.value, en.mtime))
        else W.None
  }

  /** The candidates of a walk, in the order it yields them. */
  function Candidates(es: seq<W.Result<WalkEntry, ()>>, supported: set<string>, mime: string -> W.Option<string>): (cs: seq<Candidate>)
    ensures |cs| <= |es|
    ensures forall c :: c in cs <==> exists j :: 0 <= j < |es| && Select(es[j], supported, mime) == W.Some(c)
  {
    if es == [] then []
    else
      var init := Candidates(es[..|es| - 1], supported, mime);
      var last := Select(es[|es| - 1], supported, mime);
      var r := if last.Some? then init + [last.value] else init;
      assert forall j :: 0 <= j < |es| - 1 ==> es[..|es| - 1][j] == es[j];
      r
  }

  /** The MIME types a plugin supports, as a set. */
  function SupportedSet(types: seq<FfiStr>): (s: set<string>)
    ensures forall t :: t in s <==> exists i :: 0 <= i < |types| && FfiStrToStr(types[i]) == t
  {
    set i | 0 <= i < |types| :: FfiStrToStr(types[i])
  }

  /** A dot-file, or anything inside a dot-directory, never becomes a candidate. */
  lemma HiddenNeverCandidate(e: WalkEntry, k: nat, supported: set<string>, mime: string -> W.Option<string>)
    requires k < |e.names| && e.names[k].Some? && |e.names[k].value| > 0 && e.names[k].value[0] == '.'
    ensures Select(W.Ok(e), supported, mime).None?
  {
  }

  // ---------------------------------------------------------- the table

  /** A row of a media table: the file's modification time and its field values. */
  datatype Row = Row(mtime: int, values: seq<SJ.SqlValue>)

  /**
   * The ISO formatter the pass binds with: it renders a time on its own, so
   * binding a value never panics.
   */
  const BINDING_FORMATTER: IsoFormatter := IsoFormatter(true, true)

  /** The value bound for one extracted field: `NULL` for a missing one. */
  function Bound(o: FfiOption<PM.MetadataFieldValue>): (v: SJ.SqlValue)
    ensures v.Null? <==> o.FfiNone?
    ensures PM.OptionToSql(FfiToOption(o), BINDING_FORMATTER) == W.Returns(v)
  {
    PM.OptionToSql(FfiToOption(o), BINDING_FORMATTER).value
  }

  /** `Option<MetadataFieldValue>::to_sql` on each value an extraction returned. */
  function FieldValues(data: seq<FfiOption<PM.MetadataFieldValue>>): (vs: seq<SJ.SqlValue>)
    ensures |vs| == |data|
    ensures forall i :: 0 <= i < |data| ==> vs[i] == Bound(data[i])
  {
    if data == [] then [] else FieldValues(data[..|data| - 1]) + [Bound(data[|data| - 1])]
  }

  /**
   * What a pass holds fixed: the number of fields, the plugin's extractor, and
   * whether SQLite accepts a row the INSERT binds (its type checks).
   */
  datatype Indexer = Indexer(width: nat, extract: string -> Extraction, accepts: (string, Row) -> bool)

  function IndexerOf(p: MediaPlugin, accepts: (string, Row) -> bool): Indexer
    requires HasIndexSymbols(p)
  {
    Indexer(|p.media.fields|, p.lib.extractMetadata.value, accepts)
  }

  /** An extracted file waiting to be inserted: its path, the number of values, and its row. */
  datatype Pending = Pending(path: string, count: nat, row: Row)

  /** The pending insert a candidate yields, when extraction succeeds. */
  function Extracted(ix: Indexer, c: Candidate): (r: W.Option<Pending>)
    ensures r.Some? <==> ix.extract(c.path).FfiOk?
    ensures r.Some? ==> (r.value.path == c.path && r.value.row.mtime == c.mtime
                         && r.value.count == |r.value.row.values|)
  {
    match FfiToResult(ix.extract(c.path))
    case Err(_) => W.None
    case Ok(data) => W.Some(Pending(c.path, |data|, Row(c.mtime, FieldValues(data))))
  }

  /** The INSERT succeeds: one value per field (so one per placeholder) and SQLite accepts the row. */
  predicate Admitted(ix: Indexer, p: Pending) {
    p.count == ix.width && ix.accepts(p.path, p.row)
  }

  /** Executing the INSERT: the path's row is replaced on success, nothing changes on failure. */
  function Insert(ix: Indexer, rows: map<string, Row>, p: Pending): map<string, Row> {
    if Admitted(ix, p) then rows[p.path := p.row] else rows
  }

  /** The modification times `load_media` reads before it walks. */
  function Mtimes(rows: map<string, Row>): (m: map<string, int>)
    ensures m.Keys == rows.Keys
    ensures forall p :: p in m ==> m[p] == rows[p].mtime
  {
    map p | p in rows :: rows[p].mtime
  }

  /** A cached file that has not been modified since it was indexed. */
  predicate Skipped(cached: map<string, int>, c: Candidate) {
    c.path in cached && c.mtime <= cached[c.path]
  }

  /** The row a candidate gets, if any: skipped, unextractable and refused files get none. */
  function NewRow(ix: Indexer, cached: map<string, int>, c: Candidate): (r: W.Option<Row>)
    ensures Skipped(cached, c) ==> r.None?
    ensures !Skipped(cached, c) ==> (r.Some? <==> Extracted(ix, c).Some? && Admitted(ix, Extracted(ix, c).value))
    ensures r.Some? ==> r.value.mtime == c.mtime && |r.value.values| == ix.width
  {
    if Skipped(cached, c) then W.None
    else match Extracted(ix, c)
      case None => W.None
      case Some(p) => if Admitted(ix, p) then W.Some(p.row) else W.None
  }

  /** The state of a pass: the table so far, and the cached times not yet claimed by a candidate. */
  datatype PassState = PassState(rows: map<string, Row>, cached: map<string, int>)

  /** One candidate: it claims its cached time, and its new row (if any) replaces the old. */
  function Step(ix: Indexer, s: PassState, c: Candidate): PassState {
    PassState(
      match NewRow(ix, s.cached, c) case Some(row) => s.rows[c.path := row] case None => s.rows,
      s.cached - {c.path})
  }

  function Walk(ix: Indexer, s: PassState, cs: seq<Candidate>): PassState
    decreases |cs|
  {
    if cs == [] then s else Walk(ix, Step(ix, s, cs[0]), cs[1..])
  }

  /** The final DELETE: rows whose cached time no candidate claimed go. */
  function Finish(s: PassState): map<string, Row> {
    s.rows - s.cached.Keys
  }

  /** The table after a pass over the candidates `cs`. */
  function IndexSpec(ix: Indexer, rows: map<string, Row>, cs: seq<Candidate>): map<string, Row> {
    Finish(Walk(ix, PassState(rows, Mtimes(rows)), cs))
  }

  /** The paths of a list of candidates. */
  function Paths(cs: seq<Candidate>): (ps: set<string>)
    ensures forall i :: 0 <= i < |cs| ==> cs[i].path in ps
    ensures forall p :: p in ps ==> exists i :: 0 <= i < |cs| && cs[i].path == p
  {
    if cs == [] then {}
    else
      var ps := {cs[0].path} + Paths(cs[1..]);
      assert forall i :: 1 <= i < |cs| ==> cs[i] == cs[1..][i - 1];
      ps
  }

  /** No two candidates share a path. */
  predicate Distinct(cs: seq<Candidate>) {
    forall i, j :: 0 <= i < j < |cs| ==> cs[i].path != cs[j].path
  }

  lemma {:induction false} WalkSnoc(ix: Indexer, s: PassState, cs: seq<Candidate>, c: Candidate)
    ensures Walk(ix, s, cs + [c]) == Step(ix, Walk(ix, s, cs), c)
    decreases |cs|
  {
    if cs == [] {
      assert [c][1..] == [];
    } else {
      assert (cs + [c])[1..] == cs[1..] + [c];
      WalkSnoc(ix, Step(ix, s, cs[0]), cs[1..], c);
    }
  }

  /** A pass claims exactly the cached times of the candidates' paths. */
  lemma {:induction false} WalkCached(ix: Indexer, s: PassState, cs: seq<Candidate>)
    ensures Walk(ix, s, cs).cached == s.cached - Paths(cs)
    decreases |cs|
  {
    if cs == [] {
      assert s.cached - Paths(cs) == s.cached;
    } else {
      WalkCached(ix, Step(ix, s, cs[0]), cs[1..]);
      assert Paths(cs) == {cs[0].path} + Paths(cs[1..]);
      assert (s.cached - {cs[0].path}) - Paths(cs[1..]) == s.cached - Paths(cs);
    }
  }

  /** A walk never drops a row, only adds rows for candidates, and leaves others alone. */
  lemma {:induction false} WalkRows(ix: Indexer, s: PassState, cs: seq<Candidate>)
    ensures s.rows.Keys <= Walk(ix, s, cs).rows.Keys <= s.rows.Keys + Paths(cs)
    ensures forall p :: p in s.rows && p !in Paths(cs) ==> Walk(ix, s, cs).rows[p] == s.rows[p]
    decreases |cs|
  {
    if cs != [] {
      WalkRows(ix, Step(ix, s, cs[0]), cs[1..]);
      assert Paths(cs) == {cs[0].path} + Paths(cs[1..]);
    }
  }

  /** Whether a candidate gets a row depends on the cache only through its own path. */
  lemma NewRowLocal(ix: Indexer, m1: map<string, int>, m2: map<string, int>, c: Candidate)
    requires c.path in m1 <==> c.path in m2
    requires c.path in m1 ==> m1[c.path] == m2[c.path]
    ensures NewRow(ix, m1, c) == NewRow(ix, m2, c)
  {
  }

  /** Among distinct paths, a candidate's row is the one `NewRow` gives for it, or the old one. */
  lemma {:induction false} WalkAt(ix: Indexer, s: PassState, cs: seq<Candidate>, i: nat)
    requires Distinct(cs) && i < |cs|
    ensures var w := Walk(ix, s, cs).rows; var p := cs[i].path;
      match NewRow(ix, s.cached, cs[i])
      case Some(row) => p in w && w[p] == row
      case None => (p in w <==> p in s.rows) && (p in s.rows ==> w[p] == s.rows[p])
    decreases |cs|
  {
    var s1 := Step(ix, s, cs[0]);
    assert Distinct(cs[1..]);
    if i == 0 {
      assert cs[0].path !in Paths(cs[1..]);
      WalkRows(ix, s1, cs[1..]);
    } else {
      assert cs[1..][i - 1] == cs[i];
      assert cs[0].path != cs[i].path;
      NewRowLocal(ix, s.cached, s1.cached, cs[i]);
      WalkAt(ix, s1, cs[1..], i - 1);
    }
  }

  /** A walk in which no candidate gets a row leaves the rows as they were. */
  lemma {:induction false} NoChange(ix: Indexer, s: PassState, cs: seq<Candidate>)
    requires Distinct(cs)
    requires forall i :: 0 <= i < |cs| ==> NewRow(ix, s.cached, cs[i]).None?
    ensures Walk(ix, s, cs).rows == s.rows
    decreases |cs|
  {
    if cs != [] {
      var s1 := Step(ix, s, cs[0]);
      forall i | 0 <= i < |cs[1..]|
        ensures NewRow(ix, s1.cached, cs[1..][i]).None?
      {
        assert cs[1..][i] == cs[i + 1];
        NewRowLocal(ix, s.cached, s1.cached, cs[i + 1]);
      }
      assert Distinct(cs[1..]);
      NoChange(ix, s1, cs[1..]);
    }
  }

  /**
   * After a pass, the table holds exactly the files found: rows of files no
   * longer found are deleted, a found file keeps a row if it had one, and
   * every row belongs to a found file.
   */
  lemma IndexKeys(ix: Indexer, rows: map<string, Row>, cs: seq<Candidate>)
    ensures IndexSpec(ix, rows, cs).Keys <= Paths(cs)
    ensures rows.Keys * Paths(cs) <= IndexSpec(ix, rows, cs).Keys
    ensures forall p :: p in rows && p !in Paths(cs) ==> p !in IndexSpec(ix, rows, cs)
  {
    var s := PassState(rows, Mtimes(rows));
    WalkCached(ix, s, cs);
    WalkRows(ix, s, cs);
  }

  /**
   * The row of a found file after a pass over distinct paths: the new row when
   * the file was modified, extracted and accepted; otherwise its old row, if
   * it had one. A file not modified since it was indexed is not extracted.
   */
  lemma IndexRowAt(ix: Indexer, rows: map<string, Row>, cs: seq<Candidate>, i: nat)
    requires Distinct(cs) && i < |cs|
    ensures var t := IndexSpec(ix, rows, cs); var p := cs[i].path;
      match NewRow(ix, Mtimes(rows), cs[i])
      case Some(row) => p in t && t[p] == row
      case None => (p in t <==> p in rows) && (p in rows ==> t[p] == rows[p])
    ensures cs[i].path in rows && cs[i].mtime <= rows[cs[i].path].mtime ==>
      NewRow(ix, Mtimes(rows), cs[i]).None?
  {
    var s := PassState(rows, Mtimes(rows));
    WalkCached(ix, s, cs);
    WalkAt(ix, s, cs, i);
  }

  /** Every row has one value per field before a pass, so after it. */
  lemma {:induction false} WalkShape(ix: Indexer, s: PassState, cs: seq<Candidate>)
    requires forall p :: p in s.rows ==> |s.rows[p].values| == ix.width
    ensures forall p :: p in Walk(ix, s, cs).rows ==> |Walk(ix, s, cs).rows[p].values| == ix.width
    decreases |cs|
  {
    if cs != [] {
      WalkShape(ix, Step(ix, s, cs[0]), cs[1..]);
    }
  }

  /**
   * Indexing is idempotent: a second pass over the same files, unchanged
   * since the first, finds every file up to date and changes nothing.
   */
  lemma Idempotent(ix: Indexer, rows: map<string, Row>, cs: seq<Candidate>)
    requires Distinct(cs)
    ensures IndexSpec(ix, IndexSpec(ix, rows, cs), cs) == IndexSpec(ix, rows, cs)
  {
    var s := PassState(rows, Mtimes(rows));
    var t := IndexSpec(ix, rows, cs);
    IndexKeys(ix, rows, cs);
    WalkCached(ix, s, cs);
    forall i | 0 <= i < |cs|
      ensures NewRow(ix, Mtimes(t), cs[i]).None?
    {
      IndexRowAt(ix, rows, cs, i);
      match NewRow(ix, Mtimes(rows), cs[i])
      case Some(row) =>
        assert Skipped(Mtimes(t), cs[i]);
      case None =>
        NewRowLocal(ix, Mtimes(rows), Mtimes(t), cs[i]);
    }
    var s2 := PassState(t, Mtimes(t));
    NoChange(ix, s2, cs);
    WalkCached(ix, s2, cs);
    assert Walk(ix, s2, cs).cached.Keys == {};
  }

  /**
   * The `media_*` table of a plugin, updated in place by `load_media`.
   */
  class MediaTable {
    var rows: map<string, Row>

    constructor (rows: map<string, Row>)
      ensures this.rows == rows
    {
      this.rows := rows;
    }

    /**
     * `MediaPlugin::load_media`: read the cached modification times, extract
     * metadata from each modified candidate, insert what was extracted, then
     * delete the rows of cached files the walk did not find.
     */
    method LoadMedia(plugin: MediaPlugin, walk: seq<W.Result<WalkEntry, ()>>,
                     mime: string -> W.Option<string>, accepts: (string, Row) -> bool)
      requires HasIndexSymbols(plugin)
      modifies this
      ensures rows == IndexSpec(IndexerOf(plugin, accepts), old(rows),
                                Candidates(walk, SupportedSet(plugin.lib.supportedTypes.value), mime))
    {
      var supported := SupportedSet(plugin.lib.supportedTypes.value);
      var cs := Candidates(walk, supported, mime);
      Index(IndexerOf(plugin, accepts), cs);
    }

    /** The two phases of the pass and the final DELETE, over the candidates found. */
    method Index(ix: Indexer, cs: seq<Candidate>)
      modifies this
      ensures rows == IndexSpec(ix, old(rows), cs)
    {
      ghost var rows0 := rows;
      ghost var s0 := PassState(rows0, Mtimes(rows0));
      var cached := Mtimes(rows);
      var pending: seq<Pending> := [];
      for i := 0 to |cs|
        invariant rows == rows0
        invariant PassState(Apply(ix, rows0, pending), cached) == Walk(ix, s0, cs[..i])
      {
        var c := cs[i];
        var skip := c.path in cached && c.mtime <= cached[c.path];
        var next := pending;
        if !skip {
          match FfiToResult(ix.extract(c.path)) {
            case Ok(data) => next := pending + [Pending(c.path, |data|, Row(c.mtime, FieldValues(data)))];
            case Err(_) =>
          }
        }
        assert next == pending + Queued(ix, cached, c);
        ExtractionStep(ix, s0, cs, i, pending, cached);
        pending := next;
        cached := cached - {c.path};
      }
      assert cs[..|cs|] == cs;
      for j := 0 to |pending|
        invariant rows == Apply(ix, rows0, pending[..j])
      {
        var p := pending[j];
        if p.count == ix.width && ix.accepts(p.path, p.row) {
          rows := rows[p.path := p.row];
        }
        assert pending[..j + 1] == pending[..j] + [p];
      }
      assert pending[..|pending|] == pending;
      rows := rows - cached.Keys;
    }
  }

  /** One iteration of the extraction phase keeps it in step with the walk. */
  lemma ExtractionStep(ix: Indexer, s0: PassState, cs: seq<Candidate>, i: nat,
                       pending: seq<Pending>, cached: map<string, int>)
    requires i < |cs|
    requires PassState(Apply(ix, s0.rows, pending), cached) == Walk(ix, s0, cs[..i])
    ensures PassState(Apply(ix, s0.rows, pending + Queued(ix, cached, cs[i])), cached - {cs[i].path})
         == Walk(ix, s0, cs[..i + 1])
  {
    StepQueues(ix, s0.rows, pending, cached, cs[i]);
    WalkSnoc(ix, s0, cs[..i], cs[i]);
    assert cs[..i + 1] == cs[..i] + [cs[i]];
  }

  /** The pending inserts executed in order. */
  function Apply(ix: Indexer, rows: map<string, Row>, ps: seq<Pending>): map<string, Row> {
    if ps == [] then rows else Insert(ix, Apply(ix, rows, ps[..|ps| - 1]), ps[|ps| - 1])
  }

  /** What the extraction phase queues for a candidate: nothing when it is skipped or extraction fails. */
  function Queued(ix: Indexer, cached: map<string, int>, c: Candidate): seq<Pending> {
    if Skipped(cached, c) then []
    else match Extracted(ix, c) case Some(p) => [p] case None => []
  }

  /** Queuing a candidate and inserting later has the effect of the candidate's step. */
  lemma StepQueues(ix: Indexer, rows: map<string, Row>, pending: seq<Pending>, cached: map<string, int>, c: Candidate)
    ensures Step(ix, PassState(Apply(ix, rows, pending), cached), c)
         == PassState(Apply(ix, rows, pending + Queued(ix, cached, c)), cached - {c.path})
  {
    if Queued(ix, cached, c) == [] {
      assert pending + [] == pending;
    }
  }

  // ------------------------------------------------------------- rebuild

  /** The INSERT into `plugins` failed: a record with the same key exists. */
  datatype RebuildError = DuplicateRecord

  /**
   * `Plugin::update_database` for a media plugin, one transaction: drop and
   * recreate the plugin's table, then insert its record. The transaction is
   * all-or-nothing, so on failure the database is as it was.
   */
  function Rebuild(db: Db, p: MediaPlugin, rec: DbPlugin, policy: ConflictPolicy): (r: W.Result<Db, RebuildError>)
    ensures r.Err? <==> policy == Abort && KeyOf(rec) in db.plugins
    ensures r.Ok? ==> KeyOf(rec) in r.value.plugins && r.value.plugins[KeyOf(rec)] == Readable(rec.version)
    ensures r.Ok? ==> forall k :: k != KeyOf(rec) ==>
      (k in r.value.plugins <==> k in db.plugins) && (k in db.plugins ==> r.value.plugins[k] == db.plugins[k])
    ensures r.Ok? ==> TableIdent(p.media) in r.value.tables && r.value.tables[TableIdent(p.media)] == Columns(p.media.fields)
    ensures r.Ok? ==> forall t :: t != TableIdent(p.media) ==>
      (t in r.value.tables <==> t in db.tables) && (t in db.tables ==> r.value.tables[t] == db.tables[t])
  {
    if policy == Abort && KeyOf(rec) in db.plugins then W.Err(DuplicateRecord)
    else
      W.Ok(Db(db.plugins[KeyOf(rec) := Readable(rec.version)],
              db.tables[TableIdent(p.media) := Columns(p.media.fields)]))
  }

  /** After a successful rebuild with a real version, the next startup does not rebuild again. */
  lemma RebuildSettles(db: Db, p: MediaPlugin, rec: DbPlugin, policy: ConflictPolicy)
    requires Rebuild(db, p, rec, policy).Ok? && rec.version != Default
    ensures !NeedsRebuild(StoredVersions(Rebuild(db, p, rec, policy).value), rec)
  {
    var stored := StoredVersions(Rebuild(db, p, rec, policy).value);
    NeedsRebuildSpec(stored, rec, KeyOf(rec), rec.version);
  }

  /**
   * When the `plugins` table refuses an INSERT on an existing key, a plugin
   * whose stored version is incompatible is never rebuilt: the transaction
   * fails every time.
   */
  lemma StaleRecordBlocksRebuild(db: Db, p: MediaPlugin, rec: DbPlugin)
    requires KeyOf(rec) in StoredVersions(db) && NeedsRebuild(StoredVersions(db), rec)
    ensures Rebuild(db, p, rec, Abort).Err?
    ensures Rebuild(db, p, rec, Replace).Ok?
  {
  }
}
