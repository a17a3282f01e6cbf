/**
 * The library records shared by the server and the client: the kind of
 * media a library holds and the extensions it indexes, the configuration
 * form, and the conversions between the API structs and the database rows,
 * which store the kind as an `i64`, the id as an `i64` and the root paths as
 * one `:`-separated string.
 */
module CommonLibrary {
  import opened Wrappers
  import opened StdInt
  import opened StdStr

  // ------------------------------------------------------------------ kinds

  /** `LibraryKind`, a `#[repr(u8)]` enum. */
  datatype LibraryKind = Image | Music

  /** The discriminant, `kind as u8`. */
  function KindToU8(k: LibraryKind): (r: u8)
    ensures r < 2
  {
    match k
    case Image => 0
    case Music => 1
  }

  /** The error of the derived `TryFrom<u8>`: the number that names no kind. */
  datatype KindError = KindError(number: u8)

  /** The derived `TryFrom<u8>`: 0 is `Image`, 1 is `Music`, anything else an error. */
  function KindFromU8(n: u8): (r: Result<LibraryKind, KindError>)
    ensures r.Ok? <==> n < 2
    ensures r.Err? ==> r.error == KindError(n)
  {
    if n == 0 then Ok(Image) else if n == 1 then Ok(Music) else Err(KindError(n))
  }

  /** The discriminant decodes back to the kind, and a decoded kind has that discriminant. */
  lemma KindRoundTrip(k: LibraryKind, n: u8)
    ensures KindFromU8(KindToU8(k)) == Ok(k)
    ensures KindFromU8(n).Ok? ==> KindToU8(KindFromU8(n).value) == n
  {
  }

  /** `(kind as u8).try_into()` on a stored `i64`: the low 8 bits are decoded. */
  function KindFromDb(kind: i64): (r: Result<LibraryKind, KindError>)
    ensures r.Ok? <==> kind % 256 < 2
    ensures r.Ok? ==> KindToU8(r.value) == kind % 256
  {
    KindFromU8(I64AsU8(kind))
  }

  /** The truncation lets 256 through as `Image` and 257 as `Music`; -1 is 255 and is rejected. */
  lemma KindFromDbTruncates()
    ensures KindFromDb(256) == Ok(Image) && KindFromDb(257) == Ok(Music)
    ensures KindFromDb(-1) == Err(KindError(255)) && KindFromDb(2) == Err(KindError(2))
  {
  }

  /** `LibraryKind::extensions`. */
  function Extensions(k: LibraryKind): (r: seq<string>)
    ensures |r| > 0
    ensures forall i :: 0 <= i < |r| ==> |r[i]| > 0 && '.' !in r[i]
  {
    match k
    case Image => ["jpg", "jpeg", "png"]
    case Music => ["mp3"]
  }

  /** The two kinds index disjoint extensions. */
  lemma ExtensionsDisjoint(e: string)
    ensures !(e in Extensions(Image) && e in Extensions(Music))
    ensures e in Extensions(Music) <==> e == "mp3"
  {
  }

  // ---------------------------------------------------------------- structs

  /** `RawLibraryConfig`: a configuration as submitted, without an id. */
  datatype RawLibraryConfig = RawLibraryConfig(name: string, kind: LibraryKind, paths: seq<string>)

  /** `LibraryConfig`: a stored configuration. */
  datatype LibraryConfig = LibraryConfig(id: u64, name: string, kind: LibraryKind, paths: seq<string>)

  /** `PartialLibrary`: a configuration without its paths. */
  datatype PartialLibrary = PartialLibrary(id: u64, name: string, kind: LibraryKind)

  /** `Library<M>`: a library with its media. */
  datatype Library<M> = Library(id: u64, name: string, kind: LibraryKind, media: seq<M>)

  /** The form field a submitted configuration fails on. */
  datatype FormError = EmptyName | NoPaths

  /**
   * The form's validation: a name of length at least one and at least one
   * path; every failing field is reported.
   */
  function ValidateForm(raw: RawLibraryConfig): (r: Result<RawLibraryConfig, seq<FormError>>)
    ensures r.Ok? <==> |raw.name| > 0 && |raw.paths| > 0
    ensures r.Ok? ==> r.value == raw
    ensures r.Err? ==> (EmptyName in r.error <==> raw.name == "") && (NoPaths in r.error <==> raw.paths == [])
  {
    var errors := (if raw.name == "" then [EmptyName] else []) + (if raw.paths == [] then [NoPaths] else []);
    if errors == [] then Ok(raw) else Err(errors)
  }

  /** `From<LibraryConfig> for RawLibraryConfig`: the id is dropped. */
  function RawFromConfig(c: LibraryConfig): (r: RawLibraryConfig)
    ensures r.name == c.name && r.kind == c.kind && r.paths == c.paths
  {
    RawLibraryConfig(c.name, c.kind, c.paths)
  }

  /** `From<LibraryConfig> for PartialLibrary`: the paths are dropped. */
  function PartialFromConfig(c: LibraryConfig): (r: PartialLibrary)
    ensures r.id == c.id && r.name == c.name && r.kind == c.kind
  {
    PartialLibrary(c.id, c.name, c.kind)
  }

  /** `Library::new`. */
  function LibraryNew<M>(lib: PartialLibrary, media: seq<M>): (r: Library<M>)
    ensures r.id == lib.id && r.name == lib.name && r.kind == lib.kind && r.media == media
  {
    Library(lib.id, lib.name, lib.kind, media)
  }

  // ------------------------------------------------------------- path lists

  const PATH_SEPARATOR: char := ':'

  /** `DbRawLibraryConfig::join_paths`. */
  function JoinPaths(paths: seq<string>): string {
    Join(paths, PATH_SEPARATOR)
  }

  /** `DbRawLibraryConfig::split_paths`. */
  function SplitPaths(paths: string): (r: seq<string>)
    ensures |r| >= 1
  {
    Split(paths, PATH_SEPARATOR)
  }

  /** No path of the list holds the separator. */
  predicate Separable(paths: seq<string>) {
    forall i :: 0 <= i < |paths| ==> PATH_SEPARATOR !in paths[i]
  }

  /** Splitting what was joined recovers a non-empty list whose paths hold no `:`. */
  lemma SplitJoinPaths(paths: seq<string>)
    requires |paths| >= 1 && Separable(paths)
    ensures SplitPaths(JoinPaths(paths)) == paths
  {
    SplitJoin(paths, PATH_SEPARATOR);
  }

  /** Joining what was split recovers every string. */
  lemma JoinSplitPaths(s: string)
    ensures JoinPaths(SplitPaths(s)) == s
  {
    JoinSplit(s, PATH_SEPARATOR);
  }

  /** The two are not inverse on all lists: the empty list comes back as one empty path, and a path with `:` as two. */
  lemma SplitJoinPathsLosses()
    ensures SplitPaths(JoinPaths([])) == [""]
    ensures SplitPaths(JoinPaths(["a:b"])) == ["a", "b"]
  {
    assert JoinPaths(["a:b"]) == "a" + [PATH_SEPARATOR] + "b";
    SplitAtSep("a", "b", PATH_SEPARATOR);
    SplitNoSep("b", PATH_SEPARATOR);
  }

  // --------------------------------------------------------- database rows

  /** `DbRawLibraryConfig`. */
  datatype DbRawLibraryConfig = DbRawLibraryConfig(name: string, kind: i64, paths: string)

  /** `DbLibraryConfig`. */
  datatype DbLibraryConfig = DbLibraryConfig(id: i64, name: string, kind: i64, paths: string)

  /** `DbPartialLibrary`. */
  datatype DbPartialLibrary = DbPartialLibrary(id: i64, name: string, kind: i64)

  /** `From<RawLibraryConfig> for DbRawLibraryConfig`. */
  function DbRawFromRaw(c: RawLibraryConfig): (r: DbRawLibraryConfig)
    ensures r.name == c.name && r.kind == KindToU8(c.kind) as int
    ensures JoinPaths(SplitPaths(r.paths)) == r.paths
  {
    JoinSplitPaths(JoinPaths(c.paths));
    DbRawLibraryConfig(c.name, KindToU8(c.kind), JoinPaths(c.paths))
  }

  /** `TryFrom<DbRawLibraryConfig> for RawLibraryConfig`: fails only on the kind. */
  function RawFromDbRaw(d: DbRawLibraryConfig): (r: Result<RawLibraryConfig, KindError>)
    ensures r.Ok? <==> KindFromDb(d.kind).Ok?
    ensures r.Ok? ==> r.value.name == d.name && r.value.kind == KindFromDb(d.kind).value
    ensures r.Ok? ==> JoinPaths(r.value.paths) == d.paths
  {
    JoinSplitPaths(d.paths);
    match KindFromDb(d.kind)
    case Err(e) => Err(e)
    case Ok(k) => Ok(RawLibraryConfig(d.name, k, SplitPaths(d.paths)))
  }

  /** `From<DbLibraryConfig> for DbRawLibraryConfig`: the id is dropped. */
  function DbRawFromDb(d: DbLibraryConfig): (r: DbRawLibraryConfig)
    ensures r.name == d.name && r.kind == d.kind && r.paths == d.paths
  {
    DbRawLibraryConfig(d.name, d.kind, d.paths)
  }

  /** `From<LibraryConfig> for DbLibraryConfig`: the id is reinterpreted as `i64`. */
  function DbFromConfig(c: LibraryConfig): (r: DbLibraryConfig)
    ensures I64AsU64(r.id) == c.id && r.name == c.name && KindFromDb(r.kind) == Ok(c.kind)
  {
    U64I64RoundTrip(c.id, 0);
    DbLibraryConfig(U64AsI64(c.id), c.name, KindToU8(c.kind), JoinPaths(c.paths))
  }

  /** `TryFrom<DbLibraryConfig> for LibraryConfig`: the id is reinterpreted as `u64`; fails only on the kind. */
  function ConfigFromDb(d: DbLibraryConfig): (r: Result<LibraryConfig, KindError>)
    ensures r.Ok? <==> KindFromDb(d.kind).Ok?
    ensures r.Ok? ==> U64AsI64(r.value.id) == d.id && r.value.name == d.name
    ensures r.Ok? ==> r.value.kind == KindFromDb(d.kind).value && JoinPaths(r.value.paths) == d.paths
  {
    U64I64RoundTrip(0, d.id);
    JoinSplitPaths(d.paths);
    match KindFromDb(d.kind)
    case Err(e) => Err(e)
    case Ok(k) => Ok(LibraryConfig(I64AsU64(d.id), d.name, k, SplitPaths(d.paths)))
  }

  /** `From<PartialLibrary> for DbPartialLibrary`. */
  function DbPartialFromPartial(p: PartialLibrary): (r: DbPartialLibrary)
    ensures I64AsU64(r.id) == p.id && r.name == p.name && KindFromDb(r.kind) == Ok(p.kind)
  {
    U64I64RoundTrip(p.id, 0);
    DbPartialLibrary(U64AsI64(p.id), p.name, KindToU8(p.kind))
  }

  /** `TryFrom<DbPartialLibrary> for PartialLibrary`. */
  function PartialFromDbPartial(d: DbPartialLibrary): (r: Result<PartialLibrary, KindError>)
    ensures r.Ok? <==> KindFromDb(d.kind).Ok?
    ensures r.Ok? ==> U64AsI64(r.value.id) == d.id && r.value.name == d.name && r.value.kind == KindFromDb(d.kind).value
  {
    U64I64RoundTrip(0, d.id);
    match KindFromDb(d.kind)
    case Err(e) => Err(e)
    case Ok(k) => Ok(PartialLibrary(I64AsU64(d.id), d.name, k))
  }

  /** `From<DbLibraryConfig> for DbPartialLibrary`: the paths are dropped. */
  function DbPartialFromDb(d: DbLibraryConfig): (r: DbPartialLibrary)
    ensures r.id == d.id && r.name == d.name && r.kind == d.kind
  {
    DbPartialLibrary(d.id, d.name, d.kind)
  }

  // ------------------------------------------------------------ round trips

  /**
   * A configuration survives storage exactly when its path list does: when
   * it is non-empty and no path holds `:`.
   */
  lemma ConfigRoundTrip(c: LibraryConfig)
    ensures ConfigFromDb(DbFromConfig(c)).Ok?
    ensures ConfigFromDb(DbFromConfig(c)).value == c <==> SplitPaths(JoinPaths(c.paths)) == c.paths
    ensures |c.paths| >= 1 && Separable(c.paths) ==> ConfigFromDb(DbFromConfig(c)) == Ok(c)
  {
    if |c.paths| >= 1 && Separable(c.paths) {
      SplitJoinPaths(c.paths);
    }
    U64I64RoundTrip(c.id, 0);
  }

  /** A stored row whose kind is a plain discriminant is what it decodes to, stored again. */
  lemma DbConfigRoundTrip(d: DbLibraryConfig)
    requires 0 <= d.kind < 2
    ensures ConfigFromDb(d).Ok? && DbFromConfig(ConfigFromDb(d).value) == d
  {
    U64I64RoundTrip(0, d.id);
  }

  /** A raw configuration survives storage under the same condition on its paths. */
  lemma RawRoundTrip(c: RawLibraryConfig)
    requires |c.paths| >= 1 && Separable(c.paths)
    ensures RawFromDbRaw(DbRawFromRaw(c)) == Ok(c)
  {
    SplitJoinPaths(c.paths);
  }

  /** A partial library always survives storage. */
  lemma PartialRoundTrip(p: PartialLibrary)
    ensures PartialFromDbPartial(DbPartialFromPartial(p)) == Ok(p)
  {
    U64I64RoundTrip(p.id, 0);
  }

  /** Dropping fields commutes with storing: either order gives the same row. */
  lemma DroppingCommutesWithStoring(c: LibraryConfig)
    ensures DbPartialFromDb(DbFromConfig(c)) == DbPartialFromPartial(PartialFromConfig(c))
    ensures DbRawFromDb(DbFromConfig(c)) == DbRawFromRaw(RawFromConfig(c))
  {
  }
}
