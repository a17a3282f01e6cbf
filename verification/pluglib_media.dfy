/**
 * The media-plugin vocabulary of the plugin library
 * (server/plugins/lib/src/media.rs): the host's library version, the field
 * types and their SQL types, the tagged value union with its constructors and
 * conversions, and the descriptor that `make_plugin!` generates.
 *
 * Inside a value or a descriptor, an `FfiString` is represented by its text
 * and an `FfiBoxedSlice` by its elements.
 */
module PluglibMedia {
  import W = Wrappers
  import opened StdInt
  import opened StdStr
  import TT = TimeTypes
  import SJ = SqlJson
  import opened PluglibVersion
  import opened PluglibFfi

  /** `PLUGLIB_VERSION`: 0.2.0. */
  const PLUGLIB_VERSION: Version := Version(0, 2, 0)

  /** A plugin's library version passes the host's check iff it is a 0.2.x version. */
  lemma HostAcceptsExactly(v: Version)
    ensures IsCompatible(PLUGLIB_VERSION, v) <==> v.major == 0 && v.minor == 2
  {
  }

  // ----------------------------------------------------------- field types

  /** `MetadataFieldType`. */
  datatype MetadataFieldType = Integer | Real | Text | Blob | Boolean | Date | Time

  /** `MetadataFieldType::to_sql`: the SQL column type of a field type. */
  function TypeToSql(t: MetadataFieldType): (r: string)
    ensures r == "INTEGER" <==> t == Integer || t == Boolean
    ensures r == "REAL" <==> t == Real
    ensures r == "TEXT" <==> t == Text || t == Date || t == Time
    ensures r == "BLOB" <==> t == Blob
  {
    match t
    case Integer | Boolean => "INTEGER"
    case Real => "REAL"
    case Text | Date | Time => "TEXT"
    case Blob => "BLOB"
  }

  // ---------------------------------------------------------------- values

  /** `MetadataFieldValue`. */
  datatype MetadataFieldValue =
    | IntegerValue(i: i64)
    | RealValue(f: SJ.F64)
    | TextValue(text: string)
    | BlobValue(bytes: seq<u8>)
    | BooleanValue(b: bool)
    | DateValue(day: i32)
    | TimeValue(time: FfiTime)
    | ListValue(items: seq<MetadataFieldValue>)

  /** Every text in the value, lists included, is free of nul (an `FfiString` invariant). */
  predicate NulFree(v: MetadataFieldValue) {
    match v
    case TextValue(s) => NUL !in s
    case ListValue(items) => forall i :: 0 <= i < |items| ==> NulFree(items[i])
    case _ => true
  }

  /**
   * `TryFrom<&str>` and `TryFrom<Box<str>>`: a text value, failing exactly
   * when `FfiString::new` does, that is when the text holds a nul.
   */
  function TextFromStr(s: string): (r: W.Result<MetadataFieldValue, NulError>)
    ensures r.Ok? <==> NUL !in s
    ensures r.Ok? ==> r.value == TextValue(s) && NulFree(r.value)
    ensures r.Err? ==> ReportsFirstNul(s, r.error)
  {
    match CStringNew(s)
    case Ok(_) => W.Ok(TextValue(s))
    case Err(e) => W.Err(e)
  }

  /** `From<FfiString>`: the text the string holds. */
  method TextFromFfiString(s: FfiString) returns (v: MetadataFieldValue)
    requires s.Valid()
    ensures v.TextValue? && v.text == s.Text() && NulFree(v)
  {
    var text := s.ToStr();
    v := TextValue(text);
  }

  /** `From<Date>`: the date's Julian day number. */
  function DateFromDate(d: TT.Date): (v: MetadataFieldValue)
    ensures v.DateValue? && ToDate(FfiDate(v.day)) == W.Returns(d)
  {
    DateValue(d)
  }

  /** `From<Time>`: through `FfiTime`, so the nanoseconds are dropped. */
  function TimeFromTime(t: TT.ValidTime): (v: MetadataFieldValue)
    ensures v.TimeValue? && ToTime(v.time) == t.(nanosecond := 0)
  {
    TimeValue(FromTime(t))
  }

  /** Whether a float is finite: its exponent bits are not all set. */
  predicate IsFinite(f: SJ.F64) {
    (f.bits >> 52) & 0x7FF != 0x7FF
  }

  /** The JSON number of a float, as serde_json makes it: `null` unless finite. */
  function FloatToJson(f: SJ.F64): (r: SJ.Json)
    ensures r.JNull? <==> !IsFinite(f)
  {
    if IsFinite(f) then SJ.JReal(f) else SJ.JNull
  }

  function BytesToJson(bytes: seq<u8>): (r: SJ.Json)
    ensures r.JArray? && |r.items| == |bytes|
    ensures forall i :: 0 <= i < |bytes| ==> r.items[i] == SJ.JInt(bytes[i])
  {
    SJ.JArray(seq(|bytes|, i requires 0 <= i < |bytes| => SJ.JInt(bytes[i])))
  }

  /** `Serialize`: every variant serialises, a list as the array of its items' serialisations. */
  function Serialize(v: MetadataFieldValue): (r: SJ.Json)
    ensures v.ListValue? <==> r.JArray? && !v.BlobValue?
    decreases v
  {
    match v
    case IntegerValue(i) => SJ.JInt(i)
    case RealValue(f) => FloatToJson(f)
    case TextValue(s) => SJ.JString(s)
    case BlobValue(bytes) => BytesToJson(bytes)
    case BooleanValue(b) => SJ.JBool(b)
    case DateValue(day) => SJ.JInt(day)
    case TimeValue(t) => SJ.JSerTime(ToTime(t))
    case ListValue(items) => SJ.JArray(seq(|items|, i requires 0 <= i < |items| => Serialize(items[i])))
  }

  /** The SQL integer of a boolean. */
  function BoolToSql(b: bool): int {
    if b then 1 else 0
  }

  /**
   * `ToSql`: fails only where the ISO formatter does, on a time. A date binds
   * its raw day number; a blob and a list bind the JSON text of their
   * serialisation.
   */
  function ToSql(v: MetadataFieldValue, iso: IsoFormatter): (r: W.Fallible<SJ.SqlValue>)
    ensures r.Panics? <==> v.TimeValue? && !iso.formatsTime
    ensures r.Returns? ==> (r.value.JsonText? <==> v.BlobValue? || v.ListValue?)
    ensures r.Returns? && r.value.JsonText? ==> r.value.json == Serialize(v)
  {
    match v
    case IntegerValue(i) => W.Returns(SJ.Integer(i))
    case RealValue(f) => W.Returns(SJ.Real(f))
    case TextValue(s) => W.Returns(SJ.Text(s))
    case BlobValue(_) => W.Returns(SJ.JsonText(Serialize(v)))
    case BooleanValue(b) => W.Returns(SJ.Integer(BoolToSql(b)))
    case DateValue(day) => W.Returns(SJ.Integer(day))
    case TimeValue(t) => TimeToValue(t, iso)
    case ListValue(_) => W.Returns(SJ.JsonText(Serialize(v)))
  }

  /** `ToSql for Option<MetadataFieldValue>`: `NULL` for `None`. */
  function OptionToSql(o: W.Option<MetadataFieldValue>, iso: IsoFormatter): (r: W.Fallible<SJ.SqlValue>)
    ensures r.Panics? <==> o.Some? && ToSql(o.value, iso).Panics?
    ensures r.Returns? ==> (r.value.Null? <==> o.None?)
  {
    match o
    case None => W.Returns(SJ.Null)
    case Some(v) => ToSql(v, iso)
  }

  /**
   * `From<MetadataFieldValue> for Value`: panics on a list (`unimplemented!`),
   * on a day number outside the date range, and where the ISO formatter fails.
   */
  function ToValue(v: MetadataFieldValue, iso: IsoFormatter): (r: W.Fallible<SJ.SqlValue>)
    ensures r.Panics? <==>
      v.ListValue? || (v.DateValue? && (!TT.InDateRange(v.day) || !iso.formatsDate))
      || (v.TimeValue? && !iso.formatsTime)
  {
    match v
    case IntegerValue(i) => W.Returns(SJ.Integer(i))
    case RealValue(f) => W.Returns(SJ.Real(f))
    case TextValue(s) => W.Returns(SJ.Text(s))
    case BlobValue(bytes) => W.Returns(SJ.Blob(bytes))
    case BooleanValue(b) => W.Returns(SJ.Integer(BoolToSql(b)))
    case DateValue(day) => DateToValue(FfiDate(day), iso)
    case TimeValue(t) => TimeToValue(t, iso)
    case ListValue(_) => W.Panics
  }

  /**
   * `From<MetadataFieldValue> for serde_json::Value`: panics on a list, on a
   * day number outside the date range, and where the ISO formatter fails.
   */
  function ToJson(v: MetadataFieldValue, iso: IsoFormatter): (r: W.Fallible<SJ.Json>)
    ensures r.Panics? <==>
      v.ListValue? || (v.DateValue? && (!TT.InDateRange(v.day) || !iso.formatsDate))
      || (v.TimeValue? && !iso.formatsTime)
  {
    match v
    case IntegerValue(i) => W.Returns(SJ.JInt(i))
    case RealValue(f) => W.Returns(FloatToJson(f))
    case TextValue(s) => W.Returns(SJ.JString(s))
    case BlobValue(bytes) => W.Returns(BytesToJson(bytes))
    case BooleanValue(b) => W.Returns(SJ.JBool(b))
    case DateValue(day) => DateToJson(FfiDate(day), iso)
    case TimeValue(t) => TimeToJson(t, iso)
    case ListValue(_) => W.Panics
  }

  /**
   * The two SQL conversions agree on integers, floats, texts, booleans and
   * times. They differ on dates (ISO text against the raw day number), on
   * blobs (bytes against JSON text) and on lists (a panic against JSON text).
   */
  lemma ToSqlAgainstToValue(v: MetadataFieldValue, iso: IsoFormatter)
    ensures !(v.DateValue? || v.BlobValue? || v.ListValue?) ==> ToValue(v, iso) == ToSql(v, iso)
    ensures v.DateValue? && TT.InDateRange(v.day) && iso.formatsDate ==>
      ToValue(v, iso) == W.Returns(SJ.IsoDateText(v.day)) && ToSql(v, iso) == W.Returns(SJ.Integer(v.day))
    ensures v.DateValue? ==> ToSql(v, iso) == W.Returns(SJ.Integer(v.day))
    ensures v.BlobValue? ==> ToValue(v, iso) == W.Returns(SJ.Blob(v.bytes)) && ToSql(v, iso).value.JsonText?
    ensures v.ListValue? ==> ToValue(v, iso).Panics? && ToSql(v, iso).value.JsonText?
  {
  }

  /**
   * The JSON conversion against the serialisation: they agree on integers,
   * floats, texts, blobs and booleans. They differ on dates (an ISO string
   * against the day number), on times (an ISO string against the time's own
   * serialisation) and on lists (a panic against the array of the items).
   */
  lemma ToJsonAgainstSerialize(v: MetadataFieldValue, iso: IsoFormatter)
    ensures !(v.DateValue? || v.TimeValue? || v.ListValue?) ==> ToJson(v, iso) == W.Returns(Serialize(v))
    ensures v.DateValue? && TT.InDateRange(v.day) && iso.formatsDate ==>
      ToJson(v, iso) == W.Returns(SJ.JIsoDate(v.day)) && Serialize(v) == SJ.JInt(v.day)
    ensures v.TimeValue? && iso.formatsTime ==>
      ToJson(v, iso) == W.Returns(SJ.JIsoTime(ToTime(v.time))) && Serialize(v) == SJ.JSerTime(ToTime(v.time))
    ensures v.ListValue? ==> ToJson(v, iso).Panics? && Serialize(v).JArray?
  {
  }

  /** The field type a value other than a list belongs to. */
  function TypeOfScalar(v: MetadataFieldValue): MetadataFieldType
    requires !v.ListValue?
  {
    match v
    case IntegerValue(_) => Integer
    case RealValue(_) => Real
    case TextValue(_) => Text
    case BlobValue(_) => Blob
    case BooleanValue(_) => Boolean
    case DateValue(_) => Date
    case TimeValue(_) => Time
  }

  /**
   * The values against the columns their fields get: `Value` stores every
   * value other than a list in the storage class its type's column names, and
   * so does `ToSql` except for a date, bound as its day number into a TEXT
   * column, and a blob, bound as JSON text into a BLOB column.
   */
  lemma ValueFitsColumnType(v: MetadataFieldValue, iso: IsoFormatter)
    ensures !v.ListValue? && ToValue(v, iso).Returns? ==>
      SJ.StorageClass(ToValue(v, iso).value) == TypeToSql(TypeOfScalar(v))
    ensures !(v.DateValue? || v.BlobValue? || v.ListValue?) && ToSql(v, iso).Returns? ==>
      SJ.StorageClass(ToSql(v, iso).value) == TypeToSql(TypeOfScalar(v))
    ensures v.DateValue? ==> SJ.StorageClass(ToSql(v, iso).value) == "INTEGER" != TypeToSql(Date)
    ensures v.BlobValue? ==> SJ.StorageClass(ToSql(v, iso).value) == "TEXT" != TypeToSql(Blob)
  {
  }

  /** A list serialises item by item, so nested lists give nested arrays. */
  lemma {:induction false} SerializeList(items: seq<MetadataFieldValue>, i: nat)
    requires i < |items|
    ensures Serialize(ListValue(items)).JArray?
    ensures |Serialize(ListValue(items)).items| == |items|
    ensures Serialize(ListValue(items)).items[i] == Serialize(items[i])
  {
  }

  // ------------------------------------------------------------ descriptor

  /** `MetadataField`. */
  datatype MetadataField = MetadataField(name: FfiStr, ident: FfiStr, ty: MetadataFieldType, isList: bool)

  /** `Media`: the description a plugin returns from `describe_media`. */
  datatype Media = Media(name: FfiStr, ident: FfiStr, fields: seq<MetadataField>)

  /**
   * A token after the colon of a field declaration: the name of a field type,
   * the `list` keyword, or any other identifier.
   */
  datatype Token = TypeName(ty: MetadataFieldType) | ListKeyword | OtherIdent(spelling: string)

  /** One field declaration of `make_plugin!`: `ident "Name": Type` or `ident "Name": Type list`. */
  datatype FieldDecl = FieldDecl(ident: string, name: string, typeTokens: seq<Token>)

  /** A whole `make_plugin!(ident "Name"; fields…)` invocation. */
  datatype PluginDecl = PluginDecl(ident: string, name: string, fields: seq<FieldDecl>)

  /** The expansion is rejected by the compiler. */
  datatype CompileError = NoMacroArmMatches(field: string) | UnknownFieldType(field: string)

  /** A Rust identifier, as `stringify!` spells it, holds no nul. */
  predicate IsIdent(s: string) {
    |s| > 0 && NUL !in s
  }

  /**
   * The two arms of `new_metadata_field!` whose expansion compiles: a field
   * type alone, or a field type followed by `list`.
   */
  predicate WellFormedTokens(tokens: seq<Token>) {
    && (|tokens| == 1 || (|tokens| == 2 && tokens[1] == ListKeyword))
    && tokens[0].TypeName?
  }

  /** `new_metadata_field!` on a declaration that matches one of its arms. */
  function FieldOf(d: FieldDecl): MetadataField
    requires IsIdent(d.ident) && WellFormedTokens(d.typeTokens)
  {
    MetadataField(NewFfiStr(d.name), NewFfiStr(d.ident), d.typeTokens[0].ty, |d.typeTokens| == 2)
  }

  /**
   * The generated field is identified by the identifier's spelling, named by
   * the literal, of the type named, and a list iff `list` follows the type.
   */
  lemma FieldOfSpec(d: FieldDecl)
    requires IsIdent(d.ident) && WellFormedTokens(d.typeTokens)
    ensures FfiStrToStr(FieldOf(d).ident) == d.ident
    ensures FieldOf(d).name == NewFfiStr(d.name)
    ensures d.typeTokens[0] == TypeName(FieldOf(d).ty)
    ensures FieldOf(d).isList <==> d.typeTokens == [TypeName(FieldOf(d).ty), ListKeyword]
  {
    NewFfiStrSpec(d.ident);
  }

  /**
   * `new_metadata_field!`: the first arm takes one token, the second a token
   * and `list`; anything else matches no arm, and a token that is not a field
   * type's name does not resolve.
   */
  function FieldFromDecl(d: FieldDecl): (r: W.Result<MetadataField, CompileError>)
    requires IsIdent(d.ident)
    ensures r.Ok? <==> WellFormedTokens(d.typeTokens)
    ensures r.Ok? ==> r.value == FieldOf(d)
  {
    var t := d.typeTokens;
    if |t| == 0 || |t| > 2 || (|t| == 2 && t[1] != ListKeyword) then W.Err(NoMacroArmMatches(d.ident))
    else if !t[0].TypeName? then W.Err(UnknownFieldType(d.ident))
    else W.Ok(MetadataField(NewFfiStr(d.name), NewFfiStr(d.ident), t[0].ty, |t| == 2))
  }

  /** All field declarations are well formed. */
  predicate AllWellFormed(ds: seq<FieldDecl>) {
    forall i :: 0 <= i < |ds| ==> WellFormedTokens(ds[i].typeTokens)
  }

  /** The array literal of fields, in declaration order; one bad declaration rejects the whole expansion. */
  function FieldsFromDecls(ds: seq<FieldDecl>): (r: W.Result<seq<MetadataField>, CompileError>)
    requires forall i :: 0 <= i < |ds| ==> IsIdent(ds[i].ident)
    ensures r.Ok? <==> AllWellFormed(ds)
    ensures r.Ok? ==> |r.value| == |ds|
    ensures r.Ok? ==> forall i :: 0 <= i < |ds| ==> r.value[i] == FieldOf(ds[i])
    decreases |ds|
  {
    if ds == [] then W.Ok([])
    else
      match FieldFromDecl(ds[0])
      case Err(e) => W.Err(e)
      case Ok(f) =>
        var rest := FieldsFromDecls(ds[1..]);
        assert forall i :: 1 <= i < |ds| ==> ds[i] == ds[1..][i - 1];
        if rest.Err? then W.Err(rest.error)
        else
          var fs := [f] + rest.value;
          assert forall i :: 1 <= i < |ds| ==> fs[i] == rest.value[i - 1];
          W.Ok(fs)
  }

  /** The three exported symbols generated by `make_plugin!`. */
  datatype PluginExports = PluginExports(pluglibVersion: Version, pluginVersion: Version, media: Media)

  /** `plugin_version`: the package version parsed, or the default version when it does not parse. */
  function PluginVersionOf(pkgVersion: string): (r: Version)
    ensures Parse(pkgVersion).Ok? ==> r == Parse(pkgVersion).value
    ensures Parse(pkgVersion).Err? ==> r == Default
  {
    match Parse(pkgVersion)
    case Ok(v) => v
    case Err(_) => Default
  }

  /** `make_plugin!`, given the declaration and the package version string. */
  function MakePlugin(decl: PluginDecl, pkgVersion: string): (r: W.Result<PluginExports, CompileError>)
    requires IsIdent(decl.ident)
    requires forall i :: 0 <= i < |decl.fields| ==> IsIdent(decl.fields[i].ident)
    ensures r.Ok? <==> AllWellFormed(decl.fields)
    ensures r.Ok? ==> r.value.pluglibVersion == PLUGLIB_VERSION
    ensures r.Ok? ==> r.value.pluginVersion == PluginVersionOf(pkgVersion)
  {
    match FieldsFromDecls(decl.fields)
    case Err(e) => W.Err(e)
    case Ok(fs) =>
      W.Ok(PluginExports(PLUGLIB_VERSION, PluginVersionOf(pkgVersion),
        Media(NewFfiStr(decl.name), NewFfiStr(decl.ident), fs)))
  }

  /**
   * The generated descriptor lists the fields in declaration order, each
   * identified by its identifier's spelling, marked as a list iff `list`
   * follows its type, and of the type it names.
   */
  lemma MakePluginDescriptor(decl: PluginDecl, pkgVersion: string, i: nat)
    requires IsIdent(decl.ident)
    requires forall k :: 0 <= k < |decl.fields| ==> IsIdent(decl.fields[k].ident)
    requires AllWellFormed(decl.fields) && i < |decl.fields|
    ensures var m := MakePlugin(decl, pkgVersion).value.media;
      && FfiStrToStr(m.ident) == decl.ident
      && |m.fields| == |decl.fields|
      && FfiStrToStr(m.fields[i].ident) == decl.fields[i].ident
      && decl.fields[i].typeTokens[0] == TypeName(m.fields[i].ty)
      && (m.fields[i].isList <==> decl.fields[i].typeTokens == [TypeName(m.fields[i].ty), ListKeyword])
  {
    FieldOfSpec(decl.fields[i]);
    NewFfiStrSpec(decl.ident);
  }

  /**
   * A package version that does not parse makes the plugin version 0.0.0,
   * which no version is compatible with: such a plugin can never match a
   * stored record.
   */
  lemma UnparsableVersionIsPoison(decl: PluginDecl, pkgVersion: string, v: Version)
    requires IsIdent(decl.ident)
    requires forall k :: 0 <= k < |decl.fields| ==> IsIdent(decl.fields[k].ident)
    requires AllWellFormed(decl.fields) && Parse(pkgVersion).Err?
    ensures MakePlugin(decl, pkgVersion).value.pluginVersion == Default
    ensures !IsCompatible(MakePlugin(decl, pkgVersion).value.pluginVersion, v)
    ensures !IsCompatible(v, MakePlugin(decl, pkgVersion).value.pluginVersion)
  {
  }
}
