/**
 * The music media plugin: its descriptor (title, and a list of artists), the
 * MIME types it reads off `ffprobe -formats`, and the two-slot metadata it
 * extracts with `ffprobe -show_format`. The `ffprobe` subprocess and the JSON
 * parser are given as inputs: the captured standard output of the format
 * listing, and the outcome of probing one file.
 */
module MediaMusic {
  import W = Wrappers
  import opened StdStr
  import opened StdPath
  import opened PluglibVersion
  import opened PluglibFfi
  import opened PluglibMedia
  import SM = ServerMediaPlugin

  // ------------------------------------------------------------ descriptor

  /** The `make_plugin!` invocation of the music plugin. */
  const MUSIC_DECL: PluginDecl := PluginDecl("music", "Music", [
    FieldDecl("title", "Title", [TypeName(Text)]),
    FieldDecl("artists", "Artists", [TypeName(Text), ListKeyword])
  ])

  /** The music descriptor: a `Text` title, then a `Text` list of artists, identified by their spellings. */
  lemma MusicDescriptor(pkgVersion: string)
    ensures MakePlugin(MUSIC_DECL, pkgVersion).Ok?
    ensures var m := MakePlugin(MUSIC_DECL, pkgVersion).value.media;
      && FfiStrToStr(m.ident) == "music"
      && |m.fields| == 2
      && FfiStrToStr(m.fields[0].ident) == "title" && m.fields[0].ty == Text && !m.fields[0].isList
      && FfiStrToStr(m.fields[1].ident) == "artists" && m.fields[1].ty == Text && m.fields[1].isList
  {
    assert AllWellFormed(MUSIC_DECL.fields);
    MakePluginDescriptor(MUSIC_DECL, pkgVersion, 0);
    MakePluginDescriptor(MUSIC_DECL, pkgVersion, 1);
  }

  // -------------------------------------------------------- supported types

  /** The format table: the MIME types of a format name `ffprobe` lists, for the formats the plugin knows. */
  function FormatMimes(format: string): (r: W.Option<seq<string>>)
    ensures r.Some? ==> |r.value| > 0
    ensures r.Some? ==> forall i :: 0 <= i < |r.value| ==> StartsWith(r.value[i], "audio/") && NUL !in r.value[i]
  {
    match format
    case "acc" => W.Some(["audio/aac"])
    case "adts" => W.Some(["audio/aac", "audio/aacp"])
    case "caf" => W.Some(["audio/x-caf"])
    case "flac" => W.Some(["audio/flac"])
    case "matroska,webm" => W.Some(["audio/webm"])
    case "mp3" => W.Some(["audio/mp3", "audio/mpeg"])
    case "ogg" => W.Some(["audio/ogg"])
    case "wav" => W.Some(["audio/wav", "audio/x-wav"])
    case _ => W.None
  }

  /** The table's key for AAC is spelled `acc`: the `aac` format `ffprobe` lists maps to nothing. */
  lemma AacKeySpelling()
    ensures FormatMimes("aac").None?
    ensures FormatMimes("acc") == W.Some(["audio/aac"])
    ensures FormatMimes("mp3") == W.Some(["audio/mp3", "audio/mpeg"])
    ensures FormatMimes("adts") == W.Some(["audio/aac", "audio/aacp"])
  {
  }

  /** The format name of one listing line: the second whitespace-separated token of the trimmed line. */
  function LineFormat(line: string): (r: W.Option<string>)
    ensures r.Some? ==> |r.value| > 0
  {
    var tokens := SplitAsciiWhitespace(Trim(line));
    if |tokens| < 2 then W.None else W.Some(tokens[1])
  }

  /** A line with a single token, such as the `--` separator, names no format. */
  lemma SeparatorLineNamesNothing()
    ensures LineFormat("--").None?
  {
    assert Trim("--") == "--";
    assert Word("--") == "--";
  }

  /** A typical listing line names the format in its second column. */
  lemma ListingLineExample()
    ensures LineFormat("D mp3") == W.Some("mp3")
  {
    var line := "D mp3";
    assert TrimStart(line) == line;
    assert TrimEnd(line) == line;
    assert Word(line) == "D";
    assert line[1..] == " mp3";
    assert line[1..][1..] == "mp3";
    assert Word("mp3") == "mp3";
    assert SplitAsciiWhitespace("mp3") == ["mp3"];
    assert SplitAsciiWhitespace(line) == ["D", "mp3"];
  }

  /** The MIME types one line contributes: those of its format, or none. */
  function LineMimes(line: string): seq<string> {
    match LineFormat(line)
    case None => []
    case Some(f) => if FormatMimes(f).Some? then FormatMimes(f).value else []
  }

  /** The flattened MIME lists of the lines, in line order, duplicates kept. */
  function MimesOf(lines: seq<string>): seq<string> {
    W.FlatMap(lines, LineMimes)
  }

  /** A MIME type is listed exactly when some line's format maps to it, and each is an `audio/` type. */
  lemma MimesOfMember(lines: seq<string>, m: string)
    ensures m in MimesOf(lines) <==> exists i :: 0 <= i < |lines| && m in LineMimes(lines[i])
    ensures m in MimesOf(lines) ==> StartsWith(m, "audio/") && NUL !in m
  {
    W.FlatMapMember(lines, LineMimes, m);
    if m in MimesOf(lines) {
      var i :| 0 <= i < |lines| && m in LineMimes(lines[i]);
      var k :| 0 <= k < |LineMimes(lines[i])| && LineMimes(lines[i])[k] == m;
    }
  }

  /** The lines contribute in order: a listing split in two gives the two results concatenated. */
  lemma MimesOfAppend(a: seq<string>, b: seq<string>)
    ensures MimesOf(a + b) == MimesOf(a) + MimesOf(b)
  {
    W.FlatMapAppend(a, b, LineMimes);
  }

  /** The format names of the listing after its four header lines, mapped through the table. */
  function ParseFormats(stdout: string): seq<string> {
    var lines := Lines(stdout);
    if |lines| <= 4 then [] else MimesOf(lines[4..])
  }

  /** The four header lines contribute nothing, whatever they hold; the lines after them contribute in order. */
  lemma HeaderSkipped(header: seq<string>, body: seq<string>, stdout: string)
    requires |header| == 4 && Lines(stdout) == header + body
    ensures ParseFormats(stdout) == MimesOf(body)
  {
    assert (header + body)[4..] == body;
  }

  /**
   * `supported_types`, given `ffprobe`'s standard output decoded as UTF-8, or
   * `None` when the process could not be spawned or its output is not UTF-8;
   * the exit status is not looked at.
   */
  function SupportedTypes(stdout: W.Option<string>): (r: seq<FfiStr>)
    ensures forall i :: 0 <= i < |r| ==> StartsWith(FfiStrToStr(r[i]), "audio/")
    ensures stdout.None? ==> r == []
    ensures stdout.Some? ==> |r| == |ParseFormats(stdout.value)|
    ensures stdout.Some? ==> forall i :: 0 <= i < |r| ==> FfiStrToStr(r[i]) == ParseFormats(stdout.value)[i]
  {
    match stdout
    case None => []
    case Some(out) =>
      var mimes := ParseFormats(out);
      var r := W.MapSeq(mimes, NewFfiStr);
      forall i | 0 <= i < |r|
        ensures FfiStrToStr(r[i]) == mimes[i] && StartsWith(mimes[i], "audio/")
      {
        if |Lines(out)| > 4 {
          MimesOfMember(Lines(out)[4..], mimes[i]);
        }
        NewFfiStrSpec(mimes[i]);
      }
      r
  }

  // ------------------------------------------------------- extract_metadata

  /** The tags `ffprobe -show_format` reports that the plugin reads (`ARTISTS` is an alias of `artists`). */
  datatype FfprobeTags = FfprobeTags(title: W.Option<string>, artist: W.Option<string>, artists: W.Option<string>)

  /**
   * Running `ffprobe` on a file: it could not be spawned, or it exited, with
   * or without success, and its output parsed as the expected JSON or not.
   */
  datatype Probe = SpawnFailed | Exited(success: bool, tags: W.Option<FfprobeTags>)

  /** The title slot: the title tag as a text value, when present and free of nul. */
  function TitleValue(tags: FfprobeTags): W.Option<MetadataFieldValue> {
    match tags.title
    case None => W.None
    case Some(s) => if TextFromStr(s).Ok? then W.Some(TextFromStr(s).value) else W.None
  }

  /**
   * `extract_metadata`: an error when `ffprobe` cannot be spawned, fails, or
   * prints something that does not parse; otherwise one slot per declared
   * field, the title and an artists slot that is always empty.
   */
  function ExtractMetadata(probe: Probe): (r: SM.Extraction)
    ensures r.FfiOk? <==> probe.Exited? && probe.success && probe.tags.Some?
    ensures r.FfiOk? ==> |r.value| == 2 && r.value[1] == FfiNone
    ensures r.FfiOk? ==> (r.value[0].FfiSome? <==>
      probe.tags.value.title.Some? && NUL !in probe.tags.value.title.value)
    ensures r.FfiOk? && r.value[0].FfiSome? ==> r.value[0].value == TextValue(probe.tags.value.title.value)
  {
    match probe
    case SpawnFailed => FfiErr(())
    case Exited(success, tags) =>
      if !success then FfiErr(())
      else match tags
        case None => FfiErr(())
        case Some(t) => FfiOk([OptionToFfi(TitleValue(t)), OptionToFfi(W.None)])
  }

  /** A successful extraction fills no more slots than the descriptor declares fields, and the title is text. */
  lemma ExtractionFitsDescriptor(probe: Probe, pkgVersion: string)
    requires ExtractMetadata(probe).FfiOk?
    ensures |ExtractMetadata(probe).value| == |MakePlugin(MUSIC_DECL, pkgVersion).value.media.fields|
    ensures ExtractMetadata(probe).value[0].FfiSome? ==>
      && ExtractMetadata(probe).value[0].value.TextValue?
      && MakePlugin(MUSIC_DECL, pkgVersion).value.media.fields[0].ty == Text
  {
    MusicDescriptor(pkgVersion);
  }

  // ------------------------------------------------------------ the library

  /**
   * The shared library the music crate builds, as the server sees it: the
   * four exported symbols, with `ffprobe` given as the format listing it
   * prints and the probe of each path.
   */
  function MusicLibrary(pkgVersion: string, listing: W.Option<string>, probe: string -> Probe): (l: SM.Library)
  {
    var exports := MakePlugin(MUSIC_DECL, pkgVersion);
    MusicDescriptor(pkgVersion);
    SM.Library(W.Some(exports.value.pluglibVersion), W.Some(exports.value.pluginVersion),
      W.Some(exports.value.media), W.Some(SupportedTypes(listing)),
      W.Some((path: string) => ExtractMetadata(probe(path))))
  }

  /** The server loads the music plugin whatever its package version, under the file's stem. */
  lemma MusicPluginLoads(path: string, pkgVersion: string, listing: W.Option<string>, probe: string -> Probe)
    requires FileStem(path).Some?
    ensures SM.TryFrom(path, W.Ok(MusicLibrary(pkgVersion, listing, probe))).Ok?
    ensures SM.TryFrom(path, W.Ok(MusicLibrary(pkgVersion, listing, probe))).value.version
      == PluginVersionOf(pkgVersion)
  {
    var l := MusicLibrary(pkgVersion, listing, probe);
    assert IsCompatible(PLUGLIB_VERSION, l.pluglibVersion.value);
  }
}
