/**
 * The plugin library's `Version`: three bytes with a compatibility rule, a
 * lexicographic order, a parser for package version strings and a display
 * form (server/plugins/lib/src/lib.rs).
 */
module PluglibVersion {
  import opened Wrappers
  import opened StdInt
  import opened StdCmp
  import opened StdStr

  /** `Version { major, minor, patch }`, each a `u8`. */
  datatype Version = Version(major: u8, minor: u8, patch: u8)

  /** `Version::default()`, the derived default. */
  const Default: Version := Version(0, 0, 0)

  /**
   * `is_compatible`: never with the default version; between two `0.x`
   * versions the minors must agree; otherwise the majors must agree.
   */
  predicate IsCompatible(a: Version, b: Version) {
    if a == Default || b == Default then false
    else if a.major == 0 && b.major == 0 then a.minor == b.minor
    else a.major == b.major
  }

  /** The default version is compatible with nothing, itself included. */
  lemma DefaultIsPoison(v: Version)
    ensures !IsCompatible(Default, v) && !IsCompatible(v, Default)
  {
  }

  /** Between two non-default `0.x` versions, compatibility is equality of minors. */
  lemma CompatibleZeroMajors(a: Version, b: Version)
    requires a != Default && b != Default && a.major == 0 && b.major == 0
    ensures IsCompatible(a, b) <==> a.minor == b.minor
  {
  }

  /**
   * Otherwise compatibility is equality of majors; in particular a `0.x`
   * version is never compatible with a `1.x` or later one.
   */
  lemma CompatibleMajors(a: Version, b: Version)
    requires a != Default && b != Default && !(a.major == 0 && b.major == 0)
    ensures IsCompatible(a, b) <==> a.major == b.major
    ensures a.major == 0 && b.major >= 1 ==> !IsCompatible(a, b)
  {
  }

  /** Compatibility is symmetric, reflexive exactly on non-default versions, and transitive. */
  lemma CompatibleIsPartialEquivalence(a: Version, b: Version, c: Version)
    ensures IsCompatible(a, b) == IsCompatible(b, a)
    ensures IsCompatible(a, a) <==> a != Default
    ensures IsCompatible(a, b) && IsCompatible(b, c) ==> IsCompatible(a, c)
    ensures IsCompatible(a, b) ==> a.major == b.major
  {
  }

  function Key(v: Version): (int, int, int) {
    (v.major, v.minor, v.patch)
  }

  /** `Ord::cmp`: major, then minor, then patch. */
  function Cmp(a: Version, b: Version): (r: Ordering)
    ensures r == Equal <==> a == b
    ensures r == Less <==> LexLess(Key(a), Key(b))
    ensures r == Greater <==> LexLess(Key(b), Key(a))
  {
    Compare(a.major, b.major).Then(Compare(a.minor, b.minor)).Then(Compare(a.patch, b.patch))
  }

  /** `a <= b` under `Ord`. */
  predicate LessEq(a: Version, b: Version) {
    Cmp(a, b) != Greater
  }

  /** The default version is the least version. */
  lemma DefaultIsLeast(v: Version)
    ensures LessEq(Default, v)
    ensures LessEq(v, Default) <==> v == Default
  {
  }

  /**
   * Compatibility classes are intervals of the order: a version lying between
   * two compatible versions is compatible with both.
   */
  lemma {:induction false} CompatibleIsConvex(a: Version, b: Version, c: Version)
    requires LessEq(a, b) && LessEq(b, c) && IsCompatible(a, c)
    ensures IsCompatible(a, b) && IsCompatible(b, c)
  {
    if b == Default {
      DefaultIsLeast(a);
    }
  }

  // ------------------------------------------------------------- parsing

  /** `parse_part!()`: the next piece parsed as a `u8`, or 0 when the pieces ran out. */
  function Part(parts: seq<string>, i: nat): (r: Result<u8, IntErrorKind>)
    ensures i >= |parts| ==> r == Ok(0)
    ensures i < |parts| && r.Ok? ==> ParseUnsigned(parts[i], 255) == Ok(r.value as nat)
  {
    if i < |parts| then
      match ParseUnsigned(parts[i], 255)
      case Ok(n) => Ok(n)
      case Err(e) => Err(e)
    else Ok(0)
  }

  /** The three `parse_part!()` steps over the pieces, the first failure deciding the error. */
  function ParseParts(parts: seq<string>): Result<Version, IntErrorKind> {
    match Part(parts, 0)
    case Err(e) => Err(e)
    case Ok(major) =>
      match Part(parts, 1)
      case Err(e) => Err(e)
      case Ok(minor) =>
        match Part(parts, 2)
        case Err(e) => Err(e)
        case Ok(patch) => Ok(Version(major, minor, patch))
  }

  /**
   * `Version::from_str`: split on `.`, parse the first three pieces; missing
   * pieces are 0, further pieces are never looked at.
   */
  function Parse(s: string): Result<Version, IntErrorKind> {
    ParseParts(Split(s, '.'))
  }

  /** Whether the `i`-th piece, if present, is a decimal `u8`. */
  predicate PartParses(parts: seq<string>, i: nat) {
    i < |parts| ==> ParseUnsigned(parts[i], 255).Ok?
  }

  /** Parsing succeeds iff each of the first three pieces present is a `u8`, and then reads them. */
  lemma ParseSpec(s: string)
    ensures var parts := Split(s, '.');
      && (Parse(s).Ok? <==> PartParses(parts, 0) && PartParses(parts, 1) && PartParses(parts, 2))
      && (Parse(s).Ok? ==>
            && Part(parts, 0) == Ok(Parse(s).value.major)
            && Part(parts, 1) == Ok(Parse(s).value.minor)
            && Part(parts, 2) == Ok(Parse(s).value.patch))
  {
  }

  /** Splitting a `.`-joined list of dot-free pieces gives the pieces back. */
  lemma SplitDots(s: string, parts: seq<string>)
    requires |parts| >= 1 && s == Join(parts, '.')
    requires forall i :: 0 <= i < |parts| ==> '.' !in parts[i]
    ensures Split(s, '.') == parts
  {
    SplitJoin(parts, '.');
  }

  /** A single digit parses as itself. */
  lemma ParseDigit(d: nat)
    requires d < 10
    ensures ParseUnsigned([DigitChar(d)], 255) == Ok(d)
  {
    ParseDecimalString(d, 255);
  }

  /** Missing pieces default to 0: `"1"` is `1.0.0`. */
  lemma ParseMissingParts()
    ensures Parse("1") == Ok(Version(1, 0, 0))
  {
    SplitNoSep("1", '.');
    ParseDigit(1);
  }

  /** Pieces beyond the third are ignored: `"1.2.3.4"` is `1.2.3`. */
  lemma ParseExtraParts()
    ensures Parse("1.2.3.4") == Ok(Version(1, 2, 3))
  {
    SplitDots("1.2.3.4", ["1", "2", "3", "4"]);
    ParseDigit(1);
    ParseDigit(2);
    ParseDigit(3);
  }

  /** The empty string is rejected: its one piece is empty. */
  lemma ParseRejectsEmpty()
    ensures Parse("") == Err(Empty)
  {
  }

  /** A piece above 255 is rejected. */
  lemma ParseRejectsOverflow()
    ensures Parse("256") == Err(PosOverflow)
  {
    SplitNoSep("256", '.');
    ParseUnsignedSpec("256", 255);
    assert DigitsValue("256") == 256 by {
      assert "256"[..2] == "25" && "25"[..1] == "2" && "2"[..0] == "";
    }
  }

  /** A pre-release suffix is rejected: `0-alpha` is not a `u8`. */
  lemma ParseRejectsPreRelease()
    ensures Parse("0.1.0-alpha").Err?
  {
    SplitDots("0.1.0-alpha", ["0", "1", "0-alpha"]);
    ParseDigit(0);
    ParseDigit(1);
    ParseUnsignedSpec("0-alpha", 255);
    assert !IsDigit("0-alpha"[1]);
  }

  // ------------------------------------------------------------- display

  /** `Display`: `v{major}.{minor}.{patch}`. */
  function Display(v: Version): string {
    "v" + Join(Pieces(v), '.')
  }

  /** The decimal renderings of the three fields. */
  function Pieces(v: Version): (ds: seq<string>)
    ensures |ds| == 3 && forall i :: 0 <= i < 3 ==> |ds[i]| > 0 && '.' !in ds[i]
  {
    assert !IsDigit('.');
    [DecimalString(v.major), DecimalString(v.minor), DecimalString(v.patch)]
  }

  /** Without its leading `v`, the display form parses back to the same version. */
  lemma DisplayWithoutPrefixParses(v: Version)
    ensures Display(v)[0] == 'v'
    ensures Parse(Display(v)[1..]) == Ok(v)
  {
    var ds := Pieces(v);
    assert Display(v)[1..] == Join(ds, '.');
    SplitDots(Display(v)[1..], ds);
    ParseDecimalString(v.major, 255);
    ParseDecimalString(v.minor, 255);
    ParseDecimalString(v.patch, 255);
  }

  /** The display form itself is rejected: its first piece starts with `v`. */
  lemma DisplayIsRejected(v: Version)
    ensures Parse(Display(v)) == Err(InvalidDigit)
  {
    var ds := Pieces(v);
    var first := "v" + ds[0];
    var rest := Join(ds[1..], '.');
    assert Display(v) == first + ['.'] + rest;
    SplitAtSep(first, rest, '.');
    assert Split(Display(v), '.')[0] == first;
    assert first[0] == 'v' && !IsDigit('v');
    ParseLeadingNonDigit(first, 255);
  }
}
