/**
 * Models of the `str` operations from Rust's standard library that the core
 * calls: `split` on one character and `join`, decimal rendering and
 * `<uN as FromStr>::from_str`, `trim`, `split_ascii_whitespace`, `lines`,
 * `starts_with` / `ends_with`, `replace`, and the search for a character.
 */
module StdStr {
  import opened Wrappers

  // ---------------------------------------------------------------- search

  /** The index of the first occurrence of `c` in `s`. */
  function IndexOf(s: string, c: char): (i: nat)
    requires c in s
    ensures i < |s| && s[i] == c && c !in s[..i]
  {
    if s[0] == c then 0 else 1 + IndexOf(s[1..], c)
  }

  /** The number of bytes a character takes in UTF-8: one to four. */
  function Utf8Width(c: char): (n: nat)
    ensures 1 <= n <= 4
    ensures n == 1 <==> c as int < 0x80
  {
    if c as int < 0x80 then 1
    else if c as int < 0x800 then 2
    else if c as int < 0x1_0000 then 3
    else 4
  }

  /** `s.len()`: the length of the UTF-8 encoding of `s`, in bytes. */
  function Utf8Len(s: string): (n: nat)
    ensures |s| <= n <= 4 * |s|
  {
    if s == [] then 0 else Utf8Width(s[0]) + Utf8Len(s[1..])
  }

  /** Byte and character counts agree exactly on ASCII text. */
  lemma {:induction false} Utf8LenAscii(s: string)
    ensures Utf8Len(s) == |s| <==> forall i :: 0 <= i < |s| ==> s[i] as int < 0x80
  {
    if s != [] {
      Utf8LenAscii(s[1..]);
      if Utf8Len(s) == |s| {
        assert Utf8Width(s[0]) == 1;
      }
      assert forall i :: 1 <= i < |s| ==> s[i] == s[1..][i - 1];
    }
  }

  /** `s.starts_with(p)`. */
  predicate StartsWith(s: string, p: string) {
    |p| <= |s| && s[..|p|] == p
  }

  /** `s.ends_with(p)`. */
  predicate EndsWith(s: string, p: string) {
    |p| <= |s| && s[|s| - |p|..] == p
  }

  /** `s.contains(p)` for a non-empty pattern. */
  predicate Contains(s: string, p: string)
    requires |p| > 0
    decreases |s|
  {
    |p| <= |s| && (s[..|p|] == p || Contains(s[1..], p))
  }

  // ---------------------------------------------------------- split / join

  /** `s.split(sep).collect()`: always at least one piece, none holding `sep`. */
  function Split(s: string, sep: char): (r: seq<string>)
    ensures |r| >= 1
    ensures forall i :: 0 <= i < |r| ==> sep !in r[i]
    decreases |s|
  {
    if s == [] then [""]
    else
      var rest := Split(s[1..], sep);
      if s[0] == sep then [""] + rest
      else [[s[0]] + rest[0]] + rest[1..]
  }

  /** `parts.join(&sep.to_string())`. */
  function Join(parts: seq<string>, sep: char): string
    decreases |parts|
  {
    if |parts| == 0 then ""
    else if |parts| == 1 then parts[0]
    else parts[0] + [sep] + Join(parts[1..], sep)
  }

  /** Joining what `split` produced gives back the original string, for every string. */
  lemma {:induction false} JoinSplit(s: string, sep: char)
    ensures Join(Split(s, sep), sep) == s
    decreases |s|
  {
    if s != [] {
      var rest := Split(s[1..], sep);
      JoinSplit(s[1..], sep);
      if s[0] == sep {
        assert Split(s, sep) == [""] + rest;
        assert ([""] + rest)[1..] == rest;
        assert s == [sep] + s[1..];
      } else if |rest| == 1 {
        assert Split(s, sep) == [[s[0]] + rest[0]];
        assert s == [s[0]] + s[1..];
      } else {
        var r := Split(s, sep);
        assert r == [[s[0]] + rest[0]] + rest[1..];
        assert r[1..] == rest[1..];
        assert Join(rest, sep) == rest[0] + [sep] + Join(rest[1..], sep);
        assert s == [s[0]] + s[1..];
      }
    }
  }

  /** Splitting a string free of `sep` yields that string alone. */
  lemma {:induction false} SplitNoSep(a: string, sep: char)
    requires sep !in a
    ensures Split(a, sep) == [a]
    decreases |a|
  {
    if a != [] {
      SplitNoSep(a[1..], sep);
      assert [a[0]] + a[1..] == a;
    }
  }

  /** Splitting at the first separator peels off the text before it. */
  lemma {:induction false} SplitAtSep(a: string, b: string, sep: char)
    requires sep !in a
    ensures Split(a + [sep] + b, sep) == [a] + Split(b, sep)
    decreases |a|
  {
    if a == [] {
      assert a + [sep] + b == [sep] + b;
      assert ([sep] + b)[1..] == b;
    } else {
      var s := a + [sep] + b;
      assert s[1..] == a[1..] + [sep] + b;
      SplitAtSep(a[1..], b, sep);
      assert [a[0]] + a[1..] == a;
    }
  }

  /**
   * Splitting what `join` produced gives back the list, provided the list is
   * non-empty and no element holds the separator.
   */
  lemma {:induction false} SplitJoin(parts: seq<string>, sep: char)
    requires |parts| >= 1
    requires forall i :: 0 <= i < |parts| ==> sep !in parts[i]
    ensures Split(Join(parts, sep), sep) == parts
    decreases |parts|
  {
    if |parts| == 1 {
      SplitNoSep(parts[0], sep);
    } else {
      SplitJoin(parts[1..], sep);
      SplitAtSep(parts[0], Join(parts[1..], sep), sep);
      assert [parts[0]] + parts[1..] == parts;
    }
  }

  // ------------------------------------------------------------- decimals

  predicate IsDigit(c: char) {
    '0' <= c <= '9'
  }

  function DigitValue(c: char): nat
    requires IsDigit(c)
  {
    (c as int) - ('0' as int)
  }

  function DigitChar(d: nat): (c: char)
    requires d < 10
    ensures IsDigit(c) && DigitValue(c) == d
  {
    (('0' as int) + d) as char
  }

  predicate AllDigits(s: string) {
    forall i :: 0 <= i < |s| ==> IsDigit(s[i])
  }

  /** The value of a string of decimal digits, most significant first. */
  function DigitsValue(s: string): nat
    requires AllDigits(s)
    decreases |s|
  {
    if s == [] then 0 else DigitsValue(s[..|s| - 1]) * 10 + DigitValue(s[|s| - 1])
  }

  /** `n.to_string()` for an unsigned integer: decimal, no sign, no leading zero. */
  function DecimalString(n: nat): (s: string)
    ensures |s| >= 1 && AllDigits(s)
    ensures |s| > 1 ==> s[0] != '0'
    ensures DigitsValue(s) == n
    decreases n
  {
    if n < 10 then [DigitChar(n)]
    else
      var p := DecimalString(n / 10);
      var s := p + [DigitChar(n % 10)];
      assert s[..|s| - 1] == p;
      s
  }

  /** The error kinds of `ParseIntError` that parsing an unsigned integer can raise. */
  datatype IntErrorKind = Empty | InvalidDigit | PosOverflow

  /**
   * The digit loop of `from_str` for an unsigned type whose maximum is `max`:
   * digits are consumed left to right; a non-digit is reported before the
   * overflow that the same step would cause.
   */
  function Accumulate(ds: string, max: nat): (r: Result<nat, IntErrorKind>)
    ensures r.Ok? ==> r.value <= max
    ensures r.Err? ==> r.error != Empty
    decreases |ds|
  {
    if ds == [] then Ok(0)
    else
      match Accumulate(ds[..|ds| - 1], max)
      case Err(e) => Err(e)
      case Ok(acc) =>
        var c := ds[|ds| - 1];
        if !IsDigit(c) then Err(InvalidDigit)
        else if acc * 10 + DigitValue(c) > max then Err(PosOverflow)
        else Ok(acc * 10 + DigitValue(c))
  }

  /**
   * `s.parse::<uN>()` where `max` is `uN::MAX`: an optional leading `+`, then
   * one or more decimal digits whose value does not exceed `max`.
   */
  function ParseUnsigned(s: string, max: nat): (r: Result<nat, IntErrorKind>)
    ensures r.Ok? ==> r.value <= max
    ensures r == Err(Empty) <==> s == []
  {
    if s == [] then Err(Empty)
    else if s == "+" || s == "-" then Err(InvalidDigit)
    else Accumulate(if s[0] == '+' then s[1..] else s, max)
  }

  /** The digit loop succeeds exactly on digit strings whose value fits. */
  lemma {:induction false} AccumulateSpec(ds: string, max: nat)
    ensures Accumulate(ds, max).Ok? <==> AllDigits(ds) && DigitsValue(ds) <= max
    ensures Accumulate(ds, max).Ok? ==> Accumulate(ds, max).value == DigitsValue(ds)
    decreases |ds|
  {
    if ds != [] {
      var p := ds[..|ds| - 1];
      AccumulateSpec(p, max);
      if AllDigits(ds) {
        assert AllDigits(p);
        assert DigitsValue(p) <= DigitsValue(ds);
      }
    }
  }

  /** Parsing accepts exactly an optional `+` followed by a digit string whose value fits. */
  lemma ParseUnsignedSpec(s: string, max: nat)
    ensures var ds := if |s| > 0 && s[0] == '+' then s[1..] else s;
      && (ParseUnsigned(s, max).Ok? <==> |ds| > 0 && AllDigits(ds) && DigitsValue(ds) <= max)
      && (ParseUnsigned(s, max).Ok? ==> ParseUnsigned(s, max).value == DigitsValue(ds))
  {
    var ds := if |s| > 0 && s[0] == '+' then s[1..] else s;
    AccumulateSpec(ds, max);
    if s == "-" {
      assert !IsDigit(s[0]);
    }
  }

  /** A non-digit first character is reported as an invalid digit, whatever follows it. */
  lemma {:induction false} AccumulateLeadingNonDigit(ds: string, max: nat)
    requires |ds| > 0 && !IsDigit(ds[0])
    ensures Accumulate(ds, max) == Err(InvalidDigit)
    decreases |ds|
  {
    if |ds| > 1 {
      AccumulateLeadingNonDigit(ds[..|ds| - 1], max);
    }
  }

  /** A string starting with neither `+` nor a digit does not parse, as an invalid digit. */
  lemma ParseLeadingNonDigit(s: string, max: nat)
    requires |s| > 0 && s[0] != '+' && !IsDigit(s[0])
    ensures ParseUnsigned(s, max) == Err(InvalidDigit)
  {
    if s != "-" {
      AccumulateLeadingNonDigit(s, max);
    }
  }

  /** What `to_string` renders, `parse` reads back. */
  lemma ParseDecimalString(n: nat, max: nat)
    requires n <= max
    ensures ParseUnsigned(DecimalString(n), max) == Ok(n)
  {
    var s := DecimalString(n);
    ParseUnsignedSpec(s, max);
    assert !IsDigit('+') && !IsDigit('-');
    assert s[0] != '+' && s != "-";
  }

  // ----------------------------------------------------------- whitespace

  /** `char::is_whitespace`: the Unicode `White_Space` property. */
  predicate IsWhitespace(c: char) {
    var n := c as int;
    || 0x09 <= n <= 0x0D || n == 0x20 || n == 0x85 || n == 0xA0 || n == 0x1680
    || 0x2000 <= n <= 0x200A || n == 0x2028 || n == 0x2029 || n == 0x202F
    || n == 0x205F || n == 0x3000
  }

  /** `u8::is_ascii_whitespace` (space, tab, line feed, form feed, carriage return). */
  predicate IsAsciiWhitespace(c: char) {
    c == ' ' || c == '\t' || c == '\n' || c == 0x0C as char || c == '\r'
  }

  function TrimStart(s: string): (r: string)
    ensures r == [] || !IsWhitespace(r[0])
    ensures |r| <= |s| && r == s[|s| - |r|..]
    decreases |s|
  {
    if s != [] && IsWhitespace(s[0]) then TrimStart(s[1..]) else s
  }

  function TrimEnd(s: string): (r: string)
    ensures r == [] || !IsWhitespace(r[|r| - 1])
    ensures r <= s
    decreases |s|
  {
    if s != [] && IsWhitespace(s[|s| - 1]) then TrimEnd(s[..|s| - 1]) else s
  }

  /** `s.trim()`. */
  function Trim(s: string): (r: string)
    ensures r == [] || (!IsWhitespace(r[0]) && !IsWhitespace(r[|r| - 1]))
  {
    var t := TrimStart(s);
    var r := TrimEnd(t);
    assert r != [] ==> r[0] == t[0];
    r
  }

  /** The longest prefix of `s` without ASCII whitespace. */
  function Word(s: string): (w: string)
    ensures w <= s
    ensures forall i :: 0 <= i < |w| ==> !IsAsciiWhitespace(w[i])
    ensures |w| < |s| ==> IsAsciiWhitespace(s[|w|])
    decreases |s|
  {
    if s == [] || IsAsciiWhitespace(s[0]) then [] else [s[0]] + Word(s[1..])
  }

  /** `s.split_ascii_whitespace().collect()`: the non-empty runs between ASCII whitespace. */
  function SplitAsciiWhitespace(s: string): (r: seq<string>)
    ensures forall i :: 0 <= i < |r| ==> |r[i]| > 0
    ensures forall i, j :: 0 <= i < |r| && 0 <= j < |r[i]| ==> !IsAsciiWhitespace(r[i][j])
    decreases |s|
  {
    if s == [] then []
    else if IsAsciiWhitespace(s[0]) then SplitAsciiWhitespace(s[1..])
    else
      var w := Word(s);
      [w] + SplitAsciiWhitespace(s[|w|..])
  }

  // ----------------------------------------------------------------- lines

  /** Drops one trailing carriage return. */
  function StripCr(line: string): string {
    if |line| > 0 && line[|line| - 1] == '\r' then line[..|line| - 1] else line
  }

  /**
   * `s.lines().collect()`: the pieces between line feeds, a final empty piece
   * dropped, and a carriage return dropped before each line feed.
   */
  function Lines(s: string): (r: seq<string>)
    ensures forall i :: 0 <= i < |r| ==> '\n' !in r[i]
  {
    var parts := Split(s, '\n');
    var ended := parts[..|parts| - 1];
    var last := parts[|parts| - 1];
    seq(|ended|, i requires 0 <= i < |ended| => StripCr(ended[i]))
      + (if last == "" then [] else [last])
  }

  // --------------------------------------------------------------- replace

  /** `s.replace(pat, rep)`: every non-overlapping match, left to right. */
  function ReplaceAll(s: string, pat: string, rep: string): string
    requires |pat| > 0
    decreases |s|
  {
    if |s| < |pat| then s
    else if s[..|pat|] == pat then rep + ReplaceAll(s[|pat|..], pat, rep)
    else [s[0]] + ReplaceAll(s[1..], pat, rep)
  }

  /** Without a match, `replace` changes nothing. */
  lemma {:induction false} ReplaceAbsent(s: string, pat: string, rep: string)
    requires |pat| > 0 && !Contains(s, pat)
    ensures ReplaceAll(s, pat, rep) == s
    decreases |s|
  {
    if |s| >= |pat| {
      ReplaceAbsent(s[1..], pat, rep);
      assert [s[0]] + s[1..] == s;
    }
  }

  /** The pattern's first character occurs in it only at its start. */
  predicate HeadOnlyAtStart(pat: string) {
    forall i :: 0 < i < |pat| ==> pat[i] != pat[0]
  }

  /**
   * The first match is replaced where it stands. When the pattern's first
   * character occurs in it only at its start, no earlier match can overlap it,
   * so a text before it that holds no match passes through unchanged.
   */
  lemma {:induction false} ReplaceFirst(a: string, pat: string, rep: string, b: string)
    requires |pat| > 0 && HeadOnlyAtStart(pat) && !Contains(a, pat)
    ensures ReplaceAll(a + pat + b, pat, rep) == a + rep + ReplaceAll(b, pat, rep)
    decreases |a|
  {
    var s := a + pat + b;
    if a == [] {
      assert s == pat + b;
      assert s[..|pat|] == pat && s[|pat|..] == b;
    } else {
      var t := a[1..] + pat + b;
      assert s == [a[0]] + t;
      if |a| >= |pat| {
        assert s[..|pat|] == a[..|pat|];
      } else {
        assert s[|a|] == pat[0];
        assert s[..|pat|][|a|] != pat[|a|];
      }
      assert s[1..] == t;
      ReplaceFirst(a[1..], pat, rep, b);
      assert [a[0]] + (a[1..] + rep + ReplaceAll(b, pat, rep)) == a + rep + ReplaceAll(b, pat, rep);
    }
  }
}
