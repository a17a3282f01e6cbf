/**
 * Models of the parts of Rust's `std::path` that the core uses, as they
 * behave on Unix: `Path::join`, `Path::parent`, `Path::file_name`,
 * `Path::file_stem` and `Path::extension`. A path is a string and `/` is the
 * separator. The paths handled here are the ones the core builds itself
 * (a directory joined with a name read from that directory); the
 * normalisation `std::path` does on `.` components and repeated or trailing
 * separators is not modelled.
 */
module StdPath {
  import opened Wrappers
  import opened StdStr

  const SEP: char := '/'

  predicate IsAbsolute(p: string) {
    |p| > 0 && p[0] == SEP
  }

  /** A name a directory listing can hold: non-empty, no separator, not `.` or `..`. */
  predicate IsComponent(name: string) {
    |name| > 0 && SEP !in name && name != "." && name != ".."
  }

  /**
   * `a.join(b)`: an absolute `b` replaces `a`; otherwise `b` is appended,
   * after a separator when `a` is non-empty and does not already end with one.
   */
  function JoinPath(a: string, b: string): string {
    if IsAbsolute(b) then b
    else if a == [] || a[|a| - 1] == SEP then a + b
    else a + [SEP] + b
  }

  /**
   * An absolute path replaces what it is joined to; a relative one is kept
   * whole at the end, after all of `a` and at most one added separator.
   */
  lemma JoinPathSpec(a: string, b: string)
    ensures IsAbsolute(b) ==> JoinPath(a, b) == b
    ensures !IsAbsolute(b) ==> StartsWith(JoinPath(a, b), a) && EndsWith(JoinPath(a, b), b)
    ensures !IsAbsolute(b) ==> |a| + |b| <= |JoinPath(a, b)| <= |a| + 1 + |b|
    ensures !IsAbsolute(b) && |JoinPath(a, b)| > |a| + |b| ==> JoinPath(a, b)[|a|] == SEP
  {
  }

  /** The index of the last occurrence of `c` in `s`. */
  function LastIndexOf(s: string, c: char): (i: nat)
    requires c in s
    ensures i < |s| && s[i] == c && c !in s[i + 1..]
    decreases |s|
  {
    if s[|s| - 1] == c then |s| - 1
    else
      assert c in s[..|s| - 1] by {
        var k :| 0 <= k < |s| && s[k] == c;
        assert s[..|s| - 1][k] == c;
      }
      var i := LastIndexOf(s[..|s| - 1], c);
      assert s[i + 1..] == s[..|s| - 1][i + 1..] + [s[|s| - 1]];
      i
  }

  /** The last occurrence is the one with no occurrence after it. */
  lemma LastIndexOfAt(s: string, c: char, i: nat)
    requires i < |s| && s[i] == c && c !in s[i + 1..]
    ensures LastIndexOf(s, c) == i
  {
  }

  /** The text after the last `c` in `s` (all of `s` when it holds no `c`). */
  function AfterLast(s: string, c: char): (r: string)
    ensures c !in r && EndsWith(s, r)
    ensures c in s ==> r == s[LastIndexOf(s, c) + 1..]
    ensures c !in s ==> r == s
  {
    if c in s then s[LastIndexOf(s, c) + 1..] else s
  }

  /**
   * `p.file_name()` for a path without `.` components or a trailing
   * separator: its last component, which must not be `..`.
   */
  function FileName(p: string): (r: Option<string>)
    ensures r.Some? ==> IsComponent(r.value) && EndsWith(p, r.value)
  {
    var last := AfterLast(p, SEP);
    if last == "" || last == "." || last == ".." then None else Some(last)
  }

  /** Joining a directory with a name from its listing gives a path whose file name is that name. */
  lemma FileNameOfJoin(dir: string, name: string)
    requires IsComponent(name)
    ensures FileName(JoinPath(dir, name)) == Some(name)
  {
    var p := JoinPath(dir, name);
    if dir == [] {
      assert p == name;
    } else if dir[|dir| - 1] == SEP {
      assert p == dir + name;
      assert p[|dir|..] == name;
      LastIndexOfAt(p, SEP, |dir| - 1);
    } else {
      assert p == dir + [SEP] + name;
      assert p[|dir| + 1..] == name;
      LastIndexOfAt(p, SEP, |dir|);
    }
  }

  /**
   * Rust's split of a file name at its last dot: no dot, or only a leading
   * one, gives no extension and the whole name as stem; otherwise the stem
   * is the text before the last dot and the extension the text after it.
   */
  function StemOf(name: string): (r: string)
  {
    if name == ".." || '.' !in name || LastIndexOf(name, '.') == 0 then name
    else name[..LastIndexOf(name, '.')]
  }

  function ExtensionOf(name: string): (r: Option<string>)
    ensures r.Some? ==> '.' !in r.value
  {
    if name == ".." || '.' !in name || LastIndexOf(name, '.') == 0 then None
    else Some(name[LastIndexOf(name, '.') + 1..])
  }

  /** A name is its stem, then a dot and the extension when it has one. */
  lemma StemAndExtension(name: string)
    ensures ExtensionOf(name).None? ==> StemOf(name) == name
    ensures ExtensionOf(name).Some? ==> name == StemOf(name) + "." + ExtensionOf(name).value
    ensures ExtensionOf(name).Some? ==> |StemOf(name)| > 0
  {
    if ExtensionOf(name).Some? {
      var i := LastIndexOf(name, '.');
      assert name == name[..i] + "." + name[i + 1..];
    }
  }

  /** `p.file_stem()`. */
  function FileStem(p: string): (r: Option<string>)
    ensures r.Some? <==> FileName(p).Some?
  {
    match FileName(p)
    case None => None
    case Some(n) => Some(StemOf(n))
  }

  /** `p.extension()`. */
  function Extension(p: string): (r: Option<string>)
    ensures r.Some? ==> FileName(p).Some? && FileStem(p).Some?
    ensures r.Some? ==> FileName(p).value == FileStem(p).value + "." + r.value
  {
    match FileName(p)
    case None => None
    case Some(n) =>
      StemAndExtension(n);
      ExtensionOf(n)
  }

  /** A dot-file has no extension: its whole name is its stem. */
  lemma DotFileHasNoExtension(rest: string)
    requires '.' !in rest
    ensures ExtensionOf("." + rest).None? && StemOf("." + rest) == "." + rest
  {
  }

  /**
   * `p.parent()`: `None` for the root and the empty path; the empty path for
   * a single relative component; otherwise the text before the last separator
   * (the root when that is the leading separator).
   */
  function Parent(p: string): (r: Option<string>)
    ensures r.Some? <==> p != "" && p != "/"
    ensures r.Some? ==> |r.value| < |p| && StartsWith(p, r.value)
  {
    if p == "" || p == "/" then None
    else if SEP !in p then Some("")
    else
      var i := LastIndexOf(p, SEP);
      if i == 0 then Some("/") else Some(p[..i])
  }

  /** The parent of a directory joined with a name is that directory, when it has no trailing separator. */
  lemma ParentOfJoin(dir: string, name: string)
    requires IsComponent(name)
    requires dir == "/" || (dir != "" && dir[|dir| - 1] != SEP)
    ensures Parent(JoinPath(dir, name)) == Some(dir)
  {
    var p := JoinPath(dir, name);
    if dir == "/" {
      assert p == "/" + name;
      assert p[1..] == name;
      LastIndexOfAt(p, SEP, 0);
    } else {
      assert p == dir + [SEP] + name;
      assert p[|dir| + 1..] == name && p[..|dir|] == dir;
      LastIndexOfAt(p, SEP, |dir|);
    }
  }
}
