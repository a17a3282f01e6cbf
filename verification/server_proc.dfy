/**
 * The server's build-time macros: `include_static_config`, which fills the
 * package version into a configuration template, and `include_migrations`,
 * which gathers the `migration_v<N>.sql` files of a directory and emits their
 * contents ordered by `N`. The directory listing and the files' contents are
 * given as inputs; the token streams the macros produce are their values.
 */
module ServerProc {
  import W = Wrappers
  import opened StdInt
  import opened StdStr

  // -------------------------------------------------- include_static_config

  const VERSION_PLACEHOLDER: string := "{version}"

  /** `include_static_config`: the template with every `{version}` replaced by the package version. */
  function StaticConfig(template: string, pkgVersion: string): string {
    ReplaceAll(template, VERSION_PLACEHOLDER, pkgVersion)
  }

  /** A template without the placeholder is emitted as it is. */
  lemma StaticConfigWithoutPlaceholder(template: string, pkgVersion: string)
    requires !Contains(template, VERSION_PLACEHOLDER)
    ensures StaticConfig(template, pkgVersion) == template
  {
    ReplaceAbsent(template, VERSION_PLACEHOLDER, pkgVersion);
  }

  /**
   * The first placeholder is replaced where it stands, and the rest of the
   * template is filled in the same way; chained, this replaces every
   * placeholder from left to right, whatever other braces the template holds.
   */
  lemma StaticConfigFillsPlaceholder(before: string, after: string, pkgVersion: string)
    requires !Contains(before, VERSION_PLACEHOLDER)
    ensures StaticConfig(before + VERSION_PLACEHOLDER + after, pkgVersion)
      == before + pkgVersion + StaticConfig(after, pkgVersion)
  {
    assert HeadOnlyAtStart(VERSION_PLACEHOLDER);
    ReplaceFirst(before, VERSION_PLACEHOLDER, pkgVersion, after);
  }

  /** Other braces do not disturb the placeholder: `{} {version}` becomes `{} 0.1`. */
  lemma StaticConfigAfterBrace()
    ensures StaticConfig("{} {version}", "0.1") == "{} 0.1"
  {
    StaticConfigFillsPlaceholder("{} ", "", "0.1");
    StaticConfigWithoutPlaceholder("", "0.1");
    assert "{} " + VERSION_PLACEHOLDER + "" == "{} {version}";
  }

  // ---------------------------------------------------- include_migrations

  /**
   * One entry of the migrations directory: it could not be read, or it has a
   * name (`None` when the name is not UTF-8) and contents (`None` when reading
   * the file fails).
   */
  datatype DirEntry = Unreadable | Entry(name: W.Option<string>, contents: W.Option<string>)

  /** The error of `read_dir`, reported as a compile error. */
  datatype IoError = IoError

  /** A migration: its number and the SQL it holds. */
  datatype Migration = Migration(number: u32, contents: string)

  const U32_MAX: nat := 0xFFFF_FFFF

  /** The names the macro takes for migrations. */
  predicate IsMigrationName(name: string) {
    StartsWith(name, "migration_v") && EndsWith(name, ".sql")
  }

  /** The ASCII digits of a name, in order. */
  function DigitsOf(name: string): (r: string)
    ensures AllDigits(r)
    ensures forall c :: c in r <==> c in name && IsDigit(c)
    decreases |name|
  {
    if name == [] then []
    else DigitsOf(name[..|name| - 1]) + (if IsDigit(name[|name| - 1]) then [name[|name| - 1]] else [])
  }

  /**
   * A migration's number: all the digits of its name, concatenated and parsed
   * as a `u32`; the `unwrap` panics when there are none or they overflow.
   */
  function MigrationNumber(name: string): (r: W.Fallible<u32>)
    ensures r.Returns? <==> |DigitsOf(name)| > 0 && DigitsValue(DigitsOf(name)) <= U32_MAX
    ensures r.Returns? ==> r.value == DigitsValue(DigitsOf(name))
  {
    var ds := DigitsOf(name);
    ParseUnsignedSpec(ds, U32_MAX);
    match ParseUnsigned(ds, U32_MAX)
    case Err(_) => W.Panics
    case Ok(v) => W.Returns(v)
  }

  /** The digits of a concatenation are those of its parts, in order. */
  lemma {:induction false} DigitsOfConcat(a: string, b: string)
    ensures DigitsOf(a + b) == DigitsOf(a) + DigitsOf(b)
    decreases |b|
  {
    if b == [] {
      assert a + b == a;
    } else {
      var init, last := b[..|b| - 1], b[|b| - 1];
      var tail := if IsDigit(last) then [last] else [];
      DigitsOfConcat(a, init);
      var ab := a + b;
      assert ab[..|ab| - 1] == a + init && ab[|ab| - 1] == last;
      assert DigitsOf(ab) == DigitsOf(a + init) + tail;
      assert DigitsOf(b) == DigitsOf(init) + tail;
    }
  }

  /** A text without ASCII digits contributes none. */
  lemma {:induction false} NoDigitsIn(s: string)
    requires forall i :: 0 <= i < |s| ==> !IsDigit(s[i])
    ensures DigitsOf(s) == ""
    decreases |s|
  {
    if s != [] {
      NoDigitsIn(s[..|s| - 1]);
    }
  }

  /** The fixed parts of a migration name hold no digits. */
  lemma MigrationAffixesHaveNoDigits()
    ensures DigitsOf("migration_v") == "" && DigitsOf(".sql") == "" && DigitsOf("_") == ""
  {
    NoDigitsIn("migration_v");
    NoDigitsIn(".sql");
    NoDigitsIn("_");
  }

  /** The digits of `migration_v<middle>.sql` are those of `middle`. */
  lemma MigrationDigits(middle: string)
    ensures IsMigrationName("migration_v" + middle + ".sql")
    ensures DigitsOf("migration_v" + middle + ".sql") == DigitsOf(middle)
  {
    var name := "migration_v" + middle + ".sql";
    assert name[..|"migration_v"|] == "migration_v";
    assert name[|name| - |".sql"|..] == ".sql";
    DigitsOfConcat("migration_v", middle);
    DigitsOfConcat("migration_v" + middle, ".sql");
    MigrationAffixesHaveNoDigits();
  }

  lemma DigitsOfExample()
    ensures DigitsOf("1_2") == "12"
  {
    assert "1_2"[..2] == "1_";
    assert "1_"[..1] == "1";
    assert "1"[..0] == "";
    assert DigitsOf("1") == "1";
  }

  /** The digits may sit anywhere: `migration_v1_2.sql` is migration 12. */
  lemma DigitsAnywhere()
    ensures MigrationNumber("migration_v1_2.sql") == W.Returns(12)
  {
    ExampleNameDigits();
    assert DigitsValue("12") == 12 by {
      assert "12"[..1] == "1" && "1"[..0] == "";
    }
  }

  lemma ExampleNameDigits()
    ensures DigitsOf("migration_v1_2.sql") == "12"
  {
    MigrationDigits("1_2");
    assert "migration_v" + "1_2" + ".sql" == "migration_v1_2.sql";
    DigitsOfExample();
  }

  /** A migration name without digits makes picking its entry panic, whatever the file holds. */
  lemma NoDigitsPanics(contents: W.Option<string>)
    ensures Pick(Entry(W.Some("migration_v.sql"), contents)).Panics?
  {
    MigrationDigits("");
    assert "migration_v" + "" + ".sql" == "migration_v.sql";
    assert DigitsOf("") == "";
  }

  /**
   * The `filter_map` step for one entry: unreadable entries and non-UTF-8
   * names are skipped, other names are skipped unless they are migration
   * names; a migration whose number does not parse or whose file cannot be
   * read panics.
   */
  function Pick(e: DirEntry): (r: W.Fallible<W.Option<Migration>>)
    ensures r.Returns? && r.value.Some? ==>
      && e.Entry? && e.name.Some? && IsMigrationName(e.name.value)
      && MigrationNumber(e.name.value) == W.Returns(r.value.value.number)
      && e.contents == W.Some(r.value.value.contents)
    ensures r.Panics? <==>
      (e.Entry? && e.name.Some? && IsMigrationName(e.name.value)
       && (MigrationNumber(e.name.value).Panics? || e.contents.None?))
    ensures r == W.Returns(W.None) <==> e.Unreadable? || e.name.None? || !IsMigrationName(e.name.value)
  {
    match e
    case Unreadable => W.Returns(W.None)
    case Entry(name, contents) =>
      match name
      case None => W.Returns(W.None)
      case Some(n) =>
        if !IsMigrationName(n) then W.Returns(W.None)
        else match MigrationNumber(n)
          case Panics => W.Panics
          case Returns(v) =>
            match contents
            case None => W.Panics
            case Some(c) => W.Returns(W.Some(Migration(v, c)))
  }

  /** The migrations of a listing, in listing order, or a panic. */
  function Collect(es: seq<DirEntry>): W.Fallible<seq<Migration>>
    decreases |es|
  {
    if es == [] then W.Returns([])
    else match Collect(es[..|es| - 1])
      case Panics => W.Panics
      case Returns(ms) =>
        match Pick(es[|es| - 1])
        case Panics => W.Panics
        case Returns(None) => W.Returns(ms)
        case Returns(Some(m)) => W.Returns(ms + [m])
  }

  /** Collecting panics exactly when one entry does, and otherwise keeps exactly the picked migrations. */
  lemma {:induction false} CollectSpec(es: seq<DirEntry>, m: Migration)
    ensures Collect(es).Returns? <==> forall i :: 0 <= i < |es| ==> Pick(es[i]).Returns?
    ensures Collect(es).Returns? ==> (m in Collect(es).value <==> exists i :: 0 <= i < |es| && Pick(es[i]) == W.Returns(W.Some(m)))
    decreases |es|
  {
    CollectReturns(es);
    if Collect(es).Returns? {
      CollectMembers(es, m);
    }
  }

  lemma {:induction false} CollectReturns(es: seq<DirEntry>)
    ensures Collect(es).Returns? <==> forall i :: 0 <= i < |es| ==> Pick(es[i]).Returns?
    decreases |es|
  {
    if es != [] {
      var init := es[..|es| - 1];
      CollectReturns(init);
      assert forall i :: 0 <= i < |init| ==> init[i] == es[i];
    }
  }

  lemma {:induction false} CollectMembers(es: seq<DirEntry>, m: Migration)
    requires Collect(es).Returns?
    ensures m in Collect(es).value <==> exists i :: 0 <= i < |es| && Pick(es[i]) == W.Returns(W.Some(m))
    decreases |es|
  {
    if es != [] {
      var init, last := es[..|es| - 1], es[|es| - 1];
      var ms, picked := Collect(init).value, Pick(last);
      CollectMembers(init, m);
      assert forall i :: 0 <= i < |init| ==> init[i] == es[i];
      if picked.value.Some? {
        assert Collect(es).value == ms + [picked.value.value];
      } else {
        assert Collect(es).value == ms;
      }
    }
  }

  // ------------------------------------------------------------- ordering

  predicate SortedByNumber(ms: seq<Migration>) {
    forall i, j :: 0 <= i < j < |ms| ==> ms[i].number <= ms[j].number
  }

  /** The migrations numbered `n`, in order. */
  function Numbered(ms: seq<Migration>, n: u32): seq<Migration>
    decreases |ms|
  {
    if ms == [] then []
    else Numbered(ms[..|ms| - 1], n) + (if ms[|ms| - 1].number == n then [ms[|ms| - 1]] else [])
  }

  /** A sorted run with `m` placed after every migration whose number does not exceed its own. */
  function Insert(ms: seq<Migration>, m: Migration): seq<Migration>
    decreases |ms|
  {
    if ms == [] || ms[|ms| - 1].number <= m.number then ms + [m]
    else Insert(ms[..|ms| - 1], m) + [ms[|ms| - 1]]
  }

  /** `sort_by_key(|(v, _)| *v)`: the stable sort by number, one migration inserted at a time. */
  function SortByNumber(ms: seq<Migration>): seq<Migration>
    decreases |ms|
  {
    if ms == [] then [] else Insert(SortByNumber(ms[..|ms| - 1]), ms[|ms| - 1])
  }

  lemma {:induction false} InsertPermutes(ms: seq<Migration>, m: Migration)
    ensures multiset(Insert(ms, m)) == multiset(ms) + multiset{m}
    decreases |ms|
  {
    if ms != [] && ms[|ms| - 1].number > m.number {
      var init := ms[..|ms| - 1];
      InsertPermutes(init, m);
      assert ms == init + [ms[|ms| - 1]];
    }
  }

  lemma {:induction false} InsertSorted(ms: seq<Migration>, m: Migration)
    requires SortedByNumber(ms)
    ensures SortedByNumber(Insert(ms, m))
    decreases |ms|
  {
    if ms != [] && ms[|ms| - 1].number > m.number {
      var init := ms[..|ms| - 1];
      var last := ms[|ms| - 1];
      InsertSorted(init, m);
      InsertPermutes(init, m);
      var r := Insert(init, m);
      forall i | 0 <= i < |r|
        ensures r[i].number <= last.number
      {
        assert r[i] in multiset(r);
        assert r[i] in multiset(init) || r[i] == m;
      }
    }
  }

  lemma NumberedSnoc(ms: seq<Migration>, x: Migration, n: u32)
    ensures Numbered(ms + [x], n) == Numbered(ms, n) + (if x.number == n then [x] else [])
  {
    assert (ms + [x])[..|ms|] == ms;
  }

  /** Inserting keeps the migrations of every number in order, the inserted one last among its equals. */
  lemma {:induction false} InsertStable(ms: seq<Migration>, m: Migration, n: u32)
    ensures Numbered(Insert(ms, m), n) == Numbered(ms, n) + (if m.number == n then [m] else [])
    decreases |ms|
  {
    if ms == [] || ms[|ms| - 1].number <= m.number {
      NumberedSnoc(ms, m, n);
    } else {
      var init := ms[..|ms| - 1];
      var last := ms[|ms| - 1];
      assert ms == init + [last];
      assert Insert(ms, m) == Insert(init, m) + [last];
      InsertStable(init, m, n);
      NumberedSnoc(Insert(init, m), last, n);
      NumberedSnoc(init, last, n);
      // `last` is numbered above `m`, so at most one of them is numbered `n`
      if last.number == n {
        assert Numbered(Insert(ms, m), n) == Numbered(init, n) + [last];
      } else if m.number == n {
        assert Numbered(Insert(ms, m), n) == Numbered(init, n) + [m];
      } else {
        assert Numbered(Insert(ms, m), n) == Numbered(init, n);
      }
    }
  }

  /** The sort orders by number and rearranges the migrations without adding or dropping any. */
  lemma {:induction false} SortByNumberSorts(ms: seq<Migration>)
    ensures SortedByNumber(SortByNumber(ms))
    ensures multiset(SortByNumber(ms)) == multiset(ms)
    decreases |ms|
  {
    if ms != [] {
      var init := ms[..|ms| - 1];
      SortByNumberSorts(init);
      InsertSorted(SortByNumber(init), ms[|ms| - 1]);
      InsertPermutes(SortByNumber(init), ms[|ms| - 1]);
      assert ms == init + [ms[|ms| - 1]];
    }
  }

  /** The sort is stable: migrations sharing a number keep their listing order. */
  lemma {:induction false} SortByNumberStable(ms: seq<Migration>, n: u32)
    ensures Numbered(SortByNumber(ms), n) == Numbered(ms, n)
    decreases |ms|
  {
    if ms != [] {
      var init := ms[..|ms| - 1];
      SortByNumberStable(init, n);
      InsertStable(SortByNumber(init), ms[|ms| - 1], n);
    }
  }

  /** Inserting into a sorted run places the migration after every one not numbered above it. */
  lemma {:induction false} InsertAt(ms: seq<Migration>, j: nat, m: Migration)
    requires j <= |ms| && (j == 0 || ms[j - 1].number <= m.number)
    requires forall k :: j <= k < |ms| ==> ms[k].number > m.number
    ensures Insert(ms, m) == ms[..j] + [m] + ms[j..]
    decreases |ms|
  {
    if j < |ms| {
      var init := ms[..|ms| - 1];
      InsertAt(init, j, m);
      assert init[..j] == ms[..j];
      assert ms[j..] == init[j..] + [ms[|ms| - 1]];
    }
  }

  /** The shifting loop of the in-place sort: every element before `i` numbered above `m` moves one place right. */
  method ShiftGreater(a: array<Migration>, i: nat, m: Migration) returns (j: nat)
    requires i < a.Length
    modifies a
    ensures j <= i
    ensures forall k :: 0 <= k < j ==> a[k] == old(a[k])
    ensures forall k :: j < k <= i ==> a[k] == old(a[k - 1])
    ensures forall k :: i < k < a.Length ==> a[k] == old(a[k])
    ensures j == 0 || old(a[j - 1]).number <= m.number
    ensures forall k :: j <= k < i ==> old(a[k]).number > m.number
  {
    j := i;
    while j > 0 && a[j - 1].number > m.number
      invariant 0 <= j <= i
      invariant forall k :: 0 <= k < j ==> a[k] == old(a[k])
      invariant forall k :: j < k <= i ==> a[k] == old(a[k - 1])
      invariant forall k :: i < k < a.Length ==> a[k] == old(a[k])
      invariant forall k :: j <= k < i ==> old(a[k]).number > m.number
    {
      a[j] := a[j - 1];
      j := j - 1;
    }
  }

  /** One step of the in-place sort: the element at `i` moves into the sorted run before it. */
  method InsertLast(a: array<Migration>, i: nat)
    requires i < a.Length
    modifies a
    ensures a[..i + 1] == Insert(old(a[..i]), old(a[i]))
    ensures a[i + 1..] == old(a[i + 1..])
  {
    ghost var sorted := a[..i];
    var m := a[i];
    var j := ShiftGreater(a, i, m);
    InsertAt(sorted, j, m);
    a[j] := m;
    Landed(a[..i + 1], sorted, j, m);
  }

  /** The array after the shifts and the final write: the run, with the element at its place. */
  lemma Landed(s: seq<Migration>, sorted: seq<Migration>, j: nat, m: Migration)
    requires |s| == |sorted| + 1 && j <= |sorted|
    requires forall k :: 0 <= k < j ==> s[k] == sorted[k]
    requires s[j] == m
    requires forall k :: j < k < |s| ==> s[k] == sorted[k - 1]
    ensures s == sorted[..j] + [m] + sorted[j..]
  {
  }

  /** `sort_by_key` on the collected vector, in place: a stable insertion sort by number. */
  method SortMigrations(a: array<Migration>)
    modifies a
    ensures a[..] == SortByNumber(old(a[..]))
  {
    ghost var start := a[..];
    for i := 0 to a.Length
      invariant a[..i] == SortByNumber(start[..i])
      invariant a[i..] == start[i..]
    {
      ghost var before := a[..];
      assert before[i] == start[i] && before[i + 1..] == start[i + 1..] by {
        assert before[i..] == start[i..];
      }
      InsertLast(a, i);
      assert start[..i + 1][..i] == start[..i];
    }
    assert a[..] == a[..a.Length];
    assert start == start[..a.Length];
  }

  /** The contents of the migrations, in order. */
  function ContentsOf(ms: seq<Migration>): (r: seq<string>)
    ensures |r| == |ms| && forall i :: 0 <= i < |ms| ==> r[i] == ms[i].contents
  {
    W.MapSeq(ms, (m: Migration) => m.contents)
  }

  /**
   * What `include_migrations` emits: a compile error when the directory
   * cannot be listed, a panic from a bad migration, or the migrations'
   * contents ordered by number.
   */
  function IncludedMigrations(dir: W.Result<seq<DirEntry>, IoError>): W.Fallible<W.Result<seq<string>, IoError>> {
    match dir
    case Err(e) => W.Returns(W.Err(e))
    case Ok(es) =>
      match Collect(es)
      case Panics => W.Panics
      case Returns(ms) => W.Returns(W.Ok(ContentsOf(SortByNumber(ms))))
  }

  /** `include_migrations`: collect, sort in place, then keep the contents. */
  method IncludeMigrations(dir: W.Result<seq<DirEntry>, IoError>) returns (r: W.Fallible<W.Result<seq<string>, IoError>>)
    ensures r == IncludedMigrations(dir)
  {
    match dir {
      case Err(e) =>
        r := W.Returns(W.Err(e));
      case Ok(es) =>
        match Collect(es) {
          case Panics =>
            r := W.Panics;
          case Returns(ms) =>
            var a := new Migration[|ms|](i requires 0 <= i < |ms| => ms[i]);
            assert a[..] == ms;
            SortMigrations(a);
            r := W.Returns(W.Ok(ContentsOf(a[..])));
        }
    }
  }

  /**
   * The emitted contents are those of the picked migrations, ordered by
   * number, with migrations of equal number in listing order.
   */
  lemma IncludedMigrationsOrdered(es: seq<DirEntry>, i: nat, j: nat)
    requires IncludedMigrations(W.Ok(es)).Returns?
    ensures Collect(es).Returns?
    ensures var sorted := SortByNumber(Collect(es).value);
      && IncludedMigrations(W.Ok(es)).value == W.Ok(ContentsOf(sorted))
      && multiset(sorted) == multiset(Collect(es).value)
      && (i < j < |sorted| ==> sorted[i].number <= sorted[j].number)
  {
    SortByNumberSorts(Collect(es).value);
  }
}
