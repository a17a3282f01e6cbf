/**
 * The older library indexer: a breadth-first walk of the library's root
 * directories with a FIFO queue and a visited set, a filter on the library
 * kind's extensions, and the reconciliation of the library's rows with the
 * files found (new files are inserted, rows whose file was not found are
 * deleted).
 *
 * The filesystem is an oracle from a path to its listing. Each entry of a
 * listing is given already resolved: symbolic links followed to their
 * target, with the target's path and whether it is a regular file, or a
 * failure of any of the calls that read the entry. The walk is taken over a
 * finite set of paths closed under listing, which a real filesystem is.
 */
module ServerTasks {
  import W = Wrappers
  import opened StdPath
  import CL = CommonLibrary

  // ------------------------------------------------------------ filesystem

  /** One entry of a directory listing, its symbolic links followed, or an error reading it. */
  datatype Entry = Resolved(path: string, isFile: bool) | Failed

  /** `fs::read_dir`: an error, or the entries in the order the directory yields them. */
  datatype Listing = ReadFailed | Listed(entries: seq<Entry>)

  type Fs = string -> Listing

  /** An I/O error; its kind and message are not modelled. */
  datatype IoError = IoError

  /** An item of the walk's stream: a file path or an error. */
  type Item = W.Result<string, IoError>

  /** The entries before the first failure. */
  function Prefix(es: seq<Entry>): (r: seq<Entry>)
    ensures r <= es
    ensures forall i :: 0 <= i < |r| ==> r[i].Resolved?
    ensures |r| < |es| ==> es[|r|].Failed?
    decreases |es|
  {
    if es == [] || es[0].Failed? then [] else [es[0]] + Prefix(es[1..])
  }

  /** The paths of the entries that are regular files, in order. */
  function FilesOf(es: seq<Entry>): seq<string>
    decreases |es|
  {
    if es == [] then []
    else (if es[0].Resolved? && es[0].isFile then [es[0].path] else []) + FilesOf(es[1..])
  }

  /** The paths of the entries that are anything but regular files, in order. */
  function DirsOf(es: seq<Entry>): seq<string>
    decreases |es|
  {
    if es == [] then []
    else (if es[0].Resolved? && !es[0].isFile then [es[0].path] else []) + DirsOf(es[1..])
  }

  /** A path is collected as a file, or queued, exactly when an entry resolves to it as such. */
  lemma {:induction false} FilesAndDirsOf(es: seq<Entry>, p: string)
    ensures p in FilesOf(es) <==> Resolved(p, true) in es
    ensures p in DirsOf(es) <==> Resolved(p, false) in es
    decreases |es|
  {
    if es != [] {
      FilesAndDirsOf(es[1..], p);
      assert es == [es[0]] + es[1..];
    }
  }

  /** `parse_dir` over the entries left: files are collected, the rest queued, and a failure stops it. */
  function ParseEntries(es: seq<Entry>, queue: seq<string>, files: seq<string>): (seq<string>, W.Result<seq<string>, IoError>)
    decreases |es|
  {
    if es == [] then (queue, W.Ok(files))
    else match es[0]
      case Failed => (queue, W.Err(IoError))
      case Resolved(p, isFile) =>
        if isFile then ParseEntries(es[1..], queue, files + [p])
        else ParseEntries(es[1..], queue + [p], files)
  }

  /** The entries before a failure are all read: their non-files queued, their files kept only when no entry fails. */
  lemma {:induction false} ParseEntriesSpec(es: seq<Entry>, queue: seq<string>, files: seq<string>)
    ensures ParseEntries(es, queue, files).0 == queue + DirsOf(Prefix(es))
    ensures ParseEntries(es, queue, files).1 ==
      if Failed in es then W.Err(IoError) else W.Ok(files + FilesOf(es))
    decreases |es|
  {
    if es == [] {
      assert files + FilesOf(es) == files;
    } else if es[0].Failed? {
      assert Failed in es;
    } else {
      var p := es[0].path;
      assert es == [es[0]] + es[1..];
      assert Prefix(es) == [es[0]] + Prefix(es[1..]);
      assert ([es[0]] + Prefix(es[1..]))[1..] == Prefix(es[1..]);
      assert Failed in es <==> Failed in es[1..];
      if es[0].isFile {
        ParseEntriesSpec(es[1..], queue, files + [p]);
        assert DirsOf(Prefix(es)) == DirsOf(Prefix(es[1..]));
        assert files + [p] + FilesOf(es[1..]) == files + FilesOf(es);
      } else {
        ParseEntriesSpec(es[1..], queue + [p], files);
        assert DirsOf(Prefix(es)) == [p] + DirsOf(Prefix(es[1..]));
        assert FilesOf(es) == FilesOf(es[1..]);
        assert queue + [p] + DirsOf(Prefix(es[1..])) == queue + DirsOf(Prefix(es));
      }
    }
  }

  /**
   * `parse_dir(queue, path)`: the queue extended with the non-file entries
   * met before any failure, and the directory's files, or an error when the
   * directory cannot be read or one of its entries fails; the files collected
   * before a failure are then dropped, the queued directories are not.
   */
  function ParseDirSpec(listing: Listing, queue: seq<string>): (r: (seq<string>, W.Result<seq<string>, IoError>))
    ensures listing.ReadFailed? ==> r == (queue, W.Err(IoError))
    ensures listing.Listed? ==> r.0 == queue + DirsOf(Prefix(listing.entries))
    ensures r.1.Err? ==> r.1 == W.Err(IoError)
    ensures r.1.Ok? <==> listing.Listed? && Failed !in listing.entries
    ensures r.1.Ok? ==> r.1.value == FilesOf(listing.entries)
  {
    match listing
    case ReadFailed => (queue, W.Err(IoError))
    case Listed(es) =>
      ParseEntriesSpec(es, queue, []);
      ParseEntries(es, queue, [])
  }

  /** The stream items of one `parse_dir` result: its files, or the error. */
  function ItemsOf(res: W.Result<seq<string>, IoError>): seq<Item> {
    match res
    case Ok(files) => W.MapSeq(files, (f: string) => W.Ok(f))
    case Err(e) => [W.Err(e)]
  }

  /**
   * The items one expanded directory contributes to the stream: a single
   * error, or only files of its listing, all of them.
   */
  function DirItems(fs: Fs, path: string): (r: seq<Item>)
    ensures r == [W.Err(IoError)] || fs(path).Listed?
    ensures r != [W.Err(IoError)] ==>
      (|r| == |FilesOf(fs(path).entries)| && forall i :: 0 <= i < |r| ==> r[i] == W.Ok(FilesOf(fs(path).entries)[i]))
  {
    ItemsOf(ParseDirSpec(fs(path), []).1)
  }

  // ------------------------------------------------------------------ walk

  /** Every path the walk can meet is in `u`: listing a path of `u` only yields paths of `u`. */
  ghost predicate Closed(fs: Fs, u: set<string>) {
    forall p, i :: p in u && fs(p).Listed? && 0 <= i < |fs(p).entries| && fs(p).entries[i].Resolved? ==>
      fs(p).entries[i].path in u
  }

  predicate Within(queue: seq<string>, u: set<string>) {
    forall i :: 0 <= i < |queue| ==> queue[i] in u
  }

  /** The stream the walk yields and the directories it expands, in order. */
  datatype Trace = Trace(items: seq<Item>, expanded: seq<string>)

  lemma QueuedWithin(fs: Fs, u: set<string>, p: string, rest: seq<string>)
    requires Closed(fs, u) && p in u && Within(rest, u)
    ensures Within(ParseDirSpec(fs(p), rest).0, u)
  {
    if fs(p).Listed? {
      var es := fs(p).entries;
      var q := ParseDirSpec(fs(p), rest).0;
      forall i | |rest| <= i < |q|
        ensures q[i] in u
      {
        var d := DirsOf(Prefix(es))[i - |rest|];
        FilesAndDirsOf(Prefix(es), d);
        assert Resolved(d, false) in Prefix(es);
        var k :| 0 <= k < |es| && es[k] == Resolved(d, false);
      }
    }
  }

  /**
   * `walk_dirs`, from a visited set and a queue: pop the front; a visited
   * path is skipped, any other is marked visited and expanded with
   * `parse_dir`; the stream ends when the queue is empty.
   */
  function Walk(fs: Fs, u: set<string>, visited: set<string>, queue: seq<string>): (t: Trace)
    requires Closed(fs, u) && visited <= u && Within(queue, u)
    decreases |u - visited|, |queue|
  {
    if queue == [] then Trace([], [])
    else
      var p := queue[0];
      if p in visited then Walk(fs, u, visited, queue[1..])
      else
        QueuedWithin(fs, u, p, queue[1..]);
        assert |u - (visited + {p})| < |u - visited| by {
          assert u - (visited + {p}) < u - visited;
        }
        var next := ParseDirSpec(fs(p), queue[1..]);
        var t := Walk(fs, u, visited + {p}, next.0);
        Trace(ItemsOf(next.1) + t.items, [p] + t.expanded)
  }

  /** The stream is the items of the expanded directories, concatenated in expansion order. */
  lemma {:induction false} WalkItems(fs: Fs, u: set<string>, visited: set<string>, queue: seq<string>)
    requires Closed(fs, u) && visited <= u && Within(queue, u)
    ensures var t := Walk(fs, u, visited, queue); t.items == W.FlatMap(t.expanded, (p: string) => DirItems(fs, p))
    decreases |u - visited|, |queue|
  {
    if queue != [] {
      var p := queue[0];
      if p in visited {
        WalkItems(fs, u, visited, queue[1..]);
      } else {
        QueuedWithin(fs, u, p, queue[1..]);
        assert u - (visited + {p}) < u - visited;
        var next := ParseDirSpec(fs(p), queue[1..]).0;
        WalkItems(fs, u, visited + {p}, next);
        var t := Walk(fs, u, visited + {p}, next);
        var f := (p: string) => DirItems(fs, p);
        W.FlatMapAppend([p], t.expanded, f);
        assert W.FlatMap([p], f) == W.FlatMap([], f) + f(p);
        assert ParseDirSpec(fs(p), queue[1..]).1 == ParseDirSpec(fs(p), []).1;
      }
    }
  }

  /** Popping a visited path skips it. */
  lemma WalkSkip(fs: Fs, u: set<string>, visited: set<string>, queue: seq<string>)
    requires Closed(fs, u) && visited <= u && Within(queue, u)
    requires queue != [] && queue[0] in visited
    ensures Walk(fs, u, visited, queue) == Walk(fs, u, visited, queue[1..])
  {
  }

  /** Popping a path not visited marks it and expands it. */
  lemma WalkExpand(fs: Fs, u: set<string>, visited: set<string>, queue: seq<string>)
    requires Closed(fs, u) && visited <= u && Within(queue, u)
    requires queue != [] && queue[0] !in visited
    ensures Within(ParseDirSpec(fs(queue[0]), queue[1..]).0, u)
    ensures var next := ParseDirSpec(fs(queue[0]), queue[1..]);
      var t := Walk(fs, u, visited + {queue[0]}, next.0);
      Walk(fs, u, visited, queue) == Trace(ItemsOf(next.1) + t.items, [queue[0]] + t.expanded)
  {
    QueuedWithin(fs, u, queue[0], queue[1..]);
  }

  /** Each directory is expanded at most once, and never one visited before. */
  lemma {:induction false} WalkExpandsOnce(fs: Fs, u: set<string>, visited: set<string>, queue: seq<string>)
    requires Closed(fs, u) && visited <= u && Within(queue, u)
    ensures var e := Walk(fs, u, visited, queue).expanded;
      && (forall i, j :: 0 <= i < j < |e| ==> e[i] != e[j])
      && (forall i :: 0 <= i < |e| ==> e[i] !in visited && e[i] in u)
    decreases |u - visited|, |queue|
  {
    if queue != [] {
      var p := queue[0];
      if p in visited {
        WalkSkip(fs, u, visited, queue);
        WalkExpandsOnce(fs, u, visited, queue[1..]);
      } else {
        WalkExpand(fs, u, visited, queue);
        assert u - (visited + {p}) < u - visited;
        var next := ParseDirSpec(fs(p), queue[1..]).0;
        WalkExpandsOnce(fs, u, visited + {p}, next);
        var rest := Walk(fs, u, visited + {p}, next).expanded;
        assert forall i :: 1 <= i < |[p] + rest| ==> ([p] + rest)[i] == rest[i - 1];
      }
    }
  }

  /** Every path of the queue ends up visited: it was visited before, or the walk expands it. */
  lemma {:induction false} WalkCoversQueue(fs: Fs, u: set<string>, visited: set<string>, queue: seq<string>)
    requires Closed(fs, u) && visited <= u && Within(queue, u)
    ensures var e := Walk(fs, u, visited, queue).expanded;
      forall i :: 0 <= i < |queue| ==> queue[i] in visited || queue[i] in e
    decreases |u - visited|, |queue|
  {
    if queue != [] {
      var p := queue[0];
      if p in visited {
        WalkSkip(fs, u, visited, queue);
        WalkCoversQueue(fs, u, visited, queue[1..]);
        assert forall i :: 1 <= i < |queue| ==> queue[i] == queue[1..][i - 1];
      } else {
        WalkExpand(fs, u, visited, queue);
        assert u - (visited + {p}) < u - visited;
        var next := ParseDirSpec(fs(p), queue[1..]).0;
        WalkCoversQueue(fs, u, visited + {p}, next);
        assert forall i :: 1 <= i < |queue| ==> queue[i] == next[i - 1];
      }
    }
  }

  /** The non-file entries a directory's listing yields before any failure: what expanding it queues. */
  function Children(fs: Fs, p: string): seq<string> {
    if fs(p).Listed? then DirsOf(Prefix(fs(p).entries)) else []
  }

  /** The children of the first directory expanded end up visited. */
  lemma ChildrenOfHeadCovered(fs: Fs, u: set<string>, visited: set<string>, queue: seq<string>)
    requires Closed(fs, u) && visited <= u && Within(queue, u)
    requires queue != [] && queue[0] !in visited
    ensures var e := Walk(fs, u, visited, queue).expanded;
      forall k :: 0 <= k < |Children(fs, queue[0])| ==> Children(fs, queue[0])[k] in visited || Children(fs, queue[0])[k] in e
  {
    var p := queue[0];
    WalkExpand(fs, u, visited, queue);
    var next := ParseDirSpec(fs(p), queue[1..]).0;
    assert next == queue[1..] + Children(fs, p);
    WalkCoversQueue(fs, u, visited + {p}, next);
    assert forall k :: 0 <= k < |Children(fs, p)| ==> next[|queue| - 1 + k] == Children(fs, p)[k];
  }

  /**
   * The walk is closed under listing: every non-file entry met in an
   * expanded directory before any failure ends up visited.
   */
  lemma {:induction false} WalkClosed(fs: Fs, u: set<string>, visited: set<string>, queue: seq<string>)
    requires Closed(fs, u) && visited <= u && Within(queue, u)
    ensures var e := Walk(fs, u, visited, queue).expanded;
      forall i, k :: 0 <= i < |e| && 0 <= k < |Children(fs, e[i])| ==>
        Children(fs, e[i])[k] in visited || Children(fs, e[i])[k] in e
    decreases |u - visited|, |queue|
  {
    if queue != [] {
      var p := queue[0];
      if p in visited {
        WalkSkip(fs, u, visited, queue);
        WalkClosed(fs, u, visited, queue[1..]);
      } else {
        WalkExpand(fs, u, visited, queue);
        ChildrenOfHeadCovered(fs, u, visited, queue);
        assert u - (visited + {p}) < u - visited;
        var next := ParseDirSpec(fs(p), queue[1..]).0;
        WalkClosed(fs, u, visited + {p}, next);
        var rest := Walk(fs, u, visited + {p}, next).expanded;
        assert forall i :: 1 <= i < |[p] + rest| ==> ([p] + rest)[i] == rest[i - 1];
      }
    }
  }

  /** `walk_dirs`' state: the visited set and the queue. */
  class Walker {
    var visited: set<string>
    var queue: seq<string>

    /** The queue starts as the roots, in their order, and nothing is visited. */
    constructor(roots: seq<string>)
      ensures visited == {} && queue == roots
    {
      visited := {};
      queue := roots;
    }

    /** `parse_dir`: reads the listing entry by entry, queueing the non-files; a failing entry stops it. */
    method ParseDir(listing: Listing) returns (res: W.Result<seq<string>, IoError>)
      modifies this
      ensures visited == old(visited)
      ensures (queue, res) == ParseDirSpec(listing, old(queue))
    {
      if listing.ReadFailed? {
        return W.Err(IoError);
      }
      var es := listing.entries;
      var files: seq<string> := [];
      var i := 0;
      while i < |es|
        invariant 0 <= i <= |es| && visited == old(visited)
        invariant ParseEntries(es[i..], queue, files) == ParseDirSpec(listing, old(queue))
        decreases |es| - i
      {
        match es[i] {
          case Failed =>
            return W.Err(IoError);
          case Resolved(path, isFile) =>
            if isFile {
              files := files + [path];
            } else {
              queue := queue + [path];
            }
        }
        assert es[i..][1..] == es[i + 1..];
        i := i + 1;
      }
      return W.Ok(files);
    }

    /**
     * One step of the stream: pop paths until one not visited, mark it and
     * expand it; `None` once the queue is empty.
     */
    method Next(fs: Fs, ghost u: set<string>) returns (r: W.Option<seq<Item>>)
      requires Closed(fs, u) && visited <= u && Within(queue, u)
      modifies this
      ensures visited <= u && Within(queue, u)
      ensures r.None? ==> queue == [] && Walk(fs, u, old(visited), old(queue)).items == []
      ensures r.Some? ==> |u - visited| < |u - old(visited)|
      ensures r.Some? ==> r.value + Walk(fs, u, visited, queue).items == Walk(fs, u, old(visited), old(queue)).items
    {
      while queue != []
        invariant visited == old(visited) && Within(queue, u)
        invariant Walk(fs, u, visited, queue) == Walk(fs, u, old(visited), old(queue))
        decreases |queue|
      {
        var path := queue[0];
        if path in visited {
          WalkSkip(fs, u, visited, queue);
          queue := queue[1..];
          continue;
        }
        WalkExpand(fs, u, visited, queue);
        queue := queue[1..];
        visited := visited + {path};
        var res := ParseDir(fs(path));
        assert u - visited < u - old(visited);
        match res {
          case Ok(files) => r := W.Some(W.MapSeq(files, (f: string) => W.Ok(f)));
          case Err(e) => r := W.Some([W.Err(e)]);
        }
        return;
      }
      return W.None;
    }

    /** The whole stream, step after step until the queue is empty. */
    method Run(fs: Fs, ghost u: set<string>) returns (out: seq<Item>)
      requires Closed(fs, u) && visited <= u && Within(queue, u)
      modifies this
      ensures out == Walk(fs, u, old(visited), old(queue)).items
    {
      out := [];
      ghost var total := Walk(fs, u, visited, queue).items;
      while true
        invariant visited <= u && Within(queue, u)
        invariant out + Walk(fs, u, visited, queue).items == total
        decreases |u - visited|
      {
        var step := Next(fs, u);
        match step {
          case None => return;
          case Some(items) => out := out + items;
        }
      }
    }
  }

  // ---------------------------------------------------------------- filter

  /** The filter of `index_library`: errors pass; a path is kept iff it has an extension the kind lists. */
  function Keep(kind: CL.LibraryKind, item: Item): (r: W.Option<Item>)
    ensures item.Err? ==> r == W.Some(item)
    ensures item.Ok? ==> (r.Some? <==> Extension(item.value).Some? && Extension(item.value).value in CL.Extensions(kind))
    ensures r.Some? ==> r.value == item
  {
    match item
    case Err(e) => W.Some(W.Err(e))
    case Ok(path) =>
      match Extension(path)
      case None => W.None
      case Some(ext) => if ext in CL.Extensions(kind) then W.Some(W.Ok(path)) else W.None
  }

  /** The comparison is case-sensitive: an upper-case extension is dropped. */
  lemma KeepIsCaseSensitive()
    ensures Keep(CL.Music, W.Ok("a.mp3")) == W.Some(W.Ok("a.mp3"))
    ensures Keep(CL.Music, W.Ok("a.MP3")).None?
  {
    ExtensionExamples();
  }

  lemma ExtensionExamples()
    ensures Extension("a.mp3") == W.Some("mp3")
    ensures Extension("a.MP3") == W.Some("MP3")
  {
    assert FileName("a.mp3") == W.Some("a.mp3");
    assert LastIndexOf("a.mp3", '.') == 1;
    assert FileName("a.MP3") == W.Some("a.MP3");
    assert LastIndexOf("a.MP3", '.') == 1;
  }

  /** What one item leaves in the filtered stream. */
  function Kept(kind: CL.LibraryKind): Item -> seq<Item> {
    (item: Item) => if Keep(kind, item).Some? then [item] else []
  }

  /** The filtered stream, in order. */
  function Filtered(kind: CL.LibraryKind, items: seq<Item>): seq<Item> {
    W.FlatMap(items, Kept(kind))
  }

  // -------------------------------------------------------- reconciliation

  /** The rows and the found flags while the filtered stream is consumed. */
  datatype Scan = Scan(rows: map<string, string>, found: set<string>)

  /**
   * One item: an error is logged; a path is inserted with its file name as
   * title unless a row for it exists (`INSERT OR IGNORE`), and marked found
   * when it was among the rows at the start. A path without a file name
   * makes the `unwrap` of its title panic.
   */
  function Visit(start: set<string>, s: Scan, item: Item): W.Fallible<Scan> {
    match item
    case Err(_) => W.Returns(s)
    case Ok(path) =>
      match FileName(path)
      case None => W.Panics
      case Some(title) =>
        W.Returns(Scan(if path in s.rows then s.rows else s.rows[path := title],
                       if path in start then s.found + {path} else s.found))
  }

  function ScanAll(start: set<string>, s: Scan, items: seq<Item>): W.Fallible<Scan>
    decreases |items|
  {
    if items == [] then W.Returns(s)
    else match ScanAll(start, s, items[..|items| - 1])
      case Panics => W.Panics
      case Returns(t) => Visit(start, t, items[|items| - 1])
  }

  /** The rows at the end of the pass: the scan, less the rows of the start that were not found. */
  function Reconcile(rows: map<string, string>, items: seq<Item>): W.Fallible<map<string, string>> {
    match ScanAll(rows.Keys, Scan(rows, {}), items)
    case Panics => W.Panics
    case Returns(s) => W.Returns(map k | k in s.rows && (k !in rows || k in s.found) :: s.rows[k])
  }

  /** The paths among the items. */
  function OkPaths(items: seq<Item>): (r: set<string>)
    ensures forall p :: p in r <==> W.Ok(p) in items
  {
    set i | 0 <= i < |items| && items[i].Ok? :: items[i].value
  }

  /** The scan panics exactly when some path has no file name. */
  lemma {:induction false} ScanAllReturns(rows: map<string, string>, items: seq<Item>)
    ensures ScanAll(rows.Keys, Scan(rows, {}), items).Returns? <==>
      forall p :: W.Ok(p) in items ==> FileName(p).Some?
    decreases |items|
  {
    if items != [] {
      var init := items[..|items| - 1];
      var last := items[|items| - 1];
      ScanAllReturns(rows, init);
      assert items == init + [last];
      assert forall p :: W.Ok(p) in items <==> W.Ok(p) in init || W.Ok(p) == last;
    }
  }

  /** A scan without a panic keeps the old rows, adds the new paths under their file names, and finds exactly the old paths met. */
  lemma {:induction false} ScanAllSpec(rows: map<string, string>, items: seq<Item>)
    ensures ScanAll(rows.Keys, Scan(rows, {}), items).Returns? ==>
      var s := ScanAll(rows.Keys, Scan(rows, {}), items).value;
      && s.rows.Keys == rows.Keys + OkPaths(items)
      && s.found == rows.Keys * OkPaths(items)
      && (forall k :: k in rows ==> s.rows[k] == rows[k])
      && (forall k :: k in s.rows && k !in rows ==> FileName(k) == W.Some(s.rows[k]))
    decreases |items|
  {
    if items != [] {
      var init := items[..|items| - 1];
      var last := items[|items| - 1];
      ScanAllSpec(rows, init);
      assert items == init + [last];
      assert OkPaths(items) == OkPaths(init) + (if last.Ok? then {last.value} else {});
      if ScanAll(rows.Keys, Scan(rows, {}), items).Returns? {
        VisitCovers(rows, OkPaths(init), ScanAll(rows.Keys, Scan(rows, {}), init).value, last);
      }
    }
  }

  /** The scan `s` holds `rows` plus the `paths` met so far, titled by their file names, and has found the old ones among them. */
  predicate Covers(rows: map<string, string>, paths: set<string>, s: Scan) {
    && s.rows.Keys == rows.Keys + paths
    && s.found == rows.Keys * paths
    && (forall k :: k in rows ==> s.rows[k] == rows[k])
    && (forall k :: k in s.rows && k !in rows ==> FileName(k) == W.Some(s.rows[k]))
  }

  lemma VisitCovers(rows: map<string, string>, paths: set<string>, s: Scan, item: Item)
    requires Covers(rows, paths, s) && Visit(rows.Keys, s, item).Returns?
    ensures Covers(rows, paths + (if item.Ok? then {item.value} else {}), Visit(rows.Keys, s, item).value)
  {
  }

  /**
   * After a pass without a panic the library holds exactly the paths found:
   * rows of files still present keep their title, new files are titled by
   * their file name, and rows of files not found are gone.
   */
  lemma ReconcileSpec(rows: map<string, string>, items: seq<Item>)
    ensures Reconcile(rows, items).Returns? <==> forall p :: W.Ok(p) in items ==> FileName(p).Some?
    ensures Reconcile(rows, items).Returns? ==>
      var r := Reconcile(rows, items).value;
      && r.Keys == OkPaths(items)
      && (forall k :: k in r && k in rows ==> r[k] == rows[k])
      && (forall k :: k in r && k !in rows ==> FileName(k) == W.Some(r[k]))
  {
    ScanAllReturns(rows, items);
    ScanAllSpec(rows, items);
  }

  /** The rows of one library, keyed by path, with their titles. */
  class LibraryTable {
    var rows: map<string, string>

    constructor(rows: map<string, string>)
      ensures this.rows == rows
    {
      this.rows := rows;
    }

    /**
     * `index_library`: walk the library's roots, filter the stream on the
     * kind's extensions, insert and mark each path, then delete the rows not
     * found. The `unwrap` of a path's file name never panics: the filter
     * only passes paths with an extension.
     */
    method IndexLibrary(fs: Fs, ghost u: set<string>, config: CL.LibraryConfig)
      requires Closed(fs, u) && Within(config.paths, u)
      modifies this
      ensures var r := Reconcile(old(rows), Filtered(config.kind, Walk(fs, u, {}, config.paths).items));
        r.Returns? && rows == r.value
    {
      var walker := new Walker(config.paths);
      var walked := walker.Run(fs, u);
      Consume(config.kind, walked);
    }

    /** The loop over the filtered stream and the final delete. */
    method Consume(kind: CL.LibraryKind, walked: seq<Item>)
      modifies this
      ensures var r := Reconcile(old(rows), Filtered(kind, walked));
        r.Returns? && rows == r.value
    {
      var start := rows.Keys;
      var found: set<string> := {};
      for i := 0 to |walked|
        invariant ScanAll(start, Scan(old(rows), {}), Filtered(kind, walked[..i])) == W.Returns(Scan(rows, found))
      {
        var item := walked[i];
        FilteredStep(kind, walked, i);
        if Keep(kind, item).Some? {
          ScanSnoc(start, Scan(old(rows), {}), Filtered(kind, walked[..i]), item);
          match item {
            case Err(_) =>
            case Ok(path) =>
              var title := FileName(path).value;
              if path !in rows {
                rows := rows[path := title];
              }
              if path in start {
                found := found + {path};
              }
          }
        }
      }
      assert walked[..|walked|] == walked;
      rows := map k | k in rows && (k !in start || k in found) :: rows[k];
    }
  }

  /** Every path the filter passes has a file name. */
  lemma FilteredHaveTitles(kind: CL.LibraryKind, items: seq<Item>, p: string)
    ensures W.Ok(p) in Filtered(kind, items) ==> FileName(p).Some?
  {
    W.FlatMapMember(items, Kept(kind), W.Ok(p));
  }

  /** The `unwrap` of a title never panics on a filtered stream: the filter only passes paths with an extension. */
  lemma FilteredNeverPanics(rows: map<string, string>, kind: CL.LibraryKind, items: seq<Item>)
    ensures Reconcile(rows, Filtered(kind, items)).Returns?
  {
    var f := Filtered(kind, items);
    forall p | W.Ok(p) in f
      ensures FileName(p).Some?
    {
      FilteredHaveTitles(kind, items, p);
    }
    ScanAllReturns(rows, f);
  }

  /** The filtered prefix grows by the item when it is kept, and not otherwise. */
  lemma FilteredStep(kind: CL.LibraryKind, walked: seq<Item>, i: nat)
    requires i < |walked|
    ensures Keep(kind, walked[i]).None? ==> Filtered(kind, walked[..i + 1]) == Filtered(kind, walked[..i])
    ensures Keep(kind, walked[i]).Some? ==> Filtered(kind, walked[..i + 1]) == Filtered(kind, walked[..i]) + [walked[i]]
  {
    assert walked[..i + 1] == walked[..i] + [walked[i]];
    W.FlatMapAppend(walked[..i], [walked[i]], Kept(kind));
    assert W.FlatMap([walked[i]], Kept(kind)) == W.FlatMap([], Kept(kind)) + Kept(kind)(walked[i]);
  }

  lemma ScanSnoc(start: set<string>, s: Scan, items: seq<Item>, item: Item)
    ensures ScanAll(start, s, items).Panics? ==> ScanAll(start, s, items + [item]).Panics?
    ensures ScanAll(start, s, items).Returns? ==>
      ScanAll(start, s, items + [item]) == Visit(start, ScanAll(start, s, items).value, item)
  {
    assert (items + [item])[..|items|] == items;
  }
}
