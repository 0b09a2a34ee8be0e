/**
 * File selection for a batch: discovering the files under a directory that
 * match a pattern, splitting them by supported extension, and keeping the
 * ones that pass the security validator.
 */
module BatchHelpers {
  import opened Wrappers
  import opened Paths
  import opened Glob

  /** The extensions a batch accepts, lower-case with their leading dot. */
  const SupportedExtensions: set<string> := {".pdf", ".txt", ".docx", ".md", ".jpg", ".jpeg", ".png"}

  /** A path handed to the filter, with whether it names a directory. */
  datatype Entry = Entry(path: string, isDir: bool)

  /** The extension that is looked up: the suffix of the file name, lower-cased. */
  function Extension(path: string): (x: string)
    ensures x == "" || (|x| >= 2 && x[0] == '.')
    ensures forall j :: 0 <= j < |x| ==> !('A' <= x[j] <= 'Z')
  {
    Lower(Suffix(Name(path)))
  }

  predicate IsSupported(path: string)
  {
    Extension(path) in SupportedExtensions
  }

  /** Names that differ only in letter case have the same extension, so they are classified alike. */
  lemma {:induction false} ExtensionIgnoresCase(p: string, q: string)
    requires Lower(Name(p)) == Lower(Name(q))
    ensures Extension(p) == Extension(q)
    ensures IsSupported(p) <==> IsSupported(q)
  {
    SuffixLower(Name(p));
    SuffixLower(Name(q));
  }

  /**
   * A bare `<stem><ext>` file name (such as `doc.PDF`) has extension `ext`
   * lower-cased, so it is supported exactly when that lower-cased form is listed.
   */
  lemma {:induction false} ExtensionOfName(stem: string, ext: string)
    requires |stem| > 0 && |ext| >= 2 && ext[0] == '.'
    requires forall j :: 1 <= j < |ext| ==> ext[j] != '.'
    requires Separator !in stem + ext
    ensures Extension(stem + ext) == Lower(ext)
  {
    var n := stem + ext;
    assert Name(n) == n;
    SuffixOfStem(stem, ext);
  }

  /** The number of entries that are not directories. */
  function FileCount(entries: seq<Entry>): (n: nat)
    ensures n <= |entries|
    ensures (forall i :: 0 <= i < |entries| ==> entries[i].isDir) ==> n == 0
    ensures (forall i :: 0 <= i < |entries| ==> !entries[i].isDir) ==> n == |entries|
  {
    if entries == [] then 0
    else (if entries[0].isDir then 0 else 1) + FileCount(entries[1..])
  }

  /** How an unsupported file is reported: its name and its (lower-cased) extension. */
  function Unsupported(path: string): (string, string)
  {
    (Name(path), Extension(path))
  }

  /** The supported file paths, in input order. */
  function SupportedPaths(entries: seq<Entry>): (r: seq<string>)
    ensures forall p :: p in r <==> Entry(p, false) in entries && IsSupported(p)
  {
    if entries == [] then []
    else
      var e := entries[0];
      (if !e.isDir && IsSupported(e.path) then [e.path] else []) + SupportedPaths(entries[1..])
  }

  /** The unsupported file paths, in input order. */
  function UnsupportedPaths(entries: seq<Entry>): (r: seq<string>)
    ensures forall p :: p in r <==> Entry(p, false) in entries && !IsSupported(p)
  {
    if entries == [] then []
    else
      var e := entries[0];
      (if !e.isDir && !IsSupported(e.path) then [e.path] else []) + UnsupportedPaths(entries[1..])
  }

  /** The report of each path, position by position. */
  function Reports(paths: seq<string>): (r: seq<(string, string)>)
    ensures |r| == |paths|
    ensures forall i :: 0 <= i < |paths| ==> r[i] == Unsupported(paths[i])
  {
    seq(|paths|, i requires 0 <= i < |paths| => Unsupported(paths[i]))
  }

  /** `u` is the report of some unsupported file among `entries`. */
  predicate ReportedFrom(entries: seq<Entry>, u: (string, string))
  {
    exists e :: e in entries && !e.isDir && !IsSupported(e.path) && u == Unsupported(e.path)
  }

  /** A (name, extension) pair per unsupported file, in input order. */
  function UnsupportedPairs(entries: seq<Entry>): (r: seq<(string, string)>)
    ensures forall e :: e in entries && !e.isDir && !IsSupported(e.path) ==> Unsupported(e.path) in r
    ensures forall u :: u in r ==> ReportedFrom(entries, u)
  {
    var ps := UnsupportedPaths(entries);
    var r := Reports(ps);
    forall e | e in entries && !e.isDir && !IsSupported(e.path)
      ensures Unsupported(e.path) in r
    {
      assert e == Entry(e.path, false);
      var k :| 0 <= k < |ps| && ps[k] == e.path;
      assert r[k] == Unsupported(e.path);
    }
    forall u | u in r
      ensures ReportedFrom(entries, u)
    {
      var k :| 0 <= k < |r| && r[k] == u;
      assert ps[k] in ps;
      assert Entry(ps[k], false) in entries;
    }
    r
  }

  /**
   * `filter_supported_files`: the supported file paths, and a (name,
   * extension) pair for each unsupported file; directories are dropped.
   */
  function FilterSupportedFiles(entries: seq<Entry>): (r: (seq<string>, seq<(string, string)>))
    ensures forall p :: p in r.0 <==> Entry(p, false) in entries && IsSupported(p)
    ensures forall e :: e in entries && !e.isDir && !IsSupported(e.path) ==> Unsupported(e.path) in r.1
    ensures forall u :: u in r.1 ==> ReportedFrom(entries, u)
  {
    (SupportedPaths(entries), UnsupportedPairs(entries))
  }

  /** Every file lands in exactly one of the two lists, and no directory in either. */
  lemma {:induction false} FilterPartitions(entries: seq<Entry>)
    ensures |FilterSupportedFiles(entries).0| + |FilterSupportedFiles(entries).1| == FileCount(entries)
  {
    if entries != [] {
      FilterPartitions(entries[1..]);
    }
  }

  lemma {:induction false} SupportedPathsAppend(a: seq<Entry>, b: seq<Entry>)
    ensures SupportedPaths(a + b) == SupportedPaths(a) + SupportedPaths(b)
  {
    if a == [] {
      assert a + b == b;
    } else {
      assert (a + b)[1..] == a[1..] + b;
      SupportedPathsAppend(a[1..], b);
    }
  }

  lemma {:induction false} UnsupportedPairsAppend(a: seq<Entry>, b: seq<Entry>)
    ensures UnsupportedPairs(a + b) == UnsupportedPairs(a) + UnsupportedPairs(b)
  {
    UnsupportedPathsAppend(a, b);
    ReportsAppend(UnsupportedPaths(a), UnsupportedPaths(b));
  }

  lemma {:induction false} UnsupportedPathsAppend(a: seq<Entry>, b: seq<Entry>)
    ensures UnsupportedPaths(a + b) == UnsupportedPaths(a) + UnsupportedPaths(b)
  {
    if a == [] {
      assert a + b == b;
    } else {
      assert (a + b)[1..] == a[1..] + b;
      UnsupportedPathsAppend(a[1..], b);
    }
  }

  lemma ReportsAppend(p: seq<string>, q: seq<string>)
    ensures Reports(p + q) == Reports(p) + Reports(q)
  {
    var l, r := Reports(p + q), Reports(p) + Reports(q);
    forall i | 0 <= i < |l|
      ensures l[i] == r[i]
    {
      if i < |p| {
        assert (p + q)[i] == p[i];
      } else {
        assert (p + q)[i] == q[i - |p|];
      }
    }
  }

  /** Filtering is done entry by entry, so both lists keep the input order. */
  lemma {:induction false} FilterSupportedAppend(a: seq<Entry>, b: seq<Entry>)
    ensures FilterSupportedFiles(a + b).0 == FilterSupportedFiles(a).0 + FilterSupportedFiles(b).0
    ensures FilterSupportedFiles(a + b).1 == FilterSupportedFiles(a).1 + FilterSupportedFiles(b).1
  {
    SupportedPathsAppend(a, b);
    UnsupportedPairsAppend(a, b);
  }

  /** With only directories in the input, both lists are empty. */
  lemma {:induction false} FilterDropsDirectories(entries: seq<Entry>)
    requires forall i :: 0 <= i < |entries| ==> entries[i].isDir
    ensures FilterSupportedFiles(entries) == ([], [])
  {
    if entries != [] {
      FilterDropsDirectories(entries[1..]);
    }
  }

  /**
   * `validate_files_for_batch`: the files on which the validator does not
   * raise (`passes` is false where it raises), in input order.
   */
  function ValidateFilesForBatch(files: seq<string>, passes: string -> bool): (r: seq<string>)
    ensures |r| <= |files|
    ensures forall f :: f in r <==> f in files && passes(f)
    ensures files == [] ==> r == []
  {
    if files == [] then []
    else (if passes(files[0]) then [files[0]] else []) + ValidateFilesForBatch(files[1..], passes)
  }

  /** Validation is file by file, so the kept files stay in input order. */
  lemma {:induction false} ValidateAppend(a: seq<string>, b: seq<string>, passes: string -> bool)
    ensures ValidateFilesForBatch(a + b, passes) == ValidateFilesForBatch(a, passes) + ValidateFilesForBatch(b, passes)
  {
    if a == [] {
      assert a + b == b;
    } else {
      assert (a + b)[1..] == a[1..] + b;
      ValidateAppend(a[1..], b, passes);
    }
  }

  /** Everything passes exactly when nothing is dropped. */
  lemma {:induction false} ValidateKeepsAll(files: seq<string>, passes: string -> bool)
    ensures ValidateFilesForBatch(files, passes) == files <==> forall i :: 0 <= i < |files| ==> passes(files[i])
  {
    if files != [] {
      ValidateKeepsAll(files[1..], passes);
      assert files == [files[0]] + files[1..];
    }
  }

  /** A directory tree as discovery sees it. */
  datatype Node = File(name: string) | Dir(name: string, children: seq<Node>)

  /** No entry name contains the separator. */
  predicate WellNamed(nodes: seq<Node>)
    decreases nodes
  {
    forall i :: 0 <= i < |nodes| ==>
      Separator !in nodes[i].name && (nodes[i].Dir? ==> WellNamed(nodes[i].children))
  }

  /** The paths of the files directly in `dir`, in listing order. */
  function DirectFiles(dir: string, children: seq<Node>): (r: seq<string>)
    ensures |r| <= |children|
  {
    if children == [] then []
    else (if children[0].File? then [Join(dir, children[0].name)] else []) + DirectFiles(dir, children[1..])
  }

  /**
   * The paths of all the files at any depth under `dir`, in the order a
   * depth-first walk visits them: the files directly in `dir` first, then
   * the files under each subdirectory, subdirectories in listing order.
   */
  function AllFiles(dir: string, children: seq<Node>): seq<string>
    decreases children, 1
  {
    DirectFiles(dir, children) + SubtreeFiles(dir, children)
  }

  /** The files under the subdirectories among `children`, one subdirectory after another. */
  function SubtreeFiles(dir: string, children: seq<Node>): seq<string>
    decreases children, 0
  {
    if children == [] then []
    else
      (match children[0]
       case File(_) => []
       case Dir(n, cs) => AllFiles(Join(dir, n), cs))
      + SubtreeFiles(dir, children[1..])
  }

  /** The paths whose file name matches `pattern`, in order. */
  function Matching(paths: seq<string>, pattern: string): (r: seq<string>)
    ensures forall p :: p in r <==> p in paths && Match(pattern, Name(p))
  {
    if paths == [] then []
    else (if Match(pattern, Name(paths[0])) then [paths[0]] else []) + Matching(paths[1..], pattern)
  }

  lemma {:induction false} MatchingAppend(a: seq<string>, b: seq<string>, pattern: string)
    ensures Matching(a + b, pattern) == Matching(a, pattern) + Matching(b, pattern)
  {
    if a == [] {
      assert a + b == b;
    } else {
      assert (a + b)[1..] == a[1..] + b;
      MatchingAppend(a[1..], b, pattern);
    }
  }

  /** The files directly in `dir` whose name matches `pattern` (what `dir.glob(pattern)` yields). */
  function DirectMatches(dir: string, children: seq<Node>, pattern: string): (r: seq<string>)
    ensures |r| <= |children|
  {
    if children == [] then []
    else
      (if children[0].File? && Match(pattern, children[0].name) then [Join(dir, children[0].name)] else [])
      + DirectMatches(dir, children[1..], pattern)
  }

  /**
   * `discover_files`: the files under `dir` whose name matches `pattern`,
   * only the direct children (`glob`) or at every depth (`rglob`, which
   * yields a directory's own matches before those of its subdirectories).
   */
  function DiscoverFiles(dir: string, children: seq<Node>, pattern: string, recursive: bool): (r: seq<string>)
    ensures DirectMatches(dir, children, pattern) <= r
    ensures !recursive ==> |r| <= |children|
    decreases children, 1
  {
    DirectMatches(dir, children, pattern) + (if recursive then SubtreeMatches(dir, children, pattern) else [])
  }

  /** The matches under the subdirectories among `children`, one subdirectory after another. */
  function SubtreeMatches(dir: string, children: seq<Node>, pattern: string): seq<string>
    decreases children, 0
  {
    if children == [] then []
    else
      (match children[0]
       case File(_) => []
       case Dir(n, cs) => DiscoverFiles(Join(dir, n), cs, pattern, true))
      + SubtreeMatches(dir, children[1..], pattern)
  }

  /** The tail of a well-named listing is well named. */
  lemma WellNamedTail(children: seq<Node>)
    requires children != [] && WellNamed(children)
    ensures WellNamed(children[1..])
  {
    assert forall i :: 1 <= i < |children| ==> children[i] == children[1..][i - 1];
  }

  /** The direct matches are the direct files whose name matches, each with `dir` as its parent. */
  lemma {:induction false} DirectMatchesSpec(dir: string, children: seq<Node>, pattern: string)
    requires WellNamed(children)
    ensures DirectMatches(dir, children, pattern) == Matching(DirectFiles(dir, children), pattern)
    ensures forall p :: p in DirectMatches(dir, children, pattern) ==> Parent(p) == dir
  {
    if children != [] {
      WellNamedTail(children);
      DirectMatchesSpec(dir, children[1..], pattern);
      var head := if children[0].File? then [Join(dir, children[0].name)] else [];
      MatchingAppend(head, DirectFiles(dir, children[1..]), pattern);
      JoinSplits(dir, children[0].name);
      assert Matching(head, pattern) == (if children[0].File? && Match(pattern, children[0].name) then [Join(dir, children[0].name)] else []);
    }
  }

  /** Non-recursive discovery lists exactly the direct files whose name matches, in listing order. */
  lemma DiscoverDirect(dir: string, children: seq<Node>, pattern: string)
    requires WellNamed(children)
    ensures DiscoverFiles(dir, children, pattern, false) == Matching(DirectFiles(dir, children), pattern)
    ensures forall p :: p in DiscoverFiles(dir, children, pattern, false) ==> Parent(p) == dir
  {
    DirectMatchesSpec(dir, children, pattern);
    assert DiscoverFiles(dir, children, pattern, false) == DirectMatches(dir, children, pattern);
  }

  /** Recursive discovery lists exactly the files at any depth whose name matches, in walk order. */
  lemma {:induction false} DiscoverRecursive(dir: string, children: seq<Node>, pattern: string)
    requires WellNamed(children)
    ensures DiscoverFiles(dir, children, pattern, true) == Matching(AllFiles(dir, children), pattern)
    decreases children, 1
  {
    DirectMatchesSpec(dir, children, pattern);
    SubtreeMatchesSpec(dir, children, pattern);
    MatchingAppend(DirectFiles(dir, children), SubtreeFiles(dir, children), pattern);
  }

  lemma {:induction false} SubtreeMatchesSpec(dir: string, children: seq<Node>, pattern: string)
    requires WellNamed(children)
    ensures SubtreeMatches(dir, children, pattern) == Matching(SubtreeFiles(dir, children), pattern)
    decreases children, 0
  {
    if children != [] {
      WellNamedTail(children);
      SubtreeMatchesSpec(dir, children[1..], pattern);
      var head := match children[0]
        case File(_) => []
        case Dir(n, cs) => AllFiles(Join(dir, n), cs);
      MatchingAppend(head, SubtreeFiles(dir, children[1..]), pattern);
      match children[0]
      case File(_) =>
        assert Matching(head, pattern) == [];
      case Dir(n, cs) =>
        assert WellNamed(cs) by { assert children[0] == children[0]; }
        DiscoverRecursive(Join(dir, n), cs, pattern);
    }
  }

  /** Every direct file is also in the full listing, at the front. */
  lemma DirectFilesAmongAll(dir: string, children: seq<Node>)
    ensures DirectFiles(dir, children) <= AllFiles(dir, children)
    ensures forall p :: p in DirectFiles(dir, children) ==> p in AllFiles(dir, children)
  {
  }

  /**
   * Whatever non-recursive discovery finds, recursive discovery finds too,
   * and lists it first, in the same order.
   */
  lemma RecursiveFindsMore(dir: string, children: seq<Node>, pattern: string)
    ensures DiscoverFiles(dir, children, pattern, false) <= DiscoverFiles(dir, children, pattern, true)
    ensures forall p :: p in DiscoverFiles(dir, children, pattern, false) ==> p in DiscoverFiles(dir, children, pattern, true)
  {
    assert DiscoverFiles(dir, children, pattern, false) == DirectMatches(dir, children, pattern);
  }

  /** The three names of the example below all match `*.txt`. */
  lemma TxtNamesMatch()
    ensures Match("*.txt", "a.txt") && Match("*.txt", "b.txt") && Match("*.txt", "c.txt")
  {
    assert "*.txt" == ['*'] + ".txt";
    assert "a.txt"[1..] == ".txt" && "b.txt"[1..] == ".txt" && "c.txt"[1..] == ".txt";
    MatchStarLiteral(".txt", "a.txt");
    MatchStarLiteral(".txt", "b.txt");
    MatchStarLiteral(".txt", "c.txt");
  }

  /** The last entry of the example below matches on its own. */
  lemma ExampleLastMatch(last: seq<Node>)
    requires last == [File("b.txt")]
    ensures DirectMatches("d", last, "*.txt") == ["d/b.txt"]
  {
    TxtNamesMatch();
    assert last[1..] == [];
    assert Join("d", "b.txt") == "d/b.txt";
  }

  /** The direct matches of the example below: its two files, in listing order. */
  lemma ExampleDirectMatches(kids: seq<Node>)
    requires kids == [File("a.txt"), Dir("sub", [File("c.txt")]), File("b.txt")]
    ensures DirectMatches("d", kids, "*.txt") == ["d/a.txt", "d/b.txt"]
  {
    TxtNamesMatch();
    var rest := kids[1..];
    assert rest == [Dir("sub", [File("c.txt")]), File("b.txt")];
    ExampleLastMatch(rest[1..]);
    assert DirectMatches("d", rest, "*.txt") == ["d/b.txt"];
    assert Join("d", "a.txt") == "d/a.txt";
  }

  /** The subdirectory matches of the example below: the one file under `sub`. */
  lemma ExampleSubtreeMatches(kids: seq<Node>)
    requires kids == [File("a.txt"), Dir("sub", [File("c.txt")]), File("b.txt")]
    ensures SubtreeMatches("d", kids, "*.txt") == ["d/sub/c.txt"]
  {
    TxtNamesMatch();
    var sub := [File("c.txt")];
    assert sub[1..] == [];
    assert Join("d", "sub") == "d/sub" && Join("d/sub", "c.txt") == "d/sub/c.txt";
    assert DiscoverFiles("d/sub", sub, "*.txt", true) == ["d/sub/c.txt"];
    assert kids[1..][1..] == [File("b.txt")] && kids[1..][1..][1..] == [];
    assert SubtreeMatches("d", kids[1..][1..], "*.txt") == [];
  }

  /** The order `rglob` yields: a directory's own files come before the files in its subdirectories. */
  lemma RglobOrderExample()
    ensures DiscoverFiles("d", [File("a.txt"), Dir("sub", [File("c.txt")]), File("b.txt")], "*.txt", true)
            == ["d/a.txt", "d/b.txt", "d/sub/c.txt"]
  {
    var kids := [File("a.txt"), Dir("sub", [File("c.txt")]), File("b.txt")];
    ExampleDirectMatches(kids);
    ExampleSubtreeMatches(kids);
  }

  /** A name matching `*<ext>` is `ext` itself or has suffix `ext`. */
  lemma {:induction false} StarExtensionSuffix(n: string, ext: string)
    requires |ext| >= 2 && ext[0] == '.' && Literal(ext)
    requires forall j :: 1 <= j < |ext| ==> ext[j] != '.'
    requires Match(['*'] + ext, n)
    ensures n == ext || Suffix(n) == ext
  {
    MatchStarLiteral(ext, n);
    if n != ext {
      var k := |n| - |ext|;
      assert n == n[..k] + ext;
      SuffixOfStem(n[..k], ext);
    }
  }

  /**
   * With a pattern `*<ext>` such as `*.txt`, every discovered file has
   * suffix `ext` (unless its whole name is `ext`, a hidden file with no
   * suffix of its own).
   */
  lemma {:induction false} DiscoveredSuffix(dir: string, children: seq<Node>, ext: string, recursive: bool)
    requires WellNamed(children)
    requires |ext| >= 2 && ext[0] == '.' && Literal(ext)
    requires forall j :: 1 <= j < |ext| ==> ext[j] != '.'
    ensures forall p :: p in DiscoverFiles(dir, children, ['*'] + ext, recursive) ==>
      Name(p) == ext || Suffix(Name(p)) == ext
  {
    var pattern := ['*'] + ext;
    if recursive {
      DiscoverRecursive(dir, children, pattern);
    } else {
      DiscoverDirect(dir, children, pattern);
    }
    forall p | p in DiscoverFiles(dir, children, pattern, recursive)
      ensures Name(p) == ext || Suffix(Name(p)) == ext
    {
      StarExtensionSuffix(Name(p), ext);
    }
  }
}
