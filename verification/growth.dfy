/**
 * `Growth` of `src/structure/growth.rs`: the batch digestion of a project.
 * `traversal_modules` collects the directory atoms of `calculate_source`,
 * gives each its level (its number of `/`), orders them deepest first and
 * memoises the files' payloads (their kinds) per path; `process_file`
 * truncates a file to its first 10000 bytes and asks the completion engine
 * for a summary; `process_dir_results` assembles the block of file
 * summaries a directory's prompt is built from.
 */
module Growth {
  import opened Common
  import opened Text
  import opened Paths
  import opened FileTree
  import opened Software

  // ---------------------------------------------------------------------
  // Payloads: the kind of a file, memoised per path
  // ---------------------------------------------------------------------

  /**
   * The kind of a file: the MIME type the content classifier sniffs, else
   * `text/<extension>`, else `unknown/unknown`.
   */
  function Kind(classify: Path -> Option<string>, path: Path): string
  {
    match classify(path)
    case Some(mime) => mime
    case None =>
      match Extension(path)
      case Some(ext) => "text/" + ext
      case None => "unknown/unknown"
  }

  /** The payload the builder gives an atom: a file's kind, `""` for a directory. */
  function PayloadOf(classify: Path -> Option<string>, atom: SourceAtom): string
  {
    match atom
    case AtomFile(path) => Kind(classify, path)
    case AtomDir(_, _) => ""
  }

  /** The builder closure of `traversal_modules`, without its cache. */
  function Payloads(classify: Path -> Option<string>): SourceAtom -> string
  {
    atom => PayloadOf(classify, atom)
  }

  /** The builder closure with its `source_file_map`: a cache from path to kind. */
  class PayloadCache {
    const classify: Path -> Option<string>
    var entries: map<Path, string>

    /** Every cached kind is the one the classifier gives the path. */
    ghost predicate Valid()
      reads this
    {
      forall p :: p in entries ==> entries[p] == Kind(classify, p)
    }

    constructor (classify: Path -> Option<string>)
      ensures this.classify == classify
      ensures entries == map[]
      ensures Valid()
    {
      this.classify := classify;
      entries := map[];
    }

    /**
     * One call of the builder. A cached path returns its stored kind; a
     * path not yet cached has its kind computed, stored and returned; a
     * directory gets `""` and leaves the cache alone. Either way the
     * answer is the uncached payload, so the cache changes nothing the
     * walk can see.
     */
    method Payload(atom: SourceAtom) returns (r: string)
      requires Valid()
      modifies this
      ensures Valid()
      ensures r == PayloadOf(classify, atom)
      ensures atom.AtomFile? && atom.path in old(entries) ==> r == old(entries)[atom.path]
      ensures atom.AtomFile? ==> entries == old(entries)[atom.path := r]
      ensures atom.AtomDir? ==> entries == old(entries)
    {
      match atom {
        case AtomFile(path) =>
          if path in entries {
            r := entries[path];
          } else {
            r := Kind(classify, path);
            entries := entries[path := r];
          }
        case AtomDir(_, _) =>
          r := "";
      }
    }
  }

  // ---------------------------------------------------------------------
  // Directories with their level
  // ---------------------------------------------------------------------

  /** `BlobProcessedDir<String>`: a directory atom with its level. */
  datatype ProcessedDir = ProcessedDir(root: Path, level: nat, children: seq<SourceAtomTyped<string>>)

  /** `path.split("/").count() - 1`: the number of `/` in the path. */
  function Level(path: Path): (l: nat)
    ensures l == Count(path, '/')
  {
    SplitCount(path, '/');
    |Split(path, '/')| - 1
  }

  /** The processed form of a directory atom. */
  function Processed(a: SourceAtomTyped<string>): ProcessedDir
    requires a.TypedDir?
  {
    ProcessedDir(a.path, Level(a.path), a.children)
  }

  /** The map/filter of `traversal_modules`: directory atoms only, in order. */
  function ProcessedDirs(atoms: seq<SourceAtomTyped<string>>): (r: seq<ProcessedDir>)
    ensures |r| <= |atoms|
    ensures forall i :: 0 <= i < |atoms| && atoms[i].TypedDir? ==> Processed(atoms[i]) in r
    ensures forall d :: d in r ==> exists i :: 0 <= i < |atoms| && atoms[i].TypedDir? && d == Processed(atoms[i])
  {
    if atoms == [] then []
    else
      var rest := ProcessedDirs(atoms[1..]);
      assert forall i :: 1 <= i < |atoms| ==> atoms[i] == atoms[1..][i - 1];
      if atoms[0].TypedDir? then [Processed(atoms[0])] + rest else rest
  }

  /** Only directory atoms become processed directories; files are dropped. */
  lemma {:induction false} ProcessedDirsAppend(a: seq<SourceAtomTyped<string>>, b: seq<SourceAtomTyped<string>>)
    ensures ProcessedDirs(a + b) == ProcessedDirs(a) + ProcessedDirs(b)
    decreases |a|
  {
    if a == [] {
      assert a + b == b;
    } else {
      assert (a + b)[0] == a[0];
      assert (a + b)[1..] == a[1..] + b;
      ProcessedDirsAppend(a[1..], b);
    }
  }

  // ---------------------------------------------------------------------
  // Ordering: stable ascending sort by level, then reverse
  // ---------------------------------------------------------------------

  /** Levels are ascending (the order `sort_by` leaves). */
  predicate Ascending(s: seq<ProcessedDir>)
  {
    forall i, j :: 0 <= i < j < |s| ==> s[i].level <= s[j].level
  }

  /** Levels are non-increasing (the order `traversal_modules` returns). */
  predicate Descending(s: seq<ProcessedDir>)
  {
    forall i, j :: 0 <= i < j < |s| ==> s[i].level >= s[j].level
  }

  /** The entries of `s` at level `l`, in the order of `s`. */
  function AtLevel(s: seq<ProcessedDir>, l: nat): seq<ProcessedDir>
  {
    if s == [] then []
    else (if s[0].level == l then [s[0]] else []) + AtLevel(s[1..], l)
  }

  /** `d` placed before the first entry of `s` whose level is not below its own. */
  function Insert(d: ProcessedDir, s: seq<ProcessedDir>): seq<ProcessedDir>
  {
    if s == [] || d.level <= s[0].level then [d] + s
    else [s[0]] + Insert(d, s[1..])
  }

  /**
   * `data.sort_by(|a, b| a.level.cmp(&b.level))`: the standard library's
   * stable sort, specified by an insertion sort.
   */
  function SortByLevel(s: seq<ProcessedDir>): seq<ProcessedDir>
  {
    if s == [] then [] else Insert(s[0], SortByLevel(s[1..]))
  }

  function Reversed<T>(s: seq<T>): (r: seq<T>)
    ensures |r| == |s|
    ensures forall i :: 0 <= i < |s| ==> r[i] == s[|s| - 1 - i]
  {
    if s == [] then [] else Reversed(s[1..]) + [s[0]]
  }

  /** The order `traversal_modules` returns: sorted by level, then reversed. */
  function Arranged(s: seq<ProcessedDir>): seq<ProcessedDir>
  {
    Reversed(SortByLevel(s))
  }

  lemma {:induction false} InsertAscending(d: ProcessedDir, s: seq<ProcessedDir>)
    requires Ascending(s)
    ensures Ascending(Insert(d, s))
    ensures multiset(Insert(d, s)) == multiset(s) + multiset{d}
    ensures Insert(d, s) != [] && (Insert(d, s)[0] == d || (s != [] && Insert(d, s)[0] == s[0]))
    decreases |s|
  {
    if s == [] || d.level <= s[0].level {
      assert [d] + s == Insert(d, s);
    } else {
      InsertAscending(d, s[1..]);
      assert s == [s[0]] + s[1..];
    }
  }

  /** Inserting `d` adds it to its own level, before that level's entries, and leaves the others alone. */
  lemma {:induction false} InsertAtLevel(d: ProcessedDir, s: seq<ProcessedDir>, l: nat)
    ensures AtLevel(Insert(d, s), l) == (if d.level == l then [d] else []) + AtLevel(s, l)
    decreases |s|
  {
    var hd := if d.level == l then [d] else [];
    if s == [] || d.level <= s[0].level {
      assert ([d] + s)[0] == d;
      assert ([d] + s)[1..] == s;
    } else {
      var t := Insert(d, s[1..]);
      var hs := if s[0].level == l then [s[0]] else [];
      assert ([s[0]] + t)[0] == s[0];
      assert ([s[0]] + t)[1..] == t;
      assert AtLevel(Insert(d, s), l) == hs + AtLevel(t, l);
      InsertAtLevel(d, s[1..], l);
      assert AtLevel(s, l) == hs + AtLevel(s[1..], l);
      assert hs == [] || hd == [];
      assert hs + (hd + AtLevel(s[1..], l)) == hd + (hs + AtLevel(s[1..], l));
    }
  }

  /** The sort orders by level and is a permutation. */
  lemma {:induction false} SortByLevelSorts(s: seq<ProcessedDir>)
    ensures Ascending(SortByLevel(s))
    ensures multiset(SortByLevel(s)) == multiset(s)
    decreases |s|
  {
    if s != [] {
      SortByLevelSorts(s[1..]);
      InsertAscending(s[0], SortByLevel(s[1..]));
      assert s == [s[0]] + s[1..];
    }
  }

  /** The sort is stable: each level keeps its entries in their input order. */
  lemma {:induction false} SortByLevelStable(s: seq<ProcessedDir>, l: nat)
    ensures AtLevel(SortByLevel(s), l) == AtLevel(s, l)
    decreases |s|
  {
    if s != [] {
      SortByLevelStable(s[1..], l);
      InsertAtLevel(s[0], SortByLevel(s[1..]), l);
    }
  }

  lemma {:induction false} AtLevelAppend(a: seq<ProcessedDir>, b: seq<ProcessedDir>, l: nat)
    ensures AtLevel(a + b, l) == AtLevel(a, l) + AtLevel(b, l)
    decreases |a|
  {
    if a == [] {
      assert a + b == b;
    } else {
      var h := if a[0].level == l then [a[0]] else [];
      assert (a + b)[0] == a[0];
      assert (a + b)[1..] == a[1..] + b;
      AtLevelAppend(a[1..], b, l);
      assert AtLevel(a + b, l) == h + AtLevel(a[1..] + b, l);
      assert AtLevel(a, l) == h + AtLevel(a[1..], l);
      assert h + (AtLevel(a[1..], l) + AtLevel(b, l)) == (h + AtLevel(a[1..], l)) + AtLevel(b, l);
    }
  }

  /** Reversing a sequence reverses each of its levels. */
  lemma {:induction false} AtLevelReversed(s: seq<ProcessedDir>, l: nat)
    ensures AtLevel(Reversed(s), l) == Reversed(AtLevel(s, l))
    decreases |s|
  {
    if s != [] {
      AtLevelReversed(s[1..], l);
      AtLevelAppend(Reversed(s[1..]), [s[0]], l);
      assert AtLevel([s[0]], l) == (if s[0].level == l then [s[0]] else []);
      var head := if s[0].level == l then [s[0]] else [];
      assert AtLevel(s, l) == head + AtLevel(s[1..], l);
      ReversedAppend(head, AtLevel(s[1..], l));
    }
  }

  lemma ReversedAppend<T>(a: seq<T>, b: seq<T>)
    ensures Reversed(a + b) == Reversed(b) + Reversed(a)
  {
  }

  lemma {:induction false} ReversedMultiset<T>(s: seq<T>)
    ensures multiset(Reversed(s)) == multiset(s)
    decreases |s|
  {
    if s != [] {
      ReversedMultiset(s[1..]);
      assert s == [s[0]] + s[1..];
    }
  }

  /**
   * The order `traversal_modules` returns: levels never increase, the
   * directories are exactly the input's, and directories of equal level
   * come in the reverse of their input order.
   */
  lemma ArrangedOrder(s: seq<ProcessedDir>)
    ensures Descending(Arranged(s))
    ensures multiset(Arranged(s)) == multiset(s)
    ensures forall l: nat :: AtLevel(Arranged(s), l) == Reversed(AtLevel(s, l))
  {
    SortByLevelSorts(s);
    ReversedMultiset(SortByLevel(s));
    forall l: nat
      ensures AtLevel(Arranged(s), l) == Reversed(AtLevel(s, l))
    {
      AtLevelReversed(SortByLevel(s), l);
      SortByLevelStable(s, l);
    }
  }

  /** `data.reverse()`, in place. */
  method Reverse(a: array<ProcessedDir>)
    modifies a
    ensures a[..] == Reversed(old(a[..]))
  {
    ghost var s := a[..];
    var n := a.Length;
    var i := 0;
    while 2 * i < n - 1
      invariant 0 <= i && 2 * i <= n
      invariant forall k :: 0 <= k < i ==> a[k] == s[n - 1 - k]
      invariant forall k :: n - i <= k < n ==> a[k] == s[n - 1 - k]
      invariant forall k :: i <= k < n - i ==> a[k] == s[k]
    {
      a[i], a[n - 1 - i] := a[n - 1 - i], a[i];
      i := i + 1;
    }
    SwappedHalves(a[..], s, i);
  }

  /** A sequence whose outer `i` pairs are swapped and whose middle is untouched, once the pairs meet, is reversed. */
  lemma SwappedHalves<T>(r: seq<T>, s: seq<T>, i: nat)
    requires |r| == |s| && |s| - 1 <= 2 * i <= |s|
    requires forall k :: 0 <= k < i ==> r[k] == s[|s| - 1 - k]
    requires forall k :: |s| - i <= k < |s| ==> r[k] == s[|s| - 1 - k]
    requires forall k :: i <= k < |s| - i ==> r[k] == s[k]
    ensures r == Reversed(s)
  {
    forall k | 0 <= k < |s|
      ensures r[k] == s[|s| - 1 - k]
    {
      if i <= k < |s| - i {
        assert k == |s| - 1 - k;
      }
    }
  }

  // ---------------------------------------------------------------------
  // Totals
  // ---------------------------------------------------------------------

  /** `total_files`: the children of all directories. */
  function TotalFiles(s: seq<ProcessedDir>): nat
  {
    if s == [] then 0 else |s[0].children| + TotalFiles(s[1..])
  }

  /** `max_level`: the largest level, 0 when there is no directory. */
  function MaxLevel(s: seq<ProcessedDir>): (m: nat)
    ensures forall i :: 0 <= i < |s| ==> s[i].level <= m
    ensures s == [] ==> m == 0
    ensures s != [] ==> exists i :: 0 <= i < |s| && s[i].level == m
  {
    if s == [] then 0
    else
      var rest := MaxLevel(s[1..]);
      assert forall i :: 1 <= i < |s| ==> s[i] == s[1..][i - 1];
      if s[0].level >= rest then s[0].level else rest
  }

  lemma {:induction false} TotalFilesAppend(a: seq<ProcessedDir>, b: seq<ProcessedDir>)
    ensures TotalFiles(a + b) == TotalFiles(a) + TotalFiles(b)
    decreases |a|
  {
    if a == [] {
      assert a + b == b;
    } else {
      assert (a + b)[0] == a[0];
      assert (a + b)[1..] == a[1..] + b;
      TotalFilesAppend(a[1..], b);
    }
  }

  lemma {:induction false} TotalFilesInsert(d: ProcessedDir, s: seq<ProcessedDir>)
    ensures TotalFiles(Insert(d, s)) == |d.children| + TotalFiles(s)
    decreases |s|
  {
    if s != [] && d.level > s[0].level {
      TotalFilesInsert(d, s[1..]);
    }
  }

  /** Sorting and reversing loses no child: the file total is that of the unordered directories. */
  lemma {:induction false} TotalFilesArranged(s: seq<ProcessedDir>)
    ensures TotalFiles(Arranged(s)) == TotalFiles(s)
  {
    TotalFilesSorted(s);
    TotalFilesReversed(SortByLevel(s));
  }

  lemma {:induction false} TotalFilesSorted(s: seq<ProcessedDir>)
    ensures TotalFiles(SortByLevel(s)) == TotalFiles(s)
    decreases |s|
  {
    if s != [] {
      TotalFilesSorted(s[1..]);
      TotalFilesInsert(s[0], SortByLevel(s[1..]));
    }
  }

  lemma {:induction false} TotalFilesReversed(s: seq<ProcessedDir>)
    ensures TotalFiles(Reversed(s)) == TotalFiles(s)
    decreases |s|
  {
    if s != [] {
      TotalFilesReversed(s[1..]);
      TotalFilesAppend(Reversed(s[1..]), [s[0]]);
    }
  }

  /** The maximum level is that of the first directory returned, and is the unordered maximum. */
  lemma MaxLevelArranged(s: seq<ProcessedDir>)
    ensures MaxLevel(Arranged(s)) == MaxLevel(s)
    ensures Arranged(s) != [] ==> MaxLevel(s) == Arranged(s)[0].level
  {
    var r := Arranged(s);
    ArrangedOrder(s);
    assert forall d :: d in r <==> d in s by {
      forall d ensures d in r <==> d in s {
        assert d in r <==> d in multiset(r);
        assert d in s <==> d in multiset(s);
      }
    }
    var m := MaxLevel(r);
    if r != [] {
      var i :| 0 <= i < |s| && s[i].level == MaxLevel(s);
      assert s[i] in r;
      var j :| 0 <= j < |r| && r[j].level == m;
      assert r[j] in s;
    } else {
      assert |s| == |multiset(s)| == 0;
    }
  }

  // ---------------------------------------------------------------------
  // traversal_modules
  // ---------------------------------------------------------------------

  /**
   * `traversal_modules`: the directory atoms of the project's source walk,
   * with their level, deepest first. The totals it prints are computed and
   * dropped. The walk's panics (an ignore query that fails, a directory
   * that cannot be read) are its own.
   */
  method TraversalModules(project: Project, canonicalize: Path -> Option<Path>, classify: Path -> Option<string>)
    returns (r: Outcome<seq<ProcessedDir>>)
    ensures r.Panics? <==> Source(Ignorer(project.repo, canonicalize), Payloads(classify), [project.root]).Panics?
    ensures r.Returns? ==>
      r.value == Arranged(ProcessedDirs(Source(Ignorer(project.repo, canonicalize), Payloads(classify), [project.root]).value))
  {
    var source := CalculateSource(project, canonicalize, Payloads(classify));
    if !source.Returns? {
      return Panics;
    }
    var data := ProcessedDirs(source.value);
    var sorted := SortByLevel(data);
    var a := new ProcessedDir[|sorted|](i requires 0 <= i < |sorted| => sorted[i]);
    assert a[..] == sorted;
    Reverse(a);
    var totalFiles, totalDirs, maxLevel := TotalFiles(a[..]), a.Length, MaxLevel(a[..]);
    return Returns(a[..]);
  }

  // ---------------------------------------------------------------------
  // process_file: truncation and the summary of one file
  // ---------------------------------------------------------------------

  /** The most bytes of a file a prompt may quote. */
  const MaxChar: nat := 10000

  /** Bytes of a character in UTF-8. */
  function Utf8Width(c: char): (w: nat)
    ensures 1 <= w <= 4
  {
    if c as int < 0x80 then 1
    else if c as int < 0x800 then 2
    else if c as int < 0x10000 then 3
    else 4
  }

  /** `s.len()`: the length of `s` in UTF-8 bytes. */
  function ByteLen(s: string): nat
  {
    if s == [] then 0 else Utf8Width(s[0]) + ByteLen(s[1..])
  }

  lemma {:induction false} ByteLenAppend(a: string, b: string)
    ensures ByteLen(a + b) == ByteLen(a) + ByteLen(b)
    decreases |a|
  {
    if a == [] {
      assert a + b == b;
    } else {
      assert (a + b)[0] == a[0];
      assert (a + b)[1..] == a[1..] + b;
      ByteLenAppend(a[1..], b);
    }
  }

  /**
   * `s.get(..b)`: the prefix of `s` that is `b` bytes long, or nothing
   * when byte `b` is past the end or inside a character.
   */
  function BytePrefix(s: string, b: nat): Option<string>
  {
    if b == 0 then Some([])
    else if s == [] || Utf8Width(s[0]) > b then None
    else Prepend(s[0], BytePrefix(s[1..], b - Utf8Width(s[0])))
  }

  function Prepend(c: char, o: Option<string>): Option<string>
  {
    if o.Some? then Some([c] + o.value) else None
  }

  /** What `get` returns is a prefix of `s` of exactly `b` bytes. */
  lemma {:induction false} BytePrefixIsPrefix(s: string, b: nat)
    ensures BytePrefix(s, b).Some? ==> BytePrefix(s, b).value <= s && ByteLen(BytePrefix(s, b).value) == b
    decreases |s|
  {
    if b != 0 && s != [] && Utf8Width(s[0]) <= b {
      BytePrefixIsPrefix(s[1..], b - Utf8Width(s[0]));
      var o := BytePrefix(s[1..], b - Utf8Width(s[0]));
      if o.Some? {
        assert ([s[0]] + o.value)[1..] == o.value;
        assert s == [s[0]] + s[1..];
      }
    }
  }

  /** Skipping a whole prefix `a` skips its bytes. */
  lemma {:induction false} BytePrefixAfter(a: string, t: string, b: nat)
    ensures BytePrefix(t, b).None? ==> BytePrefix(a + t, ByteLen(a) + b).None?
    ensures BytePrefix(t, b).Some? ==> BytePrefix(a + t, ByteLen(a) + b) == Some(a + BytePrefix(t, b).value)
    decreases |a|
  {
    if a == [] {
      assert a + t == t;
      if BytePrefix(t, b).Some? {
        assert a + BytePrefix(t, b).value == BytePrefix(t, b).value;
      }
    } else {
      BytePrefixAfter(a[1..], t, b);
      BytePrefixCons(a, t, b);
      if BytePrefix(t, b).Some? {
        assert [a[0]] + (a[1..] + BytePrefix(t, b).value) == a + BytePrefix(t, b).value;
      }
    }
  }

  /** Skipping the first character of a non-empty prefix `a` skips its bytes. */
  lemma BytePrefixCons(a: string, t: string, b: nat)
    requires a != []
    ensures BytePrefix(a + t, ByteLen(a) + b) == Prepend(a[0], BytePrefix(a[1..] + t, ByteLen(a[1..]) + b))
  {
    var w := Utf8Width(a[0]);
    assert (a + t)[0] == a[0];
    assert (a + t)[1..] == a[1..] + t;
    assert ByteLen(a) + b - w == ByteLen(a[1..]) + b;
  }

  /**
   * The truncation as `process_file` writes it:
   * `file_content.get(..upper).unwrap()` with `upper = min(10000, len)`.
   * It panics when byte 10000 falls inside a character.
   */
  function TruncateAsWritten(content: string): Outcome<string>
  {
    var upper := if MaxChar > ByteLen(content) then ByteLen(content) else MaxChar;
    match BytePrefix(content, upper)
    case Some(p) => Returns(p)
    case None => Panics
  }

  lemma {:induction false} AsciiByteLen(n: nat)
    ensures ByteLen(seq(n, _ => 'a')) == n
    decreases n
  {
    if n > 0 {
      assert seq(n, _ => 'a')[1..] == seq(n - 1, _ => 'a');
      AsciiByteLen(n - 1);
    }
  }

  /** 9999 ASCII bytes followed by `é` (two bytes): byte 10000 is inside the `é`, and `unwrap` panics. */
  lemma TruncationSplitsChar()
    ensures TruncateAsWritten(seq(9999, _ => 'a') + ['é']).Panics?
  {
    var a := seq(9999, _ => 'a');
    AsciiByteLen(9999);
    ByteLenAppend(a, ['é']);
    assert ByteLen(['é']) == 2;
    BytePrefixAfter(a, ['é'], 1);
  }

  /**
   * The truncation intended: the longest prefix of at most `max` bytes,
   * which ends on a character boundary.
   */
  function Truncate(s: string, max: nat): (r: string)
    ensures r <= s && ByteLen(r) <= max
    ensures |r| < |s| ==> ByteLen(r) + Utf8Width(s[|r|]) > max
    ensures ByteLen(s) <= max ==> r == s
  {
    if s == [] || Utf8Width(s[0]) > max then []
    else
      var rest := Truncate(s[1..], max - Utf8Width(s[0]));
      assert ([s[0]] + rest)[1..] == rest;
      [s[0]] + rest
  }

  /** Any prefix of at most `max` bytes that the next character would overflow is the truncation. */
  lemma {:induction false} TruncateUnique(s: string, max: nat, p: string)
    requires p <= s && ByteLen(p) <= max
    requires |p| == |s| || ByteLen(p) + Utf8Width(s[|p|]) > max
    ensures p == Truncate(s, max)
    decreases |s|
  {
    if s != [] && p != [] {
      assert p[0] == s[0];
      assert p[1..] <= s[1..];
      if |p| < |s| {
        assert s[1..][|p| - 1] == s[|p|];
      }
      TruncateUnique(s[1..], max - Utf8Width(s[0]), p[1..]);
      assert p == [p[0]] + p[1..];
    }
  }

  lemma {:induction false} ByteLenSplit(s: string, k: nat)
    requires k <= |s|
    ensures ByteLen(s) == ByteLen(s[..k]) + ByteLen(s[k..])
  {
    assert s == s[..k] + s[k..];
    ByteLenAppend(s[..k], s[k..]);
  }

  /**
   * Where the truncation as written does not panic, it returns the
   * intended truncation.
   */
  lemma TruncateAgrees(content: string)
    requires TruncateAsWritten(content).Returns?
    ensures TruncateAsWritten(content).value == Truncate(content, MaxChar)
  {
    var p := TruncateAsWritten(content).value;
    BytePrefixIsPrefix(content, if MaxChar > ByteLen(content) then ByteLen(content) else MaxChar);
    if ByteLen(content) < MaxChar {
      assert p == content[..|p|];
      ByteLenSplit(content, |p|);
      assert ByteLen(content[|p|..]) == 0;
    }
    TruncateUnique(content, MaxChar, p);
  }

  /** What the prompt quotes of a file: an unreadable file reads as `""`. */
  function Snippet(content: Option<string>): (r: string)
    ensures content.None? ==> r == ""
    ensures content.Some? ==> r <= content.value && ByteLen(r) <= MaxChar
    ensures content.Some? && ByteLen(content.value) <= MaxChar ==> r == content.value
    ensures content.Some? && |r| < |content.value| ==> ByteLen(r) + Utf8Width(content.value[|r|]) > MaxChar
  {
    match content
    case None => ""
    case Some(text) => Truncate(text, MaxChar)
  }

  /**
   * The completion engine, seen from here: given the path and the text the
   * prompt is built from, the list of choices' texts, or an error.
   */
  type Completion = (Path, string) -> Result<seq<string>>

  /** `ProcessFileResult`. */
  datatype FileResult = FileResult(llmResponse: string, filePath: Path, hash: string)

  /**
   * `process_file` with the intended truncation: the completion error is
   * returned as `Err` before the file is hashed; an empty list of choices
   * panics at `unwrap`; otherwise the first choice, trimmed, with the
   * file's path and hash. `fileHash` is `calculate_file_hash`, which may
   * panic.
   */
  function ProcessFile(child: Path, content: Option<string>, complete: Completion, fileHash: Path -> Outcome<string>): (r: Outcome<Result<FileResult>>)
    ensures complete(child, Snippet(content)).Err? ==> r == Returns(Err(complete(child, Snippet(content)).error))
    ensures r.Returns? && r.value.Err? ==> complete(child, Snippet(content)).Err?
    ensures r.Returns? && r.value.Ok? <==>
      complete(child, Snippet(content)).Ok? && complete(child, Snippet(content)).value != [] && fileHash(child).Returns?
    ensures complete(child, Snippet(content)) == Ok([]) ==> r.Panics?
    ensures r.Returns? && r.value.Ok? ==>
      && complete(child, Snippet(content)).Ok?
      && complete(child, Snippet(content)).value != []
      && r.value.value.filePath == child
      && Trimmed(r.value.value.llmResponse)
      && r.value.value.llmResponse == Trim(complete(child, Snippet(content)).value[0])
      && fileHash(child) == Returns(r.value.value.hash)
    ensures !r.Diverges?
  {
    match complete(child, Snippet(content))
    case Err(e) => Returns(Err(e))
    case Ok(choices) =>
      if choices == [] then Panics
      else
        var interpretation := Trim(choices[0]);
        TrimTrimmed(choices[0]);
        match fileHash(child)
        case Returns(hash) => Returns(Ok(FileResult(interpretation, child, hash)))
        case _ => Panics
  }

  // ---------------------------------------------------------------------
  // process_dir_results
  // ---------------------------------------------------------------------

  /** `ProcessDirResult`. */
  datatype DirResult = DirResult(llmResponse: string, dirPath: Path, processedFiles: seq<FileResult>, hash: string)

  /** One file's section of the block: `#<path>`, its summary, each on its own line. */
  function Section(r: FileResult): string
  {
    "#" + r.filePath + "\n" + r.llmResponse + "\n"
  }

  function Sections(rs: seq<FileResult>): (ss: seq<string>)
    ensures |ss| == |rs|
    ensures forall i :: 0 <= i < |rs| ==> ss[i] == Section(rs[i])
  {
    seq(|rs|, i requires 0 <= i < |rs| => Section(rs[i]))
  }

  /** `files_block`: the sections joined by blank lines. */
  function FilesBlock(rs: seq<FileResult>): string
  {
    Join(Sections(rs), "\n")
  }

  /**
   * The block lists the files in input order: one file's block is its
   * section, and each further file adds a `\n` and its section at the end.
   */
  lemma FilesBlockInOrder(rs: seq<FileResult>, r: FileResult)
    ensures FilesBlock([]) == ""
    ensures FilesBlock([r]) == Section(r)
    ensures rs != [] ==> FilesBlock(rs + [r]) == FilesBlock(rs) + "\n" + Section(r)
  {
    if rs != [] {
      assert Sections(rs + [r]) == Sections(rs) + [Section(r)];
      JoinAppend(Sections(rs), Section(r), "\n");
    }
  }

  /** The block is the sections plus one `\n` between each two of them. */
  lemma {:induction false} FilesBlockLength(rs: seq<FileResult>)
    ensures |FilesBlock(rs)| == SectionsLength(rs) + (if rs == [] then 0 else |rs| - 1)
    decreases |rs|
  {
    if |rs| > 1 {
      var init, last := rs[..|rs| - 1], rs[|rs| - 1];
      assert rs == init + [last];
      FilesBlockLength(init);
      FilesBlockInOrder(init, last);
      SectionsLengthAppend(init, last);
    } else if |rs| == 1 {
      assert rs == [rs[0]];
      FilesBlockInOrder([], rs[0]);
    }
  }

  function SectionsLength(rs: seq<FileResult>): nat
  {
    if rs == [] then 0 else |Section(rs[0])| + SectionsLength(rs[1..])
  }

  lemma {:induction false} SectionsLengthAppend(rs: seq<FileResult>, r: FileResult)
    ensures SectionsLength(rs + [r]) == SectionsLength(rs) + |Section(r)|
    decreases |rs|
  {
    if rs != [] {
      assert (rs + [r])[1..] == rs[1..] + [r];
      SectionsLengthAppend(rs[1..], r);
    }
  }

  /**
   * `process_dir_results`: the completion over the files block, then the
   * directory's hash (`calculate_dir_hash`, which may panic), then the
   * first choice, trimmed; a completion error or an empty list of choices
   * panics at `unwrap`. The file results are handed back unchanged.
   */
  function ProcessDirResults(dirPath: Path, results: seq<FileResult>, complete: Completion, dirHash: Path -> Outcome<string>): (r: Outcome<DirResult>)
    ensures r.Returns? <==>
      && complete(dirPath, FilesBlock(results)).Ok?
      && complete(dirPath, FilesBlock(results)).value != []
      && dirHash(dirPath).Returns?
    ensures r.Returns? ==>
      && r.value.dirPath == dirPath
      && r.value.processedFiles == results
      && r.value.llmResponse == Trim(complete(dirPath, FilesBlock(results)).value[0])
      && Trimmed(r.value.llmResponse)
      && r.value.hash == dirHash(dirPath).value
    ensures !r.Diverges?
  {
    match complete(dirPath, FilesBlock(results))
    case Err(_) => Panics
    case Ok(choices) =>
      if choices == [] then Panics
      else
        TrimTrimmed(choices[0]);
        match dirHash(dirPath)
        case Returns(hash) => Returns(DirResult(Trim(choices[0]), dirPath, results, hash))
        case _ => Panics
  }
}
