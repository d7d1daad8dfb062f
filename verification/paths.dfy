/**
 * The `Path` queries the core uses, on Unix-style paths: `file_name` and
 * `extension`, as Rust's `std::path` defines them.
 */
module Paths {
  import opened Common
  import opened Text

  /**
   * The components of `p`: its `/`-separated pieces without the empty ones
   * and without `.` (Rust drops repeated separators and interior `.`; a
   * leading `.` is the current-directory component, which is never a name).
   */
  function Components(p: Path): seq<string>
  {
    NamedPieces(Split(p, '/'))
  }

  function NamedPieces(pieces: seq<string>): seq<string>
  {
    if pieces == [] then []
    else (if pieces[0] == "" || pieces[0] == "." then [] else [pieces[0]]) + NamedPieces(pieces[1..])
  }

  /** A name that `read_dir` can produce: non-empty, no separator, not `.` or `..`. */
  predicate IsEntryName(name: string)
  {
    name != "" && name != "." && name != ".." && '/' !in name
  }

  /**
   * `path.file_name()`: the last component, unless there is none or it is
   * `..` (so `/`, `.`, and `a/..` have no file name).
   */
  function FileName(p: Path): (r: Option<string>)
    ensures r.Some? ==> r.value != "" && r.value != "." && r.value != ".." && '/' !in r.value
  {
    var cs := Components(p);
    SplitPiecesFree(p, '/');
    ComponentsNamed(Split(p, '/'));
    if cs == [] || cs[|cs| - 1] == ".." then None else Some(cs[|cs| - 1])
  }

  lemma {:induction false} ComponentsNamed(pieces: seq<string>)
    requires forall i :: 0 <= i < |pieces| ==> '/' !in pieces[i]
    ensures forall i :: 0 <= i < |NamedPieces(pieces)| ==>
              NamedPieces(pieces)[i] != "" && NamedPieces(pieces)[i] != "." && '/' !in NamedPieces(pieces)[i]
  {
    if pieces != [] {
      ComponentsNamed(pieces[1..]);
    }
  }

  lemma {:induction false} NamedPiecesAppend(a: seq<string>, b: seq<string>)
    ensures NamedPieces(a + b) == NamedPieces(a) + NamedPieces(b)
  {
    if a == [] {
      assert a + b == b;
    } else {
      assert (a + b)[1..] == a[1..] + b;
      NamedPiecesAppend(a[1..], b);
    }
  }

  /** Splitting at a separator splits the two sides independently. */
  lemma {:induction false} SplitAtSeparator(a: string, sep: char, b: string)
    ensures Split(a + [sep] + b, sep) == Split(a, sep) + Split(b, sep)
  {
    if a == [] {
      assert a + [sep] + b == [sep] + b;
      assert ([sep] + b)[1..] == b;
    } else {
      assert (a + [sep] + b)[1..] == a[1..] + [sep] + b;
      SplitAtSeparator(a[1..], sep, b);
    }
  }

  /** The entry `name` read from directory `dir` has `name` as its file name. */
  lemma FileNameOfChild(dir: Path, name: string)
    requires IsEntryName(name)
    ensures FileName(dir + "/" + name) == Some(name)
  {
    assert dir + "/" + name == dir + ['/'] + name;
    SplitAtSeparator(dir, '/', name);
    SplitNoSeparator(name, '/');
    NamedPiecesAppend(Split(dir, '/'), [name]);
    assert NamedPieces([name]) == [name] by {
      assert [name][1..] == [];
    }
  }

  /**
   * `path.extension()`: the part of the file name after its last `.`, if
   * that dot is not the name's first character; `..` has none.
   */
  function Extension(p: Path): (r: Option<string>)
    ensures r.Some? ==> '.' !in r.value && FileName(p).Some?
  {
    match FileName(p)
    case None => None
    case Some(name) => ExtensionOfName(name)
  }

  function ExtensionOfName(name: string): (r: Option<string>)
    ensures r.Some? ==> '.' !in r.value
  {
    var i := LastDot(name, |name|);
    if i <= 0 then None else Some(name[i + 1..])
  }

  /** Index of the last `.` before position `k`, or -1. */
  function LastDot(name: string, k: nat): (i: int)
    requires k <= |name|
    ensures -1 <= i < k
    ensures i >= 0 ==> name[i] == '.'
    ensures forall j :: i < j < k ==> name[j] != '.'
  {
    if k == 0 then -1 else if name[k - 1] == '.' then k - 1 else LastDot(name, k - 1)
  }
}
