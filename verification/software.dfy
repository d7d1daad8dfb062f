/**
 * `Project::calculate_source` of `src/structure/software.rs`: a LIFO
 * work-stack walk from the project root that skips the paths the git
 * repository ignores and emits one typed atom per directory it lists
 * (with the directory's files as children) and one per non-directory it
 * pops (which can only be the root). The payload of every atom is built
 * by the caller's `builder`.
 */
module Software {
  import opened Common
  import opened FileTree
  import opened Filters
  import opened Walker

  /** `SourceAtom`: what the builder is given. */
  datatype SourceAtom = AtomFile(path: Path) | AtomDir(path: Path, children: seq<SourceAtom>)

  /** `SourceAtomTyped<T>`: an atom with the builder's payload. */
  datatype SourceAtomTyped<T> =
    | TypedFile(path: Path, payload: T)
    | TypedDir(path: Path, children: seq<SourceAtomTyped<T>>, payload: T)

  /** The part of a `Project` the walk uses: its root and its repository. */
  datatype Project = Project(root: Node, repo: Repository)

  /**
   * `status_should_ignore(&path.canonicalize().unwrap()).unwrap()`: panics
   * when the path cannot be canonicalised or the repository query fails.
   */
  function IgnoreAnswer(repo: Repository, canonicalize: Path -> Option<Path>, p: Path): (r: Outcome<bool>)
    ensures r.Panics? <==> canonicalize(p).None? || repo.statusShouldIgnore(canonicalize(p).value).Err?
    ensures r.Returns? ==> r.value == repo.statusShouldIgnore(canonicalize(p).value).value
    ensures !r.Diverges?
  {
    match canonicalize(p)
    case None => Panics
    case Some(canonical) =>
      match repo.statusShouldIgnore(canonical)
      case Ok(ignored) => Returns(ignored)
      case Err(_) => Panics
  }

  function Ignorer(repo: Repository, canonicalize: Path -> Option<Path>): Path -> Outcome<bool>
  {
    p => IgnoreAnswer(repo, canonicalize, p)
  }

  /** The untyped atoms of a directory's files, in read order. */
  function AtomFiles(files: seq<Node>): (atoms: seq<SourceAtom>)
    ensures |atoms| == |files|
    ensures forall i :: 0 <= i < |files| ==> atoms[i] == AtomFile(files[i].path)
  {
    seq(|files|, i requires 0 <= i < |files| => AtomFile(files[i].path))
  }

  /**
   * The typing of one child atom of the directory `dir`. Only the `File`
   * arm is ever taken: the children of a directory atom are built from its
   * files. The `Dir` arm names the enclosing directory, as the source's
   * pattern `SourceAtom::Dir(_, _)` binds no path of its own.
   */
  function TypedChild<T>(builder: SourceAtom -> T, dir: Path, atom: SourceAtom): SourceAtomTyped<T>
  {
    match atom
    case AtomFile(p) => TypedFile(p, builder(AtomFile(p)))
    case AtomDir(_, _) => TypedDir(dir, [], builder(AtomDir(dir, [])))
  }

  /** The atom emitted for the directory `path` whose files are `files`. */
  function DirAtom<T>(builder: SourceAtom -> T, path: Path, files: seq<Node>): SourceAtomTyped<T>
  {
    var atoms := AtomFiles(files);
    TypedDir(path, seq(|atoms|, i requires 0 <= i < |atoms| => TypedChild(builder, path, atoms[i])), builder(AtomDir(path, atoms)))
  }

  /**
   * The walk from the work stack `stack`: pop the last path; skip it if
   * ignored; list it if it is a directory (a read failure panics at
   * `unwrap`); otherwise emit it as a file.
   */
  function Source<T>(ignore: Path -> Outcome<bool>, builder: SourceAtom -> T, stack: seq<Node>): (r: Outcome<seq<SourceAtomTyped<T>>>)
    ensures !r.Diverges?
    decreases StackSize(stack)
  {
    if stack == [] then Returns([])
    else
      var n, below := stack[|stack| - 1], stack[..|stack| - 1];
      StackSizeAppend(below, [n]);
      assert stack == below + [n];
      match ignore(n.path)
      case Returns(true) => Source(ignore, builder, below)
      case Returns(false) =>
        if IsDir(n) then
          var (r, next) := Level(n, below);
          if r.Err? then Panics else Then([DirAtom(builder, n.path, r.value)], Source(ignore, builder, next))
        else Then([TypedFile(n.path, builder(AtomFile(n.path)))], Source(ignore, builder, below))
      case _ => Panics
  }

  /** `calculate_source`. */
  method CalculateSource<T>(project: Project, canonicalize: Path -> Option<Path>, builder: SourceAtom -> T)
    returns (r: Outcome<seq<SourceAtomTyped<T>>>)
    ensures r == Source(Ignorer(project.repo, canonicalize), builder, [project.root])
  {
    ghost var ignore := Ignorer(project.repo, canonicalize);
    var source: seq<SourceAtomTyped<T>> := [];
    var toVisit := [project.root];
    if Source(ignore, builder, toVisit).Returns? {
      assert [] + Source(ignore, builder, toVisit).value == Source(ignore, builder, toVisit).value;
    }
    while toVisit != []
      invariant Source(ignore, builder, [project.root]) == Then(source, Source(ignore, builder, toVisit))
      decreases StackSize(toVisit)
    {
      var path := toVisit[|toVisit| - 1];
      var below := toVisit[..|toVisit| - 1];
      StackSizeAppend(below, [path]);
      assert toVisit == below + [path];
      var ignored := IgnoreAnswer(project.repo, canonicalize, path.path);
      if ignored.Panics? {
        return Panics;
      }
      toVisit := below;
      if ignored.value {
        continue;
      }
      if IsDir(path) {
        // The listing loop is `one_level`'s, with `unwrap` where that has `?`.
        var listed, pushed := OneLevel(path, below);
        if listed.Err? {
          return Panics;
        }
        toVisit := pushed;
        ThenThen(source, [DirAtom(builder, path.path, listed.value)], Source(ignore, builder, toVisit));
        source := source + [DirAtom(builder, path.path, listed.value)];
      } else {
        ThenThen(source, [TypedFile(path.path, builder(AtomFile(path.path)))], Source(ignore, builder, toVisit));
        source := source + [TypedFile(path.path, builder(AtomFile(path.path)))];
      }
    }
    assert source + [] == source;
    return Returns(source);
  }

  // ---------------------------------------------------------------------
  // Shape of the emitted atoms.

  /**
   * An atom as the walk builds it: a file carries the builder's payload
   * for itself; a directory has only file children, each with its own
   * payload, and carries the payload for itself with those files.
   */
  ghost predicate WellBuilt<T>(builder: SourceAtom -> T, a: SourceAtomTyped<T>)
  {
    match a
    case TypedFile(p, t) => t == builder(AtomFile(p))
    case TypedDir(p, cs, t) =>
      && (forall i :: 0 <= i < |cs| ==> cs[i].TypedFile? && cs[i].payload == builder(AtomFile(cs[i].path)))
      && t == builder(AtomDir(p, seq(|cs|, i requires 0 <= i < |cs| => AtomFile(cs[i].path))))
  }

  /** The atom of a directory is well built; its children are exactly its files, in read order. */
  lemma DirAtomWellBuilt<T>(builder: SourceAtom -> T, path: Path, files: seq<Node>)
    ensures WellBuilt(builder, DirAtom(builder, path, files))
    ensures |DirAtom(builder, path, files).children| == |files|
    ensures forall i :: 0 <= i < |files| ==> DirAtom(builder, path, files).children[i].path == files[i].path
  {
    var a := DirAtom(builder, path, files);
    var cs := a.children;
    assert seq(|cs|, i requires 0 <= i < |cs| => AtomFile(cs[i].path)) == AtomFiles(files);
  }

  /** Every atom the walk emits is well built, whatever the tree and the ignore answers. */
  lemma {:induction false} SourceWellBuilt<T>(ignore: Path -> Outcome<bool>, builder: SourceAtom -> T, stack: seq<Node>)
    ensures Source(ignore, builder, stack).Returns? ==>
              forall k :: 0 <= k < |Source(ignore, builder, stack).value| ==> WellBuilt(builder, Source(ignore, builder, stack).value[k])
    decreases StackSize(stack)
  {
    if stack != [] {
      var n, below := stack[|stack| - 1], stack[..|stack| - 1];
      StackSizeAppend(below, [n]);
      assert stack == below + [n];
      var (r, next) := Level(n, below);
      SourceWellBuilt(ignore, builder, below);
      SourceWellBuilt(ignore, builder, next);
      if r.Ok? {
        DirAtomWellBuilt(builder, n.path, r.value);
      }
    }
  }

  /** From a stack of directories, the walk emits directory atoms only. */
  lemma {:induction false} SourceOfDirs<T>(ignore: Path -> Outcome<bool>, builder: SourceAtom -> T, stack: seq<Node>)
    requires forall i :: 0 <= i < |stack| ==> stack[i].meta.DirMeta?
    ensures Source(ignore, builder, stack).Returns? ==>
              forall k :: 0 <= k < |Source(ignore, builder, stack).value| ==> Source(ignore, builder, stack).value[k].TypedDir?
    decreases StackSize(stack)
  {
    if stack != [] {
      var n, below := stack[|stack| - 1], stack[..|stack| - 1];
      StackSizeAppend(below, [n]);
      assert stack == below + [n];
      var (r, next) := Level(n, below);
      SourceOfDirs(ignore, builder, below);
      if ReadDir(n).Ok? {
        var items := ReadDir(n).value;
        DirsAreDirs(items[..FirstFault(items)]);
        SourceOfDirs(ignore, builder, next);
      }
    }
  }

  lemma {:induction false} DirsAreDirs(items: seq<DirItem>)
    ensures forall i :: 0 <= i < |Dirs(items)| ==> Dirs(items)[i].meta.DirMeta?
  {
    if items != [] {
      DirsAreDirs(items[1..]);
    }
  }

  /**
   * A file atom is emitted only for a popped path that is not a
   * directory, and every path pushed is a directory: so the only file
   * atom at the top level can be the root's.
   */
  lemma OnlyRootIsFileAtom<T>(ignore: Path -> Outcome<bool>, builder: SourceAtom -> T, root: Node)
    ensures Source(ignore, builder, [root]).Returns? ==>
              forall k :: 0 <= k < |Source(ignore, builder, [root]).value| && Source(ignore, builder, [root]).value[k].TypedFile?
                ==> Source(ignore, builder, [root]).value[k].path == root.path
  {
    assert [root][..0] == [];
    if IsDir(root) {
      SourceOfDirs(ignore, builder, [root]);
    }
  }

  // ---------------------------------------------------------------------
  // Exactly the visible directories.

  /**
   * The directory atoms of the subtree at `n` that the walk should emit:
   * none if `n` is ignored (nor any of its descendants); otherwise, for a
   * directory, its own atom (all its files as children, ignored or not)
   * and those of its subdirectories.
   */
  function Visible<T>(ignore: Path -> Outcome<bool>, builder: SourceAtom -> T, n: Node): seq<SourceAtomTyped<T>>
    decreases Size(n), 0
  {
    if ignore(n.path) != Returns(false) then []
    else match n.meta
      case DirMeta(Readable(items)) =>
        DirSize(n);
        [DirAtom(builder, n.path, Files(items))] + VisibleItems(ignore, builder, items)
      case _ => []
  }

  function VisibleItems<T>(ignore: Path -> Outcome<bool>, builder: SourceAtom -> T, items: seq<DirItem>): seq<SourceAtomTyped<T>>
    decreases ItemsSize(items), 1
  {
    if items == [] then []
    else (if items[0].Present? then Visible(ignore, builder, items[0].node) else []) + VisibleItems(ignore, builder, items[1..])
  }

  ghost function StackVisible<T>(ignore: Path -> Outcome<bool>, builder: SourceAtom -> T, stack: seq<Node>): multiset<SourceAtomTyped<T>>
  {
    if stack == [] then multiset{}
    else multiset(Visible(ignore, builder, stack[0])) + StackVisible(ignore, builder, stack[1..])
  }

  lemma {:induction false} StackVisibleAppend<T>(ignore: Path -> Outcome<bool>, builder: SourceAtom -> T, a: seq<Node>, b: seq<Node>)
    ensures StackVisible(ignore, builder, a + b) == StackVisible(ignore, builder, a) + StackVisible(ignore, builder, b)
  {
    if a == [] {
      assert a + b == b;
    } else {
      assert (a + b)[1..] == a[1..] + b;
      StackVisibleAppend(ignore, builder, a[1..], b);
    }
  }

  lemma StackVisibleOne<T>(ignore: Path -> Outcome<bool>, builder: SourceAtom -> T, n: Node)
    ensures StackVisible(ignore, builder, [n]) == multiset(Visible(ignore, builder, n))
  {
    assert [n][1..] == [];
  }

  /** The visible atoms below a sound listing are those below its subdirectories. */
  lemma {:induction false} VisibleItemsSplit<T>(ignore: Path -> Outcome<bool>, builder: SourceAtom -> T, items: seq<DirItem>)
    requires SoundItems(items)
    ensures multiset(VisibleItems(ignore, builder, items)) == StackVisible(ignore, builder, Dirs(items))
  {
    if items != [] {
      VisibleItemsSplit(ignore, builder, items[1..]);
      var n := items[0].node;
      assert VisibleItems(ignore, builder, items) == Visible(ignore, builder, n) + VisibleItems(ignore, builder, items[1..]);
      if n.meta.DirMeta? {
        assert Dirs(items) == [n] + Dirs(items[1..]);
        StackVisibleAppend(ignore, builder, [n], Dirs(items[1..]));
        StackVisibleOne(ignore, builder, n);
      } else {
        assert Dirs(items) == Dirs(items[1..]);
        assert Visible(ignore, builder, n) == [];
      }
    }
  }

  /** A work stack of sound directories. */
  predicate SoundDirs(stack: seq<Node>)
  {
    forall i :: 0 <= i < |stack| ==> stack[i].meta.DirMeta? && Sound(stack[i])
  }

  lemma SoundDirsAppend(a: seq<Node>, b: seq<Node>)
    ensures SoundDirs(a + b) <==> SoundDirs(a) && SoundDirs(b)
  {
    if SoundDirs(a) && SoundDirs(b) {
      forall i | 0 <= i < |a + b|
        ensures (a + b)[i].meta.DirMeta? && Sound((a + b)[i])
      {
        if i >= |a| {
          assert (a + b)[i] == b[i - |a|];
        }
      }
    }
    if SoundDirs(a + b) {
      forall i | 0 <= i < |b|
        ensures b[i].meta.DirMeta? && Sound(b[i])
      {
        assert (a + b)[|a| + i] == b[i];
      }
      forall i | 0 <= i < |a|
        ensures a[i].meta.DirMeta? && Sound(a[i])
      {
        assert (a + b)[i] == a[i];
      }
    }
  }

  /**
   * From a stack of sound directories, with an ignore query that always
   * answers, the walk does not panic and emits every visible directory
   * atom exactly once.
   */
  lemma {:induction false} SourceSound<T>(ignore: Path -> Outcome<bool>, builder: SourceAtom -> T, stack: seq<Node>)
    requires forall p :: ignore(p).Returns?
    requires SoundDirs(stack)
    ensures Source(ignore, builder, stack).Returns?
    ensures multiset(Source(ignore, builder, stack).value) == StackVisible(ignore, builder, stack)
    decreases StackSize(stack), 1
  {
    if stack != [] {
      var n, below := stack[|stack| - 1], stack[..|stack| - 1];
      assert stack == below + [n];
      SoundDirsAppend(below, [n]);
      SourceSoundPop(ignore, builder, below, n);
    }
  }

  /** `SourceSound` for the stack `below + [n]`: the pop of `n`, then the rest. */
  lemma {:induction false} SourceSoundPop<T>(ignore: Path -> Outcome<bool>, builder: SourceAtom -> T, below: seq<Node>, n: Node)
    requires forall p :: ignore(p).Returns?
    requires SoundDirs(below) && n.meta.DirMeta? && Sound(n)
    ensures Source(ignore, builder, below + [n]).Returns?
    ensures multiset(Source(ignore, builder, below + [n]).value) == StackVisible(ignore, builder, below + [n])
    decreases StackSize(below + [n]), 0
  {
    StackSizeAppend(below, [n]);
    if ignore(n.path) == Returns(false) {
      var items := n.meta.listing.items;
      SourceVisibleDir(ignore, builder, below, n);
      DirsSound(items);
      SoundDirsAppend(below, Dirs(items));
      SourceSound(ignore, builder, below + Dirs(items));
      PopVisible(ignore, builder, below, n);
    } else {
      assert ignore(n.path).Returns?;
      SourceSound(ignore, builder, below);
      PopIgnored(ignore, builder, below, n);
    }
  }

  /** The pop of a visible directory adds its atom and the atoms below it to those of the stack it leaves. */
  lemma PopVisible<T>(ignore: Path -> Outcome<bool>, builder: SourceAtom -> T, below: seq<Node>, n: Node)
    requires n.meta.DirMeta? && Sound(n) && ignore(n.path) == Returns(false)
    requires var after := below + Dirs(n.meta.listing.items);
             && Source(ignore, builder, after).Returns?
             && multiset(Source(ignore, builder, after).value) == StackVisible(ignore, builder, after)
    ensures Source(ignore, builder, below + [n]).Returns?
    ensures multiset(Source(ignore, builder, below + [n]).value) == StackVisible(ignore, builder, below + [n])
  {
    var items := n.meta.listing.items;
    var after := below + Dirs(items);
    SourceVisibleDir(ignore, builder, below, n);
    var atom, rest := DirAtom(builder, n.path, Files(items)), Source(ignore, builder, after).value;
    assert Source(ignore, builder, below + [n]).value == [atom] + rest;
    assert multiset([atom] + rest) == multiset{atom} + multiset(rest);
    StackVisibleAppend(ignore, builder, below, [n]);
    StackVisibleOne(ignore, builder, n);
    StackVisibleAppend(ignore, builder, below, Dirs(items));
    VisibleItemsSplit(ignore, builder, items);
    assert multiset(Visible(ignore, builder, n)) == multiset{atom} + multiset(VisibleItems(ignore, builder, items));
  }

  /** The pop of an ignored directory adds nothing to the atoms of the stack below it. */
  lemma PopIgnored<T>(ignore: Path -> Outcome<bool>, builder: SourceAtom -> T, below: seq<Node>, n: Node)
    requires n.meta.DirMeta? && ignore(n.path).Returns? && ignore(n.path).value
    requires Source(ignore, builder, below).Returns?
    requires multiset(Source(ignore, builder, below).value) == StackVisible(ignore, builder, below)
    ensures Source(ignore, builder, below + [n]).Returns?
    ensures multiset(Source(ignore, builder, below + [n]).value) == StackVisible(ignore, builder, below + [n])
  {
    assert (below + [n])[..|below|] == below;
    StackVisibleAppend(ignore, builder, below, [n]);
    StackVisibleOne(ignore, builder, n);
  }

  /** Popping a sound, visible directory emits its atom and pushes its subdirectories. */
  lemma SourceVisibleDir<T>(ignore: Path -> Outcome<bool>, builder: SourceAtom -> T, below: seq<Node>, n: Node)
    requires n.meta.DirMeta? && Sound(n) && ignore(n.path) == Returns(false)
    ensures n.meta.listing.Readable?
    ensures var items := n.meta.listing.items;
            && SoundItems(items)
            && StackSize(below + Dirs(items)) < StackSize(below + [n])
            && Source(ignore, builder, below + [n])
               == Then([DirAtom(builder, n.path, Files(items))], Source(ignore, builder, below + Dirs(items)))
            && Visible(ignore, builder, n) == [DirAtom(builder, n.path, Files(items))] + VisibleItems(ignore, builder, items)
  {
    var items := n.meta.listing.items;
    DirSize(n);
    SoundItemsAt(items);
    assert FirstFault(items) == |items|;
    assert items[..|items|] == items;
    assert (below + [n])[..|below|] == below;
    assert Level(n, below) == (Ok(Files(items)), below + Dirs(items));
    StackSizeAppend(below, [n]);
  }

  /**
   * `calculate_source` over a sound root directory, with an ignore query
   * that always answers, returns each visible directory exactly once
   * (each with all of its files as children) and nothing else.
   */
  lemma CalculatesVisibleDirs<T>(ignore: Path -> Outcome<bool>, builder: SourceAtom -> T, root: Node)
    requires forall p :: ignore(p).Returns?
    requires root.meta.DirMeta? && Sound(root)
    ensures Source(ignore, builder, [root]).Returns?
    ensures multiset(Source(ignore, builder, [root]).value) == multiset(Visible(ignore, builder, root))
  {
    assert SoundDirs([root]);
    SourceSound(ignore, builder, [root]);
    StackVisibleOne(ignore, builder, root);
  }
}
