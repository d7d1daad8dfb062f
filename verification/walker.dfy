/**
 * `src/representation/tree/reader.rs`: two ways of walking a project.
 *
 * `TreeFileWalker` is a tree processor, driven by `construct` over the
 * events of a `TreeIter` (`src/representation/tree/iterator.rs`). It keeps
 * the same `dirHasNext` stack as the art renderers, but renders each
 * entry as its bare path and reports every entry to a visitor. The
 * visitor is a plain function pointer whose effects the model does not
 * see; what the model keeps of it is the sequence of its calls.
 *
 * `visit_file_path` is a work-stack walk: it pops a directory, yields the
 * non-directories of its listing and pushes its subdirectories.
 */
module Walker {
  import opened Common
  import opened FileTree
  import opened Filters
  import opened Tree
  import Print

  /** One call of the visitor: the entry's path and whether it is a directory. */
  datatype Visit = Visit(path: Path, isDir: bool)

  /** The part of a `TreeFileWalker` that its steps read and write. */
  datatype WalkState = WalkState(dirHasNext: seq<bool>, numDirs: nat, numFiles: nat, visits: seq<Visit>)

  /**
   * One event's effect on the walker: `construct_dir` and `construct_file`
   * retag the current level and return the entry's path (a directory also
   * opens a level); `close_dir` drops a level and panics when none is left.
   */
  function WalkStep(st: WalkState, ev: Event): (Outcome<string>, WalkState)
  {
    match ev
    case OpenDir(e) =>
      (Returns(e.path),
       WalkState(Print.Pop(st.dirHasNext) + [e.hasNextSibling] + [true], st.numDirs + 1, st.numFiles, st.visits + [Visit(e.path, true)]))
    case File(e) =>
      (Returns(e.path),
       WalkState(Print.Pop(st.dirHasNext) + [e.hasNextSibling], st.numDirs, st.numFiles + 1, st.visits + [Visit(e.path, false)]))
    case CloseDir =>
      if st.dirHasNext == [] then (Panics, st)
      else (Returns(""), st.(dirHasNext := st.dirHasNext[..|st.dirHasNext| - 1]))
  }

  /**
   * `construct` over the iterator items `items` that end with `ending`,
   * from walker state `st`, with `acc` built so far: stops at the first
   * error item, and at the first panic of a step.
   */
  function Walked(st: WalkState, items: seq<Result<Event>>, ending: Ending, acc: string): (Outcome<Result<string>>, WalkState)
    decreases |items|
  {
    if items == [] then
      match ending
      case Finished => (Returns(Ok(acc)), st)
      case Panicked => (Panics, st)
      case Diverged => (Diverges, st)
    else match items[0]
      case Err(e) => (Returns(Err(e)), st)
      case Ok(ev) =>
        var (out, st') := WalkStep(st, ev);
        if out.Returns? then Walked(st', items[1..], ending, acc + out.value) else (Panics, st')
  }

  /** Walking a run whose first step yields no event stops there, leaving the state as it was. */
  lemma WalkedStopped(filter: FileFilter, frames: seq<seq<Pull>>, st: WalkState, acc: string)
    requires var out := Step(filter, frames).0; !(out.Returns? && out.value.Some? && out.value.value.Ok?)
    ensures Walked(st, Run(filter, frames).items, Run(filter, frames).ending, acc) == (Print.Stopped(Step(filter, frames).0, acc), st)
  {
  }

  /** Walking a run whose first step yields an event takes it, then walks the rest of the run. */
  lemma WalkedEvent(filter: FileFilter, frames: seq<seq<Pull>>, st: WalkState, acc: string, ev: Event)
    requires Step(filter, frames).0 == Returns(Some(Ok(ev)))
    ensures var later := Run(filter, Step(filter, frames).1);
            Walked(st, Run(filter, frames).items, Run(filter, frames).ending, acc)
            == if WalkStep(st, ev).0.Returns?
               then Walked(WalkStep(st, ev).1, later.items, later.ending, acc + WalkStep(st, ev).0.value)
               else (Panics, WalkStep(st, ev).1)
  {
    var next := Step(filter, frames).1;
    var after := Run(filter, next);
    RunStep(filter, frames, Ok(ev), next);
    assert ([Ok(ev)] + after.items)[0] == Ok(ev);
    assert ([Ok(ev)] + after.items)[1..] == after.items;
  }

  class TreeFileWalker {
    var dirHasNext: seq<bool>
    var numDirs: nat
    var numFiles: nat
    /** The calls made to the visitor so far, oldest first. */
    var visits: seq<Visit>

    function State(): WalkState
      reads this
    {
      WalkState(dirHasNext, numDirs, numFiles, visits)
    }

    /** `TreeFileWalker::new`: one level flagged as having a next sibling, nothing counted or visited. */
    constructor New()
      ensures dirHasNext == [true] && numDirs == 0 && numFiles == 0 && visits == []
    {
      dirHasNext := [true];
      numDirs := 0;
      numFiles := 0;
      visits := [];
    }

    /** `construct_dir`: retag the level, open one, count it, visit it, return its path. */
    method ConstructDir(entry: Entry) returns (s: string)
      modifies this
      ensures (Returns(s), State()) == WalkStep(old(State()), OpenDir(entry))
    {
      dirHasNext := Print.Pop(dirHasNext) + [entry.hasNextSibling];
      dirHasNext := dirHasNext + [true];
      numDirs := numDirs + 1;
      visits := visits + [Visit(entry.path, true)];
      s := entry.path;
    }

    /** `construct_file`: retag the level, count the file, visit it, return its path (no newline). */
    method ConstructFile(entry: Entry) returns (s: string)
      modifies this
      ensures (Returns(s), State()) == WalkStep(old(State()), File(entry))
    {
      dirHasNext := Print.Pop(dirHasNext) + [entry.hasNextSibling];
      numFiles := numFiles + 1;
      visits := visits + [Visit(entry.path, false)];
      s := entry.path;
    }

    /** `close_dir`: panics when there is no level left to close. */
    method CloseDir() returns (r: Outcome<()>)
      modifies this
      ensures r.Panics? <==> old(dirHasNext) == []
      ensures !r.Diverges?
      ensures r.Returns? ==> State() == WalkStep(old(State()), Event.CloseDir).1
    {
      if dirHasNext == [] {
        return Panics;
      }
      dirHasNext := dirHasNext[..|dirHasNext| - 1];
      return Returns(());
    }

    /** The walker's reaction to one event: the text it adds, if any. */
    method Consume(ev: Event) returns (r: Outcome<string>)
      modifies this
      ensures r == WalkStep(old(State()), ev).0
      ensures r.Returns? ==> State() == WalkStep(old(State()), ev).1
      ensures !r.Diverges?
    {
      match ev {
        case OpenDir(entry) =>
          var s := ConstructDir(entry);
          r := Returns(s);
        case File(entry) =>
          var s := ConstructFile(entry);
          r := Returns(s);
        case CloseDir =>
          var closed := CloseDir();
          r := if closed.Panics? then Panics else Returns("");
      }
    }

    /** `TreeProcessor::construct`: the concatenated paths, or the first error the iterator yields. */
    method Construct(it: TreeIter) returns (r: Outcome<Result<string>>)
      requires it.Valid() && this !in it.Repr
      modifies this, it.Repr
      ensures var t := Run(it.filter, old(it.Frames()));
              && r == Walked(old(State()), t.items, t.ending, "").0
              && (r.Returns? ==> State() == Walked(old(State()), t.items, t.ending, "").1)
    {
      var result := "";
      ghost var goal := Walked(State(), Run(it.filter, it.Frames()).items, Run(it.filter, it.Frames()).ending, "");
      while true
        invariant it.Valid() && this !in it.Repr
        invariant fresh(it.Repr - old(it.Repr))
        invariant goal == Walked(State(), Run(it.filter, it.Frames()).items, Run(it.filter, it.Frames()).ending, result)
        decreases FramesSize(it.Frames())
      {
        ghost var frames, st, repr := it.Frames(), State(), it.Repr;
        var next := it.Next();
        assert fresh(it.Repr - repr) && this !in it.Repr;
        if !(next.Returns? && next.value.Some? && next.value.value.Ok?) {
          WalkedStopped(it.filter, frames, st, result);
          if next.Panics? {
            return Panics;
          } else if next.Diverges? {
            return Diverges;
          } else if next.value.None? {
            return Returns(Ok(result));
          }
          return Returns(Err(next.value.value.error));
        }
        StepDecreases(it.filter, frames);
        var item := next.value.value;
        WalkedEvent(it.filter, frames, st, result, item.value);
        ghost var later := it.Frames();
        var text := Consume(item.value);
        assert it.Frames() == later;
        if text.Panics? {
          return Panics;
        }
        result := result + text.value;
      }
    }
  }

  // ---------------------------------------------------------------------
  // What a walk over well-nested events produces.

  /** The paths of the entries of `events`, concatenated without separator. */
  function PathsOf(events: seq<Event>): string
  {
    if events == [] then ""
    else (if events[0].CloseDir? then "" else events[0].entry.path) + PathsOf(events[1..])
  }

  /** The visitor calls for the entries of `events`, in order. */
  function VisitsOf(events: seq<Event>): seq<Visit>
  {
    if events == [] then []
    else (if events[0].CloseDir? then [] else [Visit(events[0].entry.path, events[0].OpenDir?)]) + VisitsOf(events[1..])
  }

  lemma {:induction false} PathsOfAppend(a: seq<Event>, b: seq<Event>)
    ensures PathsOf(a + b) == PathsOf(a) + PathsOf(b)
    ensures VisitsOf(a + b) == VisitsOf(a) + VisitsOf(b)
  {
    if a == [] {
      assert a + b == b;
    } else {
      assert (a + b)[0] == a[0] && (a + b)[1..] == a[1..] + b;
      PathsOfAppend(a[1..], b);
      var p := if a[0].CloseDir? then "" else a[0].entry.path;
      var v := if a[0].CloseDir? then [] else [Visit(a[0].entry.path, a[0].OpenDir?)];
      assert PathsOf(a + b) == p + (PathsOf(a[1..]) + PathsOf(b));
      assert PathsOf(a) == p + PathsOf(a[1..]);
      assert VisitsOf(a + b) == v + (VisitsOf(a[1..]) + VisitsOf(b));
      assert VisitsOf(a) == v + VisitsOf(a[1..]);
    }
  }

  /** The walker's steps over a run of successful events. */
  datatype WalkArt = WalkArt(completed: bool, state: WalkState, text: string)

  function WalkFold(st: WalkState, events: seq<Event>): WalkArt
    decreases |events|
  {
    if events == [] then WalkArt(true, st, "")
    else
      var (out, st') := WalkStep(st, events[0]);
      if out.Returns? then
        var r := WalkFold(st', events[1..]);
        WalkArt(r.completed, r.state, out.value + r.text)
      else WalkArt(false, st', "")
  }

  /** Walking a run of successful items is folding the steps over their events. */
  lemma {:induction false} WalkedSuccesses(st: WalkState, events: seq<Event>, rest: seq<Result<Event>>, ending: Ending, acc: string)
    ensures Walked(st, Successes(events) + rest, ending, acc)
         == if WalkFold(st, events).completed
            then Walked(WalkFold(st, events).state, rest, ending, acc + WalkFold(st, events).text)
            else (Panics, WalkFold(st, events).state)
    decreases |events|
  {
    if events == [] {
      assert Successes(events) + rest == rest;
      assert acc + "" == acc;
    } else {
      var tail := Successes(events[1..]) + rest;
      assert Successes(events) + rest == [Ok(events[0])] + tail;
      assert ([Ok(events[0])] + tail)[1..] == tail;
      var (out, st') := WalkStep(st, events[0]);
      if out.Returns? {
        WalkedSuccesses(st', events[1..], rest, ending, acc + out.value);
        Print.Associative(acc, out.value, WalkFold(st', events[1..]).text);
      }
    }
  }

  /**
   * A completed fold has returned the paths of the entries it went
   * through, made one visitor call per entry, and counted its directories
   * and files.
   */
  lemma {:induction false} WalkFoldRecords(st: WalkState, events: seq<Event>)
    ensures WalkFold(st, events).completed ==>
              && WalkFold(st, events).text == PathsOf(events)
              && WalkFold(st, events).state.visits == st.visits + VisitsOf(events)
              && WalkFold(st, events).state.numDirs == st.numDirs + Print.CountOpen(events)
              && WalkFold(st, events).state.numFiles == st.numFiles + Print.CountFile(events)
    decreases |events|
  {
    if events != [] {
      var e, rest := events[0], events[1..];
      var (out, st') := WalkStep(st, e);
      if out.Returns? {
        WalkFoldRecords(st', rest);
        var r := WalkFold(st', rest);
        assert WalkFold(st, events) == WalkArt(r.completed, r.state, out.value + r.text);
        var visit := if e.CloseDir? then [] else [Visit(e.entry.path, e.OpenDir?)];
        assert out.value == (if e.CloseDir? then "" else e.entry.path);
        assert st'.visits == st.visits + visit;
        assert VisitsOf(events) == visit + VisitsOf(rest);
        assert st.visits + visit + VisitsOf(rest) == st.visits + (visit + VisitsOf(rest));
      }
    }
  }

  lemma DepthCons(e: Event, rest: seq<Event>)
    ensures Depth([e] + rest) == Delta(e) + Depth(rest)
  {
    DepthAppend([e], rest);
    assert [e][..0] == [];
  }

  /**
   * From a stack of any height, a run of events before each of which the
   * stack is still at least one level high never panics, and leaves the
   * stack `Depth(events)` levels higher: `close_dir` pops exactly one flag,
   * `construct_dir` adds one, `construct_file` none.
   */
  lemma {:induction false} WalkFoldNested(st: WalkState, events: seq<Event>)
    requires forall k :: 0 <= k < |events| ==> |st.dirHasNext| + Depth(events[..k]) >= 1
    ensures WalkFold(st, events).completed
    ensures |WalkFold(st, events).state.dirHasNext| == |st.dirHasNext| + Depth(events)
    decreases |events|
  {
    if events != [] {
      var e, rest := events[0], events[1..];
      assert events[..0] == [];
      var (out, st') := WalkStep(st, e);
      assert out.Returns? && |st'.dirHasNext| == |st.dirHasNext| + Delta(e);
      forall k | 0 <= k < |rest|
        ensures |st'.dirHasNext| + Depth(rest[..k]) >= 1
      {
        assert events[..k + 1] == [e] + rest[..k];
        DepthCons(e, rest[..k]);
      }
      WalkFoldNested(st', rest);
      assert events == [e] + rest;
      DepthCons(e, rest);
    }
  }

  /**
   * From the fresh walker, a run that closes one level more than it opens,
   * and never more before its end, completes with an empty stack.
   */
  lemma WalkFoldClosed(events: seq<Event>)
    requires Depth(events) == -1
    requires forall k :: 0 <= k < |events| ==> Depth(events[..k]) >= 0
    ensures WalkFold(WalkState([true], 0, 0, []), events)
         == WalkArt(true, WalkState([], Print.CountOpen(events), Print.CountFile(events), VisitsOf(events)), PathsOf(events))
  {
    var st := WalkState([true], 0, 0, []);
    WalkFoldNested(st, events);
    WalkFoldRecords(st, events);
    assert [] + VisitsOf(events) == VisitsOf(events);
  }

  /** The root's `CloseDir` adds no path, no visit and no count. */
  lemma CloseAddsNothing(walk: seq<Event>)
    ensures Print.CountOpen(walk + [CloseDir]) == Print.CountOpen(walk)
    ensures Print.CountFile(walk + [CloseDir]) == Print.CountFile(walk)
    ensures PathsOf(walk + [CloseDir]) == PathsOf(walk)
    ensures VisitsOf(walk + [CloseDir]) == VisitsOf(walk)
  {
    Print.CountAppend(walk, [CloseDir]);
    PathsOfAppend(walk, [CloseDir]);
    assert PathsOf([CloseDir]) == "" && VisitsOf([CloseDir]) == [];
  }

  /** The steps over the whole walk of a clean root and the root's `CloseDir`. */
  lemma RootWalkFold(filter: FileFilter, items: seq<DirItem>)
    ensures var walk := NodesEvents(filter, Kept(filter, items));
            (WalkFold(WalkState([true], 0, 0, []), walk + [CloseDir])
             == WalkArt(true, WalkState([], Print.CountOpen(walk), Print.CountFile(walk), VisitsOf(walk)), PathsOf(walk)))
  {
    var walk := NodesEvents(filter, Kept(filter, items));
    RootClosesLast(filter, items);
    WalkFoldClosed(walk + [CloseDir]);
    CloseAddsNothing(walk);
  }

  /**
   * `construct` with a fresh walker over a clean root returns the paths of
   * all admitted entries in depth-first order, calls the visitor once per
   * entry with its path and kind, counts every directory and file, and
   * ends with an empty stack: no `close_dir` panics.
   */
  lemma WalkerVisitsTree(filter: FileFilter, items: seq<DirItem>)
    requires CleanListing(filter, items)
    ensures var walk := NodesEvents(filter, Kept(filter, items));
            var t := Run(filter, [Filtered(filter, items)]);
            (Walked(WalkState([true], 0, 0, []), t.items, t.ending, "")
             == (Returns(Ok(PathsOf(walk))), WalkState([], Print.CountOpen(walk), Print.CountFile(walk), VisitsOf(walk))))
  {
    var walk := NodesEvents(filter, Kept(filter, items));
    var st := WalkState([true], 0, 0, []);
    IterationIsDepthFirst(filter, items);
    RootWalkFold(filter, items);
    WalkedSuccesses(st, walk + [CloseDir], [], Finished, "");
    assert Successes(walk + [CloseDir]) + [] == Successes(walk + [CloseDir]);
    assert "" + PathsOf(walk) == PathsOf(walk);
  }

  // ---------------------------------------------------------------------
  // `visit_file_path`: the work-stack walk.

  /** An item that makes `one_level` fail: a read error, or an entry whose metadata cannot be read. */
  predicate Faulty(d: DirItem)
  {
    d.ReadError? || d.node.meta.MetaError?
  }

  function FaultOf(d: DirItem): Error
    requires Faulty(d)
  {
    if d.ReadError? then d.error else d.node.meta.error
  }

  /** The index of the first faulty item, or `|items|` when there is none. */
  function FirstFault(items: seq<DirItem>): (j: nat)
    ensures j <= |items|
    ensures forall k :: 0 <= k < j ==> !Faulty(items[k])
    ensures j < |items| ==> Faulty(items[j])
  {
    if items == [] then 0
    else if Faulty(items[0]) then 0
    else 1 + FirstFault(items[1..])
  }

  /** The subdirectories among the entries `items`, in read order. */
  function Dirs(items: seq<DirItem>): seq<Node>
  {
    if items == [] then []
    else (if items[0].Present? && items[0].node.meta.DirMeta? then [items[0].node] else []) + Dirs(items[1..])
  }

  /** The non-directory entries among `items` (files), in read order. */
  function Files(items: seq<DirItem>): seq<Node>
  {
    if items == [] then []
    else (if items[0].Present? && items[0].node.meta.FileMeta? then [items[0].node] else []) + Files(items[1..])
  }

  lemma {:induction false} DirsFilesAppend(a: seq<DirItem>, b: seq<DirItem>)
    ensures Dirs(a + b) == Dirs(a) + Dirs(b)
    ensures Files(a + b) == Files(a) + Files(b)
  {
    if a == [] {
      assert a + b == b;
    } else {
      var x := a[0];
      var d := if x.Present? && x.node.meta.DirMeta? then [x.node] else [];
      var f := if x.Present? && x.node.meta.FileMeta? then [x.node] else [];
      assert (a + b)[0] == x;
      assert (a + b)[1..] == a[1..] + b;
      DirsFilesAppend(a[1..], b);
      assert Dirs(a + b) == d + Dirs(a[1..] + b);
      assert d + (Dirs(a[1..]) + Dirs(b)) == (d + Dirs(a[1..])) + Dirs(b);
      assert Files(a + b) == f + Files(a[1..] + b);
      assert f + (Files(a[1..]) + Files(b)) == (f + Files(a[1..])) + Files(b);
    }
  }

  /** Total size of the nodes on a work stack; the walk's termination measure. */
  function StackSize(stack: seq<Node>): nat
  {
    if stack == [] then 0 else Size(stack[0]) + StackSize(stack[1..])
  }

  lemma {:induction false} StackSizeAppend(a: seq<Node>, b: seq<Node>)
    ensures StackSize(a + b) == StackSize(a) + StackSize(b)
  {
    if a == [] {
      assert a + b == b;
    } else {
      assert (a + b)[1..] == a[1..] + b;
      StackSizeAppend(a[1..], b);
    }
  }

  /** The subdirectories of a listing weigh no more than the listing. */
  lemma {:induction false} DirsSize(items: seq<DirItem>)
    ensures StackSize(Dirs(items)) <= ItemsSize(items)
  {
    if items != [] {
      DirsSize(items[1..]);
      var head := if items[0].Present? && items[0].node.meta.DirMeta? then [items[0].node] else [];
      StackSizeAppend(head, Dirs(items[1..]));
    }
  }

  /**
   * `one_level(path, to_visit)` on the node `n`: the files of its listing
   * in read order, or the first error; in both cases `to_visit` grows by
   * the subdirectories met before the error (all of them when there is
   * none), in read order. A directory that cannot be read pushes nothing.
   */
  function Level(n: Node, toVisit: seq<Node>): (r: (Result<seq<Node>>, seq<Node>))
    ensures StackSize(r.1) < StackSize(toVisit) + Size(n)
  {
    match ReadDir(n)
    case Err(e) => (Err(e), toVisit)
    case Ok(items) =>
      var j := FirstFault(items);
      DirSize(n);
      DirsSize(items[..j]);
      DirsFilesAppend(items[..j], items[j..]);
      ItemsSizeAppend(items[..j], items[j..]);
      assert items == items[..j] + items[j..];
      StackSizeAppend(toVisit, Dirs(items[..j]));
      (if j == |items| then Ok(Files(items)) else Err(FaultOf(items[j])), toVisit + Dirs(items[..j]))
  }

  /** `one_level`: the loop over the listing that pushes subdirectories and collects files. */
  method OneLevel(n: Node, toVisit: seq<Node>) returns (r: Result<seq<Node>>, pushed: seq<Node>)
    ensures (r, pushed) == Level(n, toVisit)
  {
    var listing := ReadDir(n);
    if listing.Err? {
      return Err(listing.error), toVisit;
    }
    var items := listing.value;
    var files: seq<Node> := [];
    pushed := toVisit;
    var i := 0;
    while i < |items|
      invariant 0 <= i <= |items| && i <= FirstFault(items)
      invariant pushed == toVisit + Dirs(items[..i]) && files == Files(items[..i])
    {
      if Faulty(items[i]) {
        FaultAt(items, i);
        LevelListing(n, toVisit);
        return Err(FaultOf(items[i])), pushed;
      }
      ListingStep(items, i);
      var child := items[i].node;
      if child.meta.DirMeta? {
        assert toVisit + Dirs(items[..i + 1]) == pushed + [child];
        pushed := pushed + [child];
      } else {
        files := files + [child];
      }
      i := i + 1;
    }
    assert items[..i] == items;
    LevelListing(n, toVisit);
    r := Ok(files);
  }

  /** `Level` on a readable directory, spelled out. */
  lemma LevelListing(n: Node, toVisit: seq<Node>)
    requires ReadDir(n).Ok?
    ensures var items := ReadDir(n).value; var j := FirstFault(items);
            Level(n, toVisit)
            == (if j == |items| then Ok(Files(items)) else Err(FaultOf(items[j])), toVisit + Dirs(items[..j]))
  {
  }

  /** A faulty item at or before the first fault is the first fault. */
  lemma FaultAt(items: seq<DirItem>, i: nat)
    requires i < |items| && i <= FirstFault(items) && Faulty(items[i])
    ensures FirstFault(items) == i
  {
  }

  /** Extending the prefix of a listing by an item that is not faulty. */
  lemma ListingStep(items: seq<DirItem>, i: nat)
    requires i < |items| && i <= FirstFault(items) && !Faulty(items[i])
    ensures i + 1 <= FirstFault(items)
    ensures Dirs(items[..i + 1]) == Dirs(items[..i]) + (if items[i].node.meta.DirMeta? then [items[i].node] else [])
    ensures Files(items[..i + 1]) == Files(items[..i]) + (if items[i].node.meta.DirMeta? then [] else [items[i].node])
  {
    DirsFilesSnoc(items, i);
    DirsFilesOne(items[i]);
  }

  lemma DirsFilesSnoc(items: seq<DirItem>, i: nat)
    requires i < |items|
    ensures Dirs(items[..i + 1]) == Dirs(items[..i]) + Dirs([items[i]])
    ensures Files(items[..i + 1]) == Files(items[..i]) + Files([items[i]])
  {
    DirsFilesAppend(items[..i], [items[i]]);
    assert items[..i + 1] == items[..i] + [items[i]];
  }

  lemma DirsFilesOne(x: DirItem)
    requires x.Present? && !x.node.meta.MetaError?
    ensures Dirs([x]) == (if x.node.meta.DirMeta? then [x.node] else [])
    ensures Files([x]) == (if x.node.meta.DirMeta? then [] else [x.node])
  {
    assert [x][0] == x && [x][1..] == [];
  }

  /** What one popped path contributes to the stream: its files, or its one error. */
  function Emitted(r: Result<seq<Node>>): seq<Result<Node>>
  {
    match r
    case Err(e) => [Err(e)]
    case Ok(files) => Oks(files)
  }

  function Oks(files: seq<Node>): seq<Result<Node>>
  {
    if files == [] then [] else [Ok(files[0])] + Oks(files[1..])
  }

  /** `visit_file_path` from the work stack `stack`: pop the last path, emit its level, go on. */
  function Walk(stack: seq<Node>): seq<Result<Node>>
    decreases StackSize(stack)
  {
    if stack == [] then []
    else
      var below := stack[..|stack| - 1];
      StackSizeAppend(below, [stack[|stack| - 1]]);
      assert stack == below + [stack[|stack| - 1]];
      var (r, next) := Level(stack[|stack| - 1], below);
      Emitted(r) + Walk(next)
  }

  /** One turn of the walk: pop the last path and emit its level. */
  lemma WalkPop(stack: seq<Node>)
    requires stack != []
    ensures var (r, next) := Level(stack[|stack| - 1], stack[..|stack| - 1]);
            && Walk(stack) == Emitted(r) + Walk(next)
            && StackSize(next) < StackSize(stack)
  {
    var n, below := stack[|stack| - 1], stack[..|stack| - 1];
    var step := Level(n, below);
    assert Walk(stack) == Emitted(step.0) + Walk(step.1);
    StackSizeLast(stack);
  }

  lemma StackSizeLast(stack: seq<Node>)
    requires stack != []
    ensures StackSize(stack) == StackSize(stack[..|stack| - 1]) + Size(stack[|stack| - 1])
  {
    var n, below := stack[|stack| - 1], stack[..|stack| - 1];
    StackSizeAppend(below, [n]);
    assert stack == below + [n];
    assert [n][1..] == [];
  }

  /** `visit_file_path(root)`, with the lazy stream drained into a sequence. */
  method VisitFilePath(root: Node) returns (stream: seq<Result<Node>>)
    ensures stream == Walk([root])
  {
    var toVisit := [root];
    stream := [];
    while toVisit != []
      invariant stream + Walk(toVisit) == Walk([root])
      decreases StackSize(toVisit)
    {
      var n := toVisit[|toVisit| - 1];
      var below := toVisit[..|toVisit| - 1];
      var r, next := OneLevel(n, below);
      WalkPop(toVisit);
      AppendAssoc(stream, Emitted(r), Walk(next));
      stream := stream + Emitted(r);
      toVisit := next;
    }
    assert stream + [] == stream;
  }

  lemma AppendAssoc<T>(a: seq<T>, b: seq<T>, c: seq<T>)
    ensures a + (b + c) == (a + b) + c
  {
  }

  // ---------------------------------------------------------------------
  // Properties of the work-stack walk.

  /** The entries of the tree below `n` that are not directories, depth first. */
  function TreeFiles(n: Node): seq<Node>
    decreases Size(n), 0
  {
    match n.meta
    case FileMeta => [n]
    case DirMeta(Readable(items)) =>
      DirSize(n);
      ItemsFiles(items)
    case _ => []
  }

  function ItemsFiles(items: seq<DirItem>): seq<Node>
    decreases ItemsSize(items), 1
  {
    if items == [] then []
    else (if items[0].Present? then TreeFiles(items[0].node) else []) + ItemsFiles(items[1..])
  }

  /** The files below all the nodes of a work stack, as a multiset. */
  function StackFiles(stack: seq<Node>): multiset<Node>
  {
    if stack == [] then multiset{} else multiset(TreeFiles(stack[0])) + StackFiles(stack[1..])
  }

  lemma {:induction false} StackFilesAppend(a: seq<Node>, b: seq<Node>)
    ensures StackFiles(a + b) == StackFiles(a) + StackFiles(b)
  {
    if a == [] {
      assert a + b == b;
    } else {
      assert (a + b)[1..] == a[1..] + b;
      StackFilesAppend(a[1..], b);
    }
  }

  /** The files below a sound listing are its own files and the files below its subdirectories. */
  lemma {:induction false} ItemsFilesSplit(items: seq<DirItem>)
    requires SoundItems(items)
    ensures multiset(ItemsFiles(items)) == multiset(Files(items)) + StackFiles(Dirs(items))
  {
    if items != [] {
      var n, rest := items[0].node, items[1..];
      var own, sub := HeadFile(n), HeadDir(n);
      ItemsFilesSplit(rest);
      ItemsCons(items);
      StackFilesAppend(sub, Dirs(rest));
      HeadSplit(n);
      MultisetRegroup(multiset(own), StackFiles(sub), multiset(Files(rest)), StackFiles(Dirs(rest)));
    }
  }

  function HeadFile(n: Node): seq<Node>
  {
    if n.meta.FileMeta? then [n] else []
  }

  function HeadDir(n: Node): seq<Node>
  {
    if n.meta.DirMeta? then [n] else []
  }

  /** One step of `ItemsFiles`, `Files` and `Dirs` over a listing whose first item is an entry. */
  lemma ItemsCons(items: seq<DirItem>)
    requires items != [] && items[0].Present?
    ensures multiset(ItemsFiles(items)) == multiset(TreeFiles(items[0].node)) + multiset(ItemsFiles(items[1..]))
    ensures multiset(Files(items)) == multiset(HeadFile(items[0].node)) + multiset(Files(items[1..]))
    ensures Dirs(items) == HeadDir(items[0].node) + Dirs(items[1..])
  {
  }

  /** The files below a sound entry are itself, when it is a file, or those below it as a directory. */
  lemma HeadSplit(n: Node)
    requires Sound(n)
    ensures multiset(TreeFiles(n)) == multiset(HeadFile(n)) + StackFiles(HeadDir(n))
  {
    if n.meta.DirMeta? {
      assert [n][1..] == [];
    }
  }

  lemma MultisetRegroup(a: multiset<Node>, b: multiset<Node>, c: multiset<Node>, d: multiset<Node>)
    ensures (a + b) + (c + d) == (a + c) + (b + d)
  {
  }

  /** Every item of an emitted batch is a file. */
  lemma {:induction false} OksValues(files: seq<Node>)
    ensures |Oks(files)| == |files|
    ensures forall k :: 0 <= k < |files| ==> Oks(files)[k] == Ok(files[k])
  {
    if files != [] {
      OksValues(files[1..]);
    }
  }

  lemma {:induction false} FilesAreFiles(items: seq<DirItem>)
    ensures forall k :: 0 <= k < |Files(items)| ==> Files(items)[k].meta.FileMeta?
  {
    if items != [] {
      FilesAreFiles(items[1..]);
    }
  }

  /** The values of the `Ok` items of a stream, in order. */
  function Values(stream: seq<Result<Node>>): seq<Node>
  {
    if stream == [] then []
    else (if stream[0].Ok? then [stream[0].value] else []) + Values(stream[1..])
  }

  lemma {:induction false} ValuesAppend(a: seq<Result<Node>>, b: seq<Result<Node>>)
    ensures Values(a + b) == Values(a) + Values(b)
  {
    if a == [] {
      assert a + b == b;
    } else {
      assert (a + b)[0] == a[0] && (a + b)[1..] == a[1..] + b;
      ValuesAppend(a[1..], b);
      var h := if a[0].Ok? then [a[0].value] else [];
      assert Values(a + b) == h + (Values(a[1..]) + Values(b));
      assert Values(a) == h + Values(a[1..]);
    }
  }

  lemma {:induction false} ValuesOfOks(files: seq<Node>)
    ensures Values(Oks(files)) == files
  {
    if files != [] {
      ValuesOfOks(files[1..]);
    }
  }

  /** The walk never yields a directory: every `Ok` item is a file entry. */
  lemma {:induction false} WalkYieldsFiles(stack: seq<Node>)
    ensures forall k :: 0 <= k < |Walk(stack)| && Walk(stack)[k].Ok? ==> Walk(stack)[k].value.meta.FileMeta?
    decreases StackSize(stack)
  {
    if stack != [] {
      var below := stack[..|stack| - 1];
      StackSizeAppend(below, [stack[|stack| - 1]]);
      assert stack == below + [stack[|stack| - 1]];
      var (r, next) := Level(stack[|stack| - 1], below);
      WalkYieldsFiles(next);
      if r.Ok? {
        var items := ReadDir(stack[|stack| - 1]).value;
        FilesAreFiles(items);
        OksValues(r.value);
      }
      assert Walk(stack) == Emitted(r) + Walk(next);
      forall k | 0 <= k < |Walk(stack)| && Walk(stack)[k].Ok?
        ensures Walk(stack)[k].value.meta.FileMeta?
      {
        if k >= |Emitted(r)| {
          assert Walk(stack)[k] == Walk(next)[k - |Emitted(r)|];
        }
      }
    }
  }

  /**
   * From a work stack of sound directories the walk yields no error, and
   * yields every file below them exactly once (in LIFO order, so only
   * the multiset is stated).
   */
  lemma {:induction false} WalkSound(stack: seq<Node>)
    requires forall i :: 0 <= i < |stack| ==> stack[i].meta.DirMeta? && Sound(stack[i])
    ensures forall k :: 0 <= k < |Walk(stack)| ==> Walk(stack)[k].Ok?
    ensures multiset(Values(Walk(stack))) == StackFiles(stack)
    decreases StackSize(stack)
  {
    if stack != [] {
      var n, below := stack[|stack| - 1], stack[..|stack| - 1];
      var items := n.meta.listing.items;
      var next := below + Dirs(items);
      WalkPop(stack);
      SoundLevel(n, below);
      assert Walk(stack) == Oks(Files(items)) + Walk(next);
      SoundStack(stack);
      WalkSound(next);
      OksPrefix(Files(items), Walk(next));
      SoundStackFiles(stack);
    }
  }

  /** The remaining stack after popping a sound directory is sound. */
  lemma SoundStack(stack: seq<Node>)
    requires stack != []
    requires forall i :: 0 <= i < |stack| ==> stack[i].meta.DirMeta? && Sound(stack[i])
    ensures var n, below := stack[|stack| - 1], stack[..|stack| - 1];
            && n.meta.DirMeta? && n.meta.listing.Readable? && SoundItems(n.meta.listing.items)
            && forall i :: 0 <= i < |below + Dirs(n.meta.listing.items)| ==>
                 (below + Dirs(n.meta.listing.items))[i].meta.DirMeta? && Sound((below + Dirs(n.meta.listing.items))[i])
  {
    var n, below := stack[|stack| - 1], stack[..|stack| - 1];
    var items := n.meta.listing.items;
    DirSize(n);
    DirsSound(items);
    assert forall i :: 0 <= i < |below| ==> below[i] == stack[i];
  }

  /** One level of a sound directory emits all its files and pushes all its subdirectories. */
  lemma SoundLevel(n: Node, below: seq<Node>)
    requires n.meta.DirMeta? && Sound(n)
    ensures n.meta.listing.Readable?
    ensures Level(n, below) == (Ok(Files(n.meta.listing.items)), below + Dirs(n.meta.listing.items))
  {
    var items := n.meta.listing.items;
    DirSize(n);
    SoundItemsAt(items);
    assert FirstFault(items) == |items|;
    assert items[..|items|] == items;
  }

  /** A stream of `Ok` items followed by one with no error has no error, and its values are the two in turn. */
  lemma OksPrefix(files: seq<Node>, w: seq<Result<Node>>)
    requires forall k :: 0 <= k < |w| ==> w[k].Ok?
    ensures forall k :: 0 <= k < |Oks(files) + w| ==> (Oks(files) + w)[k].Ok?
    ensures Values(Oks(files) + w) == files + Values(w)
  {
    OksValues(files);
    ValuesAppend(Oks(files), w);
    ValuesOfOks(files);
  }

  /** The files below a stack whose top is a sound directory are those of its listing and those below the stack it leaves. */
  lemma SoundStackFiles(stack: seq<Node>)
    requires stack != [] && stack[|stack| - 1].meta.DirMeta? && Sound(stack[|stack| - 1])
    ensures var n, below := stack[|stack| - 1], stack[..|stack| - 1];
            && n.meta.listing.Readable?
            && StackFiles(stack) == multiset(Files(n.meta.listing.items)) + StackFiles(below + Dirs(n.meta.listing.items))
  {
    var n, below := stack[|stack| - 1], stack[..|stack| - 1];
    var items := n.meta.listing.items;
    DirSize(n);
    StackFilesLast(stack);
    StackFilesAppend(below, Dirs(items));
    ItemsFilesSplit(items);
  }

  /** The files below a work stack are those below all but its top and those below its top. */
  lemma StackFilesLast(stack: seq<Node>)
    requires stack != []
    ensures StackFiles(stack) == StackFiles(stack[..|stack| - 1]) + multiset(TreeFiles(stack[|stack| - 1]))
  {
    var n, below := stack[|stack| - 1], stack[..|stack| - 1];
    assert stack == below + [n];
    StackFilesAppend(below, [n]);
    assert StackFiles([n]) == multiset(TreeFiles(n)) by {
      assert [n][1..] == [];
    }
  }


  /** The subdirectories of a sound listing are sound directories. */
  lemma {:induction false} DirsSound(items: seq<DirItem>)
    requires SoundItems(items)
    ensures forall i :: 0 <= i < |Dirs(items)| ==> Dirs(items)[i].meta.DirMeta? && Sound(Dirs(items)[i])
  {
    if items != [] {
      DirsSound(items[1..]);
    }
  }

  /** `visit_file_path` over a sound root directory yields exactly the files of the tree, each once. */
  lemma VisitFindsEveryFile(root: Node)
    requires root.meta.DirMeta? && Sound(root)
    ensures forall k :: 0 <= k < |Walk([root])| ==> Walk([root])[k].Ok?
    ensures multiset(Values(Walk([root]))) == multiset(TreeFiles(root))
  {
    WalkSound([root]);
    assert StackFiles([root]) == multiset(TreeFiles(root)) + StackFiles([root][1..]);
    assert [root][1..] == [];
  }
}
