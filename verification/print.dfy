/**
 * `PrintProcessor` of `src/print.rs` (the same code as `TreeRepresentation`
 * in `src/llm_engine/tree_processor.rs`): renders the events of a
 * `TreeIter` as the lines of the classic `tree` listing.
 *
 * The processor keeps a stack `dirHasNext` with one flag per open level:
 * whether the entry at that level has a sibling after it. Each line is a
 * guide of one four-character segment per flag, then the entry's name.
 * `Construct` is proved against `Render`, a fold of the processor's steps
 * over the trace of the iterator; `Render` is then related to `ArtOf`, an
 * independent description of the listing of a tree.
 */
module Print {
  import opened Common
  import opened FileTree
  import opened Paths
  import opened Filters
  import opened Tree

  const VerticalLine: string := "│   "
  const BranchedLine: string := "├── "
  const TerminalLine: string := "└── "
  const EmptyLine: string := "    "

  /**
   * The guide segment at level `i`: an ancestor level shows a bar while
   * that ancestor has siblings to come; the last level shows a branch, or
   * a corner for the last entry of its directory.
   */
  function Segment(flags: seq<bool>, i: nat): (segment: string)
    requires i < |flags|
    ensures |segment| == 4
  {
    if i < |flags| - 1 then (if flags[i] then VerticalLine else EmptyLine)
    else if flags[i] then BranchedLine else TerminalLine
  }

  /** The segments of the first `k` levels. */
  function GuideUpTo(flags: seq<bool>, k: nat): (guide: string)
    requires k <= |flags|
    ensures |guide| == 4 * k
  {
    if k == 0 then "" else GuideUpTo(flags, k - 1) + Segment(flags, k - 1)
  }

  function Guide(flags: seq<bool>): string
  {
    GuideUpTo(flags, |flags|)
  }

  /** Level `i` of a guide is the four characters of its own segment. */
  lemma {:induction false} GuideSegment(flags: seq<bool>, k: nat, i: nat)
    requires i < k <= |flags|
    ensures GuideUpTo(flags, k)[4 * i..4 * i + 4] == Segment(flags, i)
  {
    var g, s := GuideUpTo(flags, k - 1), Segment(flags, k - 1);
    assert GuideUpTo(flags, k) == g + s;
    if i < k - 1 {
      GuideSegment(flags, k - 1, i);
      SliceOfPrefix(g, s, 4 * i, 4 * i + 4);
    } else {
      SliceOfSuffix(g, s);
    }
  }

  /** A guide is four characters per level, and each level shows its own segment. */
  lemma GuideShape(flags: seq<bool>)
    ensures |Guide(flags)| == 4 * |flags|
    ensures forall i :: 0 <= i < |flags| ==> Guide(flags)[4 * i..4 * i + 4] == Segment(flags, i)
  {
    forall i | 0 <= i < |flags|
      ensures Guide(flags)[4 * i..4 * i + 4] == Segment(flags, i)
    {
      GuideSegment(flags, |flags|, i);
    }
  }

  lemma SliceOfPrefix(a: string, b: string, lo: nat, hi: nat)
    requires lo <= hi <= |a|
    ensures (a + b)[lo..hi] == a[lo..hi]
  {
  }

  lemma SliceOfSuffix(a: string, b: string)
    ensures (a + b)[|a|..|a| + |b|] == b
  {
  }

  /** `Vec::pop` with its result discarded: an empty stack stays empty. */
  function Pop(flags: seq<bool>): seq<bool>
  {
    if flags == [] then [] else flags[..|flags| - 1]
  }

  /** `file_name_from_path`: the entry's file name; panics on a path without one. */
  function FileNameFromPath(p: Path): (r: Outcome<string>)
    ensures r.Panics? <==> FileName(p).None?
    ensures r.Returns? ==> r.value == FileName(p).value
  {
    match FileName(p)
    case Some(name) => Returns(name)
    case None => Panics
  }

  /** The part of a `PrintProcessor` that its steps read and write. */
  datatype ArtState = ArtState(dirHasNext: seq<bool>, numDirs: nat, numFiles: nat)

  /** `construct_dir`: retag the current level, render the line, open a level. */
  function OnDir(st: ArtState, e: Entry): (Outcome<string>, ArtState)
  {
    var flags := Pop(st.dirHasNext) + [e.hasNextSibling];
    match FileNameFromPath(e.path)
    case Returns(name) => (Returns(Guide(flags) + name + "\n"), ArtState(flags + [true], st.numDirs + 1, st.numFiles))
    case _ => (Panics, st)
  }

  /** `construct_file`: retag the current level and render the line. */
  function OnFile(st: ArtState, e: Entry): (Outcome<string>, ArtState)
  {
    var flags := Pop(st.dirHasNext) + [e.hasNextSibling];
    match FileNameFromPath(e.path)
    case Returns(name) => (Returns(Guide(flags) + name + "\n"), ArtState(flags, st.numDirs, st.numFiles + 1))
    case _ => (Panics, st)
  }

  /** `close_dir`: drop a level; the `expect` panics when none is left. */
  function OnClose(st: ArtState): Outcome<ArtState>
  {
    if st.dirHasNext == [] then Panics
    else Returns(st.(dirHasNext := st.dirHasNext[..|st.dirHasNext| - 1]))
  }

  /** One event's effect: `OnDir`, `OnFile`, or `OnClose` (which adds no text). */
  function Consumed(st: ArtState, ev: Event): (Outcome<string>, ArtState)
  {
    match ev
    case OpenDir(e) => OnDir(st, e)
    case File(e) => OnFile(st, e)
    case CloseDir =>
      match OnClose(st)
      case Returns(st') => (Returns(""), st')
      case _ => (Panics, st)
  }

  /**
   * `construct` over the iterator items `items` that end with `ending`,
   * from processor state `st`, with `acc` rendered so far: stops at the
   * first error item, and at the first panic of a step.
   */
  function Render(st: ArtState, items: seq<Result<Event>>, ending: Ending, acc: string): (Outcome<Result<string>>, ArtState)
    decreases |items|
  {
    if items == [] then
      match ending
      case Finished => (Returns(Ok(acc)), st)
      case Panicked => (Panics, st)
      case Diverged => (Diverges, st)
    else match items[0]
      case Err(e) => (Returns(Err(e)), st)
      case Ok(ev) =>
        var (out, st') := Consumed(st, ev);
        if out.Returns? then Render(st', items[1..], ending, acc + out.value) else (Panics, st')
  }

  lemma RenderConsumed(st: ArtState, ev: Event, rest: seq<Result<Event>>, ending: Ending, acc: string)
    ensures Render(st, [Ok(ev)] + rest, ending, acc)
         == if Consumed(st, ev).0.Returns?
            then Render(Consumed(st, ev).1, rest, ending, acc + Consumed(st, ev).0.value)
            else (Panics, Consumed(st, ev).1)
  {
    assert ([Ok(ev)] + rest)[1..] == rest;
    assert acc + "" == acc;
  }

  /** What rendering gives when the first step yields no event: the end, the error, or the step's failure. */
  function Stopped(out: Outcome<Option<Result<Event>>>, acc: string): Outcome<Result<string>>
  {
    if out.Panics? then Panics
    else if out.Diverges? then Diverges
    else if out.value.None? then Returns(Ok(acc))
    else if out.value.value.Err? then Returns(Err(out.value.value.error))
    else Returns(Ok(acc))
  }

  /** Rendering a run whose first step yields no event stops there, leaving the state as it was. */
  lemma RenderStopped(filter: FileFilter, frames: seq<seq<Pull>>, st: ArtState, acc: string)
    requires var out := Step(filter, frames).0; !(out.Returns? && out.value.Some? && out.value.value.Ok?)
    ensures Render(st, Run(filter, frames).items, Run(filter, frames).ending, acc) == (Stopped(Step(filter, frames).0, acc), st)
  {
  }

  /** Rendering a run whose first step yields an event consumes it, then renders the rest of the run. */
  lemma RenderEvent(filter: FileFilter, frames: seq<seq<Pull>>, st: ArtState, acc: string, ev: Event)
    requires Step(filter, frames).0 == Returns(Some(Ok(ev)))
    ensures var later := Run(filter, Step(filter, frames).1);
            Render(st, Run(filter, frames).items, Run(filter, frames).ending, acc)
            == if Consumed(st, ev).0.Returns?
               then Render(Consumed(st, ev).1, later.items, later.ending, acc + Consumed(st, ev).0.value)
               else (Panics, Consumed(st, ev).1)
  {
    var next := Step(filter, frames).1;
    RunStep(filter, frames, Ok(ev), next);
    RenderConsumed(st, ev, Run(filter, next).items, Run(filter, next).ending, acc);
  }

  class PrintProcessor {
    var dirHasNext: seq<bool>
    var numDirs: nat
    var numFiles: nat

    function State(): ArtState
      reads this
    {
      ArtState(dirHasNext, numDirs, numFiles)
    }

    /** `TreeProcessorBuilder::build` (printing the root line is I/O and not modelled). */
    constructor Build()
      ensures dirHasNext == [true] && numDirs == 0 && numFiles == 0
    {
      dirHasNext := [true];
      numDirs := 0;
      numFiles := 0;
    }

    /** `construct_entry`: the guide for the current flags, then the name and a newline. */
    method ConstructEntry(name: string) returns (line: string)
      ensures line == Guide(dirHasNext) + name + "\n"
    {
      line := "";
      var len := |dirHasNext|;
      for i := 0 to len
        invariant line == GuideUpTo(dirHasNext, i)
      {
        if i < len - 1 {
          if dirHasNext[i] {
            line := line + VerticalLine;
          } else {
            line := line + EmptyLine;
          }
        } else if dirHasNext[i] {
          line := line + BranchedLine;
        } else {
          line := line + TerminalLine;
        }
      }
      line := line + name + "\n";
    }

    /**
     * `construct_dir`. The stack is never empty after the push that
     * precedes the test, so the branch that renders the whole path is dead.
     */
    method ConstructDir(entry: Entry) returns (r: Outcome<string>)
      modifies this
      ensures r == OnDir(old(State()), entry).0
      ensures r.Returns? ==> State() == OnDir(old(State()), entry).1
    {
      dirHasNext := Pop(dirHasNext) + [entry.hasNextSibling];
      if dirHasNext == [] {
        assert false;
        return Panics;
      }
      var name := FileNameFromPath(entry.path);
      if name.Panics? {
        return Panics;
      }
      var line := ConstructEntry(name.value);
      dirHasNext := dirHasNext + [true];
      numDirs := numDirs + 1;
      return Returns(line);
    }

    /** `construct_file`. */
    method ConstructFile(entry: Entry) returns (r: Outcome<string>)
      modifies this
      ensures r == OnFile(old(State()), entry).0
      ensures r.Returns? ==> State() == OnFile(old(State()), entry).1
    {
      dirHasNext := Pop(dirHasNext) + [entry.hasNextSibling];
      var name := FileNameFromPath(entry.path);
      if name.Panics? {
        return Panics;
      }
      var line := ConstructEntry(name.value);
      numFiles := numFiles + 1;
      return Returns(line);
    }

    /** `close_dir`: panics when there is no level left to close. */
    method CloseDir() returns (r: Outcome<()>)
      modifies this
      ensures r.Panics? <==> old(dirHasNext) == []
      ensures r.Returns? ==> Returns(State()) == OnClose(old(State()))
      ensures !r.Diverges?
    {
      if dirHasNext == [] {
        return Panics;
      }
      dirHasNext := dirHasNext[..|dirHasNext| - 1];
      return Returns(());
    }

    /** The processor's reaction to one event: the text it adds, if any. */
    method Consume(ev: Event) returns (r: Outcome<string>)
      modifies this
      ensures r == Consumed(old(State()), ev).0
      ensures r.Returns? ==> State() == Consumed(old(State()), ev).1
      ensures !r.Diverges?
    {
      match ev {
        case OpenDir(entry) => r := ConstructDir(entry);
        case File(entry) => r := ConstructFile(entry);
        case CloseDir =>
          var closed := CloseDir();
          r := if closed.Panics? then Panics else Returns("");
      }
    }

    /** `TreeProcessor::construct`: the rendered listing, or the first error the iterator yields. */
    method Construct(it: TreeIter) returns (r: Outcome<Result<string>>)
      requires it.Valid() && this !in it.Repr
      modifies this, it.Repr
      ensures var t := Run(it.filter, old(it.Frames()));
              && r == Render(old(State()), t.items, t.ending, "").0
              && (r.Returns? ==> State() == Render(old(State()), t.items, t.ending, "").1)
    {
      var result := "";
      ghost var goal := Render(State(), Run(it.filter, it.Frames()).items, Run(it.filter, it.Frames()).ending, "");
      while true
        invariant it.Valid() && this !in it.Repr
        invariant fresh(it.Repr - old(it.Repr))
        invariant goal == Render(State(), Run(it.filter, it.Frames()).items, Run(it.filter, it.Frames()).ending, result)
        decreases FramesSize(it.Frames())
      {
        ghost var frames, st := it.Frames(), State();
        ghost var repr := it.Repr;
        var next := it.Next();
        assert fresh(it.Repr - repr) && this !in it.Repr;
        if !(next.Returns? && next.value.Some? && next.value.value.Ok?) {
          RenderStopped(it.filter, frames, st, result);
          if next.Panics? {
            return Panics;
          } else if next.Diverges? {
            return Diverges;
          } else if next.value.None? {
            return Returns(Ok(result));
          }
          return Returns(Err(next.value.value.error));
        }
        StepDecreases(it.filter, frames);
        var item := next.value.value;
        RenderEvent(it.filter, frames, st, result, item.value);
        ghost var later := it.Frames();
        assert FramesSize(later) < FramesSize(frames);
        var text := Consume(item.value);
        assert it.Frames() == later;
        if text.Panics? {
          return Panics;
        }
        result := result + text.value;
      }
    }
  }

  // ---------------------------------------------------------------------
  // Reference: the listing of a tree the iterator walks without error.

  /** Every admitted entry of the walk has a file name (so no `unwrap` fails). */
  predicate NamedNodes(filter: FileFilter, nodes: seq<Node>)
    decreases NodesSize(nodes), 1
  {
    nodes == [] || (NamedNode(filter, nodes[0]) && NamedNodes(filter, nodes[1..]))
  }

  predicate NamedNode(filter: FileFilter, n: Node)
    decreases Size(n), 0
  {
    && FileName(n.path).Some?
    && match n.meta
       case DirMeta(Readable(items)) =>
         DirSize(n);
         KeptSize(filter, items);
         NamedNodes(filter, Kept(filter, items))
       case _ => true
  }

  function NameOf(n: Node): string
  {
    match FileName(n.path)
    case Some(name) => name
    case None => ""
  }

  /** The lines for the admitted entries `nodes` of one directory below the levels `ancestors`. */
  function ArtOf(filter: FileFilter, nodes: seq<Node>, ancestors: seq<bool>): string
    decreases NodesSize(nodes), 1
  {
    if nodes == [] then ""
    else NodeArt(filter, nodes[0], |nodes| > 1, ancestors) + ArtOf(filter, nodes[1..], ancestors)
  }

  /** An entry's line, then, for a directory, the lines of its admitted entries one level deeper. */
  function NodeArt(filter: FileFilter, n: Node, hasNext: bool, ancestors: seq<bool>): string
    decreases Size(n), 0
  {
    var line := Guide(ancestors + [hasNext]) + NameOf(n) + "\n";
    match n.meta
    case DirMeta(Readable(items)) =>
      DirSize(n);
      KeptSize(filter, items);
      line + ArtOf(filter, Kept(filter, items), ancestors + [hasNext])
    case _ => line
  }

  function CountOpen(events: seq<Event>): nat
  {
    if events == [] then 0 else (if events[0].OpenDir? then 1 else 0) + CountOpen(events[1..])
  }

  function CountFile(events: seq<Event>): nat
  {
    if events == [] then 0 else (if events[0].File? then 1 else 0) + CountFile(events[1..])
  }

  lemma {:induction false} CountAppend(a: seq<Event>, b: seq<Event>)
    ensures CountOpen(a + b) == CountOpen(a) + CountOpen(b)
    ensures CountFile(a + b) == CountFile(a) + CountFile(b)
  {
    if a == [] {
      assert a + b == b;
    } else {
      assert (a + b)[1..] == a[1..] + b;
      CountAppend(a[1..], b);
    }
  }

  lemma Associative(a: string, b: string, c: string)
    ensures a + b + c == a + (b + c)
  {
  }

  /**
   * The processor's steps over a run of events that all succeed: whether
   * every step returned, the state after the last one (or at the panic),
   * and the text the steps rendered.
   */
  datatype Art = Art(completed: bool, state: ArtState, text: string)

  function Fold(st: ArtState, events: seq<Event>): Art
    decreases |events|
  {
    if events == [] then Art(true, st, "")
    else
      var (out, st') := Consumed(st, events[0]);
      if out.Returns? then
        var r := Fold(st', events[1..]);
        Art(r.completed, r.state, out.value + r.text)
      else Art(false, st', "")
  }

  /** Rendering a run of successful items is folding the steps over their events. */
  lemma {:induction false} RenderSuccesses(st: ArtState, events: seq<Event>, rest: seq<Result<Event>>, ending: Ending, acc: string)
    ensures Render(st, Successes(events) + rest, ending, acc)
         == if Fold(st, events).completed
            then Render(Fold(st, events).state, rest, ending, acc + Fold(st, events).text)
            else (Panics, Fold(st, events).state)
    decreases |events|
  {
    if events == [] {
      assert Successes(events) + rest == rest;
      assert acc + "" == acc;
    } else {
      var tail := Successes(events[1..]) + rest;
      assert Successes(events) + rest == [Ok(events[0])] + tail;
      RenderConsumed(st, events[0], tail, ending, acc);
      var (out, st') := Consumed(st, events[0]);
      if out.Returns? {
        RenderSuccesses(st', events[1..], rest, ending, acc + out.value);
        Associative(acc, out.value, Fold(st', events[1..]).text);
      }
    }
  }

  /** Folding over `a + b` folds over `a`, then, if it completed, over `b`. */
  lemma {:induction false} FoldAppend(st: ArtState, a: seq<Event>, b: seq<Event>)
    ensures Fold(st, a + b)
         == if Fold(st, a).completed
            then Art(Fold(Fold(st, a).state, b).completed, Fold(Fold(st, a).state, b).state,
                     Fold(st, a).text + Fold(Fold(st, a).state, b).text)
            else Fold(st, a)
    decreases |a|
  {
    if a == [] {
      assert a + b == b;
      assert Fold(st, b).text == "" + Fold(st, b).text;
    } else {
      assert (a + b)[0] == a[0];
      assert (a + b)[1..] == a[1..] + b;
      var (out, st') := Consumed(st, a[0]);
      if out.Returns? {
        FoldAppend(st', a[1..], b);
        Associative(out.value, Fold(st', a[1..]).text, Fold(Fold(st', a[1..]).state, b).text);
      }
    }
  }

  /** A completed fold counts one directory per `OpenDir` and one file per `File` it went through. */
  lemma {:induction false} FoldCounts(st: ArtState, events: seq<Event>)
    ensures Fold(st, events).completed ==>
              && Fold(st, events).state.numDirs == st.numDirs + CountOpen(events)
              && Fold(st, events).state.numFiles == st.numFiles + CountFile(events)
    decreases |events|
  {
    if events != [] {
      var (out, st') := Consumed(st, events[0]);
      if out.Returns? {
        FoldCounts(st', events[1..]);
      }
    }
  }

  /** The two-level condition the listing theorems carry: a completed fold, its stack and its text. */
  predicate Rendered(r: Art, stack: seq<bool>, text: string)
  {
    r.completed && r.state.dirHasNext == stack && r.text == text
  }

  /**
   * From any state whose stack is `ancestors + [x]`, the steps over the
   * events of the clean, named entries `nodes` and the `CloseDir` of
   * their directory all return, render the entries' lines, and leave the
   * stack at `ancestors`.
   */
  lemma {:induction false} FoldListing(filter: FileFilter, nodes: seq<Node>, ancestors: seq<bool>, x: bool, st: ArtState)
    requires st.dirHasNext == ancestors + [x]
    requires forall i :: 0 <= i < |nodes| ==> CleanNode(filter, nodes[i])
    requires NamedNodes(filter, nodes)
    ensures Rendered(Fold(st, NodesEvents(filter, nodes) + [CloseDir]), ancestors, ArtOf(filter, nodes, ancestors))
    decreases NodesSize(nodes), 2
  {
    if nodes == [] {
      assert NodesEvents(filter, nodes) + [CloseDir] == [CloseDir];
      assert Consumed(st, CloseDir) == (Returns(""), st.(dirHasNext := ancestors));
      assert Fold(st, [CloseDir]) == Art(true, st.(dirHasNext := ancestors), "" + "");
    } else {
      FoldCons(filter, nodes, ancestors, x, st);
    }
  }

  /** `FoldListing` for a nonempty `nodes`: the first entry's steps, then the rest's. */
  lemma {:induction false} FoldCons(filter: FileFilter, nodes: seq<Node>, ancestors: seq<bool>, x: bool, st: ArtState)
    requires nodes != [] && st.dirHasNext == ancestors + [x]
    requires forall i :: 0 <= i < |nodes| ==> CleanNode(filter, nodes[i])
    requires NamedNodes(filter, nodes)
    ensures Rendered(Fold(st, NodesEvents(filter, nodes) + [CloseDir]), ancestors, ArtOf(filter, nodes, ancestors))
    decreases NodesSize(nodes), 1
  {
    var n, rest, h := nodes[0], nodes[1..], |nodes| > 1;
    var head := NodeEvents(filter, n, h);
    var later := NodesEvents(filter, rest) + [CloseDir];
    ConsFacts(filter, nodes, ancestors);
    if n.meta.FileMeta? {
      FoldFile(filter, n, h, ancestors, x, st);
    } else {
      FoldDir(filter, n, h, ancestors, x, st);
    }
    var mid := Fold(st, head).state;
    FoldListing(filter, rest, ancestors, h, mid);
    FoldAppend(st, head, later);
  }

  /** How the events, lines and hypotheses of `nodes` split into its first entry and the rest. */
  lemma ConsFacts(filter: FileFilter, nodes: seq<Node>, ancestors: seq<bool>)
    requires nodes != []
    requires forall i :: 0 <= i < |nodes| ==> CleanNode(filter, nodes[i])
    requires NamedNodes(filter, nodes)
    ensures NodesEvents(filter, nodes) + [CloseDir]
         == NodeEvents(filter, nodes[0], |nodes| > 1) + (NodesEvents(filter, nodes[1..]) + [CloseDir])
    ensures ArtOf(filter, nodes, ancestors) == NodeArt(filter, nodes[0], |nodes| > 1, ancestors) + ArtOf(filter, nodes[1..], ancestors)
    ensures CleanNode(filter, nodes[0]) && NamedNode(filter, nodes[0])
    ensures (forall i :: 0 <= i < |nodes[1..]| ==> CleanNode(filter, nodes[1..][i])) && NamedNodes(filter, nodes[1..])
    ensures Size(nodes[0]) <= NodesSize(nodes) && NodesSize(nodes[1..]) < NodesSize(nodes)
  {
    assert NodesEvents(filter, nodes) == NodeEvents(filter, nodes[0], |nodes| > 1) + NodesEvents(filter, nodes[1..]);
    assert forall i :: 0 <= i < |nodes[1..]| ==> nodes[1..][i] == nodes[i + 1];
  }

  /** The step over an entry, from the stack `ancestors + [x]`, replaces `x` by the entry's own flag. */
  lemma EntryLine(st: ArtState, ancestors: seq<bool>, x: bool, n: Node, h: bool)
    requires st.dirHasNext == ancestors + [x] && FileName(n.path).Some?
    ensures Consumed(st, File(Entry(n.path, h, n.meta))).0 == Returns(Guide(ancestors + [h]) + NameOf(n) + "\n")
    ensures Consumed(st, File(Entry(n.path, h, n.meta))).1.dirHasNext == ancestors + [h]
    ensures Consumed(st, OpenDir(Entry(n.path, h, n.meta))).0 == Returns(Guide(ancestors + [h]) + NameOf(n) + "\n")
    ensures Consumed(st, OpenDir(Entry(n.path, h, n.meta))).1.dirHasNext == ancestors + [h] + [true]
  {
    assert Pop(ancestors + [x]) == ancestors;
  }

  /** One step that returns `line` and moves to `st'`, followed by the rest of the fold. */
  lemma FoldStep(st: ArtState, ev: Event, later: seq<Event>)
    requires Consumed(st, ev).0.Returns?
    ensures Fold(st, [ev] + later)
         == Art(Fold(Consumed(st, ev).1, later).completed, Fold(Consumed(st, ev).1, later).state,
                Consumed(st, ev).0.value + Fold(Consumed(st, ev).1, later).text)
  {
    assert ([ev] + later)[0] == ev;
    assert ([ev] + later)[1..] == later;
  }

  /** A named file's one step renders its line and replaces the top flag by its own. */
  lemma FoldFile(filter: FileFilter, n: Node, h: bool, ancestors: seq<bool>, x: bool, st: ArtState)
    requires st.dirHasNext == ancestors + [x]
    requires n.meta.FileMeta? && NamedNode(filter, n)
    ensures Rendered(Fold(st, NodeEvents(filter, n, h)), ancestors + [h], NodeArt(filter, n, h, ancestors))
  {
    var e := Entry(n.path, h, n.meta);
    assert NodeEvents(filter, n, h) == [File(e)] + [];
    EntryLine(st, ancestors, x, n, h);
    FoldStep(st, File(e), []);
    assert Consumed(st, File(e)).0.value + "" == Consumed(st, File(e)).0.value;
  }

  /**
   * A clean, named directory's steps render its line and then its
   * admitted entries one level deeper, and leave its own flag on top.
   */
  lemma {:induction false} FoldDir(filter: FileFilter, n: Node, h: bool, ancestors: seq<bool>, x: bool, st: ArtState)
    requires st.dirHasNext == ancestors + [x]
    requires CleanNode(filter, n) && !n.meta.FileMeta? && NamedNode(filter, n)
    ensures Rendered(Fold(st, NodeEvents(filter, n, h)), ancestors + [h], NodeArt(filter, n, h, ancestors))
    decreases Size(n), 0
  {
    var e := Entry(n.path, h, n.meta);
    var inner := Kept(filter, n.meta.listing.items);
    DirFacts(filter, n, h, ancestors);
    EntryLine(st, ancestors, x, n, h);
    FoldListing(filter, inner, ancestors + [h], true, Consumed(st, OpenDir(e)).1);
    FoldStep(st, OpenDir(e), NodesEvents(filter, inner) + [CloseDir]);
  }

  /** The events, lines and hypotheses of a clean, named directory's admitted entries. */
  lemma DirFacts(filter: FileFilter, n: Node, h: bool, ancestors: seq<bool>)
    requires CleanNode(filter, n) && !n.meta.FileMeta? && NamedNode(filter, n)
    ensures n.meta.DirMeta? && n.meta.listing.Readable?
    ensures var inner := Kept(filter, n.meta.listing.items);
            && NodeEvents(filter, n, h) == [OpenDir(Entry(n.path, h, n.meta))] + (NodesEvents(filter, inner) + [CloseDir])
            && NodeArt(filter, n, h, ancestors) == Guide(ancestors + [h]) + NameOf(n) + "\n" + ArtOf(filter, inner, ancestors + [h])
            && NodesSize(inner) < Size(n)
            && (forall i :: 0 <= i < |inner| ==> CleanNode(filter, inner[i])) && NamedNodes(filter, inner)
  {
    var items := n.meta.listing.items;
    DirSize(n);
    KeptSize(filter, items);
    FilteredClean(filter, items);
  }

  /**
   * `construct` over a clean, named root renders exactly the listing
   * `ArtOf`, counts every directory and file of the walk, and ends with
   * an empty stack: the root's `CloseDir` pops the initial flag, and no
   * `close_dir` panics.
   */
  lemma ConstructRendersTree(filter: FileFilter, items: seq<DirItem>)
    requires CleanListing(filter, items) && NamedNodes(filter, Kept(filter, items))
    ensures Render(ArtState([true], 0, 0), Run(filter, [Filtered(filter, items)]).items, Run(filter, [Filtered(filter, items)]).ending, "")
         == (Returns(Ok(ArtOf(filter, Kept(filter, items), []))),
             ArtState([], CountOpen(NodesEvents(filter, Kept(filter, items))), CountFile(NodesEvents(filter, Kept(filter, items)))))
  {
    var walk := NodesEvents(filter, Kept(filter, items));
    IterationIsDepthFirst(filter, items);
    RootFold(filter, items);
    RenderCompleted(ArtState([true], 0, 0), walk + [CloseDir], ArtState([], CountOpen(walk), CountFile(walk)),
                    ArtOf(filter, Kept(filter, items), []));
  }

  /** The steps over the whole walk of a clean, named root and the root's `CloseDir`. */
  lemma RootFold(filter: FileFilter, items: seq<DirItem>)
    requires CleanListing(filter, items) && NamedNodes(filter, Kept(filter, items))
    ensures var walk := NodesEvents(filter, Kept(filter, items));
            (Fold(ArtState([true], 0, 0), walk + [CloseDir])
             == Art(true, ArtState([], CountOpen(walk), CountFile(walk)), ArtOf(filter, Kept(filter, items), [])))
  {
    var walk := NodesEvents(filter, Kept(filter, items));
    var st := ArtState([true], 0, 0);
    FilteredClean(filter, items);
    assert [] + [true] == [true];
    FoldListing(filter, Kept(filter, items), [], true, st);
    FoldCounts(st, walk + [CloseDir]);
    CountAppend(walk, [CloseDir]);
  }

  /** A fold that completes renders its text and nothing else when the run then finishes. */
  lemma RenderCompleted(st: ArtState, events: seq<Event>, last: ArtState, text: string)
    requires Fold(st, events) == Art(true, last, text)
    ensures Render(st, Successes(events), Finished, "") == (Returns(Ok(text)), last)
  {
    RenderSuccesses(st, events, [], Finished, "");
    assert Successes(events) + [] == Successes(events);
    assert "" + text == text;
  }
}
