/**
 * The filtered, depth-first directory iterator `TreeIter` of `src/tree.rs`
 * (copied verbatim into `src/representation/tree.rs` and
 * `src/representation/tree/iterator.rs`).
 *
 * `Peekable<FilteredDir>` is one `DirStream` object: the remaining
 * `read_dir` stream plus the one-item peek buffer. Its abstract view
 * `Items()` is the sequence of pulls a caller will still get from it.
 * `TreeIter.Next` is proved against `Step`, a pure function on the frames
 * of the stack; `Run` drives `Step` to the end, and the lemmas relate `Run`
 * to an independent depth-first description of the tree, `NodesEvents`.
 */
module Tree {
  import opened Common
  import opened FileTree
  import opened Filters

  /** One pull from a `FilteredDir`: an admitted entry or an error, or the pull panics or spins. */
  type Pull = Outcome<Result<Node>>

  /** What `next_entry` yields: the entry's path, whether a sibling follows, its metadata. */
  datatype Entry = Entry(path: Path, hasNextSibling: bool, meta: Meta)

  datatype Event = File(entry: Entry) | OpenDir(entry: Entry) | CloseDir

  /**
   * `FilteredDir::new`: the listing of a readable directory; otherwise an
   * error whose message names the directory.
   */
  function OpenFiltered(n: Node): (r: Result<seq<DirItem>>)
    ensures r.Ok? <==> ReadDir(n).Ok?
    ensures r.Ok? ==> r.value == ReadDir(n).value
  {
    match ReadDir(n)
    case Ok(items) => Ok(items)
    case Err(e) => Err(Error("Failed to read dir '" + n.path + "': " + e.message))
  }

  /**
   * The pulls a `FilteredDir` over the stream `dir` produces: read errors
   * and filter errors pass through as errors, rejected entries are skipped,
   * and a filter that panics or spins ends the stream there.
   */
  function Filtered(filter: FileFilter, dir: seq<DirItem>): (pulls: seq<Pull>)
    ensures |pulls| <= |dir|
    ensures forall i :: 0 <= i < |pulls| - 1 ==> pulls[i].Returns?
  {
    if dir == [] then []
    else match dir[0]
      case ReadError(e) => [Returns(Err(e))] + Filtered(filter, dir[1..])
      case Present(node) =>
        match filter(node.path)
        case Returns(Ok(true)) => [Returns(Ok(node))] + Filtered(filter, dir[1..])
        case Returns(Ok(false)) => Filtered(filter, dir[1..])
        case Returns(Err(e)) => [Returns(Err(e))] + Filtered(filter, dir[1..])
        case Panics => [Panics]
        case Diverges => [Diverges]
  }

  /** What `Iterator::next` returns on a stream whose remaining pulls are `pulls`. */
  function NextPull(pulls: seq<Pull>): (r: Outcome<Option<Result<Node>>>)
    ensures r == Returns(None) <==> pulls == []
  {
    if pulls == [] then Returns(None)
    else match pulls[0]
      case Returns(x) => Returns(Some(x))
      case Panics => Panics
      case Diverges => Diverges
  }

  /** The pulls left after one `next`. */
  function Rest(pulls: seq<Pull>): seq<Pull>
  {
    if pulls == [] then [] else pulls[1..]
  }

  /**
   * `has_next_sibling` on a stream whose remaining pulls are `pulls`: no
   * item means false, an entry means true; an error is peeked again and
   * again without being consumed, so the loop never ends.
   */
  function Lookahead(pulls: seq<Pull>): Outcome<bool>
  {
    if pulls == [] then Returns(false)
    else match pulls[0]
      case Returns(Ok(_)) => Returns(true)
      case Returns(Err(_)) => Diverges
      case Panics => Panics
      case Diverges => Diverges
  }

  /**
   * `next_entry`: take one pull; for an entry, look ahead for a sibling
   * first and read its metadata afterwards, so a metadata error is reported
   * after the entry has been consumed.
   */
  function EntryPull(pulls: seq<Pull>): Outcome<Option<Result<Entry>>>
  {
    if pulls == [] then Returns(None)
    else match pulls[0]
      case Panics => Panics
      case Diverges => Diverges
      case Returns(Err(e)) => Returns(Some(Err(e)))
      case Returns(Ok(node)) =>
        match Lookahead(pulls[1..])
        case Panics => Panics
        case Diverges => Diverges
        case Returns(hasNext) =>
          match node.meta
          case MetaError(e) => Returns(Some(Err(e)))
          case _ => Returns(Some(Ok(Entry(node.path, hasNext, node.meta))))
  }

  /** A `Peekable<FilteredDir>`: the rest of a `read_dir` stream and a peek buffer. */
  class DirStream {
    var dir: seq<DirItem>
    const filter: FileFilter
    var peeked: Option<Option<Result<Node>>>

    /** A buffered end of stream means the stream is exhausted. */
    ghost predicate Valid()
      reads this
    {
      peeked == Some(None) ==> dir == []
    }

    /** The pulls still to come: the buffered one, if any, then the filtered stream. */
    ghost function Items(): seq<Pull>
      reads this
    {
      match peeked
      case None => Filtered(filter, dir)
      case Some(None) => []
      case Some(Some(item)) => [Returns(item)] + Filtered(filter, dir)
    }

    /** `FilteredDir { .. }.peekable()` over a directory's listing. */
    constructor Open(filter: FileFilter, items: seq<DirItem>)
      ensures Valid() && this.filter == filter
      ensures Items() == Filtered(filter, items)
    {
      this.dir := items;
      this.filter := filter;
      this.peeked := None;
    }

    /** `FilteredDir::next`: skips the entries the filter rejects. */
    method FilteredNext() returns (r: Outcome<Option<Result<Node>>>)
      modifies this
      ensures r == NextPull(old(Filtered(filter, dir)))
      ensures r.Returns? ==> Filtered(filter, dir) == Rest(old(Filtered(filter, dir)))
      ensures r == Returns(None) ==> dir == []
      ensures peeked == old(peeked)
    {
      while dir != []
        invariant Filtered(filter, dir) == old(Filtered(filter, dir))
        invariant peeked == old(peeked)
        decreases |dir|
      {
        var item := dir[0];
        dir := dir[1..];
        match item {
          case ReadError(e) =>
            return Returns(Some(Err(e)));
          case Present(node) =>
            var answer := filter(node.path);
            match answer {
              case Returns(Ok(true)) => return Returns(Some(Ok(node)));
              case Returns(Ok(false)) =>
              case Returns(Err(e)) => return Returns(Some(Err(e)));
              case Panics => return Panics;
              case Diverges => return Diverges;
            }
        }
      }
      return Returns(None);
    }

    /** `Peekable::peek`: fills the buffer if it is empty; consumes nothing. */
    method Peek() returns (r: Outcome<Option<Result<Node>>>)
      requires Valid()
      modifies this
      ensures Valid()
      ensures r == NextPull(old(Items()))
      ensures r.Returns? ==> Items() == old(Items())
    {
      if peeked.None? {
        r := FilteredNext();
        if r.Returns? {
          peeked := Some(r.value);
        }
      } else {
        r := Returns(peeked.value);
      }
    }

    /** `Peekable::next`: takes the buffered pull, or pulls from the stream. */
    method Next() returns (r: Outcome<Option<Result<Node>>>)
      requires Valid()
      modifies this
      ensures Valid()
      ensures r == NextPull(old(Items()))
      ensures r.Returns? ==> Items() == Rest(old(Items()))
    {
      if peeked.Some? {
        r := Returns(peeked.value);
        peeked := None;
      } else {
        r := FilteredNext();
      }
    }
  }

  /**
   * `has_next_sibling`. When the peeked item is an error the source peeks
   * the same buffered error forever; that case ends here as `Diverges`.
   */
  method HasNextSibling(d: DirStream) returns (r: Outcome<bool>)
    requires d.Valid()
    modifies d
    ensures d.Valid()
    ensures r == Lookahead(old(d.Items()))
    ensures r.Returns? ==> d.Items() == old(d.Items())
  {
    var p := d.Peek();
    match p {
      case Returns(None) => r := Returns(false);
      case Returns(Some(Ok(_))) => r := Returns(true);
      case Returns(Some(Err(_))) => r := Diverges;
      case Panics => r := Panics;
      case Diverges => r := Diverges;
    }
  }

  /** `next_entry`. */
  method NextEntry(d: DirStream) returns (r: Outcome<Option<Result<Entry>>>)
    requires d.Valid()
    modifies d
    ensures d.Valid()
    ensures r == EntryPull(old(d.Items()))
    ensures r.Returns? ==> d.Items() == Rest(old(d.Items()))
  {
    var next := d.Next();
    match next {
      case Returns(None) => return Returns(None);
      case Returns(Some(Err(e))) => return Returns(Some(Err(e)));
      case Panics => return Panics;
      case Diverges => return Diverges;
      case Returns(Some(Ok(node))) =>
        var sibling := HasNextSibling(d);
        match sibling {
          case Panics => return Panics;
          case Diverges => return Diverges;
          case Returns(hasNext) =>
            match node.meta {
              case MetaError(e) => return Returns(Some(Err(e)));
              case _ => return Returns(Some(Ok(Entry(node.path, hasNext, node.meta))));
            }
        }
    }
  }

  /**
   * One call of `TreeIter::next` on a stack whose frames (bottom first) have
   * the remaining pulls `frames`: the item it yields and the frames after.
   * An exhausted top frame is popped and closes its directory; an entry
   * that is a directory pushes a frame over its listing, unless the
   * directory cannot be read, which is yielded as an error.
   */
  function Step(filter: FileFilter, frames: seq<seq<Pull>>): (Outcome<Option<Result<Event>>>, seq<seq<Pull>>)
  {
    if frames == [] then (Returns(None), frames)
    else StepTop(filter, frames[..|frames| - 1], frames[|frames| - 1])
  }

  /** `Step` on the frames `below + [top]`. */
  function StepTop(filter: FileFilter, below: seq<seq<Pull>>, top: seq<Pull>): (Outcome<Option<Result<Event>>>, seq<seq<Pull>>)
  {
    match EntryPull(top)
    case Panics => (Panics, below + [top])
    case Diverges => (Diverges, below + [top])
    case Returns(None) => (Returns(Some(Ok(CloseDir))), below)
    case Returns(Some(Err(e))) => (Returns(Some(Err(e))), below + [Rest(top)])
    case Returns(Some(Ok(entry))) =>
      if !entry.meta.DirMeta? then (Returns(Some(Ok(File(entry)))), below + [Rest(top)])
      else match OpenFiltered(Node(entry.path, entry.meta))
        case Err(e) => (Returns(Some(Err(e))), below + [Rest(top)])
        case Ok(items) => (Returns(Some(Ok(OpenDir(entry)))), below + [Rest(top)] + [Filtered(filter, items)])
  }

  /** The frames of a stack of streams, bottom first. */
  ghost function FramesOf(stack: seq<DirStream>): (frames: seq<seq<Pull>>)
    reads stack
  {
    seq(|stack|, i reads stack requires 0 <= i < |stack| => stack[i].Items())
  }

  lemma FramesOfLast(stack: seq<DirStream>)
    requires stack != []
    ensures FramesOf(stack) == FramesOf(stack[..|stack| - 1]) + [stack[|stack| - 1].Items()]
  {
  }

  class TreeIter {
    var dirStack: seq<DirStream>
    const filter: FileFilter
    /** The path the iterator was created with (`root()` of `src/representation/tree.rs`). */
    const root: Path
    ghost var Repr: set<object>

    ghost predicate Valid()
      reads this, Repr
    {
      && this in Repr
      && (forall i :: 0 <= i < |dirStack| ==> dirStack[i] in Repr)
      && (forall i :: 0 <= i < |dirStack| ==> dirStack[i].filter == filter && dirStack[i].Valid())
      && (forall i, j :: 0 <= i < j < |dirStack| ==> dirStack[i] != dirStack[j])
    }

    ghost function Frames(): seq<seq<Pull>>
      reads this, Repr
      requires Valid()
    {
      FramesOf(dirStack)
    }

    /** An iterator rooted at `root` whose only frame streams `items` through `filter`. */
    constructor Over(root: Path, filter: FileFilter, items: seq<DirItem>)
      ensures Valid() && fresh(Repr) && this.filter == filter && this.root == root
      ensures Frames() == [Filtered(filter, items)]
    {
      var d := new DirStream.Open(filter, items);
      this.dirStack := [d];
      this.filter := filter;
      this.root := root;
      this.Repr := {this, d};
    }

    /** `TreeIter::new`: fails, without formatting, when the root cannot be read. */
    static method New(root: Node, filter: FileFilter) returns (r: Result<TreeIter>)
      ensures r.Err? <==> ReadDir(root).Err?
      ensures r.Err? ==> r.error == ReadDir(root).error
      ensures r.Ok? ==> && fresh(r.value.Repr) && r.value.Valid() && r.value.filter == filter
                        && r.value.root == root.path
                        && r.value.Frames() == [Filtered(filter, ReadDir(root).value)]
    {
      var listing := ReadDir(root);
      if listing.Err? {
        return Err(listing.error);
      }
      var it := new TreeIter.Over(root.path, filter, listing.value);
      return Ok(it);
    }

    /** `TreeIter::next`. */
    method Next() returns (r: Outcome<Option<Result<Event>>>)
      requires Valid()
      modifies Repr
      ensures Valid() && fresh(Repr - old(Repr))
      ensures r == Step(filter, old(Frames())).0
      ensures r.Returns? ==> Frames() == Step(filter, old(Frames())).1
    {
      if dirStack == [] {
        return Returns(None);
      }
      ghost var below, pulls := Frames()[..|dirStack| - 1], Frames()[|dirStack| - 1];
      assert old(Frames()) == below + [pulls];
      ghost var step := StepTop(filter, below, pulls);
      var next := Advance();
      if !next.Returns? {
        return if next.Panics? then Panics else Diverges;
      }
      if next.value.None? {
        Pop();
        return Returns(Some(Ok(CloseDir)));
      }
      var result := next.value.value;
      if result.Err? {
        return Returns(Some(Err(result.error)));
      }
      var entry := result.value;
      if !entry.meta.DirMeta? {
        return Returns(Some(Ok(File(entry))));
      }
      var listing := OpenFiltered(Node(entry.path, entry.meta));
      if listing.Err? {
        return Returns(Some(Err(listing.error)));
      }
      assert step == (Returns(Some(Ok(OpenDir(entry)))), below + [Rest(pulls)] + [Filtered(filter, listing.value)]);
      var d := new DirStream.Open(filter, listing.value);
      Push(d);
      return Returns(Some(Ok(OpenDir(entry))));
    }

    /** `next_entry` on the top stream: every other stream keeps its pulls. */
    method Advance() returns (next: Outcome<Option<Result<Entry>>>)
      requires Valid() && dirStack != []
      modifies dirStack[|dirStack| - 1]
      ensures Valid()
      ensures next == EntryPull(old(Frames())[|dirStack| - 1])
      ensures next.Returns? ==> Frames() == old(Frames())[..|dirStack| - 1] + [Rest(old(Frames())[|dirStack| - 1])]
    {
      var top, lower := dirStack[|dirStack| - 1], dirStack[..|dirStack| - 1];
      ghost var below := FramesOf(lower);
      FramesOfLast(dirStack);
      next := NextEntry(top);
      assert FramesOf(lower) == below;
      FramesOfLast(dirStack);
    }

    /** Drops the exhausted top stream. */
    method Pop()
      requires Valid() && dirStack != []
      modifies this
      ensures Valid() && Repr == old(Repr)
      ensures Frames() == old(Frames())[..|old(Frames())| - 1]
    {
      FramesOfLast(dirStack);
      dirStack := dirStack[..|dirStack| - 1];
    }

    /** Pushes the stream of a directory just opened onto the stack. */
    method Push(d: DirStream)
      requires Valid() && d.Valid() && d.filter == filter && d !in Repr
      modifies this
      ensures Valid() && Repr == old(Repr) + {d}
      ensures Frames() == old(Frames()) + [d.Items()]
    {
      dirStack := dirStack + [d];
      Repr := Repr + {d};
    }
  }

  // ---------------------------------------------------------------------
  // Termination: every item the iterator yields makes the frames lighter.

  /** Weight of a pull: an admitted entry weighs as much as its subtree. */
  function PullSize(p: Pull): nat
  {
    match p
    case Returns(Ok(n)) => Size(n)
    case _ => 1
  }

  function PullsSize(pulls: seq<Pull>): nat
  {
    if pulls == [] then 0 else PullSize(pulls[0]) + PullsSize(pulls[1..])
  }

  /** Weight of a stack: one per frame, for the `CloseDir` it still owes, plus its pulls. */
  function FramesSize(frames: seq<seq<Pull>>): nat
  {
    if frames == [] then 0
    else FramesSize(frames[..|frames| - 1]) + 1 + PullsSize(frames[|frames| - 1])
  }

  lemma FramesSizePush(frames: seq<seq<Pull>>, f: seq<Pull>)
    ensures FramesSize(frames + [f]) == FramesSize(frames) + 1 + PullsSize(f)
  {
    assert (frames + [f])[..|frames|] == frames;
  }

  /** Filtering never makes a listing heavier. */
  lemma {:induction false} FilteredSize(filter: FileFilter, dir: seq<DirItem>)
    ensures PullsSize(Filtered(filter, dir)) <= ItemsSize(dir)
  {
    if dir != [] {
      FilteredSize(filter, dir[1..]);
      assert PullsSize([Returns(Err(Error("")))] + Filtered(filter, dir[1..])) == 1 + PullsSize(Filtered(filter, dir[1..]));
      match dir[0]
      case ReadError(e) =>
        assert PullsSize([Returns(Err(e))] + Filtered(filter, dir[1..])) == 1 + PullsSize(Filtered(filter, dir[1..]));
      case Present(node) =>
        assert PullsSize([Returns(Ok(node))] + Filtered(filter, dir[1..])) == Size(node) + PullsSize(Filtered(filter, dir[1..]));
        match filter(node.path)
        case Returns(Err(e)) =>
          assert PullsSize([Returns(Err(e))] + Filtered(filter, dir[1..])) == 1 + PullsSize(Filtered(filter, dir[1..]));
        case _ =>
    }
  }

  /** Each step that yields an item strictly lightens the stack. */
  lemma StepDecreases(filter: FileFilter, frames: seq<seq<Pull>>)
    requires Step(filter, frames).0.Returns? && Step(filter, frames).0.value.Some?
    ensures FramesSize(Step(filter, frames).1) < FramesSize(frames)
  {
    var below := frames[..|frames| - 1];
    var top := frames[|frames| - 1];
    assert frames == below + [top];
    FramesSizePush(below, top);
    if top != [] {
      assert PullsSize(top) == PullSize(top[0]) + PullsSize(Rest(top));
      FramesSizePush(below, Rest(top));
      match top[0]
      case Returns(Ok(node)) =>
        if node.meta.DirMeta? && node.meta.listing.Readable? {
          var items := node.meta.listing.items;
          DirSize(node);
          FilteredSize(filter, items);
          FramesSizePush(below + [Rest(top)], Filtered(filter, items));
        }
      case _ =>
    }
  }

  // ---------------------------------------------------------------------
  // Driving the iterator to its end.

  datatype Ending = Finished | Panicked | Diverged

  /** Everything a `for` loop over the iterator sees, and how the loop ends. */
  datatype Trace = Trace(items: seq<Result<Event>>, ending: Ending)

  /** `Next` called until it returns `None`, panics, or spins. */
  function Run(filter: FileFilter, frames: seq<seq<Pull>>): Trace
    decreases FramesSize(frames)
  {
    var step := Step(filter, frames);
    match step.0
    case Returns(None) => Trace([], Finished)
    case Returns(Some(item)) =>
      StepDecreases(filter, frames);
      var rest := Run(filter, step.1);
      Trace([item] + rest.items, rest.ending)
    case Panics => Trace([], Panicked)
    case Diverges => Trace([], Diverged)
  }

  // ---------------------------------------------------------------------
  // Reference: the depth-first walk of a tree the iterator meets no error in.

  /** The entries of a listing that the filter admits, in read order. */
  function Kept(filter: FileFilter, items: seq<DirItem>): seq<Node>
  {
    if items == [] then []
    else
      var rest := Kept(filter, items[1..]);
      if items[0].Present? && filter(items[0].node.path) == Returns(Ok(true))
      then [items[0].node] + rest
      else rest
  }

  /** `Kept` keeps exactly the entries of the listing that the filter admits. */
  lemma {:induction false} KeptExactly(filter: FileFilter, items: seq<DirItem>)
    ensures forall i :: 0 <= i < |Kept(filter, items)| ==>
              filter(Kept(filter, items)[i].path) == Returns(Ok(true)) && Present(Kept(filter, items)[i]) in items
    ensures forall d :: d in items && d.Present? && filter(d.node.path) == Returns(Ok(true)) ==> d.node in Kept(filter, items)
  {
    if items != [] {
      KeptExactly(filter, items[1..]);
      assert forall d :: d in items ==> d == items[0] || d in items[1..];
    }
  }

  function KeptPulls(nodes: seq<Node>): seq<Pull>
  {
    if nodes == [] then [] else [Returns(Ok(nodes[0]))] + KeptPulls(nodes[1..])
  }

  function NodesSize(nodes: seq<Node>): nat
  {
    if nodes == [] then 0 else Size(nodes[0]) + NodesSize(nodes[1..])
  }

  lemma {:induction false} KeptSize(filter: FileFilter, items: seq<DirItem>)
    ensures NodesSize(Kept(filter, items)) <= ItemsSize(items)
  {
    if items != [] {
      KeptSize(filter, items[1..]);
      if items[0].Present? {
        var rest := Kept(filter, items[1..]);
        assert ([items[0].node] + rest)[1..] == rest;
      }
    }
  }

  /**
   * A listing the iterator walks without meeting an error: no read errors,
   * the filter answers every entry, and each admitted entry is a file or a
   * readable directory whose own listing is clean.
   */
  predicate CleanListing(filter: FileFilter, items: seq<DirItem>)
    decreases ItemsSize(items), 1
  {
    if items == [] then true
    else
      && items[0].Present?
      && filter(items[0].node.path).Returns?
      && filter(items[0].node.path).value.Ok?
      && (filter(items[0].node.path) == Returns(Ok(true)) ==> CleanNode(filter, items[0].node))
      && CleanListing(filter, items[1..])
  }

  predicate CleanNode(filter: FileFilter, n: Node)
    decreases Size(n), 0
  {
    match n.meta
    case FileMeta => true
    case DirMeta(Readable(items)) => DirSize(n); CleanListing(filter, items)
    case _ => false
  }

  /** On a clean listing the filtered stream yields exactly the admitted entries. */
  lemma {:induction false} FilteredClean(filter: FileFilter, items: seq<DirItem>)
    requires CleanListing(filter, items)
    ensures Filtered(filter, items) == KeptPulls(Kept(filter, items))
    ensures forall i :: 0 <= i < |Kept(filter, items)| ==> CleanNode(filter, Kept(filter, items)[i])
    decreases |items|
  {
    if items != [] {
      FilteredClean(filter, items[1..]);
      var rest := Kept(filter, items[1..]);
      if filter(items[0].node.path) == Returns(Ok(true)) {
        assert ([items[0].node] + rest)[1..] == rest;
      }
    }
  }

  // ---------------------------------------------------------------------
  // What a `FilteredDir` yields over any listing, errors included.

  /** The filter's answer on an item ends the stream: it panics or spins. */
  predicate Halts(filter: FileFilter, d: DirItem)
  {
    d.Present? && !filter(d.node.path).Returns?
  }

  /** The items a `FilteredDir` reads before its filter panics or spins: the longest prefix free of a halting item. */
  function Reached(filter: FileFilter, dir: seq<DirItem>): (seen: seq<DirItem>)
    ensures seen <= dir
    ensures forall i :: 0 <= i < |seen| ==> !Halts(filter, seen[i])
    ensures |seen| < |dir| ==> Halts(filter, dir[|seen|])
  {
    if dir == [] || Halts(filter, dir[0]) then []
    else
      var rest := Reached(filter, dir[1..]);
      assert forall i :: 0 < i <= |rest| ==> ([dir[0]] + rest)[i] == rest[i - 1];
      assert |rest| < |dir[1..]| ==> dir[1 + |rest|] == dir[1..][|rest|];
      [dir[0]] + rest
  }

  /** The errors of a listing, in read order: its read errors and the errors the filter answers with. */
  function Failures(filter: FileFilter, items: seq<DirItem>): seq<Error>
  {
    if items == [] then []
    else
      var rest := Failures(filter, items[1..]);
      match items[0]
      case ReadError(e) => [e] + rest
      case Present(n) =>
        if filter(n.path).Returns? && filter(n.path).value.Err? then [filter(n.path).value.error] + rest
        else rest
  }

  /** The entries among some pulls, in order. */
  function Entries(pulls: seq<Pull>): seq<Node>
  {
    if pulls == [] then []
    else if pulls[0].Returns? && pulls[0].value.Ok? then [pulls[0].value.value] + Entries(pulls[1..])
    else Entries(pulls[1..])
  }

  /** The errors among some pulls, in order. */
  function Errors(pulls: seq<Pull>): seq<Error>
  {
    if pulls == [] then []
    else if pulls[0].Returns? && pulls[0].value.Err? then [pulls[0].value.error] + Errors(pulls[1..])
    else Errors(pulls[1..])
  }

  lemma PullsCons(p: Pull, pulls: seq<Pull>)
    ensures Entries([p] + pulls) == (if p.Returns? && p.value.Ok? then [p.value.value] else []) + Entries(pulls)
    ensures Errors([p] + pulls) == (if p.Returns? && p.value.Err? then [p.value.error] else []) + Errors(pulls)
  {
    assert ([p] + pulls)[1..] == pulls;
  }

  lemma ListingCons(filter: FileFilter, d: DirItem, items: seq<DirItem>)
    ensures Kept(filter, [d] + items)
         == (if d.Present? && filter(d.node.path) == Returns(Ok(true)) then [d.node] else []) + Kept(filter, items)
    ensures Failures(filter, [d] + items)
         == (if d.ReadError? then [d.error]
             else if filter(d.node.path).Returns? && filter(d.node.path).value.Err? then [filter(d.node.path).value.error]
             else []) + Failures(filter, items)
  {
    assert ([d] + items)[1..] == items;
  }

  /**
   * Over any listing, errors included, the stream yields the admitted
   * entries and, once each, the read and filter errors of the items it
   * reads before the filter panics or spins, both in read order, and one
   * more pull when the filter does panic or spin.
   */
  lemma {:induction false} FilteredYields(filter: FileFilter, dir: seq<DirItem>)
    ensures var pulls, seen := Filtered(filter, dir), Reached(filter, dir);
            && Entries(pulls) == Kept(filter, seen)
            && Errors(pulls) == Failures(filter, seen)
            && |pulls| == |Kept(filter, seen)| + |Failures(filter, seen)| + (if seen == dir then 0 else 1)
  {
    if dir != [] {
      var d, tail := dir[0], dir[1..];
      assert dir == [d] + tail;
      var pulls := Filtered(filter, dir);
      if Halts(filter, d) {
        assert Reached(filter, dir) == [];
        assert Kept(filter, []) == [] && Failures(filter, []) == [];
        assert Entries(pulls[1..]) == [] && Errors(pulls[1..]) == [];
      } else {
        FilteredYields(filter, tail);
        var rest, seen := Filtered(filter, tail), Reached(filter, tail);
        assert Reached(filter, dir) == [d] + seen;
        ListingCons(filter, d, seen);
        if d.ReadError? || filter(d.node.path).value.Err? {
          var q: Pull := Returns(Err(if d.ReadError? then d.error else filter(d.node.path).value.error));
          assert pulls == [q] + rest;
          PullsCons(q, rest);
        } else if filter(d.node.path).value.value {
          assert pulls == [Returns(Ok(d.node))] + rest;
          PullsCons(Returns(Ok(d.node)), rest);
        } else {
          assert pulls == rest;
        }
        assert ([d] + seen == dir) == (seen == tail);
      }
    }
  }

  /** Every pull of the stream returns when the filter never panics or spins on the listing. */
  lemma {:induction false} FilteredReturns(filter: FileFilter, dir: seq<DirItem>)
    requires Reached(filter, dir) == dir
    ensures forall i :: 0 <= i < |Filtered(filter, dir)| ==> Filtered(filter, dir)[i].Returns?
  {
    if dir != [] {
      var d, tail := dir[0], dir[1..];
      assert Reached(filter, dir) == [d] + Reached(filter, tail);
      FilteredReturns(filter, tail);
      var pulls, rest := Filtered(filter, dir), Filtered(filter, tail);
      if pulls != rest {
        assert pulls == [pulls[0]] + rest;
        assert forall i :: 0 < i < |pulls| ==> pulls[i] == rest[i - 1];
      }
    }
  }

  /** When the filter panics or spins on an item, that panic or spin is the stream's last pull. */
  lemma {:induction false} FilteredLast(filter: FileFilter, dir: seq<DirItem>)
    requires Reached(filter, dir) != dir
    ensures var pulls, seen := Filtered(filter, dir), Reached(filter, dir);
            pulls != [] && pulls[|pulls| - 1] == if filter(dir[|seen|].node.path).Panics? then Panics else Diverges
  {
    var d, tail := dir[0], dir[1..];
    var pulls := Filtered(filter, dir);
    if Halts(filter, d) {
      assert Reached(filter, dir) == [] && |pulls| == 1;
    } else {
      var rest, seen := Filtered(filter, tail), Reached(filter, tail);
      assert Reached(filter, dir) == [d] + seen;
      assert dir == [d] + tail;
      FilteredLast(filter, tail);
      assert pulls == rest || pulls == [pulls[0]] + rest;
      assert pulls[|pulls| - 1] == rest[|rest| - 1];
      assert dir[|[d] + seen|] == tail[|seen|];
    }
  }

  /** Over any listing, every entry the stream yields is one the listing holds and the filter admits. */
  lemma {:induction false} FilteredAdmitsOnly(filter: FileFilter, dir: seq<DirItem>)
    ensures forall i :: 0 <= i < |Filtered(filter, dir)| && Filtered(filter, dir)[i].Returns? && Filtered(filter, dir)[i].value.Ok? ==>
              && Present(Filtered(filter, dir)[i].value.value) in dir
              && filter(Filtered(filter, dir)[i].value.value.path) == Returns(Ok(true))
  {
    if dir != [] {
      var d, tail := dir[0], dir[1..];
      FilteredAdmitsOnly(filter, tail);
      var rest, pulls := Filtered(filter, tail), Filtered(filter, dir);
      forall i | 0 <= i < |pulls| && pulls[i].Returns? && pulls[i].value.Ok?
        ensures Present(pulls[i].value.value) in dir && filter(pulls[i].value.value.path) == Returns(Ok(true))
      {
        if pulls == rest {
          assert Present(rest[i].value.value) in tail;
        } else if i == 0 {
          assert pulls[0] == Returns(Ok(d.node)) && Present(d.node) == dir[0];
        } else {
          assert pulls == [pulls[0]] + rest;
          assert pulls[i] == rest[i - 1] && Present(rest[i - 1].value.value) in tail;
        }
      }
    }
  }

  /** The events of the admitted entries `nodes` of one directory, in order. */
  function NodesEvents(filter: FileFilter, nodes: seq<Node>): seq<Event>
    decreases NodesSize(nodes), 1
  {
    if nodes == [] then []
    else NodeEvents(filter, nodes[0], |nodes| > 1) + NodesEvents(filter, nodes[1..])
  }

  /**
   * A file is one event; a directory opens, lists its admitted entries
   * depth first, and closes. Error nodes never occur in a clean walk.
   */
  function NodeEvents(filter: FileFilter, n: Node, hasNext: bool): seq<Event>
    decreases Size(n), 0
  {
    var entry := Entry(n.path, hasNext, n.meta);
    match n.meta
    case FileMeta => [File(entry)]
    case DirMeta(Readable(items)) =>
      DirSize(n);
      KeptSize(filter, items);
      [OpenDir(entry)] + NodesEvents(filter, Kept(filter, items)) + [CloseDir]
    case _ => []
  }

  function Successes(events: seq<Event>): seq<Result<Event>>
  {
    if events == [] then [] else [Ok(events[0])] + Successes(events[1..])
  }

  lemma {:induction false} SuccessesAppend(a: seq<Event>, b: seq<Event>)
    ensures Successes(a + b) == Successes(a) + Successes(b)
  {
    if a == [] {
      assert a + b == b;
    } else {
      assert (a + b)[1..] == a[1..] + b;
      SuccessesAppend(a[1..], b);
    }
  }

  /** The step on a frame whose first admitted entry is the file `n`. */
  lemma StepKeptFile(filter: FileFilter, below: seq<seq<Pull>>, n: Node, ns: seq<Node>)
    requires n.meta.FileMeta?
    ensures Step(filter, below + [KeptPulls([n] + ns)])
         == (Returns(Some(Ok(File(Entry(n.path, ns != [], n.meta))))), below + [KeptPulls(ns)])
  {
    var frames := below + [KeptPulls([n] + ns)];
    assert frames[..|frames| - 1] == below;
    assert KeptPulls([n] + ns)[1..] == KeptPulls(ns);
    assert Lookahead(KeptPulls(ns)) == Returns(ns != []);
  }

  /** The step on a frame whose first admitted entry is the clean directory `n`. */
  lemma StepKeptDir(filter: FileFilter, below: seq<seq<Pull>>, n: Node, ns: seq<Node>)
    requires n.meta.DirMeta? && n.meta.listing.Readable?
    requires CleanListing(filter, n.meta.listing.items)
    ensures Step(filter, below + [KeptPulls([n] + ns)])
         == (Returns(Some(Ok(OpenDir(Entry(n.path, ns != [], n.meta))))),
             below + [KeptPulls(ns)] + [KeptPulls(Kept(filter, n.meta.listing.items))])
  {
    var frames := below + [KeptPulls([n] + ns)];
    assert frames[..|frames| - 1] == below;
    assert KeptPulls([n] + ns)[1..] == KeptPulls(ns);
    assert Lookahead(KeptPulls(ns)) == Returns(ns != []);
    FilteredClean(filter, n.meta.listing.items);
  }

  /** Unfolds `Run` once at a step that yields `item`. */
  lemma RunStep(filter: FileFilter, frames: seq<seq<Pull>>, item: Result<Event>, next: seq<seq<Pull>>)
    requires Step(filter, frames) == (Returns(Some(item)), next)
    ensures Run(filter, frames) == Trace([item] + Run(filter, next).items, Run(filter, next).ending)
  {
  }

  /**
   * Under any frames `below`, a frame holding the clean entries `nodes`
   * yields their depth-first events, then closes, then `below` goes on.
   */
  lemma {:induction false} RunListing(filter: FileFilter, below: seq<seq<Pull>>, nodes: seq<Node>)
    requires forall i :: 0 <= i < |nodes| ==> CleanNode(filter, nodes[i])
    ensures Run(filter, below + [KeptPulls(nodes)]) == ThenClose(NodesEvents(filter, nodes), Run(filter, below))
    decreases NodesSize(nodes), 1
  {
    if nodes == [] {
      var frames := below + [KeptPulls(nodes)];
      assert frames[..|frames| - 1] == below;
      RunStep(filter, frames, Ok(CloseDir), below);
    } else {
      assert nodes == [nodes[0]] + nodes[1..];
      if nodes[0].meta.FileMeta? {
        RunFileFirst(filter, below, nodes[0], nodes[1..]);
      } else {
        RunDirFirst(filter, below, nodes[0], nodes[1..]);
      }
    }
  }

  /** The trace `t` preceded by the successful `events` and one `CloseDir`. */
  function ThenClose(events: seq<Event>, t: Trace): Trace
  {
    Trace(Successes(events) + [Ok(CloseDir)] + t.items, t.ending)
  }

  lemma {:induction false} RunFileFirst(filter: FileFilter, below: seq<seq<Pull>>, n: Node, ns: seq<Node>)
    requires n.meta.FileMeta?
    requires forall i :: 0 <= i < |ns| ==> CleanNode(filter, ns[i])
    ensures Run(filter, below + [KeptPulls([n] + ns)]) == ThenClose(NodesEvents(filter, [n] + ns), Run(filter, below))
    decreases NodesSize([n] + ns), 0
  {
    var entry := Entry(n.path, ns != [], n.meta);
    assert ([n] + ns)[1..] == ns;
    StepKeptFile(filter, below, n, ns);
    RunStep(filter, below + [KeptPulls([n] + ns)], Ok(File(entry)), below + [KeptPulls(ns)]);
    RunListing(filter, below, ns);
    assert NodesEvents(filter, [n] + ns) == [File(entry)] + NodesEvents(filter, ns);
    ThenCloseEvent(File(entry), NodesEvents(filter, ns), Run(filter, below),
                   Run(filter, below + [KeptPulls(ns)]), Run(filter, below + [KeptPulls([n] + ns)]));
  }

  /** Assembles the trace of one event followed by the trace of the events after it. */
  lemma ThenCloseEvent(e: Event, events: seq<Event>, rest: Trace, sub: Trace, whole: Trace)
    requires sub == ThenClose(events, rest)
    requires whole == Trace([Ok(e)] + sub.items, sub.ending)
    ensures whole == ThenClose([e] + events, rest)
  {
    SuccessesAppend([e], events);
    assert Successes([e]) == [Ok(e)] by {
      assert [e][1..] == [];
    }
    var x, close := Successes(events), [Ok(CloseDir)];
    assert sub.items == x + close + rest.items;
    assert [Ok(e)] + (x + close + rest.items) == ([Ok(e)] + x) + close + rest.items;
  }

  lemma {:induction false} RunDirFirst(filter: FileFilter, below: seq<seq<Pull>>, n: Node, ns: seq<Node>)
    requires CleanNode(filter, n) && !n.meta.FileMeta?
    requires forall i :: 0 <= i < |ns| ==> CleanNode(filter, ns[i])
    ensures Run(filter, below + [KeptPulls([n] + ns)]) == ThenClose(NodesEvents(filter, [n] + ns), Run(filter, below))
    decreases NodesSize([n] + ns), 0
  {
    var entry := Entry(n.path, ns != [], n.meta);
    var items := n.meta.listing.items;
    var inner := Kept(filter, items);
    var after := below + [KeptPulls(ns)];
    assert ([n] + ns)[1..] == ns;
    assert NodesSize([n] + ns) == Size(n) + NodesSize(ns);
    DirSize(n);
    KeptSize(filter, items);
    FilteredClean(filter, items);
    StepKeptDir(filter, below, n, ns);
    RunStep(filter, below + [KeptPulls([n] + ns)], Ok(OpenDir(entry)), after + [KeptPulls(inner)]);
    RunListing(filter, after, inner);
    RunListing(filter, below, ns);
    assert NodesEvents(filter, [n] + ns)
        == [OpenDir(entry)] + NodesEvents(filter, inner) + [CloseDir] + NodesEvents(filter, ns);
    ThenCloseDir(entry, NodesEvents(filter, inner), NodesEvents(filter, ns), Run(filter, below),
                 Run(filter, after + [KeptPulls(inner)]), Run(filter, below + [KeptPulls([n] + ns)]));
  }

  /** Assembles the trace of a directory entry from the traces of its listing and of its siblings. */
  lemma ThenCloseDir(entry: Entry, inner: seq<Event>, siblings: seq<Event>, rest: Trace, sub: Trace, whole: Trace)
    requires sub == ThenClose(inner, ThenClose(siblings, rest))
    requires whole == Trace([Ok(OpenDir(entry))] + sub.items, sub.ending)
    ensures whole == ThenClose([OpenDir(entry)] + inner + [CloseDir] + siblings, rest)
  {
    var events := [OpenDir(entry)] + inner + [CloseDir];
    SuccessesAppend(events, siblings);
    SuccessesBracket(entry, inner);
    var close := [Ok(CloseDir)];
    var x, y := Successes(inner), Successes(siblings);
    assert sub.items == x + close + (y + close + rest.items);
    assert Successes(events + siblings) == [Ok(OpenDir(entry))] + x + close + y;
  }

  lemma SuccessesBracket(entry: Entry, inner: seq<Event>)
    ensures Successes([OpenDir(entry)] + inner + [CloseDir])
         == [Ok(OpenDir(entry))] + Successes(inner) + [Ok(CloseDir)]
  {
    SuccessesAppend([OpenDir(entry)] + inner, [CloseDir]);
    SuccessesAppend([OpenDir(entry)], inner);
  }

  /**
   * The iterator over a clean root yields the depth-first events of the
   * admitted entries and then one last `CloseDir`, for the root itself.
   */
  lemma IterationIsDepthFirst(filter: FileFilter, items: seq<DirItem>)
    requires CleanListing(filter, items)
    ensures Run(filter, [Filtered(filter, items)])
         == Trace(Successes(NodesEvents(filter, Kept(filter, items)) + [CloseDir]), Finished)
  {
    FilteredClean(filter, items);
    RunListing(filter, [], Kept(filter, items));
    assert [] + [KeptPulls(Kept(filter, items))] == [KeptPulls(Kept(filter, items))];
    SuccessesAppend(NodesEvents(filter, Kept(filter, items)), [CloseDir]);
  }

  /** `next` returns `None` exactly when the stack is empty, and the stack then stays empty. */
  lemma ExhaustedExactlyWhenEmpty(filter: FileFilter, frames: seq<seq<Pull>>)
    ensures Step(filter, frames).0 == Returns(None) <==> frames == []
    ensures frames == [] ==> Step(filter, frames).1 == []
  {
  }

  /**
   * An admitted entry followed by an error in the same directory: the
   * sibling lookahead peeks the error forever, so the iterator never
   * yields the entry.
   */
  lemma ErrorAfterEntrySpins(filter: FileFilter, below: seq<seq<Pull>>, n: Node, e: Error, rest: seq<Pull>)
    ensures Step(filter, below + [[Returns(Ok(n)), Returns(Err(e))] + rest]).0 == Diverges
    ensures Run(filter, below + [[Returns(Ok(n)), Returns(Err(e))] + rest]) == Trace([], Diverged)
  {
    var top := [Returns(Ok(n)), Returns(Err(e))] + rest;
    var frames := below + [top];
    assert frames[..|frames| - 1] == below;
    assert top[1..][0] == Returns(Err(e));
  }

  // ---------------------------------------------------------------------
  // Shape of the walk: opens and closes nest, and only admitted paths appear.

  function Delta(ev: Event): int
  {
    match ev
    case OpenDir(_) => 1
    case CloseDir => -1
    case File(_) => 0
  }

  /** The number of `OpenDir` events minus the number of `CloseDir` events. */
  function Depth(events: seq<Event>): int
  {
    if events == [] then 0 else Depth(events[..|events| - 1]) + Delta(events[|events| - 1])
  }

  /** Starting `d` directories deep, no prefix of `events` closes more than it opened. */
  predicate NestedFrom(d: int, events: seq<Event>)
  {
    forall k :: 0 <= k <= |events| ==> d + Depth(events[..k]) >= 0
  }

  lemma {:induction false} DepthAppend(a: seq<Event>, b: seq<Event>)
    ensures Depth(a + b) == Depth(a) + Depth(b)
    decreases |b|
  {
    if b == [] {
      assert a + b == a;
    } else {
      var b' := b[..|b| - 1];
      assert (a + b)[..|a + b| - 1] == a + b';
      DepthAppend(a, b');
    }
  }

  lemma NestedAppend(d: int, a: seq<Event>, b: seq<Event>)
    requires NestedFrom(d, a) && NestedFrom(d + Depth(a), b)
    ensures NestedFrom(d, a + b)
  {
    forall k | 0 <= k <= |a + b|
      ensures d + Depth((a + b)[..k]) >= 0
    {
      if k <= |a| {
        assert (a + b)[..k] == a[..k];
      } else {
        assert (a + b)[..k] == a + b[..k - |a|];
        DepthAppend(a, b[..k - |a|]);
        assert a[..|a|] == a;
      }
    }
  }

  lemma NestedDeeper(d: int, e: int, events: seq<Event>)
    requires NestedFrom(d, events) && d <= e
    ensures NestedFrom(e, events)
  {
  }

  lemma {:induction false} NodesEventsNest(filter: FileFilter, nodes: seq<Node>)
    ensures Depth(NodesEvents(filter, nodes)) == 0 && NestedFrom(0, NodesEvents(filter, nodes))
    decreases NodesSize(nodes), 1
  {
    if nodes != [] {
      var first := NodeEvents(filter, nodes[0], |nodes| > 1);
      NodeEventsNest(filter, nodes[0], |nodes| > 1);
      NodesEventsNest(filter, nodes[1..]);
      DepthAppend(first, NodesEvents(filter, nodes[1..]));
      NestedAppend(0, first, NodesEvents(filter, nodes[1..]));
    } else {
      assert NodesEvents(filter, nodes)[..0] == [];
    }
  }

  lemma {:induction false} NodeEventsNest(filter: FileFilter, n: Node, hasNext: bool)
    ensures Depth(NodeEvents(filter, n, hasNext)) == 0 && NestedFrom(0, NodeEvents(filter, n, hasNext))
    decreases Size(n), 0
  {
    var entry := Entry(n.path, hasNext, n.meta);
    match n.meta
    case DirMeta(Readable(items)) =>
      DirSize(n);
      KeptSize(filter, items);
      var inner := NodesEvents(filter, Kept(filter, items));
      NodesEventsNest(filter, Kept(filter, items));
      assert Depth([OpenDir(entry)]) == 1 by { assert [OpenDir(entry)][..0] == []; }
      assert NestedFrom(0, [OpenDir(entry)]) by { assert [OpenDir(entry)][..1] == [OpenDir(entry)]; }
      assert Depth([CloseDir]) == -1 by { assert [CloseDir][..0] == []; }
      assert NestedFrom(1, [CloseDir]) by { assert [CloseDir][..1] == [CloseDir]; }
      NestedDeeper(0, 1, inner);
      NestedAppend(0, [OpenDir(entry)], inner);
      DepthAppend([OpenDir(entry)], inner);
      NestedAppend(0, [OpenDir(entry)] + inner, [CloseDir]);
      DepthAppend([OpenDir(entry)] + inner, [CloseDir]);
    case FileMeta =>
      assert [File(entry)][..1] == [File(entry)];
      assert [File(entry)][..0] == [];
    case _ =>
      assert NodeEvents(filter, n, hasNext)[..0] == [];
  }

  /**
   * Over a clean root, the walk closes one directory more than it opens:
   * the final `CloseDir` is the root's, and no earlier prefix of the walk
   * closes more directories than it has opened.
   */
  lemma RootClosesLast(filter: FileFilter, items: seq<DirItem>)
    ensures var events := NodesEvents(filter, Kept(filter, items)) + [CloseDir];
            && Depth(events) == -1
            && forall k :: 0 <= k < |events| ==> Depth(events[..k]) >= 0
  {
    var walk := NodesEvents(filter, Kept(filter, items));
    var events := walk + [CloseDir];
    NodesEventsNest(filter, Kept(filter, items));
    assert events[..|events| - 1] == walk;
    forall k | 0 <= k < |events|
      ensures Depth(events[..k]) >= 0
    {
      assert events[..k] == walk[..k];
    }
  }

  /** Every `File` and `OpenDir` event of the walk names a path the filter admits. */
  lemma {:induction false} NodesEventsAdmitted(filter: FileFilter, nodes: seq<Node>)
    requires forall i :: 0 <= i < |nodes| ==> filter(nodes[i].path) == Returns(Ok(true))
    ensures forall k :: 0 <= k < |NodesEvents(filter, nodes)| && !NodesEvents(filter, nodes)[k].CloseDir?
              ==> filter(NodesEvents(filter, nodes)[k].entry.path) == Returns(Ok(true))
    decreases NodesSize(nodes), 1
  {
    if nodes != [] {
      NodeEventsAdmitted(filter, nodes[0], |nodes| > 1);
      NodesEventsAdmitted(filter, nodes[1..]);
    }
  }

  lemma {:induction false} NodeEventsAdmitted(filter: FileFilter, n: Node, hasNext: bool)
    requires filter(n.path) == Returns(Ok(true))
    ensures forall k :: 0 <= k < |NodeEvents(filter, n, hasNext)| && !NodeEvents(filter, n, hasNext)[k].CloseDir?
              ==> filter(NodeEvents(filter, n, hasNext)[k].entry.path) == Returns(Ok(true))
    decreases Size(n), 0
  {
    match n.meta
    case DirMeta(Readable(items)) =>
      DirSize(n);
      KeptSize(filter, items);
      KeptExactly(filter, items);
      NodesEventsAdmitted(filter, Kept(filter, items));
    case _ =>
  }

  lemma {:induction false} SuccessesIndex(events: seq<Event>)
    ensures |Successes(events)| == |events|
    ensures forall k :: 0 <= k < |events| ==> Successes(events)[k] == Ok(events[k])
  {
    if events != [] {
      SuccessesIndex(events[1..]);
    }
  }

  /**
   * Over a clean root, everything the iterator yields is an event, and
   * every `File` or `OpenDir` event names a path the filter admits.
   */
  lemma IterationAdmitsOnly(filter: FileFilter, items: seq<DirItem>)
    requires CleanListing(filter, items)
    ensures var t := Run(filter, [Filtered(filter, items)]);
            && t.ending == Finished
            && forall k :: 0 <= k < |t.items| ==>
                 t.items[k].Ok? && (t.items[k].value.CloseDir? || filter(t.items[k].value.entry.path) == Returns(Ok(true)))
  {
    var walk := NodesEvents(filter, Kept(filter, items));
    IterationIsDepthFirst(filter, items);
    KeptExactly(filter, items);
    NodesEventsAdmitted(filter, Kept(filter, items));
    SuccessesIndex(walk + [CloseDir]);
    forall k | 0 <= k < |walk + [CloseDir]| && !(walk + [CloseDir])[k].CloseDir?
      ensures filter((walk + [CloseDir])[k].entry.path) == Returns(Ok(true))
    {
      assert (walk + [CloseDir])[k] == walk[k];
    }
  }

  /** Every entry still to come, in every frame, is one the filter admits. */
  ghost predicate AdmittedFrames(filter: FileFilter, frames: seq<seq<Pull>>)
  {
    forall j, i :: 0 <= j < |frames| && 0 <= i < |frames[j]| && frames[j][i].Returns? && frames[j][i].value.Ok? ==>
      filter(frames[j][i].value.value.path) == Returns(Ok(true))
  }

  /** A step keeps every frame admitted, and any entry it yields is admitted. */
  lemma StepAdmits(filter: FileFilter, frames: seq<seq<Pull>>)
    requires AdmittedFrames(filter, frames)
    ensures AdmittedFrames(filter, Step(filter, frames).1)
    ensures var out := Step(filter, frames).0;
            out.Returns? && out.value.Some? && out.value.value.Ok? && !out.value.value.value.CloseDir? ==>
              filter(out.value.value.value.entry.path) == Returns(Ok(true))
  {
    if frames != [] {
      var below, top := frames[..|frames| - 1], frames[|frames| - 1];
      assert frames == below + [top];
      if top != [] {
        assert forall i :: 0 <= i < |Rest(top)| ==> Rest(top)[i] == top[i + 1];
        assert AdmittedFrames(filter, below + [Rest(top)]) by {
          forall j, i | 0 <= j < |below + [Rest(top)]| && 0 <= i < |(below + [Rest(top)])[j]|
            ensures (below + [Rest(top)])[j][i] == frames[j][if j < |below| then i else i + 1]
          {
          }
        }
        if top[0].Returns? && top[0].value.Ok? {
          var node := top[0].value.value;
          if node.meta.DirMeta? && node.meta.listing.Readable? {
            var items := node.meta.listing.items;
            FilteredAdmitsOnly(filter, items);
            var next := below + [Rest(top)] + [Filtered(filter, items)];
            forall j, i | 0 <= j < |next| && 0 <= i < |next[j]|
              ensures next[j][i] == if j < |below| + 1 then (below + [Rest(top)])[j][i] else Filtered(filter, items)[i]
            {
            }
          }
        }
      }
    }
  }

  /** Over admitted frames, every entry of a run, whatever errors it meets, is admitted. */
  lemma {:induction false} RunAdmitsOnly(filter: FileFilter, frames: seq<seq<Pull>>)
    requires AdmittedFrames(filter, frames)
    ensures forall k :: 0 <= k < |Run(filter, frames).items| && Run(filter, frames).items[k].Ok? && !Run(filter, frames).items[k].value.CloseDir? ==>
              filter(Run(filter, frames).items[k].value.entry.path) == Returns(Ok(true))
    decreases FramesSize(frames)
  {
    var step := Step(filter, frames);
    if step.0.Returns? && step.0.value.Some? {
      StepDecreases(filter, frames);
      StepAdmits(filter, frames);
      RunAdmitsOnly(filter, step.1);
      var rest, items := Run(filter, step.1), Run(filter, frames).items;
      assert items == [step.0.value.value] + rest.items;
      forall k | 0 <= k < |items| && items[k].Ok? && !items[k].value.CloseDir?
        ensures filter(items[k].value.entry.path) == Returns(Ok(true))
      {
        if k > 0 {
          assert items[k] == rest.items[k - 1];
          assert filter(rest.items[k - 1].value.entry.path) == Returns(Ok(true));
        } else {
          assert items[0] == step.0.value.value;
        }
      }
    }
  }

  /**
   * Over any root listing, read errors, filter errors, metadata errors and
   * panics included, every `File` or `OpenDir` event the iterator yields
   * names a path the filter admits.
   */
  lemma IterationYieldsAdmitted(filter: FileFilter, items: seq<DirItem>)
    ensures var t := Run(filter, [Filtered(filter, items)]);
            forall k :: 0 <= k < |t.items| && t.items[k].Ok? && !t.items[k].value.CloseDir? ==>
              filter(t.items[k].value.entry.path) == Returns(Ok(true))
  {
    FilteredAdmitsOnly(filter, items);
    RunAdmitsOnly(filter, [Filtered(filter, items)]);
  }

  /** A filter that admits every path. */
  function AcceptAll(p: Path): Outcome<Result<bool>>
  {
    Returns(Ok(true))
  }

  /**
   * The tree of the example in the documentation of `TreeIter`: files
   * `a` and `d`, a directory `b` holding `1` and `2`, an empty directory `c`.
   */
  function ExampleListing(): seq<DirItem>
  {
    [ Present(Node("./a", FileMeta)),
      Present(Node("./b", DirMeta(Readable([Present(Node("./b/1", FileMeta)), Present(Node("./b/2", FileMeta))])))),
      Present(Node("./c", DirMeta(Readable([])))),
      Present(Node("./d", FileMeta)) ]
  }

  /** The events of the documentation's example, in its order. */
  function ExampleEvents(): seq<Event>
  {
    var listing := ExampleListing();
    [ File(Entry("./a", true, FileMeta)),
      OpenDir(Entry("./b", true, listing[1].node.meta)),
      File(Entry("./b/1", true, FileMeta)),
      File(Entry("./b/2", false, FileMeta)),
      CloseDir,
      OpenDir(Entry("./c", true, listing[2].node.meta)),
      CloseDir,
      File(Entry("./d", false, FileMeta)) ]
  }

  lemma ExampleClean()
    ensures CleanListing(AcceptAll, ExampleListing())
  {
    var listing := ExampleListing();
    var bItems := listing[1].node.meta.listing.items;
    assert CleanListing(AcceptAll, []);
    assert bItems[1..][1..] == [] && listing[3..][1..] == [];
    assert CleanListing(AcceptAll, bItems[1..]);
    assert CleanListing(AcceptAll, bItems);
    assert CleanListing(AcceptAll, listing[3..]);
    assert CleanListing(AcceptAll, listing[2..]);
    assert CleanListing(AcceptAll, listing[1..]);
  }

  lemma ExampleKept()
    ensures var listing := ExampleListing();
            && Kept(AcceptAll, listing) == [listing[0].node, listing[1].node, listing[2].node, listing[3].node]
            && Kept(AcceptAll, listing[1].node.meta.listing.items)
               == [Node("./b/1", FileMeta), Node("./b/2", FileMeta)]
  {
    var listing := ExampleListing();
    var bItems := listing[1].node.meta.listing.items;
    assert Kept(AcceptAll, bItems[1..]) == [bItems[1].node];
    assert Kept(AcceptAll, listing[3..]) == [listing[3].node];
    assert Kept(AcceptAll, listing[2..]) == [listing[2].node, listing[3].node];
    assert Kept(AcceptAll, listing[1..]) == [listing[1].node, listing[2].node, listing[3].node];
  }

  lemma ExampleDirB()
    ensures var b := ExampleListing()[1].node;
            (NodeEvents(AcceptAll, b, true)
             == [OpenDir(Entry("./b", true, b.meta)), File(Entry("./b/1", true, FileMeta)),
                 File(Entry("./b/2", false, FileMeta)), CloseDir])
  {
    var b := ExampleListing()[1].node;
    var one, two := Node("./b/1", FileMeta), Node("./b/2", FileMeta);
    ExampleKept();
    assert NodesEvents(AcceptAll, [two]) == [File(Entry("./b/2", false, FileMeta))];
    assert NodesEvents(AcceptAll, [one, two]) == [File(Entry("./b/1", true, FileMeta)), File(Entry("./b/2", false, FileMeta))];
  }

  lemma ExampleWalk()
    ensures NodesEvents(AcceptAll, Kept(AcceptAll, ExampleListing())) == ExampleEvents()
  {
    var listing := ExampleListing();
    var a, b, c, d := listing[0].node, listing[1].node, listing[2].node, listing[3].node;
    ExampleKept();
    ExampleDirB();
    ExampleTail();
    NodesEventsCons(AcceptAll, b, [c, d]);
    NodesEventsCons(AcceptAll, a, [b, c, d]);
    assert [a] + [b, c, d] == [a, b, c, d] && [b] + [c, d] == [b, c, d];
    var bEvents, tail := NodeEvents(AcceptAll, b, true), NodesEvents(AcceptAll, [c, d]);
    assert NodesEvents(AcceptAll, [a, b, c, d]) == [File(Entry("./a", true, FileMeta))] + (bEvents + tail);
  }

  /** The events of the last two entries of the example, `c` (an empty directory) and `d`. */
  lemma ExampleTail()
    ensures var listing := ExampleListing();
            NodesEvents(AcceptAll, [listing[2].node, listing[3].node])
            == [OpenDir(Entry("./c", true, listing[2].node.meta)), CloseDir, File(Entry("./d", false, FileMeta))]
  {
    var listing := ExampleListing();
    var c, d := listing[2].node, listing[3].node;
    assert Kept(AcceptAll, []) == [];
    assert NodeEvents(AcceptAll, c, true) == [OpenDir(Entry("./c", true, c.meta)), CloseDir];
    NodesEventsCons(AcceptAll, d, []);
    assert NodesEvents(AcceptAll, [d]) == [File(Entry("./d", false, FileMeta))];
    NodesEventsCons(AcceptAll, c, [d]);
    assert [c] + [d] == [c, d];
  }

  lemma NodesEventsCons(filter: FileFilter, n: Node, ns: seq<Node>)
    ensures NodesEvents(filter, [n] + ns) == NodeEvents(filter, n, ns != []) + NodesEvents(filter, ns)
  {
    assert ([n] + ns)[0] == n && ([n] + ns)[1..] == ns;
  }

  /**
   * The iterator yields the documented events for that tree, followed by
   * the root's own `CloseDir`, which the documentation does not list.
   */
  lemma DocumentedExample()
    ensures Run(AcceptAll, [Filtered(AcceptAll, ExampleListing())])
         == Trace(Successes(ExampleEvents() + [CloseDir]), Finished)
  {
    ExampleClean();
    ExampleWalk();
    IterationIsDepthFirst(AcceptAll, ExampleListing());
  }
}
