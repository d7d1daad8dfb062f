/**
 * The filesystem as the core sees it: an in-memory tree whose directories
 * list their entries in read order. Every node carries the path that names
 * it; opening a path opens the node it names. A read of a directory, an
 * entry of its listing, or a node's metadata may each fail.
 */
module FileTree {
  import opened Common

  datatype Node = Node(path: Path, meta: Meta)

  /** What `metadata()` reports: a file, a directory (with its listing), or an error. */
  datatype Meta = FileMeta | DirMeta(listing: Listing) | MetaError(error: Error)

  /** What `read_dir` gives for a directory: its entries in read order, or an error. */
  datatype Listing = Readable(items: seq<DirItem>) | Unreadable(error: Error)

  /** One item of a `read_dir` stream: an entry, or an I/O error in its place. */
  datatype DirItem = Present(node: Node) | ReadError(error: Error)

  predicate IsDir(n: Node)
  {
    n.meta.DirMeta?
  }

  /** `fs::read_dir(path)`: the listing of a readable directory, an error otherwise. */
  function ReadDir(n: Node): Result<seq<DirItem>>
  {
    match n.meta
    case DirMeta(Readable(items)) => Ok(items)
    case DirMeta(Unreadable(e)) => Err(e)
    case FileMeta => Err(Error("Not a directory"))
    case MetaError(e) => Err(e)
  }

  /**
   * Size of a subtree, used as a termination measure. A readable directory
   * weighs two more than its entries: one for opening it, one for closing it.
   */
  function Size(n: Node): nat
    decreases n
  {
    match n.meta
    case DirMeta(l) => 2 + SizeFrom(l, 0)
    case _ => 1
  }

  function SizeFrom(l: Listing, i: nat): nat
    decreases l, if l.Readable? && i <= |l.items| then |l.items| - i else 0
  {
    if l.Unreadable? || i >= |l.items| then 0
    else ItemSize(l.items[i]) + SizeFrom(l, i + 1)
  }

  function ItemSize(d: DirItem): (s: nat)
    ensures s >= 1
    decreases d, 0
  {
    match d
    case Present(n) => Size(n)
    case ReadError(_) => 1
  }

  function ItemsSize(items: seq<DirItem>): nat
  {
    if items == [] then 0 else ItemSize(items[0]) + ItemsSize(items[1..])
  }

  lemma {:induction false} SizeFromIsItemsSize(l: Listing, i: nat)
    requires l.Readable? && i <= |l.items|
    ensures SizeFrom(l, i) == ItemsSize(l.items[i..])
    decreases |l.items| - i
  {
    if i < |l.items| {
      SizeFromIsItemsSize(l, i + 1);
      assert l.items[i..][1..] == l.items[i + 1..];
    }
  }

  /** A readable directory outweighs its listing by exactly two. */
  lemma DirSize(n: Node)
    requires n.meta.DirMeta? && n.meta.listing.Readable?
    ensures Size(n) == 2 + ItemsSize(n.meta.listing.items)
  {
    SizeFromIsItemsSize(n.meta.listing, 0);
    assert n.meta.listing.items[0..] == n.meta.listing.items;
  }

  lemma {:induction false} ItemsSizeAppend(a: seq<DirItem>, b: seq<DirItem>)
    ensures ItemsSize(a + b) == ItemsSize(a) + ItemsSize(b)
  {
    if a == [] {
      assert a + b == b;
    } else {
      assert (a + b)[1..] == a[1..] + b;
      ItemsSizeAppend(a[1..], b);
    }
  }

  /**
   * A subtree in which nothing fails: every directory is readable, every
   * item of every listing is an entry, and every entry's metadata reads.
   */
  predicate Sound(n: Node)
    decreases Size(n), 0
  {
    match n.meta
    case FileMeta => true
    case DirMeta(Readable(items)) =>
      DirSize(n);
      SoundItems(items)
    case _ => false
  }

  predicate SoundItems(items: seq<DirItem>)
    decreases ItemsSize(items), 1
  {
    items == [] || (items[0].Present? && Sound(items[0].node) && SoundItems(items[1..]))
  }

  /** Every item of a sound listing is a sound entry. */
  lemma {:induction false} SoundItemsAt(items: seq<DirItem>)
    requires SoundItems(items)
    ensures forall i :: 0 <= i < |items| ==> items[i].Present? && Sound(items[i].node)
    decreases |items|
  {
    if items != [] {
      SoundItemsAt(items[1..]);
      assert forall i :: 1 <= i < |items| ==> items[i] == items[1..][i - 1];
    }
  }
}
