/**
 * File filters (`FileFilter`), their left-to-right conjunction
 * (`FilterAggregate`) and the version-control ignore filter
 * (`GitignoreFilter`). A filter answers `Ok(true)` for a path to keep.
 *
 * Rust's blanket impl makes every `Fn(&Path) -> Result` a filter whose answer
 * is the function's own answer; here a filter simply is such a function.
 * Because a filter may itself panic (an `unwrap` inside it), its answer is
 * an `Outcome`.
 */
module Filters {
  import opened Common

  type FileFilter = Path -> Outcome<Result<bool>>

  /**
   * What an aggregate of `filters` answers for `p`: the filters are asked in
   * order; the first `Ok(false)` ends the walk with `Ok(false)`; an inner
   * error is unwrapped, so it panics instead of being returned.
   */
  function Conjunction(filters: seq<FileFilter>, p: Path): Outcome<Result<bool>>
  {
    if filters == [] then Returns(Ok(true))
    else match filters[0](p)
      case Returns(Ok(true)) => Conjunction(filters[1..], p)
      case Returns(Ok(false)) => Returns(Ok(false))
      case Returns(Err(_)) => Panics
      case Panics => Panics
      case Diverges => Diverges
  }

  /** A collection of filters acting as one. */
  class FilterAggregate {
    var filters: seq<FileFilter>

    /** `FilterAggregate::default()`: no filters, so every path is kept. */
    constructor Default()
      ensures filters == []
      ensures forall p :: Conjunction(filters, p) == Returns(Ok(true))
    {
      filters := [];
    }

    /** `push`: the filter joins at the end; none is removed or reordered. */
    method Push(f: FileFilter)
      modifies this
      ensures filters == old(filters) + [f]
    {
      filters := filters + [f];
    }

    /** `filter`: an early-exit loop over the filters. */
    method Filter(p: Path) returns (r: Outcome<Result<bool>>)
      ensures r == Conjunction(filters, p)
    {
      var i := 0;
      while i < |filters|
        invariant 0 <= i <= |filters|
        invariant Conjunction(filters, p) == Conjunction(filters[i..], p)
      {
        assert filters[i..][1..] == filters[i + 1..];
        var answer := filters[i](p);
        match answer {
          case Returns(Ok(keep)) =>
            if !keep {
              return Returns(Ok(false));
            }
          case Returns(Err(_)) =>
            return Panics;
          case Panics =>
            return Panics;
          case Diverges =>
            return Diverges;
        }
        i := i + 1;
      }
      r := Returns(Ok(true));
    }
  }

  /** The aggregate never hands an inner error back as `Err`. */
  lemma {:induction false} ConjunctionNeverErr(filters: seq<FileFilter>, p: Path)
    ensures !(Conjunction(filters, p).Returns? && Conjunction(filters, p).value.Err?)
  {
    if filters != [] && filters[0](p) == Returns(Ok(true)) {
      ConjunctionNeverErr(filters[1..], p);
    }
  }

  /** The aggregate keeps a path exactly when every filter keeps it. */
  lemma {:induction false} ConjunctionKeepsIffAll(filters: seq<FileFilter>, p: Path)
    ensures Conjunction(filters, p) == Returns(Ok(true))
        <==> forall i :: 0 <= i < |filters| ==> filters[i](p) == Returns(Ok(true))
  {
    if filters != [] {
      ConjunctionKeepsIffAll(filters[1..], p);
      if filters[0](p) == Returns(Ok(true)) {
        assert forall i :: 1 <= i < |filters| ==> filters[i] == filters[1..][i - 1];
      }
    }
  }

  /**
   * The aggregate rejects exactly at the first filter that answers
   * `Ok(false)`, all filters before it having answered `Ok(true)`.
   */
  lemma {:induction false} ConjunctionRejectsAtFirstFalse(filters: seq<FileFilter>, p: Path)
    ensures Conjunction(filters, p) == Returns(Ok(false))
        <==> exists k :: 0 <= k < |filters| && filters[k](p) == Returns(Ok(false))
                      && forall j :: 0 <= j < k ==> filters[j](p) == Returns(Ok(true))
  {
    if filters != [] {
      ConjunctionRejectsAtFirstFalse(filters[1..], p);
      if filters[0](p) == Returns(Ok(true)) {
        if Conjunction(filters, p) == Returns(Ok(false)) {
          var k :| 0 <= k < |filters[1..]| && filters[1..][k](p) == Returns(Ok(false))
                   && forall j :: 0 <= j < k ==> filters[1..][j](p) == Returns(Ok(true));
          assert filters[k + 1](p) == Returns(Ok(false));
          assert forall j :: 0 <= j < k + 1 ==> filters[j](p) == Returns(Ok(true)) by {
            forall j | 0 <= j < k + 1 ensures filters[j](p) == Returns(Ok(true)) {
              if j > 0 { assert filters[j] == filters[1..][j - 1]; }
            }
          }
        }
        if exists k :: 0 <= k < |filters| && filters[k](p) == Returns(Ok(false))
                      && forall j :: 0 <= j < k ==> filters[j](p) == Returns(Ok(true)) {
          var k :| 0 <= k < |filters| && filters[k](p) == Returns(Ok(false))
                   && forall j :: 0 <= j < k ==> filters[j](p) == Returns(Ok(true));
          assert k > 0;
          assert filters[1..][k - 1](p) == Returns(Ok(false));
          assert forall j :: 0 <= j < k - 1 ==> filters[1..][j](p) == Returns(Ok(true)) by {
            forall j | 0 <= j < k - 1 ensures filters[1..][j](p) == Returns(Ok(true)) {
              assert filters[1..][j] == filters[j + 1];
            }
          }
        }
      } else if filters[0](p) == Returns(Ok(false)) {
        var k := 0;
        assert filters[k](p) == Returns(Ok(false));
      } else {
        forall k | 0 <= k < |filters| && filters[k](p) == Returns(Ok(false))
          ensures 0 < k && filters[0](p) != Returns(Ok(true))
        {
        }
      }
    }
  }

  /**
   * Pushing more filters only narrows the aggregate, lazily: the later
   * filters are consulted only for paths every earlier filter keeps.
   */
  lemma {:induction false} ConjunctionAppend(filters: seq<FileFilter>, more: seq<FileFilter>, p: Path)
    ensures Conjunction(filters + more, p)
         == if Conjunction(filters, p) == Returns(Ok(true)) then Conjunction(more, p)
            else Conjunction(filters, p)
  {
    if filters == [] {
      assert filters + more == more;
    } else {
      assert (filters + more)[1..] == filters[1..] + more;
      ConjunctionAppend(filters[1..], more, p);
    }
  }

  // ----- Exclude files ignored by git -----

  datatype GitErrorCode = NotFound | OtherCode
  datatype GitError = GitError(code: GitErrorCode, message: string)

  /** A discovered repository, reduced to its ignore query on canonical paths. */
  datatype Repository = Repository(statusShouldIgnore: Path -> Result<bool>)

  /** The outcome of `Repository::discover(path)`. */
  datatype Discovery = Discovered(repo: Repository) | DiscoveryFailed(failure: GitError)

  datatype GitignoreFilter = GitignoreFilter(repo: Repository)

  /**
   * `GitignoreFilter::new`: no repository at or above the path gives `None`
   * (no filter, and no error either); any other discovery error gives
   * `Some(Err)`; a repository gives `Some(Ok)`.
   */
  function NewGitignoreFilter(discovery: Discovery): (r: Option<Result<GitignoreFilter>>)
    ensures r.None? <==> discovery.DiscoveryFailed? && discovery.failure.code == NotFound
    ensures (r.Some? && r.value.Err?)
        <==> discovery.DiscoveryFailed? && discovery.failure.code != NotFound
    ensures r.Some? && r.value.Err? ==> r.value.error.message == discovery.failure.message
    ensures discovery.Discovered? ==> r == Some(Ok(GitignoreFilter(discovery.repo)))
  {
    match discovery
    case DiscoveryFailed(err) =>
      if err.code == NotFound then None else Some(Err(Error(err.message)))
    case Discovered(repo) => Some(Ok(GitignoreFilter(repo)))
  }

  /**
   * `GitignoreFilter::filter`: the path is canonicalised (a failure panics at
   * `unwrap`) and kept exactly when the repository does not ignore it.
   */
  function GitignoreAnswer(g: GitignoreFilter, canonicalize: Path -> Option<Path>, p: Path)
    : (r: Outcome<Result<bool>>)
    ensures r.Panics? <==> canonicalize(p).None?
    ensures r.Returns? ==> r.value == match g.repo.statusShouldIgnore(canonicalize(p).value)
                                     case Ok(ignored) => Ok(!ignored)
                                     case Err(e) => Err(e)
  {
    match canonicalize(p)
    case None => Panics
    case Some(canonical) =>
      match g.repo.statusShouldIgnore(canonical)
      case Ok(ignored) => Returns(Ok(!ignored))
      case Err(e) => Returns(Err(e))
  }

  /** The gitignore filter as a `FileFilter`, ready to be pushed onto an aggregate. */
  function AsFileFilter(g: GitignoreFilter, canonicalize: Path -> Option<Path>): FileFilter
  {
    p => GitignoreAnswer(g, canonicalize, p)
  }
}
