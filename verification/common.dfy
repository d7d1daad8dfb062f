/**
 * Shared vocabulary of the model: optional values, error-carrying results,
 * and the abnormal ways a Rust call can end (a panic from `unwrap`/`expect`,
 * or a loop that never exits).
 */
module Common {

  /** Paths are the text of a `PathBuf`. */
  type Path = string

  datatype Option<+T> = None | Some(value: T)

  /** The boxed `dyn Error` of the source, reduced to its message. */
  datatype Error = Error(message: string)

  datatype Result<+T> = Ok(value: T) | Err(error: Error)

  /**
   * How a call ends: it returns a value, it panics (an `unwrap` or `expect`
   * on a failure), or it never returns (a loop that spins forever).
   */
  datatype Outcome<+T> = Returns(value: T) | Panics | Diverges

  /** The prefix, then whatever follows if it returns. */
  function Then<T>(prefix: seq<T>, rest: Outcome<seq<T>>): (r: Outcome<seq<T>>)
    ensures rest.Returns? <==> r.Returns?
    ensures r.Returns? ==> r.value == prefix + rest.value
    ensures !r.Returns? ==> r == rest
  {
    if rest.Returns? then Returns(prefix + rest.value) else rest
  }

  lemma ThenEmpty<T>(o: Outcome<seq<T>>)
    ensures Then([], o) == o
  {
    if o.Returns? {
      assert [] + o.value == o.value;
    }
  }

  lemma ThenThen<T>(a: seq<T>, b: seq<T>, o: Outcome<seq<T>>)
    ensures Then(a, Then(b, o)) == Then(a + b, o)
  {
    if o.Returns? {
      assert a + (b + o.value) == (a + b) + o.value;
    }
  }
}
