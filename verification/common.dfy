/** Failure-compatible wrappers shared by every stage of the pipeline. */
module Common {

  /** An optional value; noten uses `None` for a missing bass note or no previous event. */
  datatype Option<+T> = None | Some(value: T)

  /** The outcome of a stage: a value, or the error noten raises. */
  datatype Result<+T, +E> = Ok(value: T) | Err(error: E) {

    predicate IsFailure() {
      Err?
    }

    function PropagateFailure<U>(): Result<U, E>
      requires Err?
    {
      Err(error)
    }

    function Extract(): T
      requires Ok?
    {
      value
    }
  }

  /** True iff `s` begins with `prefix`. */
  predicate StartsWith(s: string, prefix: string) {
    |prefix| <= |s| && s[..|prefix|] == prefix
  }
}
