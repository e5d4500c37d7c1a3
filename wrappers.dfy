/** Failure-carrying results used in place of the source's exceptions, null out-values and
    void calls that may throw. */
module Wrappers {

  /** `None` stands for a C# `null` (an out value left null, a lookup that found nothing). */
  datatype Option<+T> = None | Some(value: T)

  /** The value of a call that either returns or throws. */
  datatype Result<+T, +E> = Ok(value: T) | Err(error: E)

  /** The outcome of a `void` call that either completes or throws. */
  datatype Outcome<+E> = Pass | Fail(error: E)
}
