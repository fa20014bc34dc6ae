/** Failure-carrying results used where the source throws or returns undefined. */
module Outcomes {

  datatype Option<T> = None | Some(value: T)

  /** `Pass` when the operation ran to its end, `Fail(e)` when it threw `e`. */
  datatype Outcome<E> = Pass | Fail(error: E)
}
