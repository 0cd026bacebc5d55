/** Optional values and pass/fail outcomes shared by the other modules. */
module Wrappers {

  /** An optional value: Go's nil-or-value, such as a possibly nil `error`. */
  datatype Option<+T> = None | Some(value: T)

  /** Success without a value, or a failure carrying an error. */
  datatype Outcome<+E> = Pass | Fail(error: E)
}
