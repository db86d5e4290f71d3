/** Optional values and pass/fail outcomes shared by the other modules. */
module Wrappers {

  datatype Option<+T> = None | Some(value: T)

  /** The outcome of an asynchronous call that either resolves or rejects with an error text. */
  datatype Outcome<+E> = Pass | Fail(error: E)
}
