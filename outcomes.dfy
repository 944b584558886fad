/** Small result types shared by the modules of this model. */
module Outcomes {

  /** A value that may be absent (`undefined`/`null` in the source). */
  datatype Option<+T> = None | Some(value: T)

  /** A settled asynchronous call: resolved with a value or rejected with an error. */
  datatype Outcome<+T, +E> = Ok(value: T) | Err(error: E)
}
