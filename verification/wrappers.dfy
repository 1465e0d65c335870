/** Failure-compatible wrappers shared by the estimator and the chart layout:
    `Option` stands for JavaScript's `null`/`undefined`, `Result` for a call
    that either returns a value or throws. */
module Wrappers {

  datatype Option<+T> = None | Some(value: T)

  datatype Result<+T, +E> = Ok(value: T) | Err(error: E)
}
