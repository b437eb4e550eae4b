/** Option and Result values used in place of the build script's `unwrap`,
    `expect` and `unreachable!` panics: a panic becomes a `Failure`. */
module Wrappers {

  /** An optional value, as Rust's `Option`. */
  datatype Option<+T> = None | Some(value: T)

  /** The outcome of a step that may abort the build. */
  datatype Result<+R, +E> = Success(value: R) | Failure(error: E)
}
