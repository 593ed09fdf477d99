/** Failure-compatible result types shared by the whole model. */
module Wrappers {

  /** The conventional optional value; `None` stands for a null pointer or a 0 id. */
  datatype Option<+T> = None | Some(value: T) {

    /** Returns the value in `Some`, or `default` when this is `None`. */
    function GetOr(default: T): T {
      match this
      case Some(v) => v
      case None => default
    }
  }

  /** Either a value or the reason the source panics or fails instead of returning one. */
  datatype Result<+R, +E> = Success(value: R) | Failure(error: E)

  /** Why a Rust `assert!`, `debug_assert!`, `unreachable!` or checked arithmetic aborts. */
  datatype Panic =
    | AssertionFailed(what: string)
    | ArithmeticOverflow(what: string)
}
