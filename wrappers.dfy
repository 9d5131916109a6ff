/** Small value wrappers shared by every module of the model. */
module Wrappers {

  /** A value that may be missing: the model of `T | null`, `T | undefined` and Rust's `Option<T>`. */
  datatype Option<+T> = None | Some(value: T) {

    /** The wrapped value, or `default` when there is none (the `??` operator). */
    function GetOr(default: T): T {
      match this
      case Some(v) => v
      case None => default
    }
  }
}
