/** Option and Result datatypes shared by the modules. */
module Wrappers {

  /** An optional value: `None` stands for Python's `None` or for an absent key. */
  datatype Option<+T> = None | Some(value: T) {

    /** The value held, or `default` when there is none (Python's `dict.get(key, default)`). */
    function GetOr(default: T): T {
      match this
      case Some(v) => v
      case None => default
    }
  }

  /** Either a value or an error; used for the handlers' raised exceptions. */
  datatype Result<+R, +E> = Success(value: R) | Failure(error: E)
}
