/** Helper datatypes shared by the model. */
module Wrappers {

  /** A value that may be absent; stands for a Java reference that may be null. */
  datatype Option<+T> = None | Some(value: T) {
    function GetOr(default: T): T {
      match this
      case Some(v) => v
      case None => default
    }
  }

  /** Success, or failure with a reason; stands for a Java method that returns normally or throws. */
  datatype Outcome<+E> = Pass | Fail(error: E)
}
