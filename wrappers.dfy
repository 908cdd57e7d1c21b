/** A value that may be missing: the model's stand-in for a C# null reference. */
module Wrappers {

  datatype Option<+T> = None | Some(value: T) {

    /** The value, or a default when missing (C#'s `??`). */
    function GetOr(default: T): T {
      match this
      case Some(v) => v
      case None => default
    }
  }
}
