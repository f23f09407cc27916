/** Ruby's `nil` for the optional slots of the model. */
module Wrappers {

  datatype Option<+T> = None | Some(value: T) {

    /** `x || fallback` in Ruby, for a slot that is either nil or set. */
    function GetOr(fallback: T): T {
      match this
      case Some(v) => v
      case None => fallback
    }
  }
}
