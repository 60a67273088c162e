/** The optional-value datatype used for request parameters and lookups that can be absent. */
module Wrappers {

  /** `None` stands for Ruby's `nil`: a parameter, key or parse result that is missing. */
  datatype Option<+T> = None | Some(value: T) {

    /** The value, or `default` when there is none. */
    function GetOr(default: T): (r: T)
      ensures Some? ==> r == value
      ensures None? ==> r == default
    {
      match this
      case Some(v) => v
      case None => default
    }
  }
}
