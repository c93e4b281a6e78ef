/** The optional-value datatype used for props a caller may omit and for
    keys a preset may leave undeclared. */
module Wrappers {

  datatype Option<+T> = None | Some(value: T) {

    /** The wrapped value, or `default` when there is none: the meaning of a
        destructuring default such as `duration = 1`. */
    function GetOr(default: T): (r: T)
      ensures Some? ==> r == value
      ensures None? ==> r == default
    {
      match this
      case Some(v) => v
      case None => default
    }
  }
}
