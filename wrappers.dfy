/** Optional values: a Vim global that may or may not exist (`exists("g:...")`). */
module Wrappers {

  datatype Option<+T> = None | Some(value: T) {

    /** The configured value, or the built-in default when the variable does not exist. */
    function GetOr(default: T): T
    {
      match this
      case Some(v) => v
      case None => default
    }
  }
}
