/** Failure-carrying values shared by every page model.
    A remote call that raises in the application is an `Err` carrying the
    exception's text; a dictionary lookup that may miss is an `Option`. */
module Wrappers {

  datatype Option<+T> = None | Some(value: T) {
    /** The value, or `default` when absent (Python's `dict.get(key, default)`). */
    function GetOr(default: T): T {
      match this
      case Some(v) => v
      case None => default
    }
  }

  datatype Result<+T> = Ok(value: T) | Err(error: string)
}
