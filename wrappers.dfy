/** Optional values and error-carrying results, shared by every module. */
module Wrappers {

  datatype Option<+T> = None | Some(value: T) {

    /** The contained value, or `default` when there is none (Python's `x or d`, JS's `x ?? d`). */
    function GetOr(default: T): T {
      match this
      case Some(v) => v
      case None => default
    }
  }

  /** Python truthiness of an optional string: present and non-empty. */
  predicate Truthy(o: Option<string>) {
    o.Some? && o.value != ""
  }

  datatype Result<+T, +E> = Ok(value: T) | Err(error: E)

  /** An HTTP error as FastAPI raises it: a status code and a detail message. */
  datatype HttpError = HttpError(status: int, detail: string)
}
