/** Option and Result wrappers, and the ways the backend fails a request. */
module Wrappers {

  datatype Option<+T> = None | Some(value: T) {
    function GetOr(default: T): T {
      match this
      case Some(v) => v
      case None => default
    }
  }

  datatype Result<+T, +E> = Ok(value: T) | Err(error: E)

  /** How an operation fails.
      Http(status): a FastAPI HTTPException with that status code.
      ValueError: a Python ValueError raised by a service (routes map it to 400).
      Unhandled: any other exception escaping the operation (FastAPI answers 500). */
  datatype Failure = Http(status: int) | ValueError | Unhandled

  /** Python truthiness of an optional string: None and "" are falsy. */
  predicate Truthy(o: Option<string>) {
    o.Some? && o.value != ""
  }

  /** Python `a or b` on optional strings. */
  function Or(a: Option<string>, b: Option<string>): (r: Option<string>)
    ensures Truthy(a) ==> r == a
    ensures !Truthy(a) ==> r == b
  {
    if Truthy(a) then a else b
  }

  /** Python `o or ""`. */
  function OrEmpty(o: Option<string>): (r: string)
    ensures Truthy(o) <==> r != ""
    ensures Truthy(o) ==> r == o.value
  {
    if Truthy(o) then o.value else ""
  }
}
