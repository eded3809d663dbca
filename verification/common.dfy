// Shared wrappers: an optional value (Python's None or a value) and the
// outcome of a step that may raise.

module Common {

  datatype Option<+T> = None | Some(value: T) {
    /** Python's `x if x is not None else d`. */
    function GetOr(d: T): T {
      if Some? then value else d
    }
  }

  /** Why a step did not produce its value. */
  datatype Failure =
    | Raised          // a Python exception escaped the step
    | NotFound        // a lookup found nothing (HTTP 404, FileNotFoundError)
    | BadRequest      // a request parameter was refused (HTTP 400)
    | Invalid         // request validation refused the body (HTTP 422)
    | ServerError     // HTTP 500
    | Unavailable     // HTTP 503

  datatype Result<+T> = Ok(value: T) | Failed(reason: Failure)

  /** Python truthiness of an optional text: present and not empty. */
  predicate Present(s: Option<string>) {
    s.Some? && s.value != []
  }

  function Min(a: int, b: int): int { if a <= b then a else b }
  function Max(a: int, b: int): int { if a <= b then b else a }
}
