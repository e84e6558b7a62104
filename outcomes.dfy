/** Optional values and the error channel of the service layer.
    The service functions raise `HTTPException(404 | 400 | 409, detail)`;
    here each such exception is an `Err` value carrying its kind and detail. */
module Outcomes {

  datatype Option<+T> = None | Some(value: T)

  /** The three failure kinds of the service layer, with the detail text of
      the exception that carries them. */
  datatype Error =
    | NotFound(detail: string)    // HTTP 404
    | Validation(detail: string)  // HTTP 400
    | Conflict(detail: string)    // HTTP 409

  datatype Result<+T> = Ok(value: T) | Err(error: Error)

  /** The HTTP status code the request layer answers with for an error. */
  function StatusCode(e: Error): (code: int)
    ensures code == 404 <==> e.NotFound?
    ensures code == 400 <==> e.Validation?
    ensures code == 409 <==> e.Conflict?
  {
    match e
    case NotFound(_) => 404
    case Validation(_) => 400
    case Conflict(_) => 409
  }
}
