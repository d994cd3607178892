/** Option, error-carrying result and panic types shared by every component. A
    Go function returning `(T, error)` is modelled by `Result<T>`, whose `Err`
    case carries the text of the error. */
module Results {

  datatype Option<+T> = None | Some(value: T)

  datatype Result<+T> = Ok(value: T) | Err(message: string)

  /** How a Go call ends: it returns a value, or it panics with a run-time error. */
  datatype Outcome<+T> = Returned(value: T) | Panicked(reason: string)
}

/** The status codes of Go's `net/http` that the server and the client use. */
module Http {

  const StatusOK: int := 200
  const StatusMovedPermanently: int := 301
  const StatusBadRequest: int := 400
  const StatusNotFound: int := 404
  const StatusInternalServerError: int := 500
}
