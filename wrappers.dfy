/** Values the server may not have, and calls that may fail. */
module Wrappers {

  datatype Option<+T> = None | Some(value: T)
  {
    /** The value, or `default` when there is none (Python's `x or default`, `d.get(k, default)`). */
    function GetOr(default: T): T
    {
      if Some? then value else default
    }
  }

  datatype Result<+T, +E> = Ok(value: T) | Err(error: E)
}

/** The HTTP error an endpoint raises: a status code and its detail text. */
module Http {

  datatype HttpError = HttpError(status: int, detail: string)
}
