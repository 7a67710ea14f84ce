/** Values shared by every module: optional values, results, and the Python
    exceptions that the handlers either catch or let escape. */
module Py {

  datatype Option<+T> = None | Some(value: T)

  datatype Result<+R, +E> = Success(value: R) | Failure(error: E)

  /** The exceptions that matter to the model. `Exception` and `ValueError`
      carry the message the source raises them with. */
  datatype PyError =
    | KeyError
    | TypeError
    | IndexError
    | ValueError(msg: string)
    | Exception(msg: string)
    | FileNotFound
    | RequestException
    | HTTPError

  /** The outcome of a Python call: it either returns a value or raises. */
  datatype Raises<+T> = Returned(value: T) | Raised(error: PyError)
}
