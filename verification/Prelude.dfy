/** Datatypes shared by every component of the model. */
module Prelude {

  datatype Option<+T> = None | Some(value: T)

  /** The outcome of a request: a value, or the HTTP status the handler raises. */
  datatype Outcome<+T> = Ok(value: T) | HttpError(status: int)
}
