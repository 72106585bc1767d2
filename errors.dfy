/** Failure kinds and the small wrapper types the card library's exceptions and
    nullable references are modelled with. */
module Errors {

  /** The exception types the library throws; callers and tests tell them apart. */
  datatype ErrorKind = ArgumentException | ArgumentNullException | InvalidOperationException

  /** A reference that may be null (a .NET string or card reference). */
  datatype Option<+T> = None | Some(value: T)

  /** A call that either returns a value or throws one of the exception kinds. */
  datatype Result<+T> = Ok(value: T) | Err(error: ErrorKind)

  /** A void call that either returns normally or throws. */
  datatype Check = Pass | Fail(error: ErrorKind)
}
