/** Failure-carrying values shared by the pipeline model. */
module Wrappers {

  /** A value that may be absent (a missing key of the pipeline's state record). */
  datatype Option<+T> = None | Some(value: T)

  /** What a call into an external collaborator yields: a value, or a raised
      exception reduced to its string form `str(e)`. */
  datatype Outcome<+T> = Ok(value: T) | Fail(msg: string)
}
