/** Failure-carrying values shared by every module of the model.
    The Go code reports failures as `error` values whose text ends up in a
    response; here a failure is its message. */
module Results {

  /** A value that may be absent (a nil pointer, a missing query value). */
  datatype Option<+T> = None | Some(value: T)

  /** Either a value or the text of the error that prevented it. */
  datatype Result<+T> = Ok(value: T) | Err(reason: string)
}
