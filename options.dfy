/** Failure-carrying result types shared by the codec and device modules. */
module Options {

  /** A value that may be missing: `None` stands for a Python exception
      raised by a pure conversion (a negative shift, an unparsable string). */
  datatype Option<T> = None | Some(value: T)

  /** A value or the error that prevented it. */
  datatype Result<T, E> = Ok(value: T) | Err(error: E)

  /** The outcome of a command that returns nothing on success. */
  datatype Outcome<E> = Pass | Fail(error: E)
}
