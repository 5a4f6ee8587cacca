/** Failure-carrying values shared by the settings modules. */
module Results {

  /** A value that may be missing: a file that may not exist, a parse that may fail. */
  datatype Option<+T> = None | Some(value: T)

  /** How a call into the host ended: normally, or by throwing an exception
      whose message is kept only for logging. */
  datatype Outcome = Pass | Fail(message: string)
}
