/** Small failure-compatible wrappers shared by the whole model. */
module Base {

  /** A JavaScript value that may be `null`/`undefined`. */
  datatype Option<+T> = None | Some(value: T)

  /** The outcome of a step that may throw: `Crash` stands for an uncaught exception. */
  datatype Result<+T> = Ok(value: T) | Crash(reason: string)
}
