/** Values that may be missing, and operations that may raise. */
module Outcomes {
  datatype Option<+T> = None | Some(value: T)

  /** The exceptions of the modelled code. */
  datatype Error = KeyError | ValueError | IndexError | Refused(reason: string)

  datatype Result<+T> = Ok(value: T) | Raised(error: Error)
}
