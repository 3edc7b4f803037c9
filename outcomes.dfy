/** Error values and the Option/Result wrappers shared by the model. */
module Outcomes {

  /** The errors the modelled code passes around. `Canceled` is what a
      cancelled context reports from `Err()`; every other error (a failed
      send, a failed symlink resolution, a watch failure) is opaque here and
      carried by its message. */
  datatype Error = Canceled | Failure(message: string)

  /** A value that may be absent; `None` stands for Go's nil. */
  datatype Option<+T> = None | Some(value: T)

  /** A value or the error that took its place. */
  datatype Result<+T> = Ok(value: T) | Err(error: Error)
}
