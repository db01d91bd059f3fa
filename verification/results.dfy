/** Option and Result values used for the app's error paths. */
module Results {

  datatype Option<+T> = None | Some(value: T)

  /** A computation that either produced a value or failed with an error value
      (the model's stand-in for a rejected promise or a thrown exception). */
  datatype Result<+R, +E> = Success(value: R) | Failure(error: E)
}
