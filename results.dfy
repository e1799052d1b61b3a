/** Option and Result, the failure-carrying values used by the decoder and the documentation lookup. */
module Results {

  datatype Option<+T> = None | Some(value: T)

  /** The outcome of an operation that can fail, as the runtime's `ProtobufResult`. */
  datatype Result<+T, +E> = Success(value: T) | Failure(error: E)
}
