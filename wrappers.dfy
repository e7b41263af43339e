/** Optional values and handler outcomes shared by the cart modules. */
module Wrappers {

  /** A value that may be missing: a lookup that found nothing, a request without a session. */
  datatype Option<+T> = None | Some(value: T)

  /** The outcome of an HTTP handler: the JSON body it answers with, or the error it rejects with. */
  datatype Result<+T, +E> = Success(value: T) | Failure(error: E)
}
