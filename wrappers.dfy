/** Optional values and results: `null`/`undefined` and thrown errors of the dashboard. */
module Wrappers {

  /** A value that may be absent (`null` or `undefined` in the dashboard's records). */
  datatype Option<+T> = None | Some(value: T) {
    function GetOr(default: T): T {
      match this
      case Some(v) => v
      case None => default
    }
  }

  /** The value an operation returns, or the message of the error it throws. */
  datatype Result<+R> = Success(value: R) | Failure(message: string)

  /** The answer of a remote service whose code is not part of this model:
      the awaited promise either resolves with a value or rejects. */
  datatype Reply<+T> = Resolved(value: T) | Rejected
}
