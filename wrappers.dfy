/** Optional values and results, used where JavaScript has `undefined` or a thrown error. */
module Wrappers {

  /** `None` stands for JavaScript's `undefined` (an absent member or argument). */
  datatype Option<+T> = None | Some(value: T) {
    function GetOr(default: T): T {
      match this
      case Some(v) => v
      case None => default
    }
  }

  /** `Failure` carries the message of the error the code throws or rejects with. */
  datatype Result<+R> = Success(value: R) | Failure(message: string)
}
