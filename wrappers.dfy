/** Optional values and the outcome of an awaited call. */
module Wrappers {

  /** A value that may be absent (`T | null | undefined`). */
  datatype Option<+T> = None | Some(value: T)

  /**
   * The settled state of a promise: fulfilled with a value, or rejected
   * with the rejection's `message` (which may be the empty string).
   */
  datatype Result<+T> = Ok(value: T) | Err(message: string)

  /**
   * JavaScript's `text || fallback` on strings: the text unless it is empty.
   * The stores use it for `(error as Error).message || fallback`.
   */
  function OrFallback(message: string, fallback: string): (r: string)
    ensures message != "" ==> r == message
    ensures message == "" ==> r == fallback
    ensures fallback != "" ==> r != ""
  {
    if message != "" then message else fallback
  }
}
