/** Optional values and thrown-or-returned results. */
module Wrappers {

  /** A field of the request body that may be absent (JavaScript `undefined`). */
  datatype Option<+T> = None | Some(value: T)

  /** The two exceptions a card builder can raise while it builds its tree. */
  datatype JsError =
    | RangeError  // String.prototype.repeat with a negative count or past the longest string
    | TypeError   // a method called on `undefined`

  /** What a builder either returns or throws. */
  datatype Result<+T> = Ok(value: T) | Thrown(error: JsError)
}
