/**
 * Values shared by the whole model: the optional and failure-carrying
 * wrappers, and the JavaScript value a hook sees, which may be `undefined`.
 */
module Values {

  datatype Option<+T> = None | Some(value: T)

  /** A hook or operation that produces a value or throws an error message. */
  datatype Result<+T> = Ok(value: T) | Err(error: string)

  /** A hook or operation that produces nothing or throws an error message. */
  datatype Outcome = Pass | Fail(error: string)

  /**
   * A JavaScript value as the store sees it: either `undefined` (what a read of
   * a missing key yields) or some other value of the opaque payload type `V`.
   */
  datatype Value<+V> = Undefined | Defined(v: V)
}
