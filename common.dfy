/** Small value types shared by the client and server models. */
module Common {

  /** A value that may be absent (JavaScript `undefined`/`null`, Python `None`). */
  datatype Option<+T> = None | Some(value: T)

  /** Either a value or the error the source raises or throws instead. */
  datatype Result<+T, +E> = Ok(value: T) | Err(error: E)

  /** Absolute value on reals (JavaScript `Math.abs`, Python `abs`). */
  function Abs(x: real): (r: real)
    ensures r >= 0.0
    ensures r == x || r == -x
  {
    if x < 0.0 then -x else x
  }
}
