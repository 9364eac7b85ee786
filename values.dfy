/** Values shared by the numeric engine, the cache-key derivation and the service. */
module Values {

  /** A Python number as the service sees it: an `int`, or a `float` modelled as an exact rational. */
  datatype Number = Int(i: int) | Float(x: real)

  /**
   * The ways a request fails: the factorial ceiling, a zero base with a negative exponent, and
   * `str` refusing an `int` of more than 4300 digits (CPython's `ValueError` since 3.11).
   */
  datatype MathError = InputTooLarge | DivisionByZero | TooManyDigits

  /** What a cache probe returns: the stored payload, or nothing. */
  datatype Option<+T> = None | Some(value: T)

  /** A computed value, or the error the computation raised. */
  datatype Result<+T> = Ok(value: T) | Err(error: MathError)
}
