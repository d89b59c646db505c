/** Small value types shared by every plugin model. */
module Base {

  /** A value that may be absent (JavaScript `undefined`/`null`). */
  datatype Option<T> = None | Some(value: T)

  /** A callback supplied by game code. Its own effects lie outside the
      plugins; what the plugins observe of it is only whether calling it
      throws. */
  datatype Callback = NoCallback | Callback(raises: bool)

  /** True when calling `c` throws. */
  predicate Raises(c: Callback)
  {
    c.Callback? && c.raises
  }

  /** The product of two non-negative reals is non-negative. */
  lemma MulNonNegative(x: real, y: real)
    requires x >= 0.0 && y >= 0.0
    ensures x * y >= 0.0
  {
  }
}
