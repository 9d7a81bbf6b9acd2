/** Small shared vocabulary: an optional value (the C code's NULL pointers) and the
    `fmin`/`max` helpers of the C code, on reals. */
module Common {

  /** A nullable reference: `None` plays the role of NULL. */
  datatype Option<T> = None | Some(value: T)

  /** C's `fmin` on reals (no NaN in this model). */
  function Min(a: real, b: real): (r: real)
    ensures r <= a && r <= b
    ensures r == a || r == b
  {
    if a < b then a else b
  }

  /** The `max` macro of the game's utilities on reals. */
  function Max(a: real, b: real): (r: real)
    ensures r >= a && r >= b
    ensures r == a || r == b
  {
    if a > b then a else b
  }

  /** Scaling by a factor in [0, 1] never increases a non-negative value. */
  lemma ScaleDown(x: real, y: real)
    requires 0.0 <= x <= 1.0 && 0.0 <= y
    ensures 0.0 <= x * y <= y
  {
    assert y - x * y == (1.0 - x) * y;
  }

  /** A non-negative duration scaled by a positive factor stays non-negative. */
  lemma ScaleUp(x: real, y: real)
    requires 0.0 <= x && 0.0 <= y
    ensures 0.0 <= x * y
  {
  }
}
