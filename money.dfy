/** Optional values, standing in for Python's `None`. */
module Base {
  datatype Option<T> = None | Some(value: T)
}

/** Money as integer cents, and the integer arithmetic the cart uses on it. */
module Money {

  /** Python's int(a / b) for a positive divisor: the quotient truncated toward zero. */
  function TruncDiv(a: int, b: int): (q: int)
    requires b > 0
    ensures a >= 0 ==> 0 <= q && q * b <= a < q * b + b
    ensures a < 0 ==> q <= 0 && a <= q * b < a + b
  {
    if a >= 0 then a / b else -((-a) / b)
  }

  /** Ten percent of a subtotal in cents, rounded to the nearest cent, halves away from zero. */
  function Tax(subtotal: int): (t: int)
    ensures subtotal >= 0 ==> 0 <= t && -5 <= subtotal - 10 * t < 5
    ensures subtotal < 0 ==> t <= 0 && -5 < subtotal - 10 * t <= 5
  {
    if subtotal >= 0 then (subtotal + 5) / 10 else -((-subtotal + 5) / 10)
  }

  /** Tax never decreases when the subtotal grows. */
  lemma {:induction false} TaxMonotonic(a: int, b: int)
    requires a <= b
    ensures Tax(a) <= Tax(b)
  {
    if a >= 0 {
      assert (a + 5) / 10 <= (b + 5) / 10;
    } else if b < 0 {
      assert (-b + 5) / 10 <= (-a + 5) / 10;
    }
  }
}
