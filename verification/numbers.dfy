/** Python's `int()` applied to a float, which truncates toward zero. Floats are modelled as
    exact reals. */
module Numbers {

  /** `int(x)`. */
  function Trunc(x: real): (r: int)
    ensures 0.0 <= x ==> r as real <= x < r as real + 1.0
    ensures x < 0.0 ==> r as real - 1.0 < x <= r as real
  {
    if x >= 0.0 then x.Floor else -((-x).Floor)
  }

  /** On a whole number `int()` gives that number back. */
  lemma TruncWhole(n: int)
    ensures Trunc(n as real) == n
  {
  }
}
