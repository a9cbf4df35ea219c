/**
 * The Java arithmetic the connector relies on: `Math.min` on integers.
 */
module JavaMath {

  /** Math.min. */
  function Min(a: int, b: int): (m: int)
    ensures m <= a && m <= b
    ensures m == a || m == b
  {
    if a <= b then a else b
  }
}
