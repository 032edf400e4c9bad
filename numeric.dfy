/** The integer conversions the source performs on floating-point values. */
module Numeric {

  /** C++'s float-to-int conversion, which truncates toward zero. */
  function Trunc(x: real): (r: int)
    ensures x >= 0.0 ==> 0 <= r && r as real <= x < r as real + 1.0
    ensures x < 0.0 ==> r <= 0 && r as real - 1.0 < x <= r as real
  {
    if x >= 0.0 then x.Floor else -((-x).Floor)
  }

  /** Adding a non-negative float to an integer stock and truncating the sum
      back to an integer (`store[c] += randRange(0, hi)`) never lowers the
      stock and raises it by at most `hi`, even when the stock is negative. */
  lemma TruncAddBounds(n: int, x: real, hi: nat)
    requires 0.0 <= x <= hi as real
    ensures n <= Trunc(n as real + x) <= n + hi
  {
  }

  function Min(a: int, b: int): (r: int)
    ensures r <= a && r <= b
    ensures r == a || r == b
  {
    if a < b then a else b
  }
}
