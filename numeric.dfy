/** Python's numeric conversions and saturation, on exact numbers. */
module Numeric {

  /** Python's int() applied to a number: truncation toward zero. */
  function Trunc(x: real): (r: int)
    ensures 0.0 <= x ==> r as real <= x < r as real + 1.0
    ensures x < 0.0 ==> r as real - 1.0 < x <= r as real
  {
    if x >= 0.0 then x.Floor else -((-x).Floor)
  }

  /** min(max(lo, x), hi) on integers. */
  function Clamp(lo: int, x: int, hi: int): (r: int)
    ensures lo <= hi ==> lo <= r <= hi
    ensures lo <= x <= hi ==> r == x
    ensures x <= lo <= hi ==> r == lo
    ensures lo <= hi <= x ==> r == hi
  {
    var m := if x > lo then x else lo;
    if hi < m then hi else m
  }

  /** min(max(lo, x), hi) on numbers. */
  function ClampReal(lo: real, x: real, hi: real): (r: real)
    ensures lo <= hi ==> lo <= r <= hi
    ensures lo <= x <= hi ==> r == x
    ensures x <= lo <= hi ==> r == lo
    ensures lo <= hi <= x ==> r == hi
  {
    var m := if x > lo then x else lo;
    if hi < m then hi else m
  }

  /** Truncating an integer-valued number gives that integer back. */
  lemma TruncOfInt(n: int)
    ensures Trunc(n as real) == n
  {
  }

  /**
   * Clamping to whole bounds commutes with truncation: truncate-then-clamp
   * (voltage(), current()) and clamp-then-truncate (the preset setters)
   * produce the same integer.
   */
  lemma ClampOrdersAgree(lo: int, x: real, hi: int)
    requires lo <= hi
    ensures Clamp(lo, Trunc(x), hi) == Trunc(ClampReal(lo as real, x, hi as real))
  {
    if x < lo as real {
      TruncOfInt(lo);
    } else if x > hi as real {
      TruncOfInt(hi);
    }
  }

  /** Scaling by a positive factor commutes with clamping. */
  lemma ScaleClamp(lo: real, x: real, hi: real, k: real)
    requires lo <= hi && (k == 10.0 || k == 100.0)
    ensures ClampReal(lo, x, hi) * k == ClampReal(lo * k, x * k, hi * k)
  {
  }
}
