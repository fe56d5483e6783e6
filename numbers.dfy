/** Python's numeric built-ins on reals and integers: `int()` on a float
    and the `max(lo, min(x, hi))` clamp. */
module Numbers {
  /** Python's `int()` on a float: truncation toward zero. */
  function Trunc(x: real): (r: int)
    ensures x >= 0.0 ==> 0 <= r && r as real <= x < r as real + 1.0
    ensures x < 0.0 ==> r <= 0 && r as real - 1.0 < x <= r as real
  {
    if x >= 0.0 then x.Floor else -((-x).Floor)
  }

  /** Two reals less than one apart truncate to integers at most one apart. */
  lemma TruncClose(u: real, v: real)
    requires -1.0 < u - v < 1.0
    ensures -1 <= Trunc(u) - Trunc(v) <= 1
  {
  }

  /** Truncation is monotone. */
  lemma TruncMonotone(u: real, v: real)
    requires u <= v
    ensures Trunc(u) <= Trunc(v)
  {
  }

  /** `max(lo, min(x, hi))` on integers. */
  function ClampInt(x: int, lo: int, hi: int): (r: int)
    ensures lo <= r && (lo <= hi ==> r <= hi)
    ensures lo <= x <= hi ==> r == x
    ensures x < lo ==> r == lo
    ensures lo <= hi < x ==> r == hi
  {
    if lo > (if x < hi then x else hi) then lo else if x < hi then x else hi
  }

  /** `max(lo, min(x, hi))` on reals. Python's `max` and `min` work on any
      ordered values; Dafny's `int` and `real` share no ordered supertype, so
      the clamp is stated once for each of the two types the games use. */
  function ClampReal(x: real, lo: real, hi: real): (r: real)
    ensures lo <= r && (lo <= hi ==> r <= hi)
    ensures lo <= x <= hi ==> r == x
    ensures x < lo ==> r == lo
    ensures lo <= hi < x ==> r == hi
  {
    if lo > (if x < hi then x else hi) then lo else if x < hi then x else hi
  }
}
