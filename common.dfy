/** Integer conventions of the game's source language, shared by every module:
    division and remainder that truncate toward zero, the `u32` range, and an
    optional value for `checked_sub`. */
module Common {

  datatype Option<T> = None | Some(value: T)

  /** Largest value of an unsigned 32-bit integer (the type of the player's power). */
  const U32_MAX: int := 0xFFFF_FFFF

  /** Integer division as the game computes it: the quotient is truncated toward
      zero, so the remainder takes the sign of the dividend (unlike Dafny's `/`). */
  function TruncDiv(a: int, b: int): (q: int)
    requires b > 0
    ensures 0 <= a ==> 0 <= a - q * b < b
    ensures a < 0 ==> -b < a - q * b <= 0
  {
    if a >= 0 then a / b else -((-a) / b)
  }

  /** The remainder that goes with `TruncDiv`: it has the sign of the dividend,
      so for a negative dividend it is negative unless `b` divides it. */
  function TruncRem(a: int, b: int): (r: int)
    requires b > 0
    ensures 0 <= a ==> 0 <= r < b && r == a % b
    ensures a < 0 ==> -b < r <= 0
    ensures a == TruncDiv(a, b) * b + r
  {
    if a >= 0 then a % b else -((-a) % b)
  }

  function Abs(a: int): (r: nat)
    ensures r == a || r == -a
  {
    if a < 0 then -a else a
  }
}
