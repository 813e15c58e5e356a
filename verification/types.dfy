/** Fixed-width integer types of the engine (Si16, Si32, Ui8) and the
    truncating conversion that a C++ float-to-integer cast performs. */
module Types {

  /** Signed 16-bit integer. */
  type Si16 = x: int | -0x8000 <= x < 0x8000

  /** Signed 32-bit integer. */
  type Si32 = x: int | -0x8000_0000 <= x < 0x8000_0000

  /** Unsigned 8-bit integer (one output byte). */
  type Ui8 = x: int | 0 <= x < 0x100

  /** The C++ cast of a floating value to an integer: truncation toward zero. */
  function Trunc(r: real): (n: int)
    ensures 0.0 <= r ==> n as real <= r < n as real + 1.0
    ensures r < 0.0 ==> n as real - 1.0 < r <= n as real
  {
    if r < 0.0 then -((-r).Floor) else r.Floor
  }

  /** Truncation never moves a value away from zero and keeps an integral value. */
  lemma TruncBounds(r: real, bound: int)
    requires -(bound as real) <= r <= bound as real
    ensures -bound <= Trunc(r) <= bound
    ensures Trunc(r) == 0 || (Trunc(r) > 0 <==> r > 0.0)
  {
  }

  /** Truncating an integral value gives that value back. */
  lemma TruncOfInt(n: int)
    ensures Trunc(n as real) == n
  {
  }
}
