/**
 * Fixed-width integer behaviour of the C++ operations the bitrate controller
 * uses: unsigned 32-bit subtraction, the conversion of a `uint32_t` into an
 * `int`, the conversion of an `int` into a `uint8_t`, and C++ division, which
 * truncates toward zero (Dafny's `/` on `int` is Euclidean).
 */
module Ints {

  const TWO_TO_THE_8: int := 0x100
  const TWO_TO_THE_31: int := 0x8000_0000
  const TWO_TO_THE_32: int := 0x1_0000_0000

  type uint8 = x: int | 0 <= x < 0x100
  type uint32 = x: int | 0 <= x < 0x1_0000_0000
  type int32 = x: int | -0x8000_0000 <= x < 0x8000_0000
  type int64 = x: int | -0x8000_0000_0000_0000 <= x < 0x8000_0000_0000_0000

  function Min(a: int, b: int): int { if a <= b then a else b }

  function Max(a: int, b: int): int { if a >= b then a else b }

  function Abs(a: int): nat { if a < 0 then -a else a }

  /** `a - b` on two `uint32_t` values: at most one wrap-around modulo 2^32. */
  function SubU32(a: uint32, b: uint32): (r: uint32)
    ensures (r - (a - b)) % TWO_TO_THE_32 == 0
    ensures b <= a ==> r == a - b
    ensures a < b ==> r == TWO_TO_THE_32 - (b - a)
  {
    (a - b) % TWO_TO_THE_32
  }

  /**
   * A `uint32_t` stored into an `int`: the 32-bit two's-complement value
   * with the same bit pattern, which is the one int32 congruent to `x`.
   */
  function AsInt32(x: uint32): (r: int32)
    ensures (r - x) % TWO_TO_THE_32 == 0
    ensures r < 0 <==> x >= TWO_TO_THE_31
  {
    if x < TWO_TO_THE_31 then x else x - TWO_TO_THE_32
  }

  /** An `int` passed where a `uint8_t` is expected: reduction modulo 2^8. */
  function AsUint8(x: int): (r: uint8)
    ensures (r - x) % TWO_TO_THE_8 == 0
    ensures 0 <= x < TWO_TO_THE_8 ==> r == x
  {
    x % TWO_TO_THE_8
  }

  /**
   * C++ integer division: the quotient truncated toward zero, so that the
   * remainder is smaller than the divisor in magnitude and has the sign of
   * the dividend.
   */
  function TruncDiv(a: int, b: int): (q: int)
    requires b != 0
    ensures Abs(a - q * b) < Abs(b)
    ensures a - q * b == 0 || (a - q * b < 0 <==> a < 0)
  {
    var qa := Abs(a) / Abs(b);
    var q := if (a < 0) == (b < 0) then qa else -qa;
    TruncDivRemainder(a, b, qa, q);
    q
  }

  lemma TruncDivRemainder(a: int, b: int, qa: int, q: int)
    requires b != 0 && qa == Abs(a) / Abs(b)
    requires q == if (a < 0) == (b < 0) then qa else -qa
    ensures a - q * b == if a < 0 then -(Abs(a) % Abs(b)) else Abs(a) % Abs(b)
  {
    var m: int, n: int := Abs(a), Abs(b);
    var r := m % n;
    assert m == qa * n + r;
    var p := qa * n;
    if b < 0 {
      assert b == -n;
      NegateFactor(q, n);
      assert q * b == -(q * n);
      if a < 0 {
        assert q == qa;
      } else {
        NegateFactor(qa, n);
        assert q * n == -p;
      }
    } else {
      assert b == n;
      if a < 0 {
        NegateFactor(qa, n);
        assert q * n == -p;
      }
    }
  }

  lemma NegateFactor(x: int, y: int)
    ensures (-x) * y == -(x * y) && x * (-y) == -(x * y)
  {
  }
}
