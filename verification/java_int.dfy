/** Java's `int`: a signed 32-bit two's-complement integer whose arithmetic wraps. */
module JavaInt {

  const TWO_POW_32: int := 0x1_0000_0000
  const INT_MIN: int := -0x8000_0000
  const INT_MAX: int := 0x7FFF_FFFF

  type int32 = x: int | INT_MIN <= x <= INT_MAX

  /** The value Java's `int` arithmetic leaves when the exact result is `x`:
      the one 32-bit value congruent to `x` modulo 2^32. */
  function Wrap(x: int): (r: int32)
    ensures (x - r) % TWO_POW_32 == 0
    ensures INT_MIN <= x <= INT_MAX ==> r == x
  {
    (x - INT_MIN) % TWO_POW_32 + INT_MIN
  }

  /** Java's `a * b` on ints. */
  function Mul(a: int32, b: int32): int32 {
    Wrap(a * b)
  }

  /** Java's `a + b` on ints. */
  function Add(a: int32, b: int32): int32 {
    Wrap(a + b)
  }

  /** Adding a multiple of 2^32 does not change the wrapped Java int. */
  lemma WrapShift(y: int, n: int)
    ensures Wrap(y + n * TWO_POW_32) == Wrap(y)
  {
  }

  /** Wrapping the running value does not change the final wrapped value of
      a `31 * r + x` step: Java's wrap-around after every operation gives the
      exact value wrapped once. */
  lemma WrapMulAdd31(r: int, x: int32)
    ensures Add(Mul(31, Wrap(r)), x) == Wrap(31 * r + x)
  {
    var k := (r - INT_MIN) / TWO_POW_32;
    var w := Wrap(r);
    assert w == r - k * TWO_POW_32;
    var j := (31 * w - INT_MIN) / TWO_POW_32;
    var p := Mul(31, w);
    assert p == 31 * w - j * TWO_POW_32;
    assert p + x == (31 * r + x) + (-(31 * k + j)) * TWO_POW_32;
    WrapShift(31 * r + x, -(31 * k + j));
  }
}
