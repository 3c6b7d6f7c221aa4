/**
 * Java's 32-bit `int` arithmetic, written out over Dafny's unbounded integers.
 * `+` and `-` on `int` wrap around modulo 2^32 (two's complement), and `/`
 * truncates toward zero.
 */
module JavaInt {
  const MIN_VALUE: int := -0x8000_0000
  const MAX_VALUE: int := 0x7fff_ffff
  const MODULUS: int := 0x1_0000_0000

  /** The values of a Java `int`. */
  type Int32 = x: int | -0x8000_0000 <= x < 0x8000_0000

  /** The non-negative values of a Java `int` (sizes, measured dimensions). */
  type Size32 = x: int | 0 <= x < 0x8000_0000

  predicate InRange(x: int) {
    MIN_VALUE <= x <= MAX_VALUE
  }

  /** Two's-complement narrowing of an exact result to 32 bits. */
  function Wrap(x: int): (r: Int32)
    ensures InRange(x) ==> r == x
    ensures (x - r) % MODULUS == 0
  {
    (x + 0x8000_0000) % MODULUS - 0x8000_0000
  }

  /** Java `a + b` on `int`. */
  function Add(a: Int32, b: Int32): Int32 {
    Wrap(a + b)
  }

  /** Java `a - b` on `int`. */
  function Sub(a: Int32, b: Int32): Int32 {
    Wrap(a - b)
  }

  /** Java `x / 2` on `int`: the quotient rounded toward zero. */
  function Half(x: Int32): (r: Int32)
    ensures x >= 0 ==> 0 <= r && 2 * r <= x < 2 * r + 2
    ensures x < 0 ==> r <= 0 && 2 * r - 2 < x <= 2 * r
  {
    if x >= 0 then x / 2 else -((-(x as int)) / 2)
  }

  /** Shifting the exact value by a multiple of 2^32 does not change its wrapped value. */
  lemma WrapShift(x: int, q: int)
    ensures Wrap(x - q * MODULUS) == Wrap(x)
  {
    var z := x + 0x8000_0000;
    var d := z / MODULUS;
    var m := z % MODULUS;
    assert z == d * MODULUS + m && 0 <= m < MODULUS;
    assert z - q * MODULUS == (d - q) * MODULUS + m;
    ModUnique(z - q * MODULUS, d - q, m);
  }

  lemma ModUnique(z: int, d: int, m: int)
    requires 0 <= m < MODULUS && z == d * MODULUS + m
    ensures z % MODULUS == m
  {
  }

  /** Wrapping an intermediate result early gives the same final value. */
  lemma WrapThenAdd(x: int, y: int)
    ensures Wrap(Wrap(x) + y) == Wrap(x + y)
  {
    var q := (x + 0x8000_0000) / MODULUS;
    assert Wrap(x) == x - q * MODULUS;
    assert Wrap(x) + y == (x + y) - q * MODULUS;
    WrapShift(x + y, q);
  }

  /** Java `(a - b) + b == a` for every pair of `int`s, overflow or not. */
  lemma SubThenAdd(a: Int32, b: Int32)
    ensures Add(Sub(a, b), b) == a
  {
    WrapThenAdd(a - b, b);
  }

  /** Java `(a + b) - a == b` for every pair of `int`s, overflow or not. */
  lemma AddThenSub(a: Int32, b: Int32)
    ensures Sub(Add(a, b), a) == b
  {
    WrapThenAdd(a + b, -(a as int));
  }
}
