/** Java's 32-bit two's-complement `int`, with the wrap-around of `++` and `+`. */
module JavaInt {

  const Modulus: int := 0x1_0000_0000
  const MinValue: int := -0x8000_0000
  const MaxValue: int := 0x7fff_ffff

  type Int32 = x: int | MinValue <= x <= MaxValue

  /** Java's `b ? 1 : 0`. */
  function Ind(b: bool): nat {
    if b then 1 else 0
  }

  /** The Java `int` that an unbounded integer wraps to. */
  function Wrap(x: int): (r: Int32)
    ensures MinValue <= x <= MaxValue ==> r == x
  {
    (x - MinValue) % Modulus + MinValue
  }

  /** The wrapped value differs from the integer by a multiple of 2^32. */
  lemma WrapDiffers(x: int)
    ensures (Wrap(x) - x) % Modulus == 0
  {
    var m := (x - MinValue) % Modulus;
    assert x == (x - MinValue) / Modulus * Modulus + m + MinValue;
  }

  /** Java `x++` on an `int`. */
  function Inc(x: Int32): (r: Int32)
    ensures x < MaxValue ==> r == x + 1
    ensures x == MaxValue ==> r == MinValue
  {
    if x == MaxValue then MinValue else x + 1
  }

  /** Java `a + b` on two `int`s. */
  function Add(a: Int32, b: Int32): (r: Int32)
    ensures MinValue <= a + b <= MaxValue ==> r == a + b
  {
    Wrap(a + b)
  }

  /** Two integers that differ by a multiple of 2^32 wrap to the same `int`. */
  lemma WrapCongruent(x: int, y: int)
    requires (x - y) % Modulus == 0
    ensures Wrap(x) == Wrap(y)
  {
    var k := (x - y) / Modulus;
    assert x == y + k * Modulus;
    WrapDiffers(x);
    WrapDiffers(y);
    var rx, ry := Wrap(x), Wrap(y);
    var d := rx - ry;
    assert (rx - x) % Modulus == 0 && (ry - y) % Modulus == 0;
    var kx, ky := (rx - x) / Modulus, (ry - y) / Modulus;
    assert d == (kx - ky + k) * Modulus;
    assert -Modulus < d < Modulus;
  }

  /** Incrementing a wrapped count is wrapping the incremented count: `++` tracks a count modulo 2^32. */
  lemma IncWrap(n: int)
    ensures Inc(Wrap(n)) == Wrap(n + 1)
  {
    var w: int := Wrap(n);
    if w == MaxValue {
      WrapCongruent(n + 1, (n + 1) - Modulus);
      assert ((n + 1) - Modulus - (w + 1)) % Modulus == 0;
      WrapCongruent((n + 1) - Modulus, MinValue);
    } else {
      assert ((n + 1) - (w + 1)) % Modulus == 0;
      WrapCongruent(n + 1, w + 1);
    }
  }

  /** Java `int` addition of two wrapped counts is the wrapped sum of the counts. */
  lemma AddWrap(a: int, b: int)
    ensures Add(Wrap(a), Wrap(b)) == Wrap(a + b)
  {
    var wa, wb := Wrap(a), Wrap(b);
    WrapDiffers(a);
    WrapDiffers(b);
    var ka, kb := (wa - a) / Modulus, (wb - b) / Modulus;
    assert wa - a == ka * Modulus && wb - b == kb * Modulus;
    assert (wa + wb) - (a + b) == (ka + kb) * Modulus;
    WrapCongruent(wa + wb, a + b);
  }
}
