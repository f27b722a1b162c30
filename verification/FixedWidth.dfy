/** The machine words the billing code computes with, written out over the integers. */
module FixedWidth {

  const TWO63: nat := 0x8000_0000_0000_0000
  const TWO64: nat := 0x1_0000_0000_0000_0000
  const MAX_INT64: nat := 0x7FFF_FFFF_FFFF_FFFF

  /** A non-negative int64. */
  type Amount = x: int | 0 <= x <= 0x7FFF_FFFF_FFFF_FFFF

  /** bits.Add64: the sum modulo 2^64, and the carry out. */
  function Add64(a: nat, b: nat, carry: nat): (r: (nat, nat))
    requires a < TWO64 && b < TWO64 && carry <= 1
    ensures r.0 < TWO64 && r.1 <= 1 && r.1 * TWO64 + r.0 == a + b + carry
  {
    if a + b + carry < TWO64 then (a + b + carry, 0) else (a + b + carry - TWO64, 1)
  }

  /** bits.Mul64: the high and low words of the product. */
  function Mul64(a: nat, b: nat): (r: (nat, nat))
    requires a < TWO64 && b < TWO64
    ensures r.0 < TWO64 && r.1 < TWO64 && r.0 * TWO64 + r.1 == a * b
  {
    assert a * b <= (TWO64 - 1) * (TWO64 - 1) by { MulUpper(a, b, TWO64 - 1, TWO64 - 1); }
    ((a * b) / TWO64, (a * b) % TWO64)
  }

  lemma MulUpper(a: nat, b: nat, a': nat, b': nat)
    requires a <= a' && b <= b'
    ensures a * b <= a' * b'
  {
    assert a * b <= a' * b by { assert (a' - a) * b >= 0; }
    assert a' * b <= a' * b' by { assert a' * (b' - b) >= 0; }
  }

  /** int64(x) of a uint64 bit pattern. */
  function Signed(x: nat): int
    requires x < TWO64
  {
    if x < TWO63 then x else x - TWO64
  }

  /** uint64(x) of an int64. */
  function Unsigned(x: int): (r: nat)
    requires -0x8000_0000_0000_0000 <= x < TWO63
    ensures r < TWO64 && Signed(r) == x
  {
    if x >= 0 then x else x + TWO64
  }
}
