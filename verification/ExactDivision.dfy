/** div128: shift-and-subtract division of a 128-bit numerator. */
module ExactDivision {
  import opened FixedWidth

  function Pow2(n: nat): (p: nat)
    ensures p >= 1
  {
    if n == 0 then 1 else 2 * Pow2(n - 1)
  }

  /** Bit `i` of `x`. */
  function Bit(x: nat, i: nat): (b: nat)
    ensures b <= 1
  {
    (x / Pow2(i)) % 2
  }

  /** `x | 1 << i`. */
  function SetBit(x: nat, i: nat): nat {
    if Bit(x, i) == 1 then x else x + Pow2(i)
  }

  lemma {:induction false} Pow2Adds(m: nat, n: nat)
    ensures Pow2(m + n) == Pow2(m) * Pow2(n)
  {
    if m > 0 { Pow2Adds(m - 1, n); }
  }

  lemma Pow64()
    ensures Pow2(64) == TWO64 && Pow2(63) == TWO63
  {
    assert Pow2(4) == 16;
    Pow2Adds(4, 4);
    Pow2Adds(8, 8);
    Pow2Adds(16, 16);
    Pow2Adds(32, 32);
    assert 2 * Pow2(63) == Pow2(64);
  }

  lemma DivDiv(x: nat, a: nat, b: nat)
    requires a > 0 && b > 0
    ensures x / (a * b) == (x / a) / b
  {
    var t, s := x / a, x % a;
    var q, r := t / b, t % b;
    DivMod(x, a);
    DivMod(t, b);
    assert a * t == a * (b * q + r);
    Nested(a, b, q, r, s);
    DivUnique(x, a * b, q, a * r + s);
  }

  lemma DivMod(x: nat, d: nat)
    requires d > 0
    ensures x == d * (x / d) + x % d
  {
  }

  lemma Nested(a: nat, b: nat, q: nat, r: nat, s: nat)
    requires r < b && s < a
    ensures a * (b * q + r) + s == (a * b) * q + (a * r + s)
    ensures a * r + s < a * b
  {
    assert a * (b * q + r) == a * (b * q) + a * r;
    assert a * (b * q) == (a * b) * q;
    FixedWidth.MulUpper(a, r, a, b - 1);
    assert a * (b - 1) == a * b - a;
  }

  lemma DivUnique(x: nat, d: nat, q: nat, r: nat)
    requires d > 0 && x == d * q + r && r < d
    ensures x / d == q && x % d == r
  {
    var q' := x / d;
    if q' > q { assert d * q' >= d * (q + 1) by { FixedWidth.MulUpper(d, q + 1, d, q'); } }
    if q' < q { assert d * q >= d * (q' + 1) by { FixedWidth.MulUpper(d, q' + 1, d, q); } }
  }

  /** The prefix of `x` above bit `i` is the prefix above bit `i + 1`, shifted, plus bit `i`. */
  lemma PrefixStep(x: nat, i: nat)
    ensures x / Pow2(i) == 2 * (x / Pow2(i + 1)) + Bit(x, i)
  {
    DivDiv(x, Pow2(i), 2);
    assert Pow2(i + 1) == Pow2(i) * 2;
  }

  /** Bit `i` of hi:lo is a bit of one of the two words. */
  lemma WordBit(hi: nat, lo: nat, i: nat)
    requires hi < TWO64 && lo < TWO64 && i < 128
    ensures Bit(hi * TWO64 + lo, i) == if i >= 64 then Bit(hi, i - 64) else Bit(lo, i)
  {
    if i >= 64 { HighBit(hi, lo, i - 64); } else { LowBit(hi, lo, i); }
  }

  lemma HighBit(hi: nat, lo: nat, i: nat)
    requires lo < TWO64
    ensures Bit(hi * TWO64 + lo, 64 + i) == Bit(hi, i)
  {
    Pow64();
    Pow2Adds(64, i);
    DivDiv(hi * TWO64 + lo, TWO64, Pow2(i));
    DivUnique(hi * TWO64 + lo, TWO64, hi, lo);
  }

  /** hi * 2^64 is an even multiple of 2^i. */
  lemma LowBit(hi: nat, lo: nat, i: nat)
    requires i < 64
    ensures Bit(hi * TWO64 + lo, i) == Bit(lo, i)
  {
    Pow64();
    Pow2Adds(i, 64 - i);
    var p, m := Pow2(i), Pow2(63 - i);
    assert TWO64 == p * (2 * m);
    EvenMultiple(hi, lo, p, m);
  }

  lemma EvenMultiple(a: nat, b: nat, p: nat, m: nat)
    requires p > 0
    ensures ((a * (p * (2 * m)) + b) / p) % 2 == (b / p) % 2
  {
    var q, r := b / p, b % p;
    Regroup(a, p, m);
    Distribute(p, 2 * (a * m), q);
    DivUnique(a * (p * (2 * m)) + b, p, 2 * (a * m) + q, r);
    EvenPlus(a * m, q);
  }

  lemma Regroup(a: nat, p: nat, m: nat)
    ensures a * (p * (2 * m)) == p * (2 * (a * m))
  {
    assert a * (p * (2 * m)) == p * (a * (2 * m));
    assert a * (2 * m) == 2 * (a * m);
  }

  lemma Distribute(p: nat, a: nat, b: nat)
    ensures p * (a + b) == p * a + p * b
  {
  }

  lemma EvenPlus(a: nat, b: nat)
    ensures (2 * a + b) % 2 == b % 2
  {
  }

  /** A word whose low `i + 1` bits are clear has bit `i` clear, and setting it adds 2^i. */
  lemma SetClearBit(k: nat, i: nat)
    ensures k * Pow2(i + 1) == (2 * k) * Pow2(i)
    ensures SetBit(k * Pow2(i + 1), i) == (2 * k + 1) * Pow2(i)
  {
    assert k * Pow2(i + 1) == (2 * k) * Pow2(i);
    DivUnique(k * Pow2(i + 1), Pow2(i), 2 * k, 0);
    Distribute(Pow2(i), 2 * k, 1);
  }

  datatype U128 = U128(hi: nat, lo: nat) {
    function Value(): nat { hi * TWO64 + lo }
    predicate Fits() { hi < TWO64 && lo < TWO64 }
  }

  /** One bit of long division: the shifted remainder, whether or not `q` is subtracted. */
  lemma DivideStep(n: nat, i: nat, q: nat, prefix: nat, rem: nat)
    requires n / Pow2(i + 1) == prefix * q + rem && rem < q
    ensures var r := 2 * rem + Bit(n, i);
            n / Pow2(i) == (2 * prefix) * q + r
            && r < 2 * q
            && (r >= q ==> n / Pow2(i) == (2 * prefix + 1) * q + (r - q))
  {
    PrefixStep(n, i);
    assert 2 * (prefix * q) == (2 * prefix) * q;
    Distribute(q, 2 * prefix, 1);
  }

  /** What the two quotient words hold when the bits above `i` have been read. */
  ghost predicate Words(quoHi: nat, quoLo: nat, prefix: nat, i: nat) {
    if i >= 64 then
      quoLo == 0 && quoHi == prefix * Pow2(i - 64)
    else
      exists m: nat {:trigger m * Pow2(i)} ::
        quoLo == m * Pow2(i) && prefix == quoHi * Pow2(64 - i) + m && m < Pow2(64 - i)
  }

  lemma WordsHigh(quoHi: nat, quoLo: nat, prefix: nat, i: nat)
    requires Words(quoHi, quoLo, prefix, i + 1) && 64 <= i
    ensures Words(SetBit(quoHi, i - 64), quoLo, 2 * prefix + 1, i)
    ensures Words(quoHi, quoLo, 2 * prefix, i)
  {
    SetClearBit(prefix, i - 64);
  }

  lemma WordsMiddle(quoHi: nat, quoLo: nat, prefix: nat)
    requires Words(quoHi, quoLo, prefix, 64)
    ensures Words(quoHi, SetBit(quoLo, 63), 2 * prefix + 1, 63)
    ensures Words(quoHi, quoLo, 2 * prefix, 63)
  {
    assert Pow2(0) == 1 && Pow2(1) == 2;
    SetClearBit(0, 63);
    assert quoLo == 0 * Pow2(63) && SetBit(quoLo, 63) == 1 * Pow2(63);
  }

  /** Shifting one more bit `b` in below bit `i + 1`. */
  lemma LowWords(quoHi: nat, prefix: nat, i: nat, m: nat, b: nat)
    requires i < 63 && prefix == quoHi * Pow2(63 - i) + m && m < Pow2(63 - i) && b <= 1
    ensures 2 * prefix + b == quoHi * Pow2(64 - i) + (2 * m + b) && 2 * m + b < Pow2(64 - i)
  {
    var p := Pow2(63 - i);
    assert Pow2(64 - i) == 2 * p;
    assert quoHi * (2 * p) == 2 * (quoHi * p);
  }

  lemma WordsLow(quoHi: nat, quoLo: nat, prefix: nat, i: nat)
    requires Words(quoHi, quoLo, prefix, i + 1) && i < 63
    ensures Words(quoHi, SetBit(quoLo, i), 2 * prefix + 1, i)
    ensures Words(quoHi, quoLo, 2 * prefix, i)
  {
    var m: nat :| quoLo == m * Pow2(i + 1) && prefix == quoHi * Pow2(64 - (i + 1)) + m && m < Pow2(64 - (i + 1));
    SetClearBit(m, i);
    LowWords(quoHi, prefix, i, m, 0);
    LowWords(quoHi, prefix, i, m, 1);
    assert quoLo == (2 * m) * Pow2(i);
    assert SetBit(quoLo, i) == (2 * m + 1) * Pow2(i);
  }

  /** The word that holds position `i` gets the quotient bit `b`. */
  function NextHi(quoHi: nat, i: nat, b: nat): nat {
    if b == 1 && i >= 64 then SetBit(quoHi, i - 64) else quoHi
  }

  function NextLo(quoLo: nat, i: nat, b: nat): nat {
    if b == 1 && i < 64 then SetBit(quoLo, i) else quoLo
  }

  lemma WordsStep(quoHi: nat, quoLo: nat, prefix: nat, i: nat, b: nat)
    requires Words(quoHi, quoLo, prefix, i + 1) && b <= 1
    ensures Words(NextHi(quoHi, i, b), NextLo(quoLo, i, b), 2 * prefix + b, i)
  {
    if i >= 64 { WordsHigh(quoHi, quoLo, prefix, i); }
    else if i == 63 { WordsMiddle(quoHi, quoLo, prefix); }
    else { WordsLow(quoHi, quoLo, prefix, i); }
  }

  lemma WordsEnd(quoHi: nat, quoLo: nat, prefix: nat)
    requires Words(quoHi, quoLo, prefix, 0)
    ensures prefix == quoHi * TWO64 + quoLo && quoLo < TWO64
  {
    Pow64();
    var m: nat :| quoLo == m * Pow2(0) && prefix == quoHi * Pow2(64) + m && m < Pow2(64);
  }

  /** What long division knows when the bits above `i` have been read. */
  ghost predicate Divided(n: nat, q: nat, i: nat, prefix: nat, rem: nat) {
    n / Pow2(i) == prefix * q + rem && rem < q
  }

  lemma ReadNextBit(n: nat, q: nat, i: nat, prefix: nat, rem: nat, r: nat, b: nat)
    requires Divided(n, q, i + 1, prefix, rem) && r == 2 * rem + Bit(n, i) && b == if r >= q then 1 else 0
    ensures r < 2 * q && b * q <= r && Divided(n, q, i, 2 * prefix + b, r - b * q)
  {
    DivideStep(n, i, q, prefix, rem);
    if b == 1 { assert b * q == q; }
  }

  /** Reading bit `i` in words: the remainder is shifted in 64 bits and loses nothing. */
  lemma ReadBit(hi: nat, lo: nat, q: nat, i: nat, prefix: nat, rem: nat)
    requires hi < TWO64 && lo < TWO64 && q < TWO63 && i < 128
    requires Divided(hi * TWO64 + lo, q, i + 1, prefix, rem)
    ensures var r := (2 * rem) % TWO64 + WordOfBit(hi, lo, i);
            var b := if r >= q then 1 else 0;
            r < TWO64 && b * q <= r && Divided(hi * TWO64 + lo, q, i, 2 * prefix + b, r - b * q)
  {
    WordBit(hi, lo, i);
    NoWrap(rem, q);
    var r := 2 * rem + WordOfBit(hi, lo, i);
    ReadNextBit(hi * TWO64 + lo, q, i, prefix, rem, r, if r >= q then 1 else 0);
  }

  lemma NoWrap(rem: nat, q: nat)
    requires rem < q < TWO63
    ensures (2 * rem) % TWO64 == 2 * rem && 2 * q < TWO64
  {
  }

  /** Bit `i` of hi:lo, taken from the word it lies in. */
  function WordOfBit(hi: nat, lo: nat, i: nat): (b: nat)
    ensures b <= 1
  {
    if i >= 64 then Bit(hi, i - 64) else Bit(lo, i)
  }

  /** One turn of the loop: shift in bit `i` and subtract the divisor where it fits. */
  method DivideBit(hi: nat, lo: nat, q: nat, i: nat, quoHi0: nat, quoLo0: nat, rem0: nat, ghost prefix0: nat)
    returns (quoHi: nat, quoLo: nat, rem: nat, ghost prefix: nat)
    requires hi < TWO64 && lo < TWO64 && 0 < q < TWO63 && i < 128
    requires Divided(hi * TWO64 + lo, q, i + 1, prefix0, rem0) && Words(quoHi0, quoLo0, prefix0, i + 1)
    ensures Divided(hi * TWO64 + lo, q, i, prefix, rem) && Words(quoHi, quoLo, prefix, i)
  {
    ReadBit(hi, lo, q, i, prefix0, rem0);
    quoHi, quoLo := quoHi0, quoLo0;
    rem := (2 * rem0) % TWO64;
    rem := rem + WordOfBit(hi, lo, i); // rem |= bit, on an even word
    var b := if rem >= q then 1 else 0;
    WordsStep(quoHi, quoLo, prefix0, i, b);
    if rem >= q {
      rem := rem - q;
      quoHi, quoLo := NextHi(quoHi, i, 1), NextLo(quoLo, i, 1);
    }
    prefix := 2 * prefix0 + b;
  }

  /** Long division, exact for every positive int64 divisor. The shifted remainder stays
    * below 2 * q <= 2^64, so it never loses its top bit. */
  method Div128(hi: nat, lo: nat, q: nat) returns (quo: U128, rem: nat)
    requires hi < TWO64 && lo < TWO64 && 0 < q < TWO63
    ensures quo.Fits() && rem < q
    ensures hi * TWO64 + lo == quo.Value() * q + rem
  {
    var quoHi, quoLo := 0, 0;
    rem := 0;
    ghost var prefix: nat := 0; // the quotient of the bits read so far
    Start(hi, lo);
    var i := 128;
    while i > 0
      invariant 0 <= i <= 128
      invariant Divided(hi * TWO64 + lo, q, i, prefix, rem)
      invariant Words(quoHi, quoLo, prefix, i)
    {
      i := i - 1;
      quoHi, quoLo, rem, prefix := DivideBit(hi, lo, q, i, quoHi, quoLo, rem, prefix);
    }
    quo := U128(quoHi, quoLo);
    WordsEnd(quoHi, quoLo, prefix);
    HighWordFits(hi, lo, quoHi, quoLo, q, rem);
  }

  lemma Start(hi: nat, lo: nat)
    requires hi < TWO64 && lo < TWO64
    ensures (hi * TWO64 + lo) / Pow2(128) == 0 && Words(0, 0, 0, 128)
  {
    Pow64();
    Pow2Adds(64, 64);
    DivUnique(hi * TWO64 + lo, Pow2(128), 0, hi * TWO64 + lo);
  }

  lemma HighWordFits(hi: nat, lo: nat, quoHi: nat, quoLo: nat, q: nat, rem: nat)
    requires hi < TWO64 && lo < TWO64 && q > 0
    requires hi * TWO64 + lo == (quoHi * TWO64 + quoLo) * q + rem
    ensures quoHi < TWO64
  {
    FixedWidth.MulUpper(quoHi * TWO64 + quoLo, 1, quoHi * TWO64 + quoLo, q);
  }
}
