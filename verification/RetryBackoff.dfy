/** The delay before a failed job is tried again. */
module RetryBackoff {
  import opened FixedWidth
  import opened ExactDivision

  /** 30 seconds in nanoseconds. */
  const CAP := 30_000_000_000

  type Duration = x: int | -0x8000_0000_0000_0000 <= x <= 0x7FFF_FFFF_FFFF_FFFF

  /** An int64 product, wrapped. */
  function Doubled(d: Duration): (r: Duration)
    ensures 0 < d < 0x4000_0000_0000_0000 ==> r == 2 * d
  {
    Signed((2 * d) % TWO64)
  }

  /** base * 2^n in exact arithmetic. */
  ghost function Backoff(base: nat, n: nat): nat {
    base * Pow2(n)
  }

  lemma BackoffDoubles(base: nat, n: nat)
    ensures Backoff(base, 0) == base && Backoff(base, n + 1) == 2 * Backoff(base, n)
  {
    assert base * (2 * Pow2(n)) == 2 * (base * Pow2(n));
  }

  lemma {:induction false} BackoffAscends(base: nat, i: nat, j: nat)
    requires i <= j
    ensures Backoff(base, i) <= Backoff(base, j)
    decreases j - i
  {
    if i < j {
      BackoffAscends(base, i, j - 1);
      BackoffDoubles(base, j - 1);
    }
  }

  /** base * 2^n as an int64 holds it. */
  ghost function Wrapped(base: Duration, n: nat): Duration {
    Signed((base * Pow2(n)) % TWO64)
  }

  lemma WrapsDrop(y: int, q: int)
    ensures (y + q * 0x1_0000_0000_0000_0000) % 0x1_0000_0000_0000_0000 == y % 0x1_0000_0000_0000_0000
  {
  }

  /** Wrapping before a doubling makes no difference. */
  lemma DoublesWrapped(x: int)
    ensures (2 * Signed(x % TWO64)) % TWO64 == (2 * x) % TWO64
  {
    var q, y := x / TWO64, Signed(x % TWO64);
    var over := if x % TWO64 < TWO63 then q else q + 1;
    assert x == y + over * 0x1_0000_0000_0000_0000;
    WrapsDrop(2 * y, 2 * over);
  }

  lemma WrappedAtFirst(base: Duration)
    ensures Wrapped(base, 0) == base
  {
    assert base * Pow2(0) == base;
    if base < 0 { WrapsDrop(base, 1); }
  }

  lemma WrappedDoubles(base: Duration, n: nat)
    ensures Wrapped(base, n + 1) == Doubled(Wrapped(base, n))
  {
    DoublesWrapped(base * Pow2(n));
    assert base * (2 * Pow2(n)) == 2 * (base * Pow2(n));
  }

  /** The delay of attempt n is base * 2^n in int64 arithmetic, unless that reaches 30 seconds
    * on the way. For any base whose double is still an int64 that is base * 2^n clamped to 30
    * seconds; but the clamp is only looked at after a doubling, so attempt 0 would wait the
    * base itself, however long. */
  method RetryDelay(base: Duration, attempt: nat) returns (delay: Duration)
    ensures delay == CAP || delay == Wrapped(base, attempt)
    ensures (exists i :: 0 < i <= attempt && Wrapped(base, i) >= CAP) ==> delay == CAP
    ensures (forall i :: 0 < i <= attempt ==> Wrapped(base, i) < CAP) ==> delay == Wrapped(base, attempt)
    ensures attempt == 0 ==> delay == base
    ensures attempt > 0 && 0 < base < 0x4000_0000_0000_0000 ==>
              delay == if Backoff(base, attempt) < CAP then Backoff(base, attempt) else CAP
  {
    delay := base;
    if base > 0 { BackoffDoubles(base, 0); }
    WrappedAtFirst(base);
    for i := 0 to attempt
      invariant delay == Wrapped(base, i) && (i == 0 ==> delay == base)
      invariant forall j :: 0 < j <= i ==> Wrapped(base, j) < CAP
      invariant 0 < base < 0x4000_0000_0000_0000 ==> delay == Backoff(base, i) > 0 && (i > 0 ==> delay < CAP)
    {
      WrappedDoubles(base, i);
      delay := Doubled(delay);
      if base > 0 { BackoffDoubles(base, i); }
      if delay >= CAP {
        if base > 0 { BackoffAscends(base, i + 1, attempt); }
        return CAP;
      }
    }
  }
}
