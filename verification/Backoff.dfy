/** The built-in backoff of computeBackoffDelay, in 64-bit nanoseconds. */
module Backoff {
  import opened Wrappers

  datatype Strategy = Strategy(kind: string, delay: int)

  const MAX_INT64 := 0x7FFF_FFFF_FFFF_FFFF
  const MIN_INT64 := -0x8000_0000_0000_0000

  predicate IsInt64(n: int) {
    MIN_INT64 <= n <= MAX_INT64
  }

  /** The value a 64-bit register keeps of n. */
  function Wrap(n: int): int {
    (n - MIN_INT64) % 0x1_0000_0000_0000_0000 + MIN_INT64
  }

  function Pow2(n: nat): (r: int)
    ensures r >= 1
  {
    if n == 0 then 1 else 2 * Pow2(n - 1)
  }

  /** Go's division: toward zero. */
  function Quotient(a: int, b: int): int
    requires b > 0
  {
    if a >= 0 then a / b else -((-a) / b)
  }

  function ComputeDelay(b: Option<Strategy>, attempts: int): int {
    if b.None? || attempts < 1 then
      0
    else if b.value.kind == "fixed" then
      b.value.delay
    else if b.value.kind == "exponential" then
      var shift := attempts - 1;
      if shift >= 63 then
        MAX_INT64
      else
        var factor := Wrap(Pow2(shift));
        if factor > 0 && b.value.delay > Quotient(MAX_INT64, factor) then MAX_INT64 else Wrap(b.value.delay * factor)
    else
      0
  }

  function Min(a: int, b: int): int {
    if a <= b then a else b
  }

  lemma {:induction false} PowGrows(m: nat, n: nat)
    requires m <= n
    ensures Pow2(m) <= Pow2(n)
    decreases n
  {
    if m < n {
      PowGrows(m, n - 1);
    }
  }

  lemma Pow62()
    ensures Pow2(62) == 0x4000_0000_0000_0000
  {
    assert Pow2(10) == 1024;
    PowAdds(10, 10);
    PowAdds(20, 20);
    PowAdds(40, 20);
    PowAdds(60, 2);
    assert Pow2(2) == 4;
  }

  lemma {:induction false} PowAdds(m: nat, n: nat)
    ensures Pow2(m + n) == Pow2(m) * Pow2(n)
  {
    if n > 0 {
      PowAdds(m, n - 1);
      assert Pow2(m) * Pow2(n) == 2 * (Pow2(m) * Pow2(n - 1));
    }
  }

  /** The test before the multiplication is exact. */
  lemma TestIsExact(d: int, factor: int)
    requires factor > 0
    ensures d > MAX_INT64 / factor <==> d * factor > MAX_INT64
  {
    var q, r := MAX_INT64 / factor, MAX_INT64 % factor;
    assert MAX_INT64 == q * factor + r && 0 <= r < factor;
    if d >= q + 1 {
      assert d * factor >= (q + 1) * factor;
    } else {
      assert d * factor <= q * factor;
    }
  }

  lemma Unwrapped(n: int)
    requires IsInt64(n)
    ensures Wrap(n) == n
  {
  }

  lemma TimesMonotone(a: int, b: int, c: int)
    requires a <= b && c >= 0
    ensures a * c <= b * c && c * a <= c * b
  {
  }

  lemma LargeProduct(d: int, shift: nat)
    requires d > 0 && shift >= 63
    ensures d * Pow2(shift) > MAX_INT64
  {
    Pow62();
    PowGrows(63, shift);
    assert Pow2(63) == 2 * Pow2(62);
    hide Pow2;
    TimesMonotone(1, d, Pow2(shift));
  }

  /**
    The exponential backoff is exactly the doubled delay cut off at the largest duration, and
    neither the power nor the product overflows on the way.
   */
  lemma ExponentialIsClamped(d: int, n: int)
    requires 0 < d <= MAX_INT64 && n >= 1
    ensures ComputeDelay(Some(Strategy("exponential", d)), n) == Min(d * Pow2(n - 1), MAX_INT64)
    ensures n - 1 < 63 ==> IsInt64(Pow2(n - 1))
    ensures n - 1 < 63 && !(d > MAX_INT64 / Pow2(n - 1)) ==> IsInt64(d * Pow2(n - 1))
  {
    var shift := n - 1;
    if shift >= 63 {
      LargeProduct(d, shift);
    } else {
      Pow62();
      PowGrows(shift, 62);
      Unwrapped(Pow2(shift));
      TestIsExact(d, Pow2(shift));
      assert d * Pow2(shift) > 0;
    }
  }

  /** A fixed backoff is its delay at every attempt; without a backoff, or with one of another kind, there is none. */
  lemma OtherBackoffs(kind: string, d: int, n: int)
    ensures n >= 1 ==> ComputeDelay(Some(Strategy("fixed", d)), n) == d
    ensures kind != "fixed" && kind != "exponential" ==> ComputeDelay(Some(Strategy(kind, d)), n) == 0
    ensures n < 1 ==> ComputeDelay(Some(Strategy(kind, d)), n) == 0
    ensures ComputeDelay(None, n) == 0
  {
  }

  /** Later attempts never wait less. */
  lemma ExponentialIsMonotone(d: int, m: int, n: int)
    requires 0 < d <= MAX_INT64 && 1 <= m <= n
    ensures var b := Some(Strategy("exponential", d)); 0 < ComputeDelay(b, m) <= ComputeDelay(b, n) <= MAX_INT64
  {
    hide Pow2, ComputeDelay;
    ExponentialIsClamped(d, m);
    ExponentialIsClamped(d, n);
    PowGrows(m - 1, n - 1);
    TimesMonotone(Pow2(m - 1), Pow2(n - 1), d);
    TimesMonotone(1, d, Pow2(m - 1));
  }

  /** From attempt 64 on the result is the largest duration, whatever the sign of the delay. */
  lemma ManyAttemptsSaturate(d: int, n: int)
    requires n >= 64
    ensures ComputeDelay(Some(Strategy("exponential", d)), n) == MAX_INT64
  {
  }

  /**
    A negative delay, which asks for no further attempt, is doubled faithfully exactly while the
    product fits and no more than 63 attempts were made.
   */
  lemma NegativeDelayIsFaithful(d: int, n: int)
    requires MIN_INT64 <= d < 0 && n >= 1
    ensures ComputeDelay(Some(Strategy("exponential", d)), n) == d * Pow2(n - 1)
       <==> n <= 63 && d * Pow2(n - 1) >= MIN_INT64
  {
    var factor := Pow2(n - 1);
    assert d * factor < 0;
    if n >= 64 {
      ManyAttemptsSaturate(d, n);
    } else {
      Pow62();
      PowGrows(n - 1, 62);
      Unwrapped(factor);
      assert Quotient(MAX_INT64, factor) >= 0;
    }
  }

  /** At attempt 64 a delay of -1 becomes the longest wait, although the product would fit. */
  lemma NegativeDelayTurnsPositive()
    ensures -1 * Pow2(63) == MIN_INT64
    ensures ComputeDelay(Some(Strategy("exponential", -1)), 64) == MAX_INT64
  {
    Pow62();
    assert Pow2(63) == 2 * Pow2(62);
    ManyAttemptsSaturate(-1, 64);
  }
}
