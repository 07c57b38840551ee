/** Exponential backoff in wrapping 64-bit arithmetic. */
module Backoff {
  import opened Int64

  function Pow2(k: nat): (p: nat)
    ensures 1 <= p
  {
    if k == 0 then 1 else 2 * Pow2(k - 1)
  }

  /** The cap if one is set, otherwise the largest duration. */
  function Limit(cap: int): int {
    if cap > 0 then cap else MAX_INT64
  }

  /** base * 2^(attempt - 1) in unbounded arithmetic, attempts below 1 counting as 1. */
  function Ideal(base: nat, attempt: int): nat {
    base * Pow2(if attempt < 1 then 0 else attempt - 1)
  }

  function Delay(base: nat, cap: int, attempt: int): int {
    if Ideal(base, attempt) < Limit(cap) then Ideal(base, attempt) else Limit(cap)
  }

  /** Doubling a non-negative duration wraps to something smaller exactly when it overflows. */
  lemma OverflowIsDetected(d: int)
    requires 0 <= d <= MAX_INT64
    ensures Wrap64(2 * d) < d <==> MAX_INT64 < 2 * d
    ensures 2 * d <= MAX_INT64 ==> Wrap64(2 * d) == 2 * d
  {
    if MAX_INT64 < 2 * d {
      assert Wrap64(2 * d) == 2 * d - 0x1_0000_0000_0000_0000;
    }
  }

  lemma {:induction false} Grows(base: nat, j: nat, k: nat)
    requires j <= k
    ensures base * Pow2(j) <= base * Pow2(k)
    decreases k
  {
    if j < k {
      Grows(base, j, k - 1);
      assert base * Pow2(k) == 2 * (base * Pow2(k - 1));
    }
  }

  /** What Next returns for any base: a negative one overflows at its first doubling, or wraps to a positive one. */
  function Outcome(base: int, cap: int, attempt: int): int {
    if base >= 0 then Delay(base, cap, attempt)
    else if attempt <= 1 then MAX_INT64
    else if MIN_INT64 <= 2 * base then Limit(cap)
    else Delay(Wrapped(base), cap, attempt - 1)
  }

  function Wrapped(base: int): nat {
    if 2 * base < MIN_INT64 && MIN_INT64 <= base then 2 * base + 0x1_0000_0000_0000_0000 else 0
  }

  /** The first doubling of a negative base. */
  lemma NegativeDoubles(base: int)
    requires MIN_INT64 <= base < 0
    ensures if MIN_INT64 <= 2 * base then Wrap64(2 * base) == 2 * base < base else Wrap64(2 * base) == Wrapped(base)
  {
  }

  /** The duration once i - 1 doublings have not overflowed. */
  ghost function Doubled(base: int, i: int): int
    requires 1 <= i && IsInt64(base)
  {
    if base >= 0 then base * Pow2(i - 1) else if i == 1 then base else Wrapped(base) * Pow2(i - 2)
  }

  lemma OneMore(base: nat, k: nat)
    ensures base * Pow2(k + 1) == 2 * (base * Pow2(k))
  {
  }

  /** Every doubling but a negative base's first: the next duration, or a detected overflow. */
  lemma Doubles(base: int, i: int)
    requires 1 <= i && IsInt64(base) && IsInt64(Doubled(base, i)) && (base < 0 ==> 1 < i)
    ensures var d := Doubled(base, i);
      && 0 <= d && Doubled(base, i + 1) == 2 * d
      && (Wrap64(2 * d) < d <==> MAX_INT64 < 2 * d) && (2 * d <= MAX_INT64 ==> Wrap64(2 * d) == 2 * d)
  {
    if base >= 0 {
      OneMore(base, i - 1);
    } else {
      OneMore(Wrapped(base), i - 2);
    }
    OverflowIsDetected(Doubled(base, i));
  }

  lemma DoubledGrows(base: int, i: int, n: int)
    requires 1 <= i <= n && IsInt64(base) && (base >= 0 || i > 1)
    ensures Doubled(base, i) <= Doubled(base, n)
  {
    if base >= 0 {
      Grows(base, i - 1, n - 1);
    } else {
      Grows(Wrapped(base), i - 2, n - 2);
    }
  }

  method Next(base: int, cap: int, attempt: int) returns (d: int)
    requires IsInt64(base) && IsInt64(cap) && IsInt64(attempt)
    ensures d == Outcome(base, cap, attempt)
  {
    var attempts := if attempt < 1 then 1 else attempt;
    d := base;
    var i := 1;
    assert Doubled(base, 1) == base by {
      assert Pow2(0) == 1;
    }
    while i < attempts
      invariant 1 <= i <= attempts && IsInt64(d) && d == Doubled(base, i)
      invariant i > 1 && base < 0 ==> 2 * base < MIN_INT64
    {
      if base < 0 && i == 1 {
        NegativeDoubles(base);
        assert Doubled(base, 2) == Wrapped(base) * Pow2(0) == Wrapped(base);
      } else {
        Doubles(base, i);
      }
      DoubledGrows(base, i + 1, attempts);
      var prev := d;
      d := Wrap64(d * 2);
      if d < prev {
        d := MAX_INT64;
        break;
      }
      if cap > 0 && d >= cap {
        return cap;
      }
      i := i + 1;
    }
    if cap > 0 && d > cap {
      return cap;
    }
    if d < 0 {
      d := MAX_INT64;
    }
  }

  /** The cap holds exactly when the base is not negative or has been doubled. */
  lemma CappedIff(base: int, cap: int, attempt: int)
    requires IsInt64(base) && IsInt64(cap) && 0 < cap
    ensures 0 <= Outcome(base, cap, attempt) <= MAX_INT64
    ensures Outcome(base, cap, attempt) <= cap <==> base >= 0 || attempt > 1 || cap == MAX_INT64
  {
  }

  /** Delays never shrink from one attempt to the next. */
  lemma DelayMonotone(base: nat, cap: int, a: int, b: int)
    requires a <= b
    ensures Delay(base, cap, a) <= Delay(base, cap, b)
  {
    Grows(base, if a < 1 then 0 else a - 1, if b < 1 then 0 else b - 1);
  }
}
