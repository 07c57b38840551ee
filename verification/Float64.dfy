/** Rounding an integer number of nanoseconds to a float64 sorted-set score:
    round to nearest, ties to even (section 4.3.1 of IEEE 754-2019). */
module Float64 {
  import opened Arithmetic
  import opened Jobs

  const TWO_52: nat := 0x10_0000_0000_0000
  const TWO_53: nat := 0x20_0000_0000_0000

  /** Spacing of the float64 values around an integer of this magnitude (at least 1). */
  function Ulp(a: nat): (u: nat)
    ensures 1 <= u
  {
    if a < TWO_53 then 1 else 2 * Ulp(a / 2)
  }

  /** Which multiple of u is nearest to a, the even one of two that are equally near. */
  function Nearest(a: nat, u: nat): nat
    requires 1 <= u
  {
    var q, rem := a / u, a % u;
    if 2 * rem < u || (2 * rem == u && q % 2 == 0) then q else q + 1
  }

  function NearestEven(a: nat, u: nat): nat
    requires 1 <= u
  {
    Nearest(a, u) * u
  }

  function Round(a: nat): nat {
    NearestEven(a, Ulp(a))
  }

  /** The score of a stored time: the zero time is written as 0. */
  function FloatScore(t: Time): int {
    if t == ZERO_TIME then 0 else if t < 0 then -(Round(-t) as int) else Round(t)
  }

  // ----- spacing

  lemma {:induction false} UlpRange(a: nat)
    ensures a < TWO_53 * Ulp(a)
    ensures Ulp(a) == 1 || TWO_52 * Ulp(a) <= a
  {
    if a >= TWO_53 {
      UlpRange(a / 2);
    }
  }

  lemma {:induction false} UlpMonotone(a: nat, b: nat)
    requires a <= b
    ensures Ulp(a) <= Ulp(b) && (Ulp(a) < Ulp(b) ==> 2 * Ulp(a) <= Ulp(b))
  {
    if a >= TWO_53 {
      UlpMonotone(a / 2, b / 2);
    } else if b >= TWO_53 {
      assert Ulp(b) == 2 * Ulp(b / 2);
    }
  }

  /** Until the year 2043 nanosecond scores are at most 256 apart. */
  lemma UlpUntil2043(a: nat)
    requires a < 0x2000_0000_0000_0000
    ensures Ulp(a) <= 256
  {
    UlpRange(a);
    UlpMonotone(a, 0x1fff_ffff_ffff_ffff);
    assert Ulp(0x1fff_ffff_ffff_ffff) == 256 by {
      assert Ulp(0x1f_ffff_ffff_ffff) == 1;
      assert Ulp(0x3f_ffff_ffff_ffff) == 2;
      assert Ulp(0x7f_ffff_ffff_ffff) == 4;
      assert Ulp(0xff_ffff_ffff_ffff) == 8;
      assert Ulp(0x1ff_ffff_ffff_ffff) == 16;
      assert Ulp(0x3ff_ffff_ffff_ffff) == 32;
      assert Ulp(0x7ff_ffff_ffff_ffff) == 64;
      assert Ulp(0xfff_ffff_ffff_ffff) == 128;
    }
  }

  // ----- rounding

  lemma RoundError(a: nat, u: nat)
    requires 1 <= u
    ensures 2 * a - u <= 2 * NearestEven(a, u) <= 2 * a + u
  {
    var q, rem := a / u, a % u;
    assert a == q * u + rem;
    assert (q + 1) * u == q * u + u;
  }

  lemma QuotientBounds(a: nat, u: nat, k: nat)
    requires 1 <= u
    ensures a < k * u ==> a / u < k
    ensures k * u <= a ==> k <= a / u
  {
    var q, rem := a / u, a % u;
    assert a == q * u + rem;
    assert (q + 1) * u == q * u + u;
    if k <= q {
      MulLe(k, q, u);
    } else {
      MulLe(q + 1, k, u);
    }
  }

  lemma QuotientMonotone(a: nat, b: nat, u: nat)
    requires a <= b && 1 <= u
    ensures a / u <= b / u
    ensures a / u == b / u ==> a % u <= b % u
  {
    var p, q := a / u, b / u;
    assert a == p * u + a % u && b == q * u + b % u;
    QuotientBounds(b, u, p);
  }

  lemma NearestMonotone(a: nat, b: nat, u: nat)
    requires a <= b && 1 <= u
    ensures NearestEven(a, u) <= NearestEven(b, u)
  {
    QuotientMonotone(a, b, u);
    MulLe(Nearest(a, u), Nearest(b, u), u);
  }

  /** Across a change of spacing, the boundary between the two ranges separates the results. */
  lemma AcrossSpacings(a: nat, b: nat, u: nat, v: nat)
    requires 1 <= u && 2 * u <= v && a < TWO_53 * u && TWO_52 * v <= b
    ensures NearestEven(a, u) <= NearestEven(b, v)
  {
    QuotientBounds(a, u, TWO_53);
    QuotientBounds(b, v, TWO_52);
    MulLe(Nearest(a, u), TWO_53, u);
    MulLe(TWO_52, Nearest(b, v), v);
  }

  /** Rounding never reverses the order of two times. */
  lemma RoundMonotone(a: nat, b: nat)
    requires a <= b
    ensures Round(a) <= Round(b)
  {
    UlpMonotone(a, b);
    if Ulp(a) == Ulp(b) {
      NearestMonotone(a, b, Ulp(a));
    } else {
      UlpRange(a);
      UlpRange(b);
      AcrossSpacings(a, b, Ulp(a), Ulp(b));
    }
  }

  lemma RoundPositive(a: nat)
    requires 1 <= a
    ensures 1 <= Round(a)
  {
    assert Ulp(1) == 1 && Round(1) == 1;
    RoundMonotone(1, a);
  }

  /** A score is within half the float64 spacing of the time; the zero time's is 0. */
  lemma ScoreIsNearest(t: Time)
    ensures var u := Ulp(if t < 0 then -t else t);
      if t == ZERO_TIME then FloatScore(t) == 0
      else 2 * t - u <= 2 * FloatScore(t) <= 2 * t + u
  {
    var a: nat := if t < 0 then -t else t;
    RoundError(a, Ulp(a));
  }

  /** Scores keep the order of all times, except that the zero time, although earlier,
      scores above every other time before 1970. */
  lemma ScoreMonotone(s: Time, t: Time)
    requires s <= t
    ensures FloatScore(s) <= FloatScore(t) <==> !(s == ZERO_TIME < t < 0)
  {
    if 0 <= s {
      RoundMonotone(s, t);
    } else if t < 0 {
      RoundMonotone(-t, -s);
      RoundPositive(-t);
    }
  }

  lemma ScorePositive(t: Time)
    requires 1 <= t
    ensures 1 <= FloatScore(t)
  {
    RoundPositive(t);
  }

  /** Before 2043, times more than 256 nanoseconds apart keep their strict order. */
  lemma ScoreSeparates(s: Time, t: Time)
    requires 0 <= s && s + 256 < t < 0x2000_0000_0000_0000
    ensures FloatScore(s) < FloatScore(t)
  {
    RoundError(s, Ulp(s));
    RoundError(t, Ulp(t));
    UlpUntil2043(s);
    UlpUntil2043(t);
  }

  // ----- numbers that are not rounded

  predicate IsPowerOfTwo(p: nat) {
    p == 1 || (1 < p && p % 2 == 0 && IsPowerOfTwo(p / 2))
  }

  lemma {:induction false} UlpDivides(a: nat, p: nat)
    requires IsPowerOfTwo(p) && Ulp(a) <= p
    ensures p % Ulp(a) == 0
  {
    if a < TWO_53 {
    } else {
      var u := Ulp(a / 2);
      UlpDivides(a / 2, p / 2);
      var m := (p / 2) / u;
      assert p / 2 == m * u;
      assert p == m * (2 * u);
      MultipleOf(m, 2 * u);
    }
  }

  /** Before 2043 multiples of 512 are float64 values. */
  lemma ExactMultiple(a: nat)
    requires a < 0x2000_0000_0000_0000 && a % 512 == 0
    ensures Round(a) == a
  {
    UlpUntil2043(a);
    UlpDivides(a, 512);
    DividesThrough(a, 512, Ulp(a));
  }

  /** From 2006 to 2043 the spacing is 256. */
  lemma UlpSince2006(a: nat)
    requires 0x1000_0000_0000_0000 <= a < 0x2000_0000_0000_0000
    ensures Ulp(a) == 256
  {
    UlpMonotone(0x1000_0000_0000_0000, a);
    UlpUntil2043(a);
    assert Ulp(0x1000_0000_0000_0000) == 256 by {
      assert Ulp(0x10_0000_0000_0000) == 1;
      assert Ulp(0x20_0000_0000_0000) == 2;
      assert Ulp(0x40_0000_0000_0000) == 4;
      assert Ulp(0x80_0000_0000_0000) == 8;
      assert Ulp(0x100_0000_0000_0000) == 16;
      assert Ulp(0x200_0000_0000_0000) == 32;
      assert Ulp(0x400_0000_0000_0000) == 64;
      assert Ulp(0x800_0000_0000_0000) == 128;
    }
  }

  /** A time one nanosecond later can get the same score. */
  lemma ScoreCollides()
    ensures FloatScore(0x1000_0000_0000_0000) == FloatScore(0x1000_0000_0000_0001)
  {
    UlpSince2006(0x1000_0000_0000_0000);
    UlpSince2006(0x1000_0000_0000_0001);
  }
}
