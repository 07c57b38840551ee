/** Recovery on Redis: lock times are float64 scores, and the script computes its clock in float64 from the
    server's seconds and microseconds. */
module RedisRecovery {
  import opened Arithmetic
  import opened Jobs
  import opened Table
  import opened Float64
  import opened RedisScripts
  import opened Visibility

  const SECOND: nat := 1_000_000_000

  /** `tonumber(t[1]) * 1000000000 + tonumber(t[2]) * 1000`, each operation rounded. */
  function LuaClock(now: Time): int {
    if now < 0 then 0
    else
      var seconds, micros := now / SECOND, (now % SECOND) / 1000;
      Round(Round(seconds * SECOND) + micros * 1000)
  }

  /** Before 2043 the seconds are exact, so the clock is the time in whole microseconds, rounded once. */
  lemma LuaClockRoundsOnce(now: Time)
    requires 0 <= now < 0x2000_0000_0000_0000
    ensures LuaClock(now) == Round(now - now % 1000)
  {
    WholeMicros(now);
    ExactMultiple(now / SECOND * SECOND);
  }

  lemma WholeMicros(now: nat)
    ensures now / SECOND * SECOND + (now % SECOND) / 1000 * 1000 == now - now % 1000
    ensures (now / SECOND * SECOND) % 512 == 0
  {
    var seconds, rest := now / SECOND, now % SECOND;
    LastDigits(now, 1_000_000 * seconds + rest / 1000, rest % 1000);
    MultipleOf(1_953_125 * seconds, 512);
    assert seconds * SECOND == 1_953_125 * seconds * 512;
  }

  lemma LastDigits(now: nat, q: nat, x: nat)
    requires now == 1000 * q + x && x < 1000
    ensures now % 1000 == x
  {
  }

  function RedisExpiry(): (Time, Time) -> bool {
    ScoreExpiry(FloatScore, LuaClock)
  }

  /** Before 2043 the clock never runs ahead of the time's own score, and lags by less than a microsecond. */
  lemma LuaClockBounds(now: Time)
    requires 0 <= now < 0x2000_0000_0000_0000
    ensures LuaClock(now) <= FloatScore(now)
    ensures forall t :: 0 <= t <= now - 999 ==> FloatScore(t) <= LuaClock(now)
  {
    var whole := now - now % 1000;
    LuaClockRoundsOnce(now);
    ScoreMonotone(whole, now);
    forall t | 0 <= t <= now - 999
      ensures FloatScore(t) <= LuaClock(now)
    {
      ScoreMonotone(t, whole);
    }
  }

  /** The script's test against the lock's time: a lock is found expired at most 256 ns early
      and at the latest when it has been over for 999 ns. */
  lemma RedisExpiryBounds(lockedUntil: Time, now: Time)
    requires 0 < lockedUntil < 0x2000_0000_0000_0000 && 0 <= now < 0x2000_0000_0000_0000
    ensures RedisExpiry()(lockedUntil, now) ==> lockedUntil <= now + 256
    ensures lockedUntil + 999 <= now ==> RedisExpiry()(lockedUntil, now)
  {
    LuaClockBounds(now);
    ScorePositive(lockedUntil);
    if now + 256 < lockedUntil {
      ScoreSeparates(now, lockedUntil);
    }
  }

  /** A time in 2006 at which rounding adds most: it rounds up by 128,
      and the time 256 later rounds down to the same. */
  const WORST: nat := 1_152_921_504_606_896_000

  lemma WorstRounding()
    ensures LuaClock(WORST) == FloatScore(WORST) == FloatScore(WORST + 256) == WORST + 128
  {
    LuaClockRoundsOnce(WORST);
    UlpSince2006(WORST);
    UlpSince2006(WORST + 256);
  }

  /** So a recovery can free a claim whose lock still has 256 ns to run, and the SQL stores would not; */
  lemma RecoveredEarly(j: Job)
    requires j.state == Claimed && j.lockedUntil == WORST + 256
    ensures Expired(map[j.id := j], RedisExpiry(), WORST) == {j.id}
    ensures Expired(map[j.id := j], SqlExpiry(), WORST) == {}
  {
    WorstRounding();
  }

  /** and it can miss one that they would free. */
  lemma RecoveredLate(j: Job)
    requires j.state == Claimed && j.lockedUntil == 1
    ensures Expired(map[j.id := j], RedisExpiry(), 999) == {}
    ensures Expired(map[j.id := j], SqlExpiry(), 999) == {j.id}
  {
    LuaClockRoundsOnce(999);
    assert Ulp(0) == 1 && Round(0) == 0;
    RoundPositive(1);
  }

  // ----- visibility timeouts

  /** Timeouts of up to 18 years, on clocks that stop short of 2043 by one timeout. */
  ghost function RedisTiming(v: nat, d: nat): Timing {
    Timing(v, d, RedisExpiry(), (t: Time) => 0 <= t < 0x2000_0000_0000_0000 - v)
  }

  lemma ShortIsNotOutlasted(v: nat, d: nat) returns (c: nat)
    requires v < 0x800_0000_0000_0000 && v <= d + 256
    ensures c <= WORST <= c + d && RedisExpiry()(c + v, WORST)
  {
    c := if d < WORST then WORST - d else 1;
    WorstRounding();
    ScoreMonotone(c + v, WORST + 256);
    ScorePositive(c + v);
  }

  lemma MarginOutlasts(v: nat, d: nat)
    requires d + 256 < v
    ensures Outlasts(RedisTiming(v, d))
  {
    var tm := RedisTiming(v, d);
    forall c, t | tm.during(c) && tm.during(t) && 0 <= c <= t <= c + d
      ensures !tm.expiry(c + v, t)
    {
      RedisExpiryBounds(c + v, t);
    }
  }

  /** On Redis no job is ever run by two workers at once, if and only if claims are settled
      more than 256 nanoseconds before their visibility timeout. */
  lemma RedisSafeIff(v: nat, d: nat)
    requires v < 0x800_0000_0000_0000
    ensures Safe(RedisTiming(v, d)) <==> d + 256 < v
  {
    var tm := RedisTiming(v, d);
    SafeIffOutlasts(tm);
    if d + 256 < v {
      MarginOutlasts(v, d);
    } else {
      var c := ShortIsNotOutlasted(v, d);
      assert tm.during(c) && tm.during(WORST) && tm.expiry(c + v, WORST);
    }
  }
}
