/**
 The two retry delays: recurring screening doubles from five minutes to a day,
 notification delivery doubles from one minute to an hour.
 */
module Backoff {
  import opened Durations

  function Pow2(n: nat): (p: nat)
    ensures p >= 1
  {
    if n == 0 then 1 else 2 * Pow2(n - 1)
  }

  /** The closed form that both loops compute: base * 2^(attempt-1), never above the cap. */
  function Capped(base: Time, cap: Time, attempt: int): Time {
    if attempt <= 1 then Min(base, cap) else Min(base * Pow2(attempt - 1), cap)
  }

  function ScreeningDelay(failures: int): Time {
    Capped(5 * MINUTE, DAY, failures)
  }

  function DeliveryDelay(attempt: int): Time {
    Capped(MINUTE, HOUR, attempt)
  }

  lemma {:induction false} Pow2Monotone(m: nat, n: nat)
    requires m <= n
    ensures Pow2(m) <= Pow2(n)
    decreases n
  {
    if m < n {
      Pow2Monotone(m, n - 1);
    }
  }

  lemma {:induction false} ScaledMonotone(base: Time, m: nat, n: nat)
    requires base > 0 && m <= n
    ensures base * Pow2(m) <= base * Pow2(n)
  {
    Pow2Monotone(m, n);
    assert base * (Pow2(n) - Pow2(m)) >= 0;
  }

  method ScreeningRetryBackoff(failures: int) returns (backoff: Time)
    ensures backoff == ScreeningDelay(failures)
  {
    var count := failures;
    if count < 1 {
      count := 1;
    }
    backoff := 5 * MINUTE;
    var i := 1;
    while i < count && backoff < DAY
      invariant 1 <= i <= count
      invariant backoff == 5 * MINUTE * Pow2(i - 1)
    {
      backoff := backoff * 2;
      i := i + 1;
    }
    ScaledMonotone(5 * MINUTE, i - 1, count - 1);
    if backoff > DAY {
      return DAY;
    }
  }

  method DeliveryBackoff(attempt: int) returns (delay: Time)
    ensures delay == DeliveryDelay(attempt)
  {
    delay := MINUTE;
    var i := 1;
    while i < attempt && delay < HOUR
      invariant 1 <= i <= Max(attempt, 1)
      invariant delay == MINUTE * Pow2(i - 1)
    {
      delay := delay * 2;
      i := i + 1;
    }
    ScaledMonotone(MINUTE, i - 1, Max(attempt, 1) - 1);
    if delay > HOUR {
      return HOUR;
    }
  }

  /**
   A delay stays between its base and its cap, never shrinks as failures accumulate, and doubles
   until the cap cuts it.
   */
  lemma {:induction false} CappedShape(base: Time, cap: Time, attempt: int)
    requires 0 < base <= cap
    ensures base <= Capped(base, cap, attempt) <= cap
    ensures Capped(base, cap, attempt) <= Capped(base, cap, attempt + 1)
    ensures attempt >= 1 ==> Capped(base, cap, attempt + 1) == Min(2 * Capped(base, cap, attempt), cap)
  {
    if attempt >= 1 {
      ScaledMonotone(base, 0, attempt - 1);
      ScaledMonotone(base, 0, attempt);
      assert base * Pow2(attempt) == 2 * (base * Pow2(attempt - 1));
    }
  }

  /** The day cap is reached at the tenth failure and the hour cap at the seventh attempt, and not before. */
  lemma {:induction false} CapsReached(attempt: int)
    ensures ScreeningDelay(attempt) == DAY <==> attempt >= 10
    ensures DeliveryDelay(attempt) == HOUR <==> attempt >= 7
  {
    assert Pow2(9) == 512 && Pow2(8) == 256 && Pow2(6) == 64 && Pow2(5) == 32 by {
      assert Pow2(3) == 8;
      assert Pow2(6) == 64;
    }
    if attempt >= 10 {
      ScaledMonotone(5 * MINUTE, 9, attempt - 1);
    } else if attempt >= 2 {
      ScaledMonotone(5 * MINUTE, attempt - 1, 8);
    }
    if attempt >= 7 {
      ScaledMonotone(MINUTE, 6, attempt - 1);
    } else if attempt >= 2 {
      ScaledMonotone(MINUTE, attempt - 1, 5);
    }
  }

  /** The first delays; with the doubling up to the cap they fix all others. */
  lemma {:induction false} FirstDelays(attempt: int)
    requires attempt <= 1
    ensures ScreeningDelay(attempt) == 300_000_000_000 && DeliveryDelay(attempt) == 60_000_000_000
    ensures DAY == 86_400_000_000_000 && HOUR == 3_600_000_000_000
  {
  }
}
