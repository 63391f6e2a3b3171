/**
 * How long a failed attempt waits: the base delay first, twice as long each time, up to the cap.
 */
module Retries {
  import opened Protocol
  import opened ProtocolInvariant

  function Smaller(a: nat, b: nat): nat {
    if a < b then a else b
  }

  /** The wait after `n` earlier failures. */
  function Delay(base: nat, cap: nat, n: nat): nat {
    if n == 0 then Smaller(base, cap) else Smaller(2 * Delay(base, cap, n - 1), cap)
  }

  function TotalDelay(base: nat, cap: nat, n: nat): nat {
    if n == 0 then 0 else TotalDelay(base, cap, n - 1) + Delay(base, cap, n - 1)
  }

  lemma Doubled(base: nat, p: nat)
    ensures base * (2 * p) == 2 * (base * p)
  {
  }

  /** The worker's backoff doubles from the base until it reaches the cap. */
  lemma {:induction false} BackoffDoubles(c: Config, n: nat)
    ensures Backoff(c, n) == Delay(c.baseBackoffMs, c.maxBackoffMs, n)
  {
    if n > 0 {
      BackoffDoubles(c, n - 1);
      Doubled(c.baseBackoffMs, Pow2(n - 1));
    }
  }

  /** `b` is the base doubled `n` times. */
  ghost predicate IsDoubled(base: nat, n: nat, b: nat) {
    if n == 0 then b == base else b % 2 == 0 && IsDoubled(base, n - 1, b / 2)
  }

  lemma {:induction false} DelayIsDoubled(base: nat, cap: nat, n: nat, b: nat)
    requires IsDoubled(base, n, b) && b <= cap
    ensures Delay(base, cap, n) == b
  {
    if n > 0 {
      DelayIsDoubled(base, cap, n - 1, b / 2);
    }
  }

  /** Exactly: while the doubled base `b` is within the cap, the waits up to it add up to `2 * b - base`; once a wait is the
      cap, every later one is. */
  lemma {:induction false} DelaysAddUp(base: nat, cap: nat, n: nat, b: nat)
    requires IsDoubled(base, n, b) && b <= cap
    ensures TotalDelay(base, cap, n + 1) + base == 2 * b
  {
    DelayIsDoubled(base, cap, n, b);
    if n > 0 {
      DelaysAddUp(base, cap, n - 1, b / 2);
    }
  }

  lemma {:induction false} CappedStaysCapped(base: nat, cap: nat, m: nat, n: nat)
    requires m <= n && Delay(base, cap, m) == cap
    ensures Delay(base, cap, n) == cap && TotalDelay(base, cap, n) == TotalDelay(base, cap, m) + (n - m) * cap
  {
    if m < n {
      CappedStaysCapped(base, cap, m, n - 1);
      assert (n - m) * cap == (n - 1 - m) * cap + cap;
    }
  }

  /** The summed backoff of the ledger is the sum of these waits. */
  lemma {:induction false} SummedBackoff(c: Config, n: nat)
    ensures BackoffSum(c, n) == TotalDelay(c.baseBackoffMs, c.maxBackoffMs, n)
  {
    if n > 0 {
      SummedBackoff(c, n - 1);
      BackoffDoubles(c, n - 1);
    }
  }

  /** With a base of one minute and a cap of one hour: 1, 2, 4, 8, 16, 32 and then 60 minutes. */
  lemma DefaultDelays()
    ensures Delay(60000, 3600000, 0) == 60000 && Delay(60000, 3600000, 1) == 120000 && Delay(60000, 3600000, 2) == 240000
    ensures Delay(60000, 3600000, 3) == 480000 && Delay(60000, 3600000, 5) == 1920000 && Delay(60000, 3600000, 6) == 3600000
  {
    assert Delay(60000, 3600000, 3) == 480000;
    assert Delay(60000, 3600000, 5) == 1920000;
  }
}
