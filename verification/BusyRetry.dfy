/**
 * Running one statement against a database that other processes may have locked: retry with a growing delay until a
 * deadline. What each call of `exec` does, and how much time passes besides the requested sleeps, are inputs.
 */
module BusyRetry {
  datatype Exec = Done | Busy | OtherError

  const TOTAL_TIMEOUT_MS := 5000
  const INITIAL_DELAY_MS := 5
  const MAX_DELAY_MS := 200

  function Min(a: int, b: int): int {
    if a < b then a else b
  }

  /** A sleep of negative length returns at once. */
  function Pause(ms: int): nat {
    if ms > 0 then ms else 0
  }

  /** The delay before retry `i + 1`. The cap is applied from the first doubling on. */
  function DelayAt(first: int, cap: int, i: nat): int {
    if i == 0 then first else Min(DelayAt(first, cap, i - 1) * 2, cap)
  }

  function PauseSum(first: int, cap: int, n: nat): nat {
    if n == 0 then 0 else PauseSum(first, cap, n - 1) + Pause(DelayAt(first, cap, n - 1))
  }

  function Slept(sleeps: seq<int>): nat {
    if sleeps == [] then 0 else Slept(sleeps[..|sleeps| - 1]) + Pause(sleeps[|sleeps| - 1])
  }

  /** Time that passed outside the requested sleeps up to the end of call `n - 1`. */
  function Passed(extra: nat -> nat, n: nat): nat {
    if n == 0 then 0 else Passed(extra, n - 1) + extra(n - 1)
  }

  /** What the clock reads, counted from the start, once call `i` of `exec` has failed. */
  function Elapsed(extra: nat -> nat, sleeps: seq<int>, i: nat): int
    requires i <= |sleeps|
  {
    Passed(extra, i + 1) + Slept(sleeps[..i])
  }

  /** The inputs of one retry loop. */
  datatype Retry = Retry(exec: nat -> Exec, extra: nat -> nat, total: int, first: int, cap: int)

  /** A sleep follows a busy call before the deadline, and is the scheduled delay or what is left of the time. */
  ghost predicate SleepOk(r: Retry, sleeps: seq<int>, i: nat)
    requires i < |sleeps|
  {
    && r.exec(i) == Busy
    && Elapsed(r.extra, sleeps, i) < r.total
    && sleeps[i] == Min(DelayAt(r.first, r.cap, i), r.total - Elapsed(r.extra, sleeps, i))
  }

  ghost predicate SleepsOk(r: Retry, sleeps: seq<int>) {
    forall i :: 0 <= i < |sleeps| ==> SleepOk(r, sleeps, i)
  }

  /** After these sleeps the loop goes on: its next call is busy too, and there is time left. */
  ghost predicate GoesOn(r: Retry, sleeps: seq<int>) {
    SleepsOk(r, sleeps) && r.exec(|sleeps|) == Busy && Elapsed(r.extra, sleeps, |sleeps|) < r.total
  }

  /** Call `n` ends the loop: it is not busy, or by then the full delays and the other time have used up the timeout. */
  predicate StopsAt(r: Retry, n: nat) {
    r.exec(n) != Busy || Passed(r.extra, n + 1) + PauseSum(r.first, r.cap, n) >= r.total
  }

  ghost predicate Stops(r: Retry) {
    exists n: nat :: StopsAt(r, n)
  }

  lemma SleptAppend(sleeps: seq<int>, x: int)
    ensures Slept(sleeps + [x]) == Slept(sleeps) + Pause(x)
  {
    assert (sleeps + [x])[..|sleeps|] == sleeps;
  }

  lemma SleepsExtend(r: Retry, sleeps: seq<int>)
    requires GoesOn(r, sleeps)
    ensures SleepsOk(r, sleeps + [Min(DelayAt(r.first, r.cap, |sleeps|), r.total - Elapsed(r.extra, sleeps, |sleeps|))])
  {
    var ys := sleeps + [Min(DelayAt(r.first, r.cap, |sleeps|), r.total - Elapsed(r.extra, sleeps, |sleeps|))];
    forall i | 0 <= i < |ys| ensures SleepOk(r, ys, i) {
      assert ys[..i] == sleeps[..i];
      if i < |sleeps| {
        assert SleepOk(r, sleeps, i);
      }
    }
  }

  /** A loop that goes on has only slept full delays, and none of its calls was one to stop at. */
  lemma GoingOnIsNotStopping(r: Retry, sleeps: seq<int>)
    requires GoesOn(r, sleeps)
    ensures Slept(sleeps) == PauseSum(r.first, r.cap, |sleeps|) && !StopsAt(r, |sleeps|)
  {
    FullSleeps(r, sleeps, |sleeps|);
    assert sleeps[..|sleeps|] == sleeps;
  }

  lemma {:induction false} FullSleeps(r: Retry, sleeps: seq<int>, n: nat)
    requires SleepsOk(r, sleeps) && n <= |sleeps| && Elapsed(r.extra, sleeps, n) < r.total
    ensures Slept(sleeps[..n]) == PauseSum(r.first, r.cap, n)
  {
    if n > 0 {
      assert sleeps[..n][..n - 1] == sleeps[..n - 1];
      assert SleepOk(r, sleeps, n - 1);
      FullSleeps(r, sleeps, n - 1);
    }
  }

  /** `execWithBusyRetry`: it calls `exec` once more than it sleeps. It terminates whenever some call is one to stop at. */
  method ExecWithBusyRetry(r: Retry) returns (done: bool, sleeps: seq<int>)
    requires Stops(r)
    ensures SleepsOk(r, sleeps)
    ensures done <==> r.exec(|sleeps|) == Done
    ensures r.exec(|sleeps|) == Busy ==> Elapsed(r.extra, sleeps, |sleeps|) >= r.total
  {
    ghost var last: nat :| StopsAt(r, last);
    var clock := 0;
    var delay := r.first;
    sleeps := [];
    while true
      invariant SleepsOk(r, sleeps)
      invariant delay == DelayAt(r.first, r.cap, |sleeps|)
      invariant clock == Passed(r.extra, |sleeps|) + Slept(sleeps)
      invariant |sleeps| <= last
      decreases last - |sleeps|
    {
      var outcome := r.exec(|sleeps|);
      clock := clock + r.extra(|sleeps|);
      assert sleeps[..|sleeps|] == sleeps;
      if outcome.Done? {
        return true, sleeps;
      }
      var remaining := r.total - clock;
      if !outcome.Busy? || remaining <= 0 {
        return false, sleeps;
      }
      var sleep := Min(delay, remaining);
      GoingOnIsNotStopping(r, sleeps);
      SleepsExtend(r, sleeps);
      SleptAppend(sleeps, sleep);
      sleeps := sleeps + [sleep];
      clock := clock + Pause(sleep);
      delay := Min(delay * 2, r.cap);
    }
  }

  // ---------------------------------------------------------------- termination

  /** The delays a loop sleeps while it has time. */
  function Delays(first: int, cap: int, n: nat): (sleeps: seq<int>)
    ensures |sleeps| == n
  {
    if n == 0 then [] else Delays(first, cap, n - 1) + [DelayAt(first, cap, n - 1)]
  }

  /** The loop goes on after `n` full delays. */
  ghost predicate GoesOnAfter(r: Retry, n: nat) {
    GoesOn(r, Delays(r.first, r.cap, n)) && Slept(Delays(r.first, r.cap, n)) == PauseSum(r.first, r.cap, n)
  }

  lemma OneMoreDelay(r: Retry, n: nat)
    requires GoesOnAfter(r, n) && !StopsAt(r, n + 1)
    ensures GoesOnAfter(r, n + 1)
  {
    var front, sleeps := Delays(r.first, r.cap, n), Delays(r.first, r.cap, n + 1);
    var x := DelayAt(r.first, r.cap, n);
    assert sleeps == front + [x];
    SleptAppend(front, x);
    assert front[..n] == front && sleeps[..n + 1] == sleeps;
    assert Elapsed(r.extra, front, n) == Passed(r.extra, n + 1) + PauseSum(r.first, r.cap, n);
    assert Passed(r.extra, n + 2) >= Passed(r.extra, n + 1);
    SleepsExtend(r, front);
  }

  lemma {:induction false} UnstoppedGoesOn(r: Retry, n: nat)
    requires forall k: nat :: k <= n ==> !StopsAt(r, k)
    ensures GoesOnAfter(r, n)
  {
    if n == 0 {
      assert !StopsAt(r, 0);
    } else {
      UnstoppedGoesOn(r, n - 1);
      assert !StopsAt(r, n);
      OneMoreDelay(r, n - 1);
    }
  }

  /** Without a call to stop at, the loop goes on after any number of sleeps: the condition of the method is exact. */
  lemma LoopsForever(r: Retry, n: nat)
    requires !Stops(r)
    ensures GoesOn(r, Delays(r.first, r.cap, n))
  {
    UnstoppedGoesOn(r, n);
  }

  lemma {:induction false} DelaysPositive(first: int, cap: int, i: nat)
    requires first >= 1 && cap >= 1
    ensures DelayAt(first, cap, i) >= 1
  {
    if i > 0 {
      DelaysPositive(first, cap, i - 1);
    }
  }

  lemma {:induction false} PausesGrow(first: int, cap: int, n: nat)
    requires first >= 1 && cap >= 1
    ensures PauseSum(first, cap, n) >= n
  {
    if n > 0 {
      DelaysPositive(first, cap, n - 1);
      PausesGrow(first, cap, n - 1);
    }
  }

  /** Positive delays, the defaults among them, always come to an end. */
  lemma PositiveDelaysStop(r: Retry)
    requires r.first >= 1 && r.cap >= 1
    ensures Stops(r)
  {
    var n: nat := Pause(r.total);
    PausesGrow(r.first, r.cap, n);
    assert StopsAt(r, n);
  }

  // ---------------------------------------------------------------- bounds

  /** Every sleep but the last is a full one, the delays before the last stay below the timeout, and all fit into it. */
  lemma SleepIsBounded(r: Retry, sleeps: seq<int>)
    requires SleepsOk(r, sleeps) && sleeps != []
    ensures var n := |sleeps| - 1;
            Slept(sleeps[..n]) == PauseSum(r.first, r.cap, n) < r.total && Slept(sleeps) <= r.total
  {
    var n := |sleeps| - 1;
    assert SleepOk(r, sleeps, n);
    FullSleeps(r, sleeps, n);
    SleptAppend(sleeps[..n], sleeps[n]);
    assert sleeps == sleeps[..n] + [sleeps[n]];
  }

  lemma {:induction false} DefaultDelays(n: nat)
    ensures n >= 6 ==> DelayAt(INITIAL_DELAY_MS, MAX_DELAY_MS, n) == 200 && PauseSum(INITIAL_DELAY_MS, MAX_DELAY_MS, n) == 315 + 200 * (n - 6)
  {
    if n > 6 {
      DefaultDelays(n - 1);
    } else if n == 6 {
      assert DelayAt(5, 200, 3) == 40;
      assert DelayAt(5, 200, 6) == 200;
      assert PauseSum(5, 200, 3) == 35;
      assert PauseSum(5, 200, 6) == 315;
    }
  }

  /** Any run of the retry loop asks for at most its timeout of sleep; with the defaults it calls `exec` at most 31 times. */
  lemma RetryIsBounded(r: Retry, sleeps: seq<int>)
    requires SleepsOk(r, sleeps)
    ensures sleeps == [] || Slept(sleeps) <= r.total
    ensures (r.total, r.first, r.cap) == (TOTAL_TIMEOUT_MS, INITIAL_DELAY_MS, MAX_DELAY_MS) ==> |sleeps| + 1 <= 31
  {
    if sleeps != [] {
      SleepIsBounded(r, sleeps);
    }
    if |sleeps| > 6 {
      DefaultDelays(|sleeps| - 1);
    }
  }

  /** The database stays locked, and no time passes outside the sleeps. */
  ghost predicate StaysLocked(r: Retry) {
    forall i :: r.exec(i) == Busy && r.extra(i) == 0
  }

  lemma {:induction false} NothingPassed(r: Retry, n: nat)
    requires StaysLocked(r)
    ensures Passed(r.extra, n) == 0
  {
    if n > 0 {
      NothingPassed(r, n - 1);
      assert r.exec(n - 1) == Busy && r.extra(n - 1) == 0;
    }
  }

  /** A locked database is retried with full delays for as long as these stay below the timeout. */
  lemma {:induction false} LockedGoesOn(r: Retry, n: nat)
    requires StaysLocked(r) && PauseSum(r.first, r.cap, n) < r.total
    ensures GoesOnAfter(r, n)
  {
    NothingPassed(r, n + 1);
    assert r.exec(n) == Busy;
    if n == 0 {
      assert !StopsAt(r, 0);
      UnstoppedGoesOn(r, 0);
    } else {
      LockedGoesOn(r, n - 1);
      OneMoreDelay(r, n - 1);
    }
  }

  /** ... and once more for the time that is left. */
  lemma LockedUsesUpTime(r: Retry, n: nat) returns (sleeps: seq<int>)
    requires StaysLocked(r) && PauseSum(r.first, r.cap, n) < r.total <= PauseSum(r.first, r.cap, n + 1)
    ensures SleepsOk(r, sleeps) && |sleeps| == n + 1 && Slept(sleeps) == r.total
  {
    var front := Delays(r.first, r.cap, n);
    LockedGoesOn(r, n);
    NothingPassed(r, n + 1);
    assert front[..n] == front;
    SleepsExtend(r, front);
    var x := Min(DelayAt(r.first, r.cap, n), r.total - Elapsed(r.extra, front, n));
    SleptAppend(front, x);
    sleeps := front + [x];
  }

  /** The bound is exact: a database that stays locked is tried 31 times when no other time passes. */
  lemma ThirtyOneCallsHappen(r: Retry) returns (sleeps: seq<int>)
    requires StaysLocked(r) && (r.total, r.first, r.cap) == (TOTAL_TIMEOUT_MS, INITIAL_DELAY_MS, MAX_DELAY_MS)
    ensures SleepsOk(r, sleeps) && |sleeps| + 1 == 31 && Slept(sleeps) == r.total
  {
    DefaultDelays(29);
    DefaultDelays(30);
    sleeps := LockedUsesUpTime(r, 29);
  }
}
