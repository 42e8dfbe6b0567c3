/** Exponential backoff: the delay loop, the one-step doubling, and what they add up to. */
module Backoff {
  import opened Seqs

  function Pow2(n: nat): nat {
    if n == 0 then 1 else 2 * Pow2(n - 1)
  }

  /** The n-th delay: doubled each time, capped. */
  function Delay(initial: int, cap: int, attempt: nat): int
    requires attempt >= 1
  {
    Min(initial * Pow2(attempt - 1), cap)
  }

  function NextBackoff(current: int, cap: int): int {
    if current <= 0 then 0
    else
      var next := current * 2;
      if cap > 0 && next > cap then cap else next
  }

  lemma Pow2Positive(n: nat)
    ensures Pow2(n) >= 1
  {}

  lemma DelayBounds(initial: int, cap: int, attempt: nat)
    requires 0 < initial <= cap && attempt >= 1
    ensures initial <= Delay(initial, cap, attempt) <= cap
  {
    Pow2Positive(attempt - 1);
    assert initial * Pow2(attempt - 1) >= initial;
  }

  /** The poll loop's step and the retry loop's closed form are one sequence. */
  lemma NextIsDelay(initial: int, cap: int, attempt: nat)
    requires 0 < initial <= cap && attempt >= 1
    ensures NextBackoff(Delay(initial, cap, attempt), cap) == Delay(initial, cap, attempt + 1)
  {
    DelayBounds(initial, cap, attempt);
    assert initial * Pow2(attempt) == 2 * (initial * Pow2(attempt - 1));
  }

  function Iterate(initial: int, cap: int, times: nat): int {
    if times == 0 then initial else NextBackoff(Iterate(initial, cap, times - 1), cap)
  }

  lemma {:induction false} DelayIsIterate(initial: int, cap: int, attempt: nat)
    requires 0 < initial <= cap && attempt >= 1
    ensures Delay(initial, cap, attempt) == Iterate(initial, cap, attempt - 1)
  {
    if attempt == 1 {
      assert initial * Pow2(0) == initial;
    } else {
      DelayIsIterate(initial, cap, attempt - 1);
      NextIsDelay(initial, cap, attempt - 1);
    }
  }

  /** The doubling loop; it never doubles a value at or above the cap, so nothing in it
      exceeds twice the cap. */
  method RetryBackoffDelay(initial: int, cap: int, attempt: nat) returns (delay: int)
    requires 0 < initial <= cap && attempt >= 1
    ensures delay == Delay(initial, cap, attempt)
  {
    delay := initial;
    for i := 1 to attempt
      invariant delay == Delay(initial, cap, i)
      invariant i > 1 ==> delay < cap
    {
      NextIsDelay(initial, cap, i);
      delay := delay * 2;
      if delay >= cap {
        CapIsReached(initial, cap, i + 1, attempt);
        return cap;
      }
    }
  }

  lemma {:induction false} CapIsReached(initial: int, cap: int, m: nat, n: nat)
    requires 0 < initial <= cap && 1 <= m <= n
    requires Delay(initial, cap, m) == cap
    ensures Delay(initial, cap, n) == cap
  {
    if m == n {
    } else {
      CapIsReached(initial, cap, m, n - 1);
      NextIsDelay(initial, cap, n - 1);
    }
  }

  /** The first n delays together. */
  function TotalDelay(initial: int, cap: int, n: nat): int {
    if n == 0 then 0 else TotalDelay(initial, cap, n - 1) + Delay(initial, cap, n)
  }

  lemma {:induction false} TotalDelayGrows(initial: int, cap: int, m: nat, n: nat)
    requires 0 < initial <= cap && m <= n
    ensures TotalDelay(initial, cap, n) >= TotalDelay(initial, cap, m) + (n - m) * initial
  {
    if m == n {
    } else {
      DelayBounds(initial, cap, n);
      TotalDelayGrows(initial, cap, m, n - 1);
      assert (n - m) * initial == (n - 1 - m) * initial + initial;
    }
  }

  const SECOND := 1_000_000_000
  const UPLOAD_RETRY_INITIAL := 1 * SECOND
  const UPLOAD_RETRY_MAX := 4 * SECOND
  const STATUS_POLL_INITIAL := SECOND / 2
  const STATUS_POLL_MAX := 4 * SECOND
  const DEFAULT_UPLOAD_TIMEOUT := 300 * SECOND
  const DEFAULT_POLL_TIMEOUT := 300 * SECOND

  lemma {:induction false} DefaultTotal(n: nat)
    requires n >= 2
    ensures TotalDelay(UPLOAD_RETRY_INITIAL, UPLOAD_RETRY_MAX, n) == 3 * SECOND + (n - 2) * 4 * SECOND
  {
    var a, b := UPLOAD_RETRY_INITIAL, UPLOAD_RETRY_MAX;
    if n == 2 {
      assert Pow2(0) == 1 && Pow2(1) == 2;
      assert TotalDelay(a, b, 1) == TotalDelay(a, b, 0) + Delay(a, b, 1);
    } else {
      DefaultTotal(n - 1);
      assert Pow2(2) == 4;
      CapIsReached(a, b, 3, n);
    }
  }

  /** With the built-in timings exactly the first 76 backoffs fit the default retry budget. */
  lemma DefaultRetriesFit(k: nat)
    ensures TotalDelay(UPLOAD_RETRY_INITIAL, UPLOAD_RETRY_MAX, k) < DEFAULT_UPLOAD_TIMEOUT <==> k <= 76
  {
    if k >= 2 {
      DefaultTotal(k);
    } else {
      DefaultTotal(2);
      TotalDelayGrows(UPLOAD_RETRY_INITIAL, UPLOAD_RETRY_MAX, k, 2);
    }
  }

  lemma {:induction false} PollTotal(n: nat)
    requires n >= 3
    ensures TotalDelay(STATUS_POLL_INITIAL, STATUS_POLL_MAX, n) == 7 * STATUS_POLL_INITIAL + (n - 3) * STATUS_POLL_MAX
  {
    var a, b := STATUS_POLL_INITIAL, STATUS_POLL_MAX;
    assert Pow2(0) == 1 && Pow2(1) == 2 && Pow2(2) == 4 && Pow2(3) == 8;
    if n == 3 {
      assert TotalDelay(a, b, 1) == TotalDelay(a, b, 0) + Delay(a, b, 1);
      assert TotalDelay(a, b, 2) == TotalDelay(a, b, 1) + Delay(a, b, 2);
    } else {
      PollTotal(n - 1);
      CapIsReached(a, b, 4, n);
    }
  }
}
