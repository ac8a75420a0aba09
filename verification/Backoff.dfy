/** The retry delay of the outbox dispatcher. Durations are nanoseconds held in an int64. */
module Backoff {

  import opened Int64

  /** Thirty minutes. */
  const MAX_DELAY: int := 1_800_000_000_000

  function Pow2(n: nat): (p: nat)
    ensures p > 0
  {
    if n == 0 then 1 else 2 * Pow2(n - 1)
  }

  /** The delay before jitter: unlimited on the first attempt, doubled per attempt up to the cap after that. */
  function BaseDelay(base: int, attempts: int): (d: int) {
    if attempts <= 1 then base
    else if base * Pow2(attempts - 1) >= MAX_DELAY then MAX_DELAY
    else base * Pow2(attempts - 1)
  }

  /** The delays that the random jitter can turn BaseDelay into: up to a quarter more, and none once the cap is hit. */
  predicate IsBackoff(base: int, attempts: int, delay: int) {
    var d := BaseDelay(base, attempts);
    if attempts > 1 && d == MAX_DELAY then delay == d else d <= delay <= d + d / 4
  }

  lemma {:induction false} DoublingGrows(base: int, m: nat, n: nat)
    requires base >= 0 && m <= n
    ensures base * Pow2(m) <= base * Pow2(n)
    decreases n
  {
    if m < n {
      DoublingGrows(base, m, n - 1);
      assert base * Pow2(n) == 2 * (base * Pow2(n - 1));
    }
  }

  /** `draw` stands for the random number; every jitter in 0..delay/4 is some draw. */
  method BackoffDelay(base: int, attempts: int, draw: nat) returns (delay: int)
    requires 0 <= base < TWO_62
    ensures IsBackoff(base, attempts, delay)
    ensures base <= MAX_DELAY ==> base <= delay <= MAX_DELAY + MAX_DELAY / 4
  {
    var n := if attempts < 1 then 1 else attempts;
    delay := base;
    var step := 1;
    while step < n
      invariant 1 <= step <= n
      invariant delay == base * Pow2(step - 1)
      invariant step == 1 || delay < MAX_DELAY
      invariant base <= delay < TWO_62
    {
      assert base * Pow2(step) == 2 * delay;
      delay := Wrap64(delay * 2);
      if delay >= MAX_DELAY {
        DoublingGrows(base, step, n - 1);
        return MAX_DELAY;
      }
      step := step + 1;
    }
    delay := delay + draw % (delay / 4 + 1);
  }

  /**
   * A first doubling leaves the int64 range exactly from 2^62 nanoseconds on, so BackoffDelay's bound is the widest.
   */
  lemma DoublingIsExactIff(base: int)
    requires 0 <= base < TWO_63
    ensures Wrap64(base * 2) == base * 2 <==> base < TWO_62
  {
  }

  /** A retried row is never due again before the base delay has passed, and never later than 37.5 minutes. */
  lemma BackoffRange(base: int, attempts: int, delay: int)
    requires 0 <= base <= MAX_DELAY
    requires IsBackoff(base, attempts, delay)
    ensures base <= delay <= 2_250_000_000_000
  {
    if attempts > 1 {
      DoublingGrows(base, 0, attempts - 1);
    }
  }
}
