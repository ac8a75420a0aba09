/** Backoff over whole runs: a retried row is left alone until its delay has passed. */
module Pauses {
  import opened Models
  import opened Backoff
  import opened Outbox
  import opened Leases
  import Exclusivity
  import Fairness

  /** A retry doubles the delay before it, up to thirty minutes. */
  lemma DelayDoubles(base: int, attempts: nat)
    requires attempts >= 1 && 0 <= base < 1_800_000_000_000
    ensures BaseDelay(base, 1) == base
    ensures BaseDelay(base, attempts + 1)
            == if 2 * BaseDelay(base, attempts) >= 1_800_000_000_000 then 1_800_000_000_000
               else 2 * BaseDelay(base, attempts)
  {
    assert base * Pow2(attempts) == 2 * (base * Pow2(attempts - 1));
  }

  /** The row of an event that was answered with something worth a retry. */
  lemma RetrySchedules(c: Config, pace: Pace, s: State, w: nat, delay: int, i: nat)
    requires Enabled(c, pace, s, Settle(w, delay)) && i < |s.rows| && s.rows[i].id == s.workers[w].events[0].id
    requires Next(c, pace, s, Settle(w, delay)).rows[i].status == Pending
    ensures Next(c, pace, s, Settle(w, delay)).rows[i].nextAttemptAt == s.clock + delay
    ensures IsBackoff(c.base, s.workers[w].events[0].attempts, delay)
  {
  }

  lemma ClaimsAreDue(c: Config, pace: Pace, s: State, w: nat, picked: seq<nat>, i: nat)
    requires Enabled(c, pace, s, Poll(w, picked)) && i in picked && i < |s.rows| && s.rows[i].status == Pending
    ensures s.rows[i].nextAttemptAt <= s.clock
  {
  }

  /**
   * With exclusive leases a retry waits: after a settling write that puts a row back in the queue, the row does not
   * change until a poll claims it, at least the base delay of its attempt later.
   */
  lemma RetryWaits(c: Config, pace: Pace, n: nat, earlier: seq<Step>, w: nat, delay: int, later: seq<Step>, i: nat)
    returns (k: nat)
    requires Exclusivity.Safe(c, pace, n) && Enabled(c, pace, Run(c, pace, n, earlier), Settle(w, delay))
    requires var s := Run(c, pace, n, earlier);
             i < |s.rows| && s.rows[i].id == s.workers[w].events[0].id
    requires var s' := Run(c, pace, n, earlier + [Settle(w, delay)]);
             && i < |s'.rows| && s'.rows[i].status == Pending
             && !Fairness.Untouched(c, pace, n, earlier + [Settle(w, delay)], later, s'.rows[i], i)
    ensures k < |later| && later[k].Poll? && i in later[k].picked
    ensures var s, before := Run(c, pace, n, earlier), earlier + [Settle(w, delay)];
            Run(c, pace, n, before + later[..k]).clock >= s.clock + BaseDelay(c.base, s.workers[w].events[0].attempts)
  {
    var s, before := Run(c, pace, n, earlier), earlier + [Settle(w, delay)];
    var target := Run(c, pace, n, before).rows[i];
    NextOfRun(c, pace, n, earlier, Settle(w, delay));
    RetrySchedules(c, pace, s, w, delay, i);
    k := Fairness.FirstChangeIsClaim(c, pace, n, before, later, target, i);
    Fairness.NextPrefix(before, later, k);
    NextOfRun(c, pace, n, before + later[..k], later[k]);
    var s1 := Run(c, pace, n, before + later[..k]);
    ClaimedWasDue(c, pace, s1, later[k], i, target);
  }

  lemma ClaimedWasDue(c: Config, pace: Pace, s: State, step: Step, i: nat, target: OutboxRow)
    requires step.Poll? && i in step.picked && i < |s.rows| && s.rows[i] == target && target.status == Pending
    requires Next(c, pace, s, step) != s
    ensures target.nextAttemptAt <= s.clock
  {
    ClaimsAreDue(c, pace, s, step.worker, step.picked, i);
  }
}
