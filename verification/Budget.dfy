/** The attempt budget is reached: maxAttempts is no bound on attempts, maxAttempts plus recoveries is the least one. */
module Budget {
  import opened Models
  import opened Backoff
  import opened Outbox
  import opened Leases

  /** One row, in delivery by dispatcher 0 for the `k`-th time, after `r` recoveries. */
  ghost predicate InDelivery(s: State, m: Message, k: nat, r: nat) {
    && |s.rows| == 1 && s.rows[0].id == 0 && s.rows[0].message == m
    && s.rows[0].status == Processing && s.rows[0].attempts == k && s.rows[0].updatedAt <= s.clock
    && |s.workers| >= 1 && s.workers[0].Working? && s.workers[0].events == [s.rows[0]] && !s.workers[0].answered
    && (forall w :: 0 < w < |s.workers| ==> s.workers[w].Idle?)
    && s.recovered[0] == r
  }

  lemma OnlyRowIsDue(rows: seq<OutboxRow>, now: int)
    requires |rows| == 1 && Due(rows[0], now)
    ensures IsFirstDue(rows, now, CLAIM_LIMIT, [0])
  {
  }

  lemma ClaimOnlyRow(c: Config, s: State, m: Message, k: nat, r: nat)
    requires |s.rows| == 1 && s.rows[0].id == 0 && s.rows[0].message == m && s.rows[0].attempts == k
    requires s.recovered[0] == r
    requires |s.workers| >= 1 && forall w :: 0 <= w < |s.workers| ==> s.workers[w].Idle?
    requires Due(s.rows[0], s.clock) || Stale(s.rows[0], s.clock, c.staleAfter)
    ensures IsFirstDue(RecoveredAt(c, s), s.clock, CLAIM_LIMIT, [0])
    ensures InDelivery(Polled(c, s, 0, [0]), m, k + 1, r + if Stale(s.rows[0], s.clock, c.staleAfter) then 1 else 0)
  {
    OnlyRowIsDue(RecoveredAt(c, s), s.clock);
    var s' := Polled(c, s, 0, [0]);
    assert HandedOut(s'.rows, [0]) == [s'.rows[0]];
    var ids := StaleIds(s.rows, s.clock, c.staleAfter);
    assert 0 in ids <==> Stale(s.rows[0], s.clock, c.staleAfter);
  }

  lemma FirstInsert(c: Config, pace: Pace, n: nat, row: OutboxRow)
    requires row.status == Pending && row.attempts == 0
    ensures Run(c, pace, n, [Insert(row)]) == Start(n).(rows := [row])
  {
    assert [Insert(row)][..0] == [];
    assert Run(c, pace, n, []) == Start(n);
    assert Start(n).rows + [row] == [row];
  }

  lemma FirstPoll(c: Config, pace: Pace, n: nat, row: OutboxRow)
    requires n >= 1 && row.id == 0 && row.status == Pending && row.attempts == 0 && row.nextAttemptAt <= 0
    ensures InDelivery(Next(c, pace, Start(n).(rows := [row]), Poll(0, [0])), row.message, 1, 0)
  {
    ClaimOnlyRow(c, Start(n).(rows := [row]), row.message, 0, 0);
  }

  lemma Begin(c: Config, pace: Pace, n: nat, m: Message) returns (steps: seq<Step>)
    requires n >= 1
    ensures InDelivery(Run(c, pace, n, steps), m, 1, 0)
  {
    var row := OutboxRow(0, m, Pending, 0, 0, 0);
    FirstInsert(c, pace, n, row);
    FirstPoll(c, pace, n, row);
    NextOfRun(c, pace, n, [Insert(row)], Poll(0, [0]));
    steps := [Insert(row)] + [Poll(0, [0])];
  }

  /** A retryable answer, the backoff, and the next claim. */
  lemma RetryOnce(c: Config, pace: Pace, n: nat, before: seq<Step>, m: Message, k: nat, r: nat)
    returns (steps: seq<Step>)
    requires c.Valid() && InDelivery(Run(c, pace, n, before), m, k, r) && k < c.maxAttempts && BaseDelay(c.base, k) >= 0
    ensures InDelivery(Run(c, pace, n, steps), m, k + 1, r)
  {
    var delay := BaseDelay(c.base, k);
    steps := AfterRetry(c, pace, n, before, m, k, r, delay);
    var s := Run(c, pace, n, steps);
    var now := s.clock + delay;
    NextOfRun(c, pace, n, steps, Tick(now));
    steps := steps + [Tick(now)];
    assert Run(c, pace, n, steps) == s.(clock := now);
    ClaimOnlyRow(c, Run(c, pace, n, steps), m, k, r);
    NextOfRun(c, pace, n, steps, Poll(0, [0]));
    steps := steps + [Poll(0, [0])];
  }

  lemma AfterRetry(c: Config, pace: Pace, n: nat, before: seq<Step>, m: Message, k: nat, r: nat, delay: int)
    returns (steps: seq<Step>)
    requires InDelivery(Run(c, pace, n, before), m, k, r) && k < c.maxAttempts && IsBackoff(c.base, k, delay)
    ensures var s := Run(c, pace, n, steps);
            && |s.rows| == 1 && s.rows[0].id == 0 && s.rows[0].message == m && s.rows[0].attempts == k
            && s.recovered[0] == r
            && s.rows[0].status == Pending && s.rows[0].nextAttemptAt == s.clock + delay
            && |s.workers| >= 1 && forall w :: 0 <= w < |s.workers| ==> s.workers[w].Idle?
  {
    var s := Run(c, pace, n, before);
    NextOfRun(c, pace, n, before, Post(0, Response(503)));
    steps := before + [Post(0, Response(503))];
    var s1 := Run(c, pace, n, steps);
    assert s1 == Posted(s, 0, Response(503));
    NextOfRun(c, pace, n, steps, Settle(0, delay));
    steps := steps + [Settle(0, delay)];
    assert Run(c, pace, n, steps) == SettledBy(c, s1, 0, delay);
  }

  /** A crash, the wait until the row is stale, and the next claim. */
  lemma CrashOnce(c: Config, pace: Pace, n: nat, before: seq<Step>, m: Message, k: nat, r: nat)
    returns (steps: seq<Step>)
    requires InDelivery(Run(c, pace, n, before), m, k, r)
    ensures InDelivery(Run(c, pace, n, steps), m, k + 1, r + 1)
  {
    var s := Run(c, pace, n, before);
    NextOfRun(c, pace, n, before, Crash(0));
    steps := before + [Crash(0)];
    assert Run(c, pace, n, steps) == s.(workers := s.workers[0 := Idle]);
    NextOfRun(c, pace, n, steps, Tick(s.clock + c.staleAfter));
    steps := steps + [Tick(s.clock + c.staleAfter)];
    assert Run(c, pace, n, steps) == s.(workers := s.workers[0 := Idle], clock := s.clock + c.staleAfter);
    ClaimOnlyRow(c, Run(c, pace, n, steps), m, k, r);
    NextOfRun(c, pace, n, steps, Poll(0, [0]));
    steps := steps + [Poll(0, [0])];
  }

  lemma BaseDelayIsNatural(base: int, attempts: nat)
    requires base >= 0
    ensures BaseDelay(base, attempts) >= 0
  {
    if attempts > 1 {
      DoublingGrows(base, 0, attempts - 1);
    }
  }

  lemma {:induction false} Spend(c: Config, pace: Pace, n: nat, m: Message, retries: nat, r: nat)
    returns (steps: seq<Step>)
    requires c.Valid() && n >= 1 && retries < c.maxAttempts
    ensures InDelivery(Run(c, pace, n, steps), m, 1 + retries + r, r)
    decreases r, retries
  {
    if r > 0 {
      var before := Spend(c, pace, n, m, retries, r - 1);
      steps := CrashOnce(c, pace, n, before, m, retries + r, r - 1);
    } else if retries > 0 {
      var before := Spend(c, pace, n, m, retries - 1, 0);
      BaseDelayIsNatural(c.base, retries);
      steps := RetryOnce(c, pace, n, before, m, retries, 0);
    } else {
      steps := Begin(c, pace, n, m);
    }
  }

  /** Even a lone dispatcher reaches the bound: maxAttempts and one more attempt for every recovery. */
  lemma BudgetIsTight(c: Config, pace: Pace, n: nat, m: Message, r: nat) returns (steps: seq<Step>)
    requires c.Valid() && n >= 1
    ensures var s := Run(c, pace, n, steps);
            |s.rows| == 1 && s.rows[0].attempts == c.maxAttempts + r && s.recovered[s.rows[0].id] == r
  {
    steps := Spend(c, pace, n, m, c.maxAttempts - 1, r);
  }
}
