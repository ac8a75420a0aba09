/** Without the timing bound a second dispatcher takes over a row that its owner then settles: the bound is exact. */
module Overlap {
  import opened Models
  import opened Backoff
  import opened Outbox
  import opened Leases
  import opened Accounting
  import opened Exclusivity

  function Waiting(m: Message, i: nat): (row: OutboxRow) { OutboxRow(i, m, Pending, 0, 0, 0) }

  function Taken(m: Message, i: nat): (row: OutboxRow) { OutboxRow(i, m, Processing, 1, 0, 0) }

  function Done(m: Message, i: nat, at: int): (row: OutboxRow) { OutboxRow(i, m, DeliveredToShop, 1, at, at) }

  /** Deliveries of at most `hold` nanoseconds are within the pace. */
  predicate Allows(pace: Pace, hold: nat) {
    pace.Unbounded? || pace.hold == hold
  }

  function InHand(m: Message, done: nat): (events: seq<OutboxRow>)
    requires done <= CLAIM_LIMIT
    ensures |events| == CLAIM_LIMIT - done
  {
    seq(CLAIM_LIMIT - done, k requires 0 <= k < CLAIM_LIMIT - done => Taken(m, done + k))
  }

  /** Dispatcher 0 claimed a full batch at time 0 and has delivered `done` of it, each delivery taking `hold`. */
  ghost predicate Underway(s: State, m: Message, hold: nat, done: nat) {
    && done < CLAIM_LIMIT && |s.rows| == CLAIM_LIMIT && |s.workers| >= 2 && s.clock == done * hold
    && s.workers[0] == Working(InHand(m, done), false, NotSent, 0, done * hold)
    && (forall w :: 0 < w < |s.workers| ==> s.workers[w].Idle?)
    && forall i :: 0 <= i < CLAIM_LIMIT ==> s.rows[i] == if i < done then Done(m, i, (i + 1) * hold) else Taken(m, i)
  }

  lemma {:induction false} Filled(c: Config, pace: Pace, n: nat, m: Message, count: nat) returns (steps: seq<Step>)
    ensures var s := Run(c, pace, n, steps);
            s == Start(n).(rows := seq(count, (i: nat) requires i < count => Waiting(m, i)))
  {
    if count == 0 {
      steps := [];
    } else {
      steps := Filled(c, pace, n, m, count - 1);
      NextOfRun(c, pace, n, steps, Insert(Waiting(m, count - 1)));
      steps := steps + [Insert(Waiting(m, count - 1))];
    }
  }

  lemma FullBatch(rows: seq<OutboxRow>, m: Message, picked: seq<nat>)
    requires rows == seq(CLAIM_LIMIT, (i: nat) requires i < CLAIM_LIMIT => Waiting(m, i))
    requires picked == seq(CLAIM_LIMIT, (i: nat) requires i < CLAIM_LIMIT => i)
    ensures IsFirstDue(rows, 0, CLAIM_LIMIT, picked)
  {
    forall i | 0 <= i < |rows| ensures i in picked {
      assert picked[i] == i;
    }
  }

  function Batch(): (picked: seq<nat>) {
    seq(CLAIM_LIMIT, (i: nat) requires i < CLAIM_LIMIT => i)
  }

  lemma BatchClaimed(c: Config, s: State, m: Message, n: nat, hold: nat)
    requires n >= 2 && s == Start(n).(rows := seq(CLAIM_LIMIT, (i: nat) requires i < CLAIM_LIMIT => Waiting(m, i)))
    ensures RecoveredAt(c, s) == s.rows && IsFirstDue(s.rows, s.clock, CLAIM_LIMIT, Batch())
    ensures Underway(Polled(c, s, 0, Batch()), m, hold, 0)
  {
    var picked := Batch();
    assert RecoveredAt(c, s) == s.rows;
    FullBatch(s.rows, m, picked);
    var s' := Polled(c, s, 0, picked);
    forall i | 0 <= i < CLAIM_LIMIT ensures s'.rows[i] == Taken(m, i) {
      assert picked[i] == i;
    }
    assert HandedOut(s'.rows, picked) == InHand(m, 0);
  }

  lemma Started(c: Config, pace: Pace, n: nat, m: Message, hold: nat) returns (steps: seq<Step>)
    requires n >= 2
    ensures Underway(Run(c, pace, n, steps), m, hold, 0)
  {
    steps := Filled(c, pace, n, m, CLAIM_LIMIT);
    BatchClaimed(c, Run(c, pace, n, steps), m, n, hold);
    NextOfRun(c, pace, n, steps, Poll(0, Batch()));
    steps := steps + [Poll(0, Batch())];
  }

  lemma TickUnderway(c: Config, pace: Pace, s: State, m: Message, hold: nat, done: nat)
    requires Allows(pace, hold) && Underway(s, m, hold, done)
    ensures Next(c, pace, s, Tick((done + 1) * hold)) == s.(clock := (done + 1) * hold)
  {
    assert (done + 1) * hold == done * hold + hold;
  }

  lemma SettleUnderway(c: Config, s: State, m: Message, hold: nat, done: nat)
    requires Underway(s, m, hold, done) && done + 1 < CLAIM_LIMIT
    ensures var s1 := s.(clock := (done + 1) * hold);
            Underway(SettledBy(c, Posted(s1, 0, Response(200)), 0, 0), m, hold, done + 1)
  {
    assert InHand(m, done)[1..] == InHand(m, done + 1);
  }

  lemma PostThenSettle(c: Config, pace: Pace, s: State, w: nat, answer: Answer, delay: int)
    requires AtWork(s, w) && !s.workers[w].answered
    requires DelayOf(c, s.workers[w].events[0].attempts, Classify(answer), delay)
    ensures Next(c, pace, s, Post(w, answer)) == Posted(s, w, answer)
    ensures Next(c, pace, Posted(s, w, answer), Settle(w, delay)) == SettledBy(c, Posted(s, w, answer), w, delay)
  {
  }

  /** One more punctual delivery. */
  lemma Delivered(c: Config, pace: Pace, s: State, m: Message, hold: nat, done: nat)
    returns (s': State, more: seq<Step>)
    requires c.Valid() && Allows(pace, hold) && Underway(s, m, hold, done) && done + 1 < CLAIM_LIMIT
    ensures |more| == 3
    ensures s' == Next(c, pace, Next(c, pace, Next(c, pace, s, more[0]), more[1]), more[2])
    ensures Underway(s', m, hold, done + 1)
  {
    var s1 := s.(clock := (done + 1) * hold);
    more := [Tick((done + 1) * hold), Post(0, Response(200)), Settle(0, 0)];
    TickUnderway(c, pace, s, m, hold, done);
    PostThenSettle(c, pace, s1, 0, Response(200), 0);
    SettleUnderway(c, s, m, hold, done);
    s' := SettledBy(c, Posted(s1, 0, Response(200)), 0, 0);
  }

  lemma ThreeMore(c: Config, pace: Pace, n: nat, steps: seq<Step>, more: seq<Step>)
    requires |more| == 3
    ensures Run(c, pace, n, steps + more)
            == Next(c, pace, Next(c, pace, Next(c, pace, Run(c, pace, n, steps), more[0]), more[1]), more[2])
  {
    NextOfRun(c, pace, n, steps, more[0]);
    NextOfRun(c, pace, n, steps + [more[0]], more[1]);
    NextOfRun(c, pace, n, steps + [more[0]] + [more[1]], more[2]);
    assert steps + [more[0]] + [more[1]] + [more[2]] == steps + more;
  }

  lemma DeliveredNext(c: Config, pace: Pace, n: nat, before: seq<Step>, m: Message, hold: nat, done: nat)
    returns (steps: seq<Step>)
    requires c.Valid() && Allows(pace, hold) && Underway(Run(c, pace, n, before), m, hold, done)
    requires done + 1 < CLAIM_LIMIT
    ensures Underway(Run(c, pace, n, steps), m, hold, done + 1)
  {
    var s', more := Delivered(c, pace, Run(c, pace, n, before), m, hold, done);
    ThreeMore(c, pace, n, before, more);
    steps := before + more;
  }

  lemma {:induction false} AlmostDone(c: Config, pace: Pace, n: nat, m: Message, hold: nat, done: nat)
    returns (steps: seq<Step>)
    requires c.Valid() && Allows(pace, hold) && n >= 2 && done < CLAIM_LIMIT
    ensures Underway(Run(c, pace, n, steps), m, hold, done)
  {
    if done == 0 {
      steps := Started(c, pace, n, m, hold);
    } else {
      var before := AlmostDone(c, pace, n, m, hold, done - 1);
      steps := DeliveredNext(c, pace, n, before, m, hold, done - 1);
    }
  }

  /** The last row of the batch, taken over by dispatcher 1 while dispatcher 0 still delivers it. */
  ghost predicate TakenOver(s: State, m: Message, now: int) {
    && |s.workers| >= 2 && |s.rows| == CLAIM_LIMIT && s.clock == now
    && s.rows[9] == OutboxRow(9, m, Processing, 2, now, now)
    && s.workers[0].Working? && s.workers[0].events == [Taken(m, 9)] && !s.workers[0].answered
    && s.workers[1].Working? && s.workers[1].events == [s.rows[9]] && !s.workers[1].answered
  }

  lemma LastIsDue(rows: seq<OutboxRow>, m: Message, hold: nat, now: int)
    requires |rows| == CLAIM_LIMIT && rows[9] == OutboxRow(9, m, Pending, 1, now, now)
    requires forall i :: 0 <= i < 9 ==> rows[i] == Done(m, i, (i + 1) * hold)
    ensures IsFirstDue(rows, now, CLAIM_LIMIT, [9])
  {
  }

  lemma TakeOver(c: Config, pace: Pace, s: State, m: Message, hold: nat)
    requires Allows(pace, hold) && c.staleAfter <= CLAIM_LIMIT * hold && Underway(s, m, hold, 9)
    ensures var now := CLAIM_LIMIT * hold;
            TakenOver(Next(c, pace, Next(c, pace, s, Tick(now)), Poll(1, [9])), m, now)
  {
    var now := CLAIM_LIMIT * hold;
    var s1 := Next(c, pace, s, Tick(now));
    assert s1 == s.(clock := now);
    LastIsDue(RecoveredAt(c, s1), m, hold, now);
    var s2 := Next(c, pace, s1, Poll(1, [9]));
    assert s2 == Polled(c, s1, 1, [9]);
    assert InHand(m, 9) == [Taken(m, 9)];
    assert HandedOut(s2.rows, [9]) == [s2.rows[9]];
  }

  lemma ReachTakeOver(c: Config, pace: Pace, n: nat, m: Message, hold: nat) returns (steps: seq<Step>)
    requires c.Valid() && Allows(pace, hold) && n >= 2 && c.staleAfter <= CLAIM_LIMIT * hold
    ensures TakenOver(Run(c, pace, n, steps), m, CLAIM_LIMIT * hold)
  {
    steps := AlmostDone(c, pace, n, m, hold, 9);
    TakeOver(c, pace, Run(c, pace, n, steps), m, hold);
    NextOfRun(c, pace, n, steps, Tick(CLAIM_LIMIT * hold));
    NextOfRun(c, pace, n, steps + [Tick(CLAIM_LIMIT * hold)], Poll(1, [9]));
    steps := steps + [Tick(CLAIM_LIMIT * hold)] + [Poll(1, [9])];
  }

  /** A hold within the pace that lets a full batch outlast staleness. */
  lemma SlowHold(c: Config, pace: Pace, n: nat) returns (hold: nat)
    requires n >= 2 && !Safe(c, pace, n)
    ensures Allows(pace, hold) && c.staleAfter <= CLAIM_LIMIT * hold
  {
    hold := if pace.Bounded? then pace.hold else c.staleAfter;
  }

  lemma TakenOverIsShared(s: State, m: Message, now: int)
    requires Tracked(s) && TakenOver(s, m, now)
    ensures !Exclusive(s)
  {
    if Exclusive(s) {
      LeasesApart(s, 0, 0, 1, 0);
    }
  }

  /**
   * Every lease is exclusive in every run exactly when there is one dispatcher or a batch ends before it goes stale.
   */
  lemma ExclusiveIffSafe(c: Config, pace: Pace, n: nat, m: Message)
    requires c.Valid()
    ensures (forall steps :: Exclusive(Run(c, pace, n, steps))) <==> Safe(c, pace, n)
  {
    if Safe(c, pace, n) {
      forall steps ensures Exclusive(Run(c, pace, n, steps)) {
        RunIsExclusive(c, pace, n, steps);
      }
    } else {
      var hold := SlowHold(c, pace, n);
      var steps := ReachTakeOver(c, pace, n, m, hold);
      RunIsTracked(c, pace, n, steps);
      TakenOverIsShared(Run(c, pace, n, steps), m, CLAIM_LIMIT * hold);
      assert !Exclusive(Run(c, pace, n, steps));
    }
  }

  /** The owner's 2xx is recorded although dispatcher 1 holds the row. */
  lemma FirstSettles(c: Config, s: State, m: Message, now: int)
    requires TakenOver(s, m, now)
    ensures var s2 := SettledBy(c, Posted(s, 0, Response(200)), 0, 0);
            && |s2.rows| == CLAIM_LIMIT && s2.rows[9].id == 9 && s2.rows[9].status == DeliveredToShop
            && s2.workers[1] == s.workers[1] && |s2.workers| == |s.workers|
  {
  }

  lemma SecondOverwrites(c: Config, s: State, event: OutboxRow, delay: int)
    requires |s.rows| == CLAIM_LIMIT && s.rows[9].id == event.id && AtWork(s, 1) && s.workers[1].events[0] == event
    ensures var s4 := SettledBy(c, Posted(s, 1, Response(503)), 1, delay);
            |s4.rows| == CLAIM_LIMIT && s4.rows[9].status != DeliveredToShop
  {
  }

  /** After a take-over both dispatchers settle: the owner's 2xx is recorded, and then overwritten. */
  lemma Overwritten(c: Config, pace: Pace, s: State, m: Message, now: int) returns (first: seq<Step>, second: seq<Step>)
    requires c.Valid() && TakenOver(s, m, now)
    ensures |first| == |second| == 2
    ensures var s2 := Next(c, pace, Next(c, pace, s, first[0]), first[1]);
            var s4 := Next(c, pace, Next(c, pace, s2, second[0]), second[1]);
            && |s2.rows| == |s4.rows| == CLAIM_LIMIT
            && s2.rows[9].status == DeliveredToShop && s4.rows[9].status != DeliveredToShop
  {
    var delay := if 2 < c.maxAttempts then BaseDelay(c.base, 2) else 0;
    first := [Post(0, Response(200)), Settle(0, 0)];
    second := [Post(1, Response(503)), Settle(1, delay)];
    PostThenSettle(c, pace, s, 0, Response(200), 0);
    FirstSettles(c, s, m, now);
    var s2 := SettledBy(c, Posted(s, 0, Response(200)), 0, 0);
    PostThenSettle(c, pace, s2, 1, Response(503), delay);
    SecondOverwrites(c, s2, s.rows[9], delay);
  }

  lemma TwoMore(c: Config, pace: Pace, n: nat, steps: seq<Step>, more: seq<Step>)
    requires |more| == 2
    ensures Run(c, pace, n, steps + more) == Next(c, pace, Next(c, pace, Run(c, pace, n, steps), more[0]), more[1])
  {
    NextOfRun(c, pace, n, steps, more[0]);
    NextOfRun(c, pace, n, steps + [more[0]], more[1]);
    assert steps + [more[0]] + [more[1]] == steps + more;
  }

  /** What a run settles stays settled. */
  ghost predicate KeepsFinal(c: Config, pace: Pace, n: nat, earlier: seq<Step>, later: seq<Step>) {
    var rows, rows' := Run(c, pace, n, earlier).rows, Run(c, pace, n, earlier + later).rows;
    forall i :: 0 <= i < |rows| && Final(rows[i]) ==> i < |rows'| && rows'[i] == rows[i]
  }

  /** Delivered and failed rows are never overwritten in any run exactly under the same condition. */
  lemma FinalIffSafe(c: Config, pace: Pace, n: nat, m: Message)
    requires c.Valid()
    ensures (forall earlier, later :: KeepsFinal(c, pace, n, earlier, later)) <==> Safe(c, pace, n)
  {
    if Safe(c, pace, n) {
      forall earlier, later ensures KeepsFinal(c, pace, n, earlier, later) {
        var rows := Run(c, pace, n, earlier).rows;
        forall i | 0 <= i < |rows| && Final(rows[i])
          ensures i < |Run(c, pace, n, earlier + later).rows| && Run(c, pace, n, earlier + later).rows[i] == rows[i]
        {
          FinalIsForGood(c, pace, n, earlier, later, i);
        }
      }
    } else {
      var hold := SlowHold(c, pace, n);
      var steps := ReachTakeOver(c, pace, n, m, hold);
      var first, second := Overwritten(c, pace, Run(c, pace, n, steps), m, CLAIM_LIMIT * hold);
      TwoMore(c, pace, n, steps, first);
      TwoMore(c, pace, n, steps + first, second);
      assert !KeepsFinal(c, pace, n, steps + first, second) by {
        assert Final(Run(c, pace, n, steps + first).rows[9]);
      }
    }
  }
}
