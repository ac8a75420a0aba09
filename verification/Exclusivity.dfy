/**
 * When a claimed row belongs to its dispatcher alone: exactly when there is one dispatcher or the batch outruns
 * staleness.
 */
module Exclusivity {
  import opened Models
  import opened Outbox
  import opened Leases
  import opened Accounting

  /** One dispatcher, or a full batch of deliveries that always ends before its rows go stale. */
  predicate Safe(c: Config, pace: Pace, n: nat) {
    n <= 1 || (pace.Bounded? && CLAIM_LIMIT * pace.hold < c.staleAfter)
  }

  /** The row is in the table exactly as it was claimed: processing, with the attempts its owner holds. */
  ghost predicate Owned(rows: seq<OutboxRow>, event: OutboxRow) {
    event in rows && event.status == Processing
  }

  ghost predicate OwnsAll(rows: seq<OutboxRow>, worker: Worker) {
    worker.Working? ==> |worker.events| > 0 && forall j :: 0 <= j < |worker.events| ==> Owned(rows, worker.events[j])
  }

  ghost predicate Exclusive(s: State) {
    forall w :: 0 <= w < |s.workers| ==> OwnsAll(s.rows, s.workers[w])
  }

  function Span(k: nat, hold: nat): (t: nat) {
    k * hold
  }

  lemma SpanGrows(k: nat, more: nat, hold: nat)
    requires k <= more
    ensures Span(k, hold) <= Span(more, hold)
  {
    assert more * hold == k * hold + (more - k) * hold;
  }

  lemma SpanStep(k: nat, hold: nat)
    requires k > 0
    ensures Span(k, hold) == Span(k - 1, hold) + hold
  {
  }

  /** A worker's remaining deliveries fit in what is left of its batch time. */
  ghost predicate OnTime(pace: Pace, worker: Worker, clock: int) {
    worker.Working? ==>
      && (forall j :: 0 <= j < |worker.events| ==> worker.events[j].updatedAt == worker.claimedAt)
      && Punctual(pace, worker, clock)
      && (pace.Bounded? ==>
            worker.since + Span(|worker.events|, pace.hold) <= worker.claimedAt + Span(CLAIM_LIMIT, pace.hold))
  }

  ghost predicate Paced(pace: Pace, s: State) {
    forall w :: 0 <= w < |s.workers| ==> OnTime(pace, s.workers[w], s.clock)
  }

  lemma NotStale(c: Config, pace: Pace, worker: Worker, clock: int, j: nat)
    requires worker.Working? && j < |worker.events| && OnTime(pace, worker, clock)
    requires pace.Bounded? && CLAIM_LIMIT * pace.hold < c.staleAfter
    ensures !Stale(worker.events[j], clock, c.staleAfter)
  {
    SpanGrows(1, |worker.events|, pace.hold);
  }

  // ----- each step -----

  lemma OwnedAfterPoll(c: Config, s: State, w: nat, picked: seq<nat>, event: OutboxRow)
    requires w < |s.workers| && IsFirstDue(RecoveredAt(c, s), s.clock, CLAIM_LIMIT, picked)
    requires Owned(s.rows, event) && !Stale(event, s.clock, c.staleAfter)
    ensures Owned(Polled(c, s, w, picked).rows, event)
  {
    var i :| 0 <= i < |s.rows| && s.rows[i] == event;
    assert RecoveredAt(c, s)[i] == event;
    assert i !in picked;
    assert Polled(c, s, w, picked).rows[i] == event;
  }

  lemma OwnedAfterSettle(c: Config, rows: seq<OutboxRow>, own: OutboxRow, v: Verdict, now: int, delay: int,
                         event: OutboxRow)
    requires Owned(rows, event) && event.id != own.id
    ensures Owned(Settled(c, rows, own, v, now, delay), event)
  {
    var i :| 0 <= i < |rows| && rows[i] == event;
    assert Settled(c, rows, own, v, now, delay)[i] == event;
  }

  /** Different leases on rows as they are stored are leases on different rows. */
  lemma DifferentRows(rows: seq<OutboxRow>, a: OutboxRow, b: OutboxRow)
    requires IdsDistinct(rows) && Owned(rows, a) && Owned(rows, b) && Key(a) != Key(b)
    ensures a.id != b.id
  {
  }

  lemma LeasesApart(s: State, w: nat, j: nat, v: nat, l: nat)
    requires Tracked(s) && Exclusive(s) && w < |s.workers| && v < |s.workers| && s.workers[w].Working?
    requires s.workers[v].Working?
    requires j < |s.workers[w].events| && l < |s.workers[v].events| && (w != v || j != l)
    ensures s.workers[w].events[j].id != s.workers[v].events[l].id
  {
    var a, b := s.workers[w].events[j], s.workers[v].events[l];
    assert OwnsAll(s.rows, s.workers[w]) && OwnsAll(s.rows, s.workers[v]);
    if w == v {
      assert WorkerTracked(s.workers[w], Slots(s.rows), s.retried, LogKeys(s.log));
      assert Key(a) != Key(b);
    } else {
      assert Key(a) in Held(s.workers[w]) && Key(b) in Held(s.workers[v]);
      OthersApart(s, w);
    }
    DifferentRows(s.rows, a, b);
  }

  lemma PollKeepsOthers(c: Config, pace: Pace, s: State, w: nat, picked: seq<nat>, v: nat)
    requires Exclusive(s) && Paced(pace, s) && Safe(c, pace, |s.workers|)
    requires w < |s.workers| && s.workers[w].Idle? && IsFirstDue(RecoveredAt(c, s), s.clock, CLAIM_LIMIT, picked)
    requires v < |s.workers| && v != w
    ensures OwnsAll(Polled(c, s, w, picked).rows, s.workers[v])
  {
    var worker := s.workers[v];
    assert OwnsAll(s.rows, worker) && OnTime(pace, worker, s.clock);
    if worker.Working? {
      forall j | 0 <= j < |worker.events| ensures Owned(Polled(c, s, w, picked).rows, worker.events[j]) {
        NotStale(c, pace, worker, s.clock, j);
        OwnedAfterPoll(c, s, w, picked, worker.events[j]);
      }
    }
  }

  lemma ClaimIsOwned(c: Config, pace: Pace, s: State, w: nat, picked: seq<nat>)
    requires w < |s.workers| && IsFirstDue(RecoveredAt(c, s), s.clock, CLAIM_LIMIT, picked) && picked != []
    ensures var s' := Polled(c, s, w, picked); OwnsAll(s'.rows, s'.workers[w]) && OnTime(pace, s'.workers[w], s.clock)
  {
    var s' := Polled(c, s, w, picked);
    var events := HandedOut(s'.rows, picked);
    forall j | 0 <= j < |events| ensures Owned(s'.rows, events[j]) && events[j].updatedAt == s.clock {
      assert s'.rows[picked[j]] == events[j];
    }
    if pace.Bounded? {
      SpanGrows(|events|, CLAIM_LIMIT, pace.hold);
    }
  }

  lemma AdvancedIsOnTime(pace: Pace, worker: Worker, clock: int)
    requires worker.Working? && |worker.events| > 0 && OnTime(pace, worker, clock)
    ensures OnTime(pace, Advanced(worker, clock), clock)
  {
    if pace.Bounded? {
      SpanStep(|worker.events|, pace.hold);
    }
  }

  lemma SettleKeepsOwners(c: Config, s: State, w: nat, delay: int, v: nat)
    requires Tracked(s) && Exclusive(s) && AtWork(s, w) && v < |s.workers|
    ensures OwnsAll(SettledBy(c, s, w, delay).rows, SettledBy(c, s, w, delay).workers[v])
  {
    var s', own := SettledBy(c, s, w, delay), s.workers[w].events[0];
    var worker := s.workers[v];
    assert OwnsAll(s.rows, worker);
    if worker.Working? {
      forall j | 0 <= j < |worker.events| && (v != w || j != 0) ensures Owned(s'.rows, worker.events[j]) {
        LeasesApart(s, v, j, w, 0);
        OwnedAfterSettle(c, s.rows, own, Classify(s.workers[w].answer), s.clock, delay, worker.events[j]);
      }
    }
  }

  lemma InsertKeepsOwners(rows: seq<OutboxRow>, row: OutboxRow, worker: Worker)
    requires OwnsAll(rows, worker)
    ensures OwnsAll(rows + [row], worker)
  {
  }

  lemma NextKeepsExclusive(c: Config, pace: Pace, s: State, step: Step)
    requires Tracked(s) && Exclusive(s) && Paced(pace, s) && Safe(c, pace, |s.workers|)
    ensures Exclusive(Next(c, pace, s, step))
  {
    var s' := Next(c, pace, s, step);
    if Enabled(c, pace, s, step) {
      forall v | 0 <= v < |s'.workers| ensures OwnsAll(s'.rows, s'.workers[v]) {
        assert OwnsAll(s.rows, s.workers[v]);
        match step
        case Poll(w, picked) =>
          if v == w && picked != [] {
            ClaimIsOwned(c, pace, s, w, picked);
          } else if v != w {
            PollKeepsOthers(c, pace, s, w, picked, v);
          }
        case Settle(w, delay) => SettleKeepsOwners(c, s, w, delay, v);
        case Insert(row) => InsertKeepsOwners(s.rows, row, s.workers[v]);
        case _ =>
      }
    }
  }

  lemma NextKeepsPaced(c: Config, pace: Pace, s: State, step: Step)
    requires Paced(pace, s)
    ensures Paced(pace, Next(c, pace, s, step))
  {
    var s' := Next(c, pace, s, step);
    if Enabled(c, pace, s, step) {
      forall v | 0 <= v < |s'.workers| ensures OnTime(pace, s'.workers[v], s'.clock) {
        assert OnTime(pace, s.workers[v], s.clock);
        match step
        case Tick(now) => assert Punctual(pace, s.workers[v], now);
        case Poll(w, picked) => if v == w && picked != [] { ClaimIsOwned(c, pace, s, w, picked); }
        case Settle(w, delay) => if v == w { AdvancedIsOnTime(pace, s.workers[w], s.clock); }
        case GiveUp(w) => if v == w { AdvancedIsOnTime(pace, s.workers[w], s.clock); }
        case _ =>
      }
    }
  }

  lemma {:induction false} RunIsExclusive(c: Config, pace: Pace, n: nat, steps: seq<Step>)
    requires Safe(c, pace, n)
    ensures Exclusive(Run(c, pace, n, steps)) && Paced(pace, Run(c, pace, n, steps))
  {
    if steps != [] {
      var earlier := steps[..|steps| - 1];
      RunIsExclusive(c, pace, n, earlier);
      RunIsTracked(c, pace, n, earlier);
      WorkerCount(c, pace, n, earlier);
      NextKeepsExclusive(c, pace, Run(c, pace, n, earlier), steps[|steps| - 1]);
      NextKeepsPaced(c, pace, Run(c, pace, n, earlier), steps[|steps| - 1]);
    }
  }

  /** No two leases in hand are for the same row. */
  lemma LeasesAreDisjoint(c: Config, pace: Pace, n: nat, steps: seq<Step>, w: nat, j: nat, v: nat, l: nat)
    requires Safe(c, pace, n)
    requires var s := Run(c, pace, n, steps);
             && w < |s.workers| && v < |s.workers| && s.workers[w].Working? && s.workers[v].Working?
             && j < |s.workers[w].events| && l < |s.workers[v].events| && (w != v || j != l)
    ensures var s := Run(c, pace, n, steps); s.workers[w].events[j].id != s.workers[v].events[l].id
  {
    RunIsExclusive(c, pace, n, steps);
    RunIsTracked(c, pace, n, steps);
    LeasesApart(Run(c, pace, n, steps), w, j, v, l);
  }

  predicate Final(row: OutboxRow) {
    row.status == DeliveredToShop || row.status == Failed
  }

  lemma NextKeepsFinal(c: Config, pace: Pace, s: State, step: Step, i: nat)
    requires Tracked(s) && Exclusive(s) && i < |s.rows| && Final(s.rows[i])
    ensures i < |Next(c, pace, s, step).rows| && Next(c, pace, s, step).rows[i] == s.rows[i]
  {
    if Enabled(c, pace, s, step) {
      match step
      case Poll(w, picked) => assert RecoveredAt(c, s)[i] == s.rows[i]; assert i !in picked;
      case Settle(w, delay) =>
        assert OwnsAll(s.rows, s.workers[w]);
        assert Owned(s.rows, s.workers[w].events[0]);
      case _ =>
    }
  }

  /** Delivered and failed are for good: nothing that happens later overwrites them. */
  lemma {:induction false} FinalIsForGood(c: Config, pace: Pace, n: nat, earlier: seq<Step>, later: seq<Step>, i: nat)
    requires Safe(c, pace, n)
    requires i < |Run(c, pace, n, earlier).rows| && Final(Run(c, pace, n, earlier).rows[i])
    ensures i < |Run(c, pace, n, earlier + later).rows|
    ensures Run(c, pace, n, earlier + later).rows[i] == Run(c, pace, n, earlier).rows[i]
  {
    if later == [] {
      assert earlier + later == earlier;
    } else {
      var before := earlier + later[..|later| - 1];
      FinalIsForGood(c, pace, n, earlier, later[..|later| - 1], i);
      RunIsExclusive(c, pace, n, before);
      RunIsTracked(c, pace, n, before);
      NextKeepsFinal(c, pace, Run(c, pace, n, before), later[|later| - 1], i);
      NextOfRun(c, pace, n, before, later[|later| - 1]);
      assert earlier + later == before + [later[|later| - 1]];
    }
  }

  /** A waiting row moves in one way only: a poll claims it. */
  lemma PendingIsOnlyClaimed(c: Config, pace: Pace, s: State, step: Step, i: nat)
    requires Tracked(s) && Exclusive(s) && i < |s.rows| && s.rows[i].status == Pending
    ensures i < |Next(c, pace, s, step).rows|
    ensures var row' := Next(c, pace, s, step).rows[i];
            row' == s.rows[i] || (step.Poll? && i in step.picked && row' == ClaimedRow(s.rows[i], s.clock))
  {
    if step.Settle? && Enabled(c, pace, s, step) {
      assert OwnsAll(s.rows, s.workers[step.worker]);
      assert Owned(s.rows, s.workers[step.worker].events[0]);
    }
  }
}
