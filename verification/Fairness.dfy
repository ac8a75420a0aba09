/** Bounded waiting: how many polls a due row can be passed over. */
module Fairness {
  import opened Models
  import opened Backoff
  import opened Outbox
  import opened Leases
  import opened Sets
  import Accounting
  import Exclusivity

  /** The pending rows that are claimed before a row. */
  function Ahead(rows: seq<OutboxRow>, i: nat): (js: set<nat>)
    requires i < |rows|
  {
    set j: nat | j < |rows| && rows[j].status == Pending && Before(rows[j], rows[i])
  }

  /** The row has been due for a while, and a step leaves it as it is. */
  ghost predicate PassedOver(s: State, s': State, i: nat) {
    i < |s.rows| && i < |s'.rows| && s'.rows[i] == s.rows[i] && s.rows[i].status == Pending
    && s.rows[i].nextAttemptAt < s.clock
  }

  function Elements(picked: seq<nat>): (js: set<nat>) {
    set k | 0 <= k < |picked| :: picked[k]
  }

  lemma {:induction false} DistinctElements(picked: seq<nat>)
    requires forall k, l :: 0 <= k < l < |picked| ==> picked[k] != picked[l]
    ensures |Elements(picked)| == |picked|
  {
    if picked == [] {
      assert Elements(picked) == {};
    } else {
      var earlier, last := picked[..|picked| - 1], picked[|picked| - 1];
      DistinctElements(earlier);
      assert picked == earlier + [last];
      assert Elements(picked) == Elements(earlier) + {last};
      assert last !in Elements(earlier);
    }
  }

  /** A row recovered by a poll gets in line behind every row that was due before. */
  lemma RecoveredBehind(c: Config, s: State, i: nat, j: nat)
    requires i < |s.rows| && j < |s.rows| && s.rows[i].status == Pending && s.rows[i].nextAttemptAt < s.clock
    requires RecoveredAt(c, s)[j].status == Pending && Before(RecoveredAt(c, s)[j], s.rows[i])
    ensures RecoveredAt(c, s)[j] == s.rows[j] && j in Ahead(s.rows, i)
  {
  }

  lemma PickedAhead(c: Config, s: State, w: nat, picked: seq<nat>, i: nat)
    requires w < |s.workers| && IsFirstDue(RecoveredAt(c, s), s.clock, CLAIM_LIMIT, picked)
    requires PassedOver(s, Polled(c, s, w, picked), i)
    ensures |picked| == CLAIM_LIMIT && Elements(picked) <= Ahead(s.rows, i)
  {
    var rows := RecoveredAt(c, s);
    assert rows[i] == s.rows[i] && i !in picked;
    assert LeftOut(rows, CLAIM_LIMIT, picked, i);
    forall k | 0 <= k < |picked| ensures picked[k] in Ahead(s.rows, i) {
      RecoveredBehind(c, s, i, picked[k]);
    }
  }

  lemma StillAhead(c: Config, s: State, w: nat, picked: seq<nat>, i: nat)
    requires w < |s.workers| && IsFirstDue(RecoveredAt(c, s), s.clock, CLAIM_LIMIT, picked)
    requires PassedOver(s, Polled(c, s, w, picked), i)
    ensures Ahead(Polled(c, s, w, picked).rows, i) <= Ahead(s.rows, i) - Elements(picked)
  {
    var rows' := Polled(c, s, w, picked).rows;
    forall j | j in Ahead(rows', i) ensures j in Ahead(s.rows, i) && j !in Elements(picked) {
      assert j !in picked;
      RecoveredBehind(c, s, i, j);
    }
  }

  /** A poll that passes over a due row claims a full batch of rows ahead of it. */
  lemma PollShrinksAhead(c: Config, s: State, w: nat, picked: seq<nat>, i: nat)
    requires w < |s.workers| && IsFirstDue(RecoveredAt(c, s), s.clock, CLAIM_LIMIT, picked)
    requires PassedOver(s, Polled(c, s, w, picked), i)
    ensures |Ahead(Polled(c, s, w, picked).rows, i)| + CLAIM_LIMIT <= |Ahead(s.rows, i)|
  {
    PickedAhead(c, s, w, picked, i);
    StillAhead(c, s, w, picked, i);
    DistinctElements(picked);
    SubsetSize(Ahead(Polled(c, s, w, picked).rows, i), Ahead(s.rows, i) - Elements(picked));
  }

  lemma DelayIsNatural(c: Config, attempts: nat, delay: int)
    requires c.Valid() && IsBackoff(c.base, attempts, delay)
    ensures delay >= 0
  {
    if attempts > 1 {
      DoublingGrows(c.base, 0, attempts - 1);
    }
  }

  /** A rescheduled row gets in line behind it, too. */
  lemma SettleKeepsAhead(c: Config, s: State, w: nat, delay: int, i: nat)
    requires c.Valid() && AtWork(s, w)
    requires DelayOf(c, s.workers[w].events[0].attempts, Classify(s.workers[w].answer), delay)
    requires PassedOver(s, SettledBy(c, s, w, delay), i)
    ensures |Ahead(SettledBy(c, s, w, delay).rows, i)| <= |Ahead(s.rows, i)|
  {
    if Retries(c, s.workers[w].events[0].attempts, Classify(s.workers[w].answer)) {
      DelayIsNatural(c, s.workers[w].events[0].attempts, delay);
    }
    SubsetSize(Ahead(SettledBy(c, s, w, delay).rows, i), Ahead(s.rows, i));
  }

  /** Whether a step inserts a row that sorts ahead. */
  predicate Overtakes(step: Step, target: OutboxRow) {
    step.Insert? && Before(step.row, target)
  }

  lemma InsertAhead(rows: seq<OutboxRow>, row: OutboxRow, i: nat)
    requires i < |rows|
    ensures |Ahead(rows + [row], i)| <= |Ahead(rows, i)| + if Before(row, rows[i]) then 1 else 0
  {
    var limit := Ahead(rows, i) + if Before(row, rows[i]) then {|rows|} else {};
    SubsetSize(Ahead(rows + [row], i), limit);
  }

  lemma StepAhead(c: Config, pace: Pace, s: State, step: Step, i: nat)
    requires c.Valid() && PassedOver(s, Next(c, pace, s, step), i)
    ensures |Ahead(Next(c, pace, s, step).rows, i)|
            + (if step.Poll? && Enabled(c, pace, s, step) then CLAIM_LIMIT else 0)
            <= |Ahead(s.rows, i)| + (if Overtakes(step, s.rows[i]) then 1 else 0)
  {
    if Enabled(c, pace, s, step) {
      match step
      case Poll(w, picked) => PollShrinksAhead(c, s, w, picked, i);
      case Settle(w, delay) => SettleKeepsAhead(c, s, w, delay, i);
      case Insert(row) => InsertAhead(s.rows, row, i);
      case _ =>
    }
  }

  // ----- over a run -----

  /** The polls that dispatchers make after a point of a run. */
  ghost function Polls(c: Config, pace: Pace, n: nat, earlier: seq<Step>, later: seq<Step>): (count: nat) {
    if later == [] then 0
    else
      var before, step := later[..|later| - 1], later[|later| - 1];
      Polls(c, pace, n, earlier, before) + if step.Poll? && Enabled(c, pace, Run(c, pace, n, earlier + before), step)
        then 1 else 0
  }

  function Overtakers(later: seq<Step>, target: OutboxRow): (count: nat) {
    if later == [] then 0
    else Overtakers(later[..|later| - 1], target) + if Overtakes(later[|later| - 1], target) then 1 else 0
  }

  ghost predicate Stands(c: Config, pace: Pace, n: nat, steps: seq<Step>, target: OutboxRow, i: nat) {
    i < |Run(c, pace, n, steps).rows| && Run(c, pace, n, steps).rows[i] == target
  }

  /** The row stays as it is throughout. */
  ghost predicate Untouched(c: Config, pace: Pace, n: nat, earlier: seq<Step>, later: seq<Step>, target: OutboxRow,
                            i: nat) {
    forall k :: 0 <= k <= |later| ==> Stands(c, pace, n, earlier + later[..k], target, i)
  }

  lemma UntouchedBefore(c: Config, pace: Pace, n: nat, earlier: seq<Step>, later: seq<Step>, target: OutboxRow, i: nat)
    requires Untouched(c, pace, n, earlier, later, target, i) && later != []
    ensures Untouched(c, pace, n, earlier, later[..|later| - 1], target, i)
  {
    var before := later[..|later| - 1];
    forall k | 0 <= k <= |before| ensures Stands(c, pace, n, earlier + before[..k], target, i) {
      assert before[..k] == later[..k];
    }
  }

  lemma UntouchedNow(c: Config, pace: Pace, n: nat, earlier: seq<Step>, later: seq<Step>, target: OutboxRow, i: nat)
    requires Untouched(c, pace, n, earlier, later, target, i)
    ensures Stands(c, pace, n, earlier, target, i) && Stands(c, pace, n, earlier + later, target, i)
  {
    assert later[..0] == [] && later[..|later|] == later && earlier + [] == earlier;
  }

  /** The balance of a stretch: rows still ahead and ten per poll, against rows once ahead and overtakers. */
  ghost predicate PassesPaid(c: Config, pace: Pace, n: nat, earlier: seq<Step>, later: seq<Step>, target: OutboxRow,
                             i: nat)
    requires i < |Run(c, pace, n, earlier).rows| && i < |Run(c, pace, n, earlier + later).rows|
  {
    |Ahead(Run(c, pace, n, earlier + later).rows, i)| + CLAIM_LIMIT * Polls(c, pace, n, earlier, later)
    <= |Ahead(Run(c, pace, n, earlier).rows, i)| + Overtakers(later, target)
  }

  lemma OneMoreStep(c: Config, pace: Pace, n: nat, earlier: seq<Step>, before: seq<Step>, step: Step)
    ensures Run(c, pace, n, earlier + (before + [step])) == Next(c, pace, Run(c, pace, n, earlier + before), step)
    ensures Polls(c, pace, n, earlier, before + [step])
            == Polls(c, pace, n, earlier, before)
               + if step.Poll? && Enabled(c, pace, Run(c, pace, n, earlier + before), step) then 1 else 0
  {
    NextOfRun(c, pace, n, earlier + before, step);
    assert earlier + (before + [step]) == earlier + before + [step];
    assert (before + [step])[..|before|] == before;
  }

  lemma OneMoreOvertaker(before: seq<Step>, step: Step, target: OutboxRow)
    ensures Overtakers(before + [step], target) == Overtakers(before, target) + if Overtakes(step, target) then 1 else 0
  {
    assert (before + [step])[..|before|] == before;
  }

  lemma DrainsFurther(c: Config, pace: Pace, n: nat, earlier: seq<Step>, before: seq<Step>, step: Step,
                      target: OutboxRow, i: nat)
    requires c.Valid() && Stands(c, pace, n, earlier, target, i) && Stands(c, pace, n, earlier + before, target, i)
    requires Stands(c, pace, n, earlier + (before + [step]), target, i)
    requires PassesPaid(c, pace, n, earlier, before, target, i)
    requires target.status == Pending && target.nextAttemptAt < Run(c, pace, n, earlier + before).clock
    ensures PassesPaid(c, pace, n, earlier, before + [step], target, i)
  {
    OneMoreStep(c, pace, n, earlier, before, step);
    OneMoreOvertaker(before, step, target);
    StepAhead(c, pace, Run(c, pace, n, earlier + before), step, i);
  }

  /** Ten rows ahead go with every poll that passes the row over, and only overtaking insertions come in. */
  lemma {:induction false} AheadDrains(c: Config, pace: Pace, n: nat, earlier: seq<Step>, later: seq<Step>,
                                       target: OutboxRow, i: nat)
    requires c.Valid() && Untouched(c, pace, n, earlier, later, target, i)
    requires target.status == Pending && target.nextAttemptAt < Run(c, pace, n, earlier).clock
    ensures Stands(c, pace, n, earlier, target, i) && Stands(c, pace, n, earlier + later, target, i)
    ensures PassesPaid(c, pace, n, earlier, later, target, i)
  {
    UntouchedNow(c, pace, n, earlier, later, target, i);
    if later == [] {
      assert earlier + later == earlier;
    } else {
      var before, step := later[..|later| - 1], later[|later| - 1];
      UntouchedBefore(c, pace, n, earlier, later, target, i);
      AheadDrains(c, pace, n, earlier, before, target, i);
      RowsLast(c, pace, n, earlier, before);
      assert later == before + [step];
      DrainsFurther(c, pace, n, earlier, before, step, target, i);
    }
  }

  /**
   * A due row with k rows ahead of it, overtaken by u insertions, is passed over by at most (k + u) / 10 polls: within
   * one more it is claimed, or settled by an earlier owner.
   */
  lemma BoundedWaiting(c: Config, pace: Pace, n: nat, earlier: seq<Step>, later: seq<Step>, i: nat)
    requires c.Valid() && i < |Run(c, pace, n, earlier).rows|
    requires var s := Run(c, pace, n, earlier); s.rows[i].status == Pending && s.rows[i].nextAttemptAt < s.clock
    requires var s := Run(c, pace, n, earlier);
             Polls(c, pace, n, earlier, later) >= (|Ahead(s.rows, i)| + Overtakers(later, s.rows[i])) / CLAIM_LIMIT + 1
    ensures !Untouched(c, pace, n, earlier, later, Run(c, pace, n, earlier).rows[i], i)
  {
    if Untouched(c, pace, n, earlier, later, Run(c, pace, n, earlier).rows[i], i) {
      AheadDrains(c, pace, n, earlier, later, Run(c, pace, n, earlier).rows[i], i);
    }
  }

  /** The step at which a row that does not stay as it was first changes. */
  lemma FirstChange(c: Config, pace: Pace, n: nat, earlier: seq<Step>, later: seq<Step>, target: OutboxRow, i: nat)
    returns (k: nat)
    requires Stands(c, pace, n, earlier, target, i) && !Untouched(c, pace, n, earlier, later, target, i)
    ensures k < |later| && Stands(c, pace, n, earlier + later[..k], target, i)
    ensures !Stands(c, pace, n, earlier + later[..k + 1], target, i)
  {
    k := 0;
    assert later[..0] == [] && earlier + [] == earlier;
    while k < |later| && Stands(c, pace, n, earlier + later[..k + 1], target, i)
      invariant k <= |later|
      invariant forall l :: 0 <= l <= k ==> Stands(c, pace, n, earlier + later[..l], target, i)
    {
      k := k + 1;
    }
  }

  lemma MustChange(c: Config, pace: Pace, n: nat, earlier: seq<Step>, later: seq<Step>, target: OutboxRow, i: nat)
    requires c.Valid() && Stands(c, pace, n, earlier, target, i)
    requires target.status == Pending && target.nextAttemptAt < Run(c, pace, n, earlier).clock
    requires Polls(c, pace, n, earlier, later)
             >= (|Ahead(Run(c, pace, n, earlier).rows, i)| + Overtakers(later, target)) / CLAIM_LIMIT + 1
    ensures !Untouched(c, pace, n, earlier, later, target, i)
  {
    BoundedWaiting(c, pace, n, earlier, later, i);
  }

  lemma FirstChangeIsClaim(c: Config, pace: Pace, n: nat, earlier: seq<Step>, later: seq<Step>, target: OutboxRow,
                           i: nat)
    returns (k: nat)
    requires Exclusivity.Safe(c, pace, n) && Stands(c, pace, n, earlier, target, i) && target.status == Pending
    requires !Untouched(c, pace, n, earlier, later, target, i)
    ensures k < |later| && later[k].Poll? && i in later[k].picked
    ensures Stands(c, pace, n, earlier + later[..k], target, i)
    ensures Stands(c, pace, n, earlier + later[..k + 1],
                   ClaimedRow(target, Run(c, pace, n, earlier + later[..k]).clock), i)
  {
    k := FirstChange(c, pace, n, earlier, later, target, i);
    NextPrefix(earlier, later, k);
    ChangeIsClaim(c, pace, n, earlier + later[..k], later[k], target, i);
  }

  lemma NextPrefix(earlier: seq<Step>, later: seq<Step>, k: nat)
    requires k < |later|
    ensures earlier + later[..k + 1] == earlier + later[..k] + [later[k]]
  {
  }

  /** With exclusive leases that change is the claim itself. */
  lemma ClaimedInTime(c: Config, pace: Pace, n: nat, earlier: seq<Step>, later: seq<Step>, target: OutboxRow, i: nat)
    returns (k: nat)
    requires c.Valid() && Exclusivity.Safe(c, pace, n) && Stands(c, pace, n, earlier, target, i)
    requires target.status == Pending && target.nextAttemptAt < Run(c, pace, n, earlier).clock
    requires Polls(c, pace, n, earlier, later)
             >= (|Ahead(Run(c, pace, n, earlier).rows, i)| + Overtakers(later, target)) / CLAIM_LIMIT + 1
    ensures k < |later| && later[k].Poll? && i in later[k].picked
    ensures Stands(c, pace, n, earlier + later[..k], target, i)
    ensures Stands(c, pace, n, earlier + later[..k + 1],
                   ClaimedRow(target, Run(c, pace, n, earlier + later[..k]).clock), i)
  {
    MustChange(c, pace, n, earlier, later, target, i);
    k := FirstChangeIsClaim(c, pace, n, earlier, later, target, i);
  }

  lemma ChangeIsClaim(c: Config, pace: Pace, n: nat, before: seq<Step>, step: Step, target: OutboxRow, i: nat)
    requires Exclusivity.Safe(c, pace, n) && Stands(c, pace, n, before, target, i) && target.status == Pending
    ensures || Stands(c, pace, n, before + [step], target, i)
            || (step.Poll? && i in step.picked
                && Stands(c, pace, n, before + [step], ClaimedRow(target, Run(c, pace, n, before).clock), i))
  {
    NextOfRun(c, pace, n, before, step);
    Accounting.RunIsTracked(c, pace, n, before);
    Exclusivity.RunIsExclusive(c, pace, n, before);
    Exclusivity.PendingIsOnlyClaimed(c, pace, Run(c, pace, n, before), step, i);
  }
}
