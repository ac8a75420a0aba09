/**
 * All the work of a run: not only its callbacks but its claims and settling writes are bounded by rows and recoveries.
 */
module Work {
  import opened Outbox
  import opened Models
  import opened Leases
  import opened Accounting

  /** Polls that claim something. */
  ghost predicate IsClaim(c: Config, pace: Pace, s: State, step: Step) {
    step.Poll? && step.picked != [] && Enabled(c, pace, s, step)
  }

  ghost predicate IsSettling(c: Config, pace: Pace, s: State, step: Step) {
    step.Settle? && Enabled(c, pace, s, step)
  }

  ghost function Claims(c: Config, pace: Pace, n: nat, steps: seq<Step>): (count: nat) {
    if steps == [] then 0
    else
      var earlier := steps[..|steps| - 1];
      Claims(c, pace, n, earlier) + if IsClaim(c, pace, Run(c, pace, n, earlier), steps[|steps| - 1]) then 1 else 0
  }

  ghost function Settlings(c: Config, pace: Pace, n: nat, steps: seq<Step>): (count: nat) {
    if steps == [] then 0
    else
      var earlier := steps[..|steps| - 1];
      Settlings(c, pace, n, earlier) + if IsSettling(c, pace, Run(c, pace, n, earlier), steps[|steps| - 1]) then 1
        else 0
  }

  // ----- claims -----

  lemma {:induction false} AttemptSumGrows(rows: seq<OutboxRow>, rows': seq<OutboxRow>, more: set<nat>)
    requires |rows| <= |rows'| && forall i :: 0 <= i < |rows| ==> rows[i].attempts <= rows'[i].attempts
    requires forall i :: i in more ==> i < |rows| && rows[i].attempts < rows'[i].attempts
    ensures AttemptSum(rows) + (if more == {} then 0 else 1) <= AttemptSum(rows')
    decreases |rows'|
  {
    if rows' != [] {
      var last := |rows'| - 1;
      if |rows| == |rows'| {
        AttemptSumGrows(rows[..last], rows'[..last], more - {last});
      } else {
        AttemptSumGrows(rows, rows'[..last], more);
      }
    }
  }

  lemma StepClaims(c: Config, pace: Pace, s: State, step: Step)
    ensures AttemptSum(s.rows) + (if IsClaim(c, pace, s, step) then 1 else 0) <= AttemptSum(Next(c, pace, s, step).rows)
  {
    NextContinues(c, pace, s, step);
    AttemptSumGrows(s.rows, Next(c, pace, s, step).rows, if IsClaim(c, pace, s, step) then {step.picked[0]} else {});
  }

  lemma {:induction false} ClaimsAreAttempts(c: Config, pace: Pace, n: nat, steps: seq<Step>)
    ensures Claims(c, pace, n, steps) <= AttemptSum(Run(c, pace, n, steps).rows)
  {
    if steps != [] {
      ClaimsAreAttempts(c, pace, n, steps[..|steps| - 1]);
      StepClaims(c, pace, Run(c, pace, n, steps[..|steps| - 1]), steps[|steps| - 1]);
    }
  }

  // ----- settling writes -----

  function Answered(workers: seq<Worker>): (ws: set<nat>) {
    set w: nat | w < |workers| && workers[w].Working? && workers[w].answered
  }

  lemma AnsweredAfterUpdate(workers: seq<Worker>, w: nat, worker: Worker)
    requires w < |workers|
    ensures Answered(workers[w := worker])
            == if worker.Working? && worker.answered then Answered(workers) + {w} else Answered(workers) - {w}
  {
  }

  /** What a step does to its worker, as far as answers go. */
  lemma AnswersAfterStep(c: Config, pace: Pace, s: State, step: Step)
    requires Enabled(c, pace, s, step) && !step.Tick? && !step.Insert? && (step.Poll? ==> step.picked != [])
    ensures var s' := Next(c, pace, s, step);
            && step.worker < |s.workers| && step.worker < |s'.workers|
            && s'.workers == s.workers[step.worker := s'.workers[step.worker]]
            && (s'.workers[step.worker].Working? && s'.workers[step.worker].answered <==> step.Post?)
            && (step.Settle? ==> step.worker in Answered(s.workers))
            && |s'.log| == |s.log| + if step.Post? then 1 else 0
  {
  }

  lemma QuietStep(c: Config, pace: Pace, s: State, step: Step)
    requires !Enabled(c, pace, s, step) || step.Tick? || step.Insert? || (step.Poll? && step.picked == [])
    ensures var s' := Next(c, pace, s, step); s'.workers == s.workers && s'.log == s.log
  {
  }

  /** Each callback is settled once at most: a settling write uses up a logged answer. */
  lemma StepSettles(c: Config, pace: Pace, s: State, step: Step)
    ensures var s' := Next(c, pace, s, step);
            |Answered(s'.workers)| + (if IsSettling(c, pace, s, step) then 1 else 0) + |s.log| <= |Answered(s.workers)|
              + |s'.log|
  {
    if !Enabled(c, pace, s, step) || step.Tick? || step.Insert? || (step.Poll? && step.picked == []) {
      QuietStep(c, pace, s, step);
    } else {
      AnswersAfterStep(c, pace, s, step);
      AnsweredAfterUpdate(s.workers, step.worker, Next(c, pace, s, step).workers[step.worker]);
    }
  }

  lemma {:induction false} SettlingsAreCallbacks(c: Config, pace: Pace, n: nat, steps: seq<Step>)
    ensures var s := Run(c, pace, n, steps); Settlings(c, pace, n, steps) + |Answered(s.workers)| <= |s.log|
  {
    if steps == [] {
      assert Answered(Start(n).workers) == {};
    } else {
      SettlingsAreCallbacks(c, pace, n, steps[..|steps| - 1]);
      StepSettles(c, pace, Run(c, pace, n, steps[..|steps| - 1]), steps[|steps| - 1]);
    }
  }

  /**
   * n rows cause at most n * maxAttempts claims, as many callbacks and as many settling writes, and one more of each
   * per recovery. So without recoveries every run comes to an end of its work.
   */
  lemma WorkIsBounded(c: Config, pace: Pace, n: nat, steps: seq<Step>)
    requires c.Valid()
    ensures var s := Run(c, pace, n, steps);
            var budget := |s.rows| * c.maxAttempts + |s.recovered|;
            Claims(c, pace, n, steps) <= budget && Settlings(c, pace, n, steps) <= |s.log| <= budget
  {
    ClaimsAreAttempts(c, pace, n, steps);
    AttemptsSumToBudget(c, pace, n, steps);
    SettlingsAreCallbacks(c, pace, n, steps);
    CallbacksAreBounded(c, pace, n, steps);
  }
}
