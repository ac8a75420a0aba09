/**
 * Any number of dispatchers over one outbox table, as a state machine. The service inserts rows, time passes, callbacks
 * come back with any answer, settling writes may fail, and a dispatcher may die at any point.
 */
module Leases {
  import opened Models
  import opened Outbox

  /** A callback that was sent: the row and attempt it was for, what was posted, and what came back. */
  datatype Callback = Callback(id: nat, attempt: nat, payload: Payload, answer: Answer)

  /** A dispatcher between polls, or delivering its claimed events: the first one is posted and then settled. */
  datatype Worker = Idle | Working(events: seq<OutboxRow>, answered: bool, answer: Answer, claimedAt: int, since: int)

  /**
   * `recovered` and `retried` record which rows were recovered how often, and which attempts were put back in the
   * queue.
   */
  datatype State = State(
    rows: seq<OutboxRow>, workers: seq<Worker>, clock: int,
    log: seq<Callback>, recovered: multiset<nat>, retried: set<(nat, nat)>)

  datatype Step =
    | Tick(now: int)
    | Insert(row: OutboxRow)
    | Poll(worker: nat, picked: seq<nat>)
    | Post(worker: nat, answer: Answer)
    | Settle(worker: nat, delay: int)
    | GiveUp(worker: nat) // the settling write fails
    | Crash(worker: nat)

  /** No delivery takes longer than `hold`; or no bound at all. */
  datatype Pace = Unbounded | Bounded(hold: nat)

  predicate Punctual(pace: Pace, worker: Worker, now: int) {
    pace.Bounded? && worker.Working? ==> now <= worker.since + pace.hold
  }

  predicate UnusedId(rows: seq<OutboxRow>, id: nat) {
    forall i :: 0 <= i < |rows| ==> rows[i].id != id
  }

  predicate AtWork(s: State, w: nat) {
    w < |s.workers| && s.workers[w].Working? && |s.workers[w].events| > 0
  }

  function RecoveredAt(c: Config, s: State): (rows: seq<OutboxRow>)
    ensures |rows| == |s.rows|
  {
    Recovered(s.rows, s.clock, c.staleAfter)
  }

  ghost predicate Enabled(c: Config, pace: Pace, s: State, step: Step) {
    match step
    case Tick(now) => s.clock <= now && forall w :: 0 <= w < |s.workers| ==> Punctual(pace, s.workers[w], now)
    case Insert(row) => row.status == Pending && row.attempts == 0 && UnusedId(s.rows, row.id)
    case Poll(w, picked) =>
      w < |s.workers| && s.workers[w].Idle? && IsFirstDue(RecoveredAt(c, s), s.clock, CLAIM_LIMIT, picked)
    case Post(w, _) => AtWork(s, w) && !s.workers[w].answered
    case Settle(w, delay) =>
      AtWork(s, w) && s.workers[w].answered
      && DelayOf(c, s.workers[w].events[0].attempts, Classify(s.workers[w].answer), delay)
    case GiveUp(w) => AtWork(s, w) && s.workers[w].answered
    case Crash(w) => AtWork(s, w)
  }

  /** The worker after it is done with its first event. */
  function Advanced(worker: Worker, now: int): (next: Worker)
    requires worker.Working? && |worker.events| > 0
  {
    if |worker.events| == 1 then Idle else Working(worker.events[1..], false, NotSent, worker.claimedAt, now)
  }

  function StaleIds(rows: seq<OutboxRow>, now: int, staleAfter: nat): (ids: set<nat>) {
    set i | 0 <= i < |rows| && Stale(rows[i], now, staleAfter) :: rows[i].id
  }

  function Key(row: OutboxRow): (k: (nat, nat)) { (row.id, row.attempts) }

  function Polled(c: Config, s: State, w: nat, picked: seq<nat>): (s': State)
    requires w < |s.workers| && forall k :: 0 <= k < |picked| ==> picked[k] < |s.rows|
  {
    var rows := Claimed(RecoveredAt(c, s), s.clock, picked);
    s.(rows := rows,
       workers := if picked == [] then s.workers
                  else s.workers[w := Working(HandedOut(rows, picked), false, NotSent, s.clock, s.clock)],
       recovered := s.recovered + multiset(StaleIds(s.rows, s.clock, c.staleAfter)))
  }

  function Posted(s: State, w: nat, answer: Answer): (s': State)
    requires AtWork(s, w)
  {
    var event := s.workers[w].events[0];
    s.(workers := s.workers[w := s.workers[w].(answered := true, answer := answer)],
       log := s.log + [Callback(event.id, event.attempts, event.message.payload, answer)])
  }

  function SettledBy(c: Config, s: State, w: nat, delay: int): (s': State)
    requires AtWork(s, w)
  {
    var event, v := s.workers[w].events[0], Classify(s.workers[w].answer);
    s.(rows := Settled(c, s.rows, event, v, s.clock, delay),
       workers := s.workers[w := Advanced(s.workers[w], s.clock)],
       retried := if Retries(c, event.attempts, v) then s.retried + {Key(event)} else s.retried)
  }

  /** One step; a step that is not enabled changes nothing. */
  ghost function Next(c: Config, pace: Pace, s: State, step: Step): (s': State) {
    if !Enabled(c, pace, s, step) then s
    else
      match step
      case Tick(now) => s.(clock := now)
      case Insert(row) => s.(rows := s.rows + [row])
      case Poll(w, picked) => Polled(c, s, w, picked)
      case Post(w, answer) => Posted(s, w, answer)
      case Settle(w, delay) => SettledBy(c, s, w, delay)
      case GiveUp(w) => s.(workers := s.workers[w := Advanced(s.workers[w], s.clock)])
      case Crash(w) => s.(workers := s.workers[w := Idle])
  }

  function Start(n: nat): (s: State) {
    State([], seq(n, _ => Idle), 0, [], multiset{}, {})
  }

  /** The state after a run of `n` dispatchers from an empty table. */
  ghost function Run(c: Config, pace: Pace, n: nat, steps: seq<Step>): (s: State) {
    if steps == [] then Start(n) else Next(c, pace, Run(c, pace, n, steps[..|steps| - 1]), steps[|steps| - 1])
  }

  // ----- rows over time -----

  /** What no step changes or loses of a row: its place, id and message; and its attempts never decrease. */
  ghost predicate Continues(rows: seq<OutboxRow>, rows': seq<OutboxRow>) {
    && |rows| <= |rows'|
    && forall i :: 0 <= i < |rows| ==>
         rows'[i].id == rows[i].id && rows'[i].message == rows[i].message && rows'[i].attempts >= rows[i].attempts
  }

  lemma NextContinues(c: Config, pace: Pace, s: State, step: Step)
    ensures Continues(s.rows, Next(c, pace, s, step).rows)
    ensures |Next(c, pace, s, step).workers| == |s.workers|
    ensures !step.Insert? ==> |Next(c, pace, s, step).rows| == |s.rows|
    ensures s.clock <= Next(c, pace, s, step).clock
  {
  }

  lemma NextOfRun(c: Config, pace: Pace, n: nat, steps: seq<Step>, step: Step)
    ensures Run(c, pace, n, steps + [step]) == Next(c, pace, Run(c, pace, n, steps), step)
  {
    assert (steps + [step])[..|steps|] == steps;
  }

  /** No outbox row is ever lost, and no message ever changed. */
  lemma {:induction false} RowsLast(c: Config, pace: Pace, n: nat, earlier: seq<Step>, later: seq<Step>)
    ensures Continues(Run(c, pace, n, earlier).rows, Run(c, pace, n, earlier + later).rows)
    ensures Run(c, pace, n, earlier).clock <= Run(c, pace, n, earlier + later).clock
    ensures |Run(c, pace, n, earlier + later).workers| == n
  {
    if later == [] {
      assert earlier + later == earlier;
      WorkerCount(c, pace, n, earlier);
    } else {
      var before := earlier + later[..|later| - 1];
      RowsLast(c, pace, n, earlier, later[..|later| - 1]);
      NextContinues(c, pace, Run(c, pace, n, before), later[|later| - 1]);
      NextOfRun(c, pace, n, before, later[|later| - 1]);
      assert earlier + later == before + [later[|later| - 1]];
    }
  }

  lemma {:induction false} WorkerCount(c: Config, pace: Pace, n: nat, steps: seq<Step>)
    ensures |Run(c, pace, n, steps).workers| == n
  {
    if steps != [] {
      WorkerCount(c, pace, n, steps[..|steps| - 1]);
    }
  }
}
