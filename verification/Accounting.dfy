/** Retry accounting: attempts, recoveries and callbacks of every run, with no assumption on timing or on crashes. */
module Accounting {
  import opened Models
  import opened Outbox
  import opened Leases
  import opened Sets

  // ----- the attempts that exist -----

  /** Every attempt a table has seen: attempts 1 to `attempts` of every row. */
  function Slots(rows: seq<OutboxRow>): (slots: set<(nat, nat)>) {
    set i: nat, k: nat | i < |rows| && 1 <= k <= rows[i].attempts :: (rows[i].id, k)
  }

  function Keys(events: seq<OutboxRow>): (keys: set<(nat, nat)>) {
    set j | 0 <= j < |events| :: Key(events[j])
  }

  function LogKeys(log: seq<Callback>): (keys: set<(nat, nat)>) {
    set i | 0 <= i < |log| :: (log[i].id, log[i].attempt)
  }

  /** The attempts a worker holds, and those of them it has not posted yet. */
  function Held(worker: Worker): (keys: set<(nat, nat)>) {
    if worker.Working? then Keys(worker.events) else {}
  }

  function Unposted(worker: Worker): (keys: set<(nat, nat)>) {
    if !worker.Working? then {}
    else if worker.answered && |worker.events| > 0 then Keys(worker.events[1..])
    else Keys(worker.events)
  }

  ghost predicate KeysDistinct(events: seq<OutboxRow>) {
    forall i, j :: 0 <= i < j < |events| ==> Key(events[i]) != Key(events[j])
  }

  /** A worker's attempts are real, not yet settled, and posted at most once. */
  ghost predicate WorkerTracked(worker: Worker, slots: set<(nat, nat)>, retried: set<(nat, nat)>,
                                posted: set<(nat, nat)>) {
    && (worker.Working? ==> KeysDistinct(worker.events))
    && Held(worker) <= slots && Held(worker) !! retried && Unposted(worker) !! posted
  }

  ghost predicate LogDistinct(log: seq<Callback>) {
    forall i, j :: 0 <= i < j < |log| ==> (log[i].id, log[i].attempt) != (log[j].id, log[j].attempt)
  }

  ghost predicate Separate(workers: seq<Worker>) {
    forall v, w :: 0 <= v < w < |workers| ==> Held(workers[v]) !! Held(workers[w])
  }

  ghost predicate Tracked(s: State) {
    && IdsDistinct(s.rows) && Separate(s.workers)
    && (forall w :: 0 <= w < |s.workers| ==> WorkerTracked(s.workers[w], Slots(s.rows), s.retried, LogKeys(s.log)))
    && s.retried <= Slots(s.rows) && LogKeys(s.log) <= Slots(s.rows) && LogDistinct(s.log)
  }

  lemma SlotsGrow(rows: seq<OutboxRow>, rows': seq<OutboxRow>)
    requires Continues(rows, rows')
    ensures Slots(rows) <= Slots(rows')
  {
    forall key | key in Slots(rows) ensures key in Slots(rows') {
      var i: nat, k: nat :| i < |rows| && 1 <= k <= rows[i].attempts && key == (rows[i].id, k);
      assert i < |rows'| && 1 <= k <= rows'[i].attempts && key == (rows'[i].id, k);
    }
  }

  /** Replacing one worker keeps everything that its new attempts keep. */
  lemma TrackedAfterStep(s: State, s': State, w: nat)
    requires Tracked(s) && w < |s.workers| && IdsDistinct(s'.rows) && Continues(s.rows, s'.rows)
    requires |s'.workers| == |s.workers|
    requires forall v :: 0 <= v < |s.workers| && v != w ==> s'.workers[v] == s.workers[v]
    requires WorkerTracked(s'.workers[w], Slots(s'.rows), s'.retried, LogKeys(s'.log))
    requires forall v :: 0 <= v < |s.workers| && v != w ==> Held(s'.workers[w]) !! Held(s.workers[v])
    requires forall v :: 0 <= v < |s.workers| && v != w ==>
               Held(s.workers[v]) !! s'.retried && Unposted(s.workers[v]) !! LogKeys(s'.log)
    requires s'.retried <= Slots(s'.rows) && LogKeys(s'.log) <= Slots(s'.rows) && LogDistinct(s'.log)
    ensures Tracked(s')
  {
    SlotsGrow(s.rows, s'.rows);
    forall v | 0 <= v < |s.workers| ensures WorkerTracked(s'.workers[v], Slots(s'.rows), s'.retried, LogKeys(s'.log)) {
      assert WorkerTracked(s.workers[v], Slots(s.rows), s.retried, LogKeys(s.log));
    }
  }

  lemma AdvancedHolds(worker: Worker, now: int)
    requires worker.Working? && |worker.events| > 0 && KeysDistinct(worker.events)
    ensures var next := Advanced(worker, now);
            && Held(next) <= Held(worker) && Key(worker.events[0]) !in Held(next) && Unposted(next) <= Unposted(worker)
            && (next.Working? ==> KeysDistinct(next.events))
  {
    var rest := worker.events[1..];
    assert Key(worker.events[0]) !in Keys(rest);
    assert Keys(rest) <= Keys(worker.events);
  }

  lemma HeldElsewhere(s: State, w: nat, key: (nat, nat))
    requires Tracked(s) && w < |s.workers| && key in Held(s.workers[w])
    ensures forall v :: 0 <= v < |s.workers| && v != w ==> key !in Held(s.workers[v])
  {
    forall v | 0 <= v < |s.workers| && v != w ensures key !in Held(s.workers[v]) {
      assert Held(s.workers[if v < w then v else w]) !! Held(s.workers[if v < w then w else v]);
    }
  }

  lemma OthersApart(s: State, w: nat)
    requires Tracked(s) && w < |s.workers|
    ensures forall v :: 0 <= v < |s.workers| && v != w ==> Held(s.workers[w]) !! Held(s.workers[v])
  {
    forall v | 0 <= v < |s.workers| && v != w ensures Held(s.workers[w]) !! Held(s.workers[v]) {
      assert Held(s.workers[if v < w then v else w]) !! Held(s.workers[if v < w then w else v]);
    }
  }

  lemma AdvanceKeepsTracked(s: State, s': State, w: nat)
    requires Tracked(s) && AtWork(s, w) && IdsDistinct(s'.rows) && Continues(s.rows, s'.rows)
    requires s'.workers == s.workers[w := Advanced(s.workers[w], s.clock)] && s'.log == s.log
    requires s'.retried == s.retried || s'.retried == s.retried + {Key(s.workers[w].events[0])}
    ensures Tracked(s')
  {
    var worker := s.workers[w];
    assert WorkerTracked(worker, Slots(s.rows), s.retried, LogKeys(s.log));
    AdvancedHolds(worker, s.clock);
    OthersApart(s, w);
    assert Key(worker.events[0]) in Held(worker);
    HeldElsewhere(s, w, Key(worker.events[0]));
    SlotsGrow(s.rows, s'.rows);
    forall v | 0 <= v < |s.workers| && v != w
      ensures Held(s.workers[v]) !! s'.retried && Unposted(s.workers[v]) !! LogKeys(s'.log)
    {
      assert WorkerTracked(s.workers[v], Slots(s.rows), s.retried, LogKeys(s.log));
    }
    TrackedAfterStep(s, s', w);
  }

  lemma CrashKeepsTracked(s: State, w: nat)
    requires Tracked(s) && AtWork(s, w)
    ensures Tracked(s.(workers := s.workers[w := Idle]))
  {
    var s' := s.(workers := s.workers[w := Idle]);
    forall v | 0 <= v < |s.workers| && v != w
      ensures Held(s.workers[v]) !! s'.retried && Unposted(s.workers[v]) !! LogKeys(s'.log)
    {
      assert WorkerTracked(s.workers[v], Slots(s.rows), s.retried, LogKeys(s.log));
    }
    TrackedAfterStep(s, s', w);
  }

  lemma UnpostedIsHeld(worker: Worker)
    ensures Unposted(worker) <= Held(worker)
  {
    if worker.Working? && |worker.events| > 0 {
      assert Keys(worker.events[1..]) <= Keys(worker.events);
    }
  }

  lemma PostKeepsTracked(s: State, w: nat, answer: Answer)
    requires Tracked(s) && AtWork(s, w) && !s.workers[w].answered
    ensures Tracked(Posted(s, w, answer))
  {
    var worker, s' := s.workers[w], Posted(s, w, answer);
    var key := Key(worker.events[0]);
    assert WorkerTracked(worker, Slots(s.rows), s.retried, LogKeys(s.log));
    assert key in Keys(worker.events);
    AdvancedHolds(worker, s.clock);
    HeldElsewhere(s, w, key);
    OthersApart(s, w);
    LogGrows(s.log, s'.log[|s.log|]);
    forall v | 0 <= v < |s.workers| && v != w
      ensures Held(s.workers[v]) !! s'.retried && Unposted(s.workers[v]) !! LogKeys(s'.log)
    {
      assert WorkerTracked(s.workers[v], Slots(s.rows), s.retried, LogKeys(s.log));
      UnpostedIsHeld(s.workers[v]);
    }
    assert Unposted(s'.workers[w]) == Keys(worker.events[1..]);
    PostedApart(worker);
    TrackedAfterStep(s, s', w);
  }

  lemma PostedApart(worker: Worker)
    requires worker.Working? && |worker.events| > 0 && KeysDistinct(worker.events)
    ensures Key(worker.events[0]) !in Keys(worker.events[1..]) && Keys(worker.events[1..]) <= Keys(worker.events)
  {
  }

  lemma LogGrows(log: seq<Callback>, call: Callback)
    ensures LogKeys(log + [call]) == LogKeys(log) + {(call.id, call.attempt)}
  {
    var more := log + [call];
    assert more[|log|] == call;
    forall key | key in LogKeys(log) ensures key in LogKeys(more) {
      var i :| 0 <= i < |log| && key == (log[i].id, log[i].attempt);
      assert more[i] == log[i];
    }
  }

  // ----- a claim hands out new attempts -----

  /** What a claim does to the rows it picks, seen as keys. */
  ghost predicate HandsOut(rows: seq<OutboxRow>, rows': seq<OutboxRow>, picked: seq<nat>) {
    && |rows'| == |rows|
    && (forall i :: 0 <= i < |rows| ==> rows'[i].id == rows[i].id)
    && (forall k :: 0 <= k < |picked| ==>
          picked[k] < |rows| && rows'[picked[k]].attempts == rows[picked[k]].attempts + 1)
    && forall k, l :: 0 <= k < l < |picked| ==> picked[k] != picked[l]
  }

  lemma PollHandsOut(c: Config, s: State, w: nat, picked: seq<nat>)
    requires w < |s.workers| && IsFirstDue(RecoveredAt(c, s), s.clock, CLAIM_LIMIT, picked)
    ensures HandsOut(s.rows, Polled(c, s, w, picked).rows, picked)
    ensures Continues(s.rows, Polled(c, s, w, picked).rows)
  {
  }

  lemma NotYetASlot(rows: seq<OutboxRow>, p: nat)
    requires IdsDistinct(rows) && p < |rows|
    ensures (rows[p].id, rows[p].attempts + 1) !in Slots(rows)
  {
  }

  lemma IsASlot(rows: seq<OutboxRow>, p: nat)
    requires p < |rows| && rows[p].attempts > 0
    ensures Key(rows[p]) in Slots(rows)
  {
    assert p < |rows| && 1 <= rows[p].attempts <= rows[p].attempts;
  }

  lemma NewAttempts(rows: seq<OutboxRow>, rows': seq<OutboxRow>, picked: seq<nat>)
    requires IdsDistinct(rows) && HandsOut(rows, rows', picked)
    ensures var events := HandedOut(rows', picked);
            KeysDistinct(events) && Keys(events) <= Slots(rows') && Keys(events) !! Slots(rows)
  {
    var events := HandedOut(rows', picked);
    forall j | 0 <= j < |events| ensures Key(events[j]) in Slots(rows') && Key(events[j]) !in Slots(rows) {
      IsASlot(rows', picked[j]);
      NotYetASlot(rows, picked[j]);
    }
    forall i, j | 0 <= i < j < |events| ensures Key(events[i]) != Key(events[j]) {
      assert rows[picked[i]].id != rows[picked[j]].id;
    }
  }

  lemma PollKeepsTracked(c: Config, s: State, w: nat, picked: seq<nat>)
    requires Tracked(s) && w < |s.workers| && s.workers[w].Idle?
    requires IsFirstDue(RecoveredAt(c, s), s.clock, CLAIM_LIMIT, picked)
    ensures Tracked(Polled(c, s, w, picked))
  {
    var s' := Polled(c, s, w, picked);
    PollHandsOut(c, s, w, picked);
    NewAttempts(s.rows, s'.rows, picked);
    SlotsGrow(s.rows, s'.rows);
    assert picked != [] ==> Held(s'.workers[w]) == Keys(HandedOut(s'.rows, picked)) == Unposted(s'.workers[w]);
    forall v | 0 <= v < |s.workers| && v != w
      ensures Held(s.workers[v]) <= Slots(s.rows) && Held(s.workers[v]) !! s'.retried
      ensures Unposted(s.workers[v]) !! LogKeys(s'.log)
    {
      assert WorkerTracked(s.workers[v], Slots(s.rows), s.retried, LogKeys(s.log));
    }
    TrackedAfterStep(s, s', w);
  }

  lemma TrackedAfterInsert(s: State, row: OutboxRow)
    requires Tracked(s) && UnusedId(s.rows, row.id)
    ensures Tracked(s.(rows := s.rows + [row]))
  {
    var s' := s.(rows := s.rows + [row]);
    SlotsGrow(s.rows, s'.rows);
    forall v | 0 <= v < |s.workers| ensures WorkerTracked(s'.workers[v], Slots(s'.rows), s'.retried, LogKeys(s'.log)) {
      assert WorkerTracked(s.workers[v], Slots(s.rows), s.retried, LogKeys(s.log));
    }
  }

  lemma NextKeepsTracked(c: Config, pace: Pace, s: State, step: Step)
    requires Tracked(s)
    ensures Tracked(Next(c, pace, s, step))
  {
    if Enabled(c, pace, s, step) {
      match step
      case Tick(now) =>
      case Insert(row) => TrackedAfterInsert(s, row);
      case Poll(w, picked) => PollKeepsTracked(c, s, w, picked);
      case Post(w, answer) => PostKeepsTracked(s, w, answer);
      case Settle(w, delay) => AdvanceKeepsTracked(s, SettledBy(c, s, w, delay), w);
      case GiveUp(w) => AdvanceKeepsTracked(s, s.(workers := s.workers[w := Advanced(s.workers[w], s.clock)]), w);
      case Crash(w) => CrashKeepsTracked(s, w);
    }
  }

  lemma StartIsTracked(n: nat)
    ensures Tracked(Start(n))
  {
  }

  lemma {:induction false} RunIsTracked(c: Config, pace: Pace, n: nat, steps: seq<Step>)
    ensures Tracked(Run(c, pace, n, steps))
  {
    if steps == [] {
      StartIsTracked(n);
    } else {
      RunIsTracked(c, pace, n, steps[..|steps| - 1]);
      NextKeepsTracked(c, pace, Run(c, pace, n, steps[..|steps| - 1]), steps[|steps| - 1]);
    }
  }

  // ----- attempts against recoveries and retries -----

  function RetriesOf(retried: set<(nat, nat)>, id: nat): (mine: set<(nat, nat)>) {
    set p | p in retried && p.0 == id
  }

  /** A row's attempts, and the one it waits for, are paid for by its insertion, its recoveries and its retries. */
  ghost predicate Paid(row: OutboxRow, recovered: multiset<nat>, retried: set<(nat, nat)>) {
    row.attempts + (if row.status == Pending then 1 else 0) <= 1 + recovered[row.id] + |RetriesOf(retried, row.id)|
  }

  ghost predicate Balanced(c: Config, s: State) {
    && (forall i :: 0 <= i < |s.rows| ==> Paid(s.rows[i], s.recovered, s.retried))
    && forall p :: p in s.retried ==> 1 <= p.1 < c.maxAttempts
  }

  lemma PollKeepsBalance(c: Config, s: State, w: nat, picked: seq<nat>)
    requires Balanced(c, s) && w < |s.workers| && IsFirstDue(RecoveredAt(c, s), s.clock, CLAIM_LIMIT, picked)
    ensures Balanced(c, Polled(c, s, w, picked))
  {
    var s' := Polled(c, s, w, picked);
    forall i | 0 <= i < |s.rows| ensures Paid(s'.rows[i], s'.recovered, s'.retried) {
      assert Paid(s.rows[i], s.recovered, s.retried);
      if Stale(s.rows[i], s.clock, c.staleAfter) {
        assert s.rows[i].id in StaleIds(s.rows, s.clock, c.staleAfter);
      }
    }
  }

  lemma OneMoreRetry(retried: set<(nat, nat)>, key: (nat, nat), id: nat)
    requires key !in retried
    ensures |RetriesOf(retried + {key}, id)| == |RetriesOf(retried, id)| + if key.0 == id then 1 else 0
  {
    assert RetriesOf(retried + {key}, id) == RetriesOf(retried, id) + if key.0 == id then {key} else {};
  }

  lemma SettleKeepsBalance(c: Config, s: State, w: nat, delay: int)
    requires Tracked(s) && Balanced(c, s) && AtWork(s, w)
    ensures Balanced(c, SettledBy(c, s, w, delay))
  {
    var event, s' := s.workers[w].events[0], SettledBy(c, s, w, delay);
    assert WorkerTracked(s.workers[w], Slots(s.rows), s.retried, LogKeys(s.log));
    assert Key(event) in Held(s.workers[w]);
    forall i | 0 <= i < |s.rows| ensures Paid(s'.rows[i], s'.recovered, s'.retried) {
      assert Paid(s.rows[i], s.recovered, s.retried);
      OneMoreRetry(s.retried, Key(event), s.rows[i].id);
    }
  }

  lemma NextKeepsBalance(c: Config, pace: Pace, s: State, step: Step)
    requires Tracked(s) && Balanced(c, s)
    ensures Balanced(c, Next(c, pace, s, step))
  {
    if Enabled(c, pace, s, step) {
      match step
      case Poll(w, picked) => PollKeepsBalance(c, s, w, picked);
      case Settle(w, delay) => SettleKeepsBalance(c, s, w, delay);
      case _ =>
    }
  }

  lemma {:induction false} RunIsBalanced(c: Config, pace: Pace, n: nat, steps: seq<Step>)
    ensures Balanced(c, Run(c, pace, n, steps))
  {
    if steps != [] {
      RunIsBalanced(c, pace, n, steps[..|steps| - 1]);
      RunIsTracked(c, pace, n, steps[..|steps| - 1]);
      NextKeepsBalance(c, pace, Run(c, pace, n, steps[..|steps| - 1]), steps[|steps| - 1]);
    }
  }

  lemma {:induction false} AtMostSoManyRetries(ps: set<(nat, nat)>, id: nat, bound: nat)
    requires forall p :: p in ps ==> p.0 == id && 1 <= p.1 <= bound
    ensures |ps| <= bound
  {
    if bound == 0 {
      assert ps == {};
    } else {
      AtMostSoManyRetries(ps - {(id, bound)}, id, bound - 1);
    }
  }

  /**
   * The exact budget of a row, whatever crashes, overlaps or times out: it is claimed at most maxAttempts times and
   * once more per recovery, and while it waits it still has one of these left.
   */
  lemma AttemptsAreBounded(c: Config, pace: Pace, n: nat, steps: seq<Step>, i: nat)
    requires c.Valid() && i < |Run(c, pace, n, steps).rows|
    ensures var s := Run(c, pace, n, steps);
            && s.rows[i].attempts <= c.maxAttempts + s.recovered[s.rows[i].id]
            && (s.rows[i].status == Pending ==> s.rows[i].attempts < c.maxAttempts + s.recovered[s.rows[i].id])
  {
    RunIsBalanced(c, pace, n, steps);
    var s := Run(c, pace, n, steps);
    assert Paid(s.rows[i], s.recovered, s.retried);
    AtMostSoManyRetries(RetriesOf(s.retried, s.rows[i].id), s.rows[i].id, c.maxAttempts - 1);
  }

  // ----- all callbacks of a run -----

  function AttemptSum(rows: seq<OutboxRow>): (n: nat) {
    if rows == [] then 0 else AttemptSum(rows[..|rows| - 1]) + rows[|rows| - 1].attempts
  }

  function RowSlots(id: nat, attempts: nat): (slots: set<(nat, nat)>) {
    set k: nat | 1 <= k <= attempts :: (id, k)
  }

  lemma {:induction false} RowSlotsSize(id: nat, attempts: nat)
    ensures |RowSlots(id, attempts)| == attempts
  {
    if attempts > 0 {
      RowSlotsSize(id, attempts - 1);
      assert RowSlots(id, attempts) == RowSlots(id, attempts - 1) + {(id, attempts)};
    } else {
      assert RowSlots(id, 0) == {};
    }
  }

  lemma {:induction false} SlotsSize(rows: seq<OutboxRow>)
    ensures |Slots(rows)| <= AttemptSum(rows)
  {
    if rows == [] {
      assert Slots(rows) == {};
    } else {
      var earlier, last := rows[..|rows| - 1], rows[|rows| - 1];
      SlotsSize(earlier);
      RowSlotsSize(last.id, last.attempts);
      assert Slots(rows) <= Slots(earlier) + RowSlots(last.id, last.attempts);
      SubsetSize(Slots(rows), Slots(earlier) + RowSlots(last.id, last.attempts));
    }
  }

  lemma {:induction false} LogSize(log: seq<Callback>)
    requires LogDistinct(log)
    ensures |LogKeys(log)| == |log|
  {
    if log == [] {
      assert LogKeys(log) == {};
    } else {
      var earlier, last := log[..|log| - 1], log[|log| - 1];
      LogSize(earlier);
      assert log == earlier + [last];
      LogGrows(earlier, last);
    }
  }

  /** The recoveries of the rows of a table, row by row. */
  function RecoverySum(rows: seq<OutboxRow>, recovered: multiset<nat>): (n: nat) {
    if rows == [] then 0 else RecoverySum(rows[..|rows| - 1], recovered) + recovered[rows[|rows| - 1].id]
  }

  lemma {:induction false} RecoverySumIgnores(rows: seq<OutboxRow>, recovered: multiset<nat>, id: nat)
    requires UnusedId(rows, id)
    ensures RecoverySum(rows, recovered[id := 0]) == RecoverySum(rows, recovered)
  {
    if rows != [] {
      RecoverySumIgnores(rows[..|rows| - 1], recovered, id);
    }
  }

  lemma {:induction false} RecoverySumSize(rows: seq<OutboxRow>, recovered: multiset<nat>)
    requires IdsDistinct(rows)
    ensures RecoverySum(rows, recovered) <= |recovered|
  {
    if rows != [] {
      var earlier, id := rows[..|rows| - 1], rows[|rows| - 1].id;
      RecoverySumSize(earlier, recovered[id := 0]);
      RecoverySumIgnores(earlier, recovered, id);
      assert |recovered| == |recovered[id := 0]| + recovered[id];
    }
  }

  lemma {:induction false} SumsAreBounded(rows: seq<OutboxRow>, recovered: multiset<nat>, most: nat)
    requires forall i :: 0 <= i < |rows| ==> rows[i].attempts <= most + recovered[rows[i].id]
    ensures AttemptSum(rows) <= |rows| * most + RecoverySum(rows, recovered)
  {
    if rows != [] {
      SumsAreBounded(rows[..|rows| - 1], recovered, most);
      assert |rows| * most == (|rows| - 1) * most + most;
    }
  }

  lemma AttemptsSumToBudget(c: Config, pace: Pace, n: nat, steps: seq<Step>)
    requires c.Valid()
    ensures var s := Run(c, pace, n, steps);
            AttemptSum(s.rows) <= |s.rows| * c.maxAttempts + |s.recovered|
  {
    var s := Run(c, pace, n, steps);
    RunIsTracked(c, pace, n, steps);
    forall i | 0 <= i < |s.rows| ensures s.rows[i].attempts <= c.maxAttempts + s.recovered[s.rows[i].id] {
      AttemptsAreBounded(c, pace, n, steps, i);
    }
    SumsAreBounded(s.rows, s.recovered, c.maxAttempts);
    RecoverySumSize(s.rows, s.recovered);
  }

  /** n rows cause at most n * maxAttempts callbacks and one more per recovery, however many dispatchers overlap. */
  lemma CallbacksAreBounded(c: Config, pace: Pace, n: nat, steps: seq<Step>)
    requires c.Valid()
    ensures var s := Run(c, pace, n, steps);
            |s.log| <= |s.rows| * c.maxAttempts + |s.recovered|
  {
    var s := Run(c, pace, n, steps);
    RunIsTracked(c, pace, n, steps);
    AttemptsSumToBudget(c, pace, n, steps);
    SlotsSize(s.rows);
    LogSize(s.log);
    SubsetSize(LogKeys(s.log), Slots(s.rows));
  }
}
