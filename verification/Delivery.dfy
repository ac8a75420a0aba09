/** At-least-once delivery: what the log proves about every row, however many dispatchers overlap and crash. */
module Delivery {
  import opened Models
  import opened Outbox
  import opened Leases
  import opened Accounting
  import Runs

  /** A response of the shop with a 2xx code. */
  predicate Successful(a: Answer) {
    a.Response? && 200 <= a.code < 300
  }

  /** What ends a delivery at once: a callback not sent or cancelled, or one of five client errors. */
  predicate Hopeless(a: Answer) {
    match a
    case NotSent => true
    case TransportError(cancelled) => cancelled
    case Response(code) => code in {400, 401, 403, 404, 422}
  }

  /** A 2xx answer to exactly the row's stored payload. */
  ghost predicate Acknowledged(log: seq<Callback>, row: OutboxRow) {
    exists k, a :: Callback(row.id, k, row.message.payload, a) in log && Successful(a)
  }

  /** A hopeless answer, or any other unsuccessful one to an attempt that was at least the last one allowed. */
  ghost predicate GivenUp(c: Config, log: seq<Callback>, row: OutboxRow) {
    exists k: nat, a :: Callback(row.id, k, row.message.payload, a) in log
                        && (Hopeless(a) || (!Successful(a) && c.maxAttempts <= k <= row.attempts))
  }

  /** The dispatcher tells three kinds of answers apart: successful, hopeless, and all others. */
  lemma AnswersAreToldApart(a: Answer)
    ensures Classify(a) == Success <==> Successful(a)
    ensures Classify(a) == Permanent <==> Hopeless(a)
    ensures !(Successful(a) && Hopeless(a))
  {
  }

  ghost predicate Justified(c: Config, log: seq<Callback>, row: OutboxRow) {
    && (row.status == DeliveredToShop ==> Acknowledged(log, row))
    && (row.status == Failed ==> GivenUp(c, log, row))
  }

  /** A claimed copy agrees with its row. */
  ghost predicate Copies(rows: seq<OutboxRow>, event: OutboxRow) {
    forall i :: 0 <= i < |rows| && rows[i].id == event.id
      ==> rows[i].message == event.message && event.attempts <= rows[i].attempts
  }

  ghost predicate WorkerBacked(rows: seq<OutboxRow>, log: seq<Callback>, worker: Worker) {
    worker.Working? ==>
      && (forall j :: 0 <= j < |worker.events| ==> Copies(rows, worker.events[j]))
      && (worker.answered && |worker.events| > 0 ==>
            var event := worker.events[0];
            Callback(event.id, event.attempts, event.message.payload, worker.answer) in log)
  }

  /** The events in hand are rows of the table, so a row inserted later is never taken for one of them. */
  ghost predicate InHandIsStored(s: State) {
    forall w, j :: 0 <= w < |s.workers| && s.workers[w].Working? && 0 <= j < |s.workers[w].events| ==>
      !UnusedId(s.rows, s.workers[w].events[j].id)
  }

  ghost predicate Accounted(c: Config, s: State) {
    && (forall i :: 0 <= i < |s.rows| ==> Justified(c, s.log, s.rows[i]))
    && (forall w :: 0 <= w < |s.workers| ==> WorkerBacked(s.rows, s.log, s.workers[w]))
    && InHandIsStored(s)
  }

  lemma BackedLater(rows: seq<OutboxRow>, rows': seq<OutboxRow>, log: seq<Callback>, log': seq<Callback>,
                    worker: Worker)
    requires WorkerBacked(rows, log, worker) && Continues(rows, rows') && log <= log'
    requires worker.Working? ==> forall j :: 0 <= j < |worker.events| ==> !UnusedId(rows, worker.events[j].id)
    requires IdsDistinct(rows')
    ensures WorkerBacked(rows', log', worker)
  {
    if worker.Working? {
      forall j | 0 <= j < |worker.events| ensures Copies(rows', worker.events[j]) {
        var event := worker.events[j];
        var i :| 0 <= i < |rows| && rows[i].id == event.id;
        assert Copies(rows, event);
        OnlyRow(rows', i, event.id);
      }
    }
  }

  lemma OnlyRow(rows: seq<OutboxRow>, i: nat, id: nat)
    requires IdsDistinct(rows) && i < |rows| && rows[i].id == id
    ensures forall k :: 0 <= k < |rows| && rows[k].id == id ==> k == i
  {
  }

  lemma StoredLater(rows: seq<OutboxRow>, rows': seq<OutboxRow>, id: nat)
    requires Continues(rows, rows') && !UnusedId(rows, id)
    ensures !UnusedId(rows', id)
  {
    var i :| 0 <= i < |rows| && rows[i].id == id;
    assert rows'[i].id == id;
  }

  lemma JustifiedLater(c: Config, log: seq<Callback>, log': seq<Callback>, row: OutboxRow, row': OutboxRow)
    requires Justified(c, log, row) && log <= log'
    requires row'.id == row.id && row'.message == row.message && row'.attempts >= row.attempts
    requires row'.status == row.status || row'.status == Pending || row'.status == Processing
    ensures Justified(c, log', row')
  {
    forall call | call in log ensures call in log' {
      var i :| 0 <= i < |log| && log[i] == call;
      assert log'[i] == call;
    }
    if row'.status == DeliveredToShop {
      var k, a :| Callback(row.id, k, row.message.payload, a) in log && Successful(a);
      assert Callback(row'.id, k, row'.message.payload, a) in log';
    }
    if row'.status == Failed {
      var k: nat, a :| Callback(row.id, k, row.message.payload, a) in log
                       && (Hopeless(a) || (!Successful(a) && c.maxAttempts <= k <= row.attempts));
      assert Callback(row'.id, k, row'.message.payload, a) in log';
    }
  }

  lemma SettledIsJustified(c: Config, log: seq<Callback>, row: OutboxRow, event: OutboxRow, answer: Answer, now: int,
                           delay: int)
    requires Callback(event.id, event.attempts, event.message.payload, answer) in log
    requires row.id == event.id && row.message == event.message && event.attempts <= row.attempts
    ensures Justified(c, log, SettledRow(c, row, event.attempts, Classify(answer), now, delay))
  {
    AnswersAreToldApart(answer);
    assert Callback(row.id, event.attempts, row.message.payload, answer) in log;
  }

  /** The rows that no settling write touches only ever move between pending and processing. */
  lemma StepIsGentle(c: Config, pace: Pace, s: State, step: Step, i: nat)
    requires i < |s.rows| && !step.Settle?
    ensures var row' := Next(c, pace, s, step).rows[i];
            row'.status == s.rows[i].status || row'.status == Pending || row'.status == Processing
    ensures s.log <= Next(c, pace, s, step).log
  {
  }

  lemma RowsStayJustified(c: Config, pace: Pace, s: State, step: Step)
    requires Accounted(c, s) && Tracked(s)
    ensures var s' := Next(c, pace, s, step); forall i :: 0 <= i < |s'.rows| ==> Justified(c, s'.log, s'.rows[i])
  {
    var s' := Next(c, pace, s, step);
    NextContinues(c, pace, s, step);
    forall i | 0 <= i < |s'.rows| ensures Justified(c, s'.log, s'.rows[i]) {
      if i < |s.rows| {
        assert Justified(c, s.log, s.rows[i]);
        if step.Settle? && Enabled(c, pace, s, step) && s.rows[i].id == s.workers[step.worker].events[0].id {
          var worker := s.workers[step.worker];
          assert WorkerBacked(s.rows, s.log, worker);
          assert Copies(s.rows, worker.events[0]);
          SettledIsJustified(c, s.log, s.rows[i], worker.events[0], worker.answer, s.clock, step.delay);
        } else if step.Settle? {
          assert s'.rows[i] == s.rows[i];
        } else {
          StepIsGentle(c, pace, s, step, i);
          JustifiedLater(c, s.log, s'.log, s.rows[i], s'.rows[i]);
        }
      }
    }
  }

  /** A worker that has just claimed rows and still holds them as they are stored. */
  ghost predicate NewClaim(rows: seq<OutboxRow>, worker: Worker) {
    worker.Working? && !worker.answered && forall j :: 0 <= j < |worker.events| ==> worker.events[j] in rows
  }

  /** What a step makes of one worker: nothing, a new claim, a posted callback, one event less, or an idle worker. */
  ghost predicate WorkerStep(s: State, s': State, worker: Worker, worker': Worker) {
    || worker' == worker
    || worker'.Idle?
    || (worker.Working? && |worker.events| > 0 && worker' == Advanced(worker, s.clock))
    || NewClaim(s'.rows, worker')
    || (worker.Working? && |worker.events| > 0 && worker'.Working? && worker'.events == worker.events
        && var event := worker.events[0];
          Callback(event.id, event.attempts, event.message.payload, worker'.answer) in s'.log)
  }

  lemma PollIsWorkerStep(c: Config, s: State, w: nat, picked: seq<nat>)
    requires w < |s.workers| && forall k :: 0 <= k < |picked| ==> picked[k] < |s.rows|
    ensures var s' := Polled(c, s, w, picked); WorkerStep(s, s', s.workers[w], s'.workers[w])
  {
    var s' := Polled(c, s, w, picked);
    var events := HandedOut(s'.rows, picked);
    forall j | 0 <= j < |events| ensures events[j] in s'.rows {
      assert s'.rows[picked[j]] == events[j];
    }
  }

  lemma PostIsWorkerStep(s: State, w: nat, answer: Answer)
    requires AtWork(s, w)
    ensures var s' := Posted(s, w, answer); WorkerStep(s, s', s.workers[w], s'.workers[w])
  {
    var s', event := Posted(s, w, answer), s.workers[w].events[0];
    assert s'.log[|s.log|] == Callback(event.id, event.attempts, event.message.payload, answer);
    assert s'.workers[w].events == s.workers[w].events && s'.workers[w].answer == answer;
  }

  lemma EveryWorkerStep(c: Config, pace: Pace, s: State, step: Step, w: nat)
    requires w < |s.workers|
    ensures var s' := Next(c, pace, s, step); w < |s'.workers| && WorkerStep(s, s', s.workers[w], s'.workers[w])
  {
    if Enabled(c, pace, s, step) {
      match step
      case Poll(v, picked) => PollIsWorkerStep(c, s, v, picked);
      case Post(v, answer) => PostIsWorkerStep(s, v, answer);
      case _ =>
    }
  }

  ghost predicate Stored(rows: seq<OutboxRow>, worker: Worker) {
    worker.Working? ==> forall j :: 0 <= j < |worker.events| ==> !UnusedId(rows, worker.events[j].id)
  }

  lemma ClaimIsBacked(rows: seq<OutboxRow>, log: seq<Callback>, worker: Worker)
    requires IdsDistinct(rows) && NewClaim(rows, worker)
    ensures WorkerBacked(rows, log, worker) && Stored(rows, worker)
  {
    forall j | 0 <= j < |worker.events| ensures Copies(rows, worker.events[j]) && !UnusedId(rows, worker.events[j].id) {
      var i :| 0 <= i < |rows| && rows[i] == worker.events[j];
      OnlyRow(rows, i, rows[i].id);
    }
  }

  lemma WorkerStaysBacked(s: State, s': State, worker: Worker, worker': Worker)
    requires WorkerStep(s, s', worker, worker') && WorkerBacked(s.rows, s.log, worker) && Stored(s.rows, worker)
    requires Continues(s.rows, s'.rows) && IdsDistinct(s'.rows) && s.log <= s'.log
    ensures WorkerBacked(s'.rows, s'.log, worker') && Stored(s'.rows, worker')
  {
    BackedLater(s.rows, s'.rows, s.log, s'.log, worker);
    if worker.Working? {
      forall j | 0 <= j < |worker.events| ensures !UnusedId(s'.rows, worker.events[j].id) {
        StoredLater(s.rows, s'.rows, worker.events[j].id);
      }
    }
    if NewClaim(s'.rows, worker') {
      ClaimIsBacked(s'.rows, s'.log, worker');
    }
  }

  lemma NextKeepsAccounted(c: Config, pace: Pace, s: State, step: Step)
    requires Accounted(c, s) && Tracked(s)
    ensures Accounted(c, Next(c, pace, s, step))
  {
    var s' := Next(c, pace, s, step);
    RowsStayJustified(c, pace, s, step);
    NextContinues(c, pace, s, step);
    NextKeepsTracked(c, pace, s, step);
    assert s.log <= s'.log;
    forall w | 0 <= w < |s'.workers|
      ensures WorkerBacked(s'.rows, s'.log, s'.workers[w]) && Stored(s'.rows, s'.workers[w])
    {
      EveryWorkerStep(c, pace, s, step, w);
      assert WorkerBacked(s.rows, s.log, s.workers[w]);
      WorkerStaysBacked(s, s', s.workers[w], s'.workers[w]);
    }
    forall w, j | 0 <= w < |s'.workers| && s'.workers[w].Working? && 0 <= j < |s'.workers[w].events|
      ensures !UnusedId(s'.rows, s'.workers[w].events[j].id)
    {
      assert Stored(s'.rows, s'.workers[w]);
    }
  }

  lemma {:induction false} RunIsAccounted(c: Config, pace: Pace, n: nat, steps: seq<Step>)
    ensures Accounted(c, Run(c, pace, n, steps))
  {
    if steps != [] {
      RunIsAccounted(c, pace, n, steps[..|steps| - 1]);
      RunIsTracked(c, pace, n, steps[..|steps| - 1]);
      NextKeepsAccounted(c, pace, Run(c, pace, n, steps[..|steps| - 1]), steps[|steps| - 1]);
    }
  }

  /**
   * At least once: in every reachable state, and in all later ones, a row is still waiting or in delivery, or was
   * acknowledged with a 2xx answer to exactly its stored payload, or has failed for a logged reason.
   */
  lemma AtLeastOnce(c: Config, pace: Pace, n: nat, earlier: seq<Step>, later: seq<Step>, i: nat)
    requires i < |Run(c, pace, n, earlier).rows|
    ensures var s, s' := Run(c, pace, n, earlier), Run(c, pace, n, earlier + later);
            && i < |s'.rows| && s'.rows[i].id == s.rows[i].id && s'.rows[i].message == s.rows[i].message
            && match s'.rows[i].status
               case Pending => true
               case Processing => true
               case DeliveredToShop => Acknowledged(s'.log, s'.rows[i])
               case Failed => GivenUp(c, s'.log, s'.rows[i])
  {
    RowsLast(c, pace, n, earlier, later);
    RunIsAccounted(c, pace, n, earlier + later);
    var s' := Run(c, pace, n, earlier + later);
    assert Justified(c, s'.log, s'.rows[i]);
  }

  /** For the service the dispatchers only change the delivery state of the outbox, never which messages it holds. */
  lemma DispatchersKeepMessages(c: Config, pace: Pace, s: State, step: Step)
    requires !step.Insert?
    ensures Runs.SameMessages(s.rows, Next(c, pace, s, step).rows)
  {
    NextContinues(c, pace, s, step);
  }
}
