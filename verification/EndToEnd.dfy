/**
 * The service and its dispatchers over one database: the calls of the service insert the outbox rows that the
 * dispatchers deliver. Each side's runs are runs of its own machine, so that what is proved of either holds of both
 * together.
 */
module EndToEnd {
  import opened Models
  import opened Store
  import opened Operations
  import opened Writes
  import opened Invariants
  import opened Outbox
  import Runs
  import Leases
  import Accounting
  import Delivery

  /** The outbox is one table: `dispatchers.rows` are the rows of `history.tables.outbox`. */
  datatype System = System(history: Runs.History, dispatchers: Leases.State)

  datatype Event = Called(request: Request, drawn: Draws) | Dispatched(step: Leases.Step)

  function WithOutbox(h: Runs.History, outbox: seq<OutboxRow>): (h': Runs.History) {
    h.(tables := h.tables.(outbox := outbox))
  }

  /** A call of the service, or anything a dispatcher does; rows are inserted by calls only. */
  ghost function Next(warehouse: Address, c: Config, pace: Leases.Pace, s: System, e: Event): (s': System) {
    match e
    case Called(q, f) =>
      var h := Runs.Next(warehouse, s.history, Runs.Call(q, f));
      System(h, s.dispatchers.(rows := h.tables.outbox))
    case Dispatched(step) =>
      if step.Insert? then s
      else
        var d := Leases.Next(c, pace, s.dispatchers, step);
        System(WithOutbox(s.history, d.rows), d)
  }

  /** The system after a run with `n` dispatchers from an empty database. */
  ghost function Run(warehouse: Address, c: Config, pace: Leases.Pace, n: nat, events: seq<Event>): (s: System) {
    if events == [] then System(Runs.Run(warehouse, []), Leases.Start(n))
    else Next(warehouse, c, pace, Run(warehouse, c, pace, n, events[..|events| - 1]), events[|events| - 1])
  }

  // ----- the two sides of a run -----

  /** What a step is for the service: the call, or a change of the delivery state of the outbox. */
  ghost function ServiceEvent(c: Config, pace: Leases.Pace, s: System, e: Event): (r: Runs.Event) {
    match e
    case Called(q, f) => Runs.Call(q, f)
    case Dispatched(step) =>
      Runs.Deliver(if step.Insert? then s.dispatchers.rows else Leases.Next(c, pace, s.dispatchers, step).rows)
  }

  /** What it is for the dispatchers: the row of an accepted call, or their own step. */
  ghost function DispatcherSteps(warehouse: Address, s: System, e: Event): (steps: seq<Leases.Step>) {
    match e
    case Called(q, f) =>
      var o := OutcomeOf(s.history.tables, warehouse, q, f);
      if o.Accept? then [Leases.Insert(o.write.row)] else []
    case Dispatched(step) => if step.Insert? then [] else [step]
  }

  ghost function ServiceSide(warehouse: Address, c: Config, pace: Leases.Pace, n: nat,
                             events: seq<Event>): (r: seq<Runs.Event>) {
    if events == [] then []
    else
      var earlier := events[..|events| - 1];
      ServiceSide(warehouse, c, pace, n, earlier)
      + [ServiceEvent(c, pace, Run(warehouse, c, pace, n, earlier), events[|events| - 1])]
  }

  ghost function DispatcherSide(warehouse: Address, c: Config, pace: Leases.Pace, n: nat,
                                events: seq<Event>): (r: seq<Leases.Step>) {
    if events == [] then []
    else
      var earlier := events[..|events| - 1];
      DispatcherSide(warehouse, c, pace, n, earlier)
      + DispatcherSteps(warehouse, Run(warehouse, c, pace, n, earlier), events[|events| - 1])
  }

  ghost predicate OneOutbox(s: System) {
    s.dispatchers.rows == s.history.tables.outbox
  }

  lemma NewIdIsUnused(outbox: seq<OutboxRow>, row: OutboxRow)
    requires !OutboxTaken(outbox, row)
    ensures Leases.UnusedId(outbox, row.id)
  {
    forall i | 0 <= i < |outbox| ensures outbox[i].id != row.id {
      assert !SameOutboxColumn(outbox[i], row);
    }
  }

  /** The row of an accepted call is one that the dispatchers' machine lets in. */
  lemma CallInserts(warehouse: Address, c: Config, pace: Leases.Pace, s: System, q: Request, f: Draws)
    requires OneOutbox(s) && OutcomeOf(s.history.tables, warehouse, q, f).Accept?
    ensures var row := OutcomeOf(s.history.tables, warehouse, q, f).write.row;
            Next(warehouse, c, pace, s, Called(q, f)).dispatchers
              == Leases.Next(c, pace, s.dispatchers, Leases.Insert(row))
  {
    AcceptIsLawful(s.history.tables, warehouse, q, f);
    NewIdIsUnused(s.dispatchers.rows, OutcomeOf(s.history.tables, warehouse, q, f).write.row);
  }

  lemma RefusalInsertsNothing(warehouse: Address, c: Config, pace: Leases.Pace, s: System, q: Request, f: Draws)
    requires OneOutbox(s) && !OutcomeOf(s.history.tables, warehouse, q, f).Accept?
    ensures Next(warehouse, c, pace, s, Called(q, f)) == s
  {
  }

  /** Each step of the system is a step of the service. */
  lemma StepIsServiceEvent(warehouse: Address, c: Config, pace: Leases.Pace, s: System, e: Event)
    requires OneOutbox(s)
    ensures OneOutbox(Next(warehouse, c, pace, s, e))
    ensures Next(warehouse, c, pace, s, e).history == Runs.Next(warehouse, s.history, ServiceEvent(c, pace, s, e))
  {
    if e.Dispatched? && !e.step.Insert? {
      Delivery.DispatchersKeepMessages(c, pace, s.dispatchers, e.step);
    }
  }

  /** And none, or one, of the dispatchers. */
  lemma StepIsDispatcherStep(warehouse: Address, c: Config, pace: Leases.Pace, s: System, e: Event)
    requires OneOutbox(s)
    ensures var steps := DispatcherSteps(warehouse, s, e);
            && |steps| <= 1
            && Next(warehouse, c, pace, s, e).dispatchers
               == if steps == [] then s.dispatchers else Leases.Next(c, pace, s.dispatchers, steps[0])
  {
    if e.Called? {
      if OutcomeOf(s.history.tables, warehouse, e.request, e.drawn).Accept? {
        CallInserts(warehouse, c, pace, s, e.request, e.drawn);
      } else {
        RefusalInsertsNothing(warehouse, c, pace, s, e.request, e.drawn);
      }
    }
  }

  lemma DispatchersRunOn(c: Config, pace: Leases.Pace, n: nat, before: seq<Leases.Step>, steps: seq<Leases.Step>)
    requires |steps| <= 1
    ensures Leases.Run(c, pace, n, before + steps)
            == if steps == [] then Leases.Run(c, pace, n, before)
               else Leases.Next(c, pace, Leases.Run(c, pace, n, before), steps[0])
  {
    if steps == [] {
      assert before + steps == before;
    } else {
      assert before + steps == before + [steps[0]];
      Leases.NextOfRun(c, pace, n, before, steps[0]);
    }
  }

  /** Whatever is proved of runs of the service, and of runs of the dispatchers, holds of the whole system. */
  lemma {:induction false} SystemIsBoth(warehouse: Address, c: Config, pace: Leases.Pace, n: nat, events: seq<Event>)
    ensures var s := Run(warehouse, c, pace, n, events);
            && s.history == Runs.Run(warehouse, ServiceSide(warehouse, c, pace, n, events))
            && s.dispatchers == Leases.Run(c, pace, n, DispatcherSide(warehouse, c, pace, n, events))
            && OneOutbox(s)
  {
    if events != [] {
      var earlier, e := events[..|events| - 1], events[|events| - 1];
      var s := Run(warehouse, c, pace, n, earlier);
      SystemIsBoth(warehouse, c, pace, n, earlier);
      StepIsServiceEvent(warehouse, c, pace, s, e);
      var calls := ServiceSide(warehouse, c, pace, n, earlier);
      assert (calls + [ServiceEvent(c, pace, s, e)])[..|calls|] == calls;
      StepIsDispatcherStep(warehouse, c, pace, s, e);
      DispatchersRunOn(c, pace, n, DispatcherSide(warehouse, c, pace, n, earlier), DispatcherSteps(warehouse, s, e));
    }
  }

  // ----- no callback is made up -----

  /** A callback was sent for one of the attempts of a stored row, and carried exactly its payload. */
  ghost predicate Sent(rows: seq<OutboxRow>, call: Leases.Callback) {
    exists i :: 0 <= i < |rows| && rows[i].id == call.id && rows[i].message.payload == call.payload
                && 1 <= call.attempt <= rows[i].attempts
  }

  ghost predicate Honest(rows: seq<OutboxRow>, log: seq<Leases.Callback>) {
    forall k :: 0 <= k < |log| ==> Sent(rows, log[k])
  }

  lemma SentLater(rows: seq<OutboxRow>, rows': seq<OutboxRow>, call: Leases.Callback)
    requires Sent(rows, call) && Leases.Continues(rows, rows')
    ensures Sent(rows', call)
  {
    var i :| 0 <= i < |rows| && rows[i].id == call.id && rows[i].message.payload == call.payload
             && 1 <= call.attempt <= rows[i].attempts;
    assert rows'[i].id == call.id && rows'[i].message.payload == call.payload;
  }

  lemma PostIsSent(c: Config, s: Leases.State, w: nat, answer: Answer)
    requires Delivery.Accounted(c, s) && Accounting.Tracked(s) && Leases.AtWork(s, w)
    ensures var event := s.workers[w].events[0];
            Sent(s.rows, Leases.Callback(event.id, event.attempts, event.message.payload, answer))
  {
    var event := s.workers[w].events[0];
    assert !Leases.UnusedId(s.rows, event.id);
    var i :| 0 <= i < |s.rows| && s.rows[i].id == event.id;
    assert Delivery.WorkerBacked(s.rows, s.log, s.workers[w]) && Delivery.Copies(s.rows, event);
    assert Accounting.WorkerTracked(s.workers[w], Accounting.Slots(s.rows), s.retried, Accounting.LogKeys(s.log));
    assert Leases.Key(event) in Accounting.Held(s.workers[w]);
    var j: nat, a: nat :| j < |s.rows| && 1 <= a <= s.rows[j].attempts
      && (event.id, event.attempts) == (s.rows[j].id, a);
  }

  lemma NextIsHonest(c: Config, pace: Leases.Pace, s: Leases.State, step: Leases.Step)
    requires Delivery.Accounted(c, s) && Accounting.Tracked(s) && Honest(s.rows, s.log)
    ensures var s' := Leases.Next(c, pace, s, step); Honest(s'.rows, s'.log)
  {
    var s' := Leases.Next(c, pace, s, step);
    Leases.NextContinues(c, pace, s, step);
    if step.Post? && Leases.Enabled(c, pace, s, step) {
      PostIsSent(c, s, step.worker, step.answer);
    }
    forall k | 0 <= k < |s'.log| ensures Sent(s'.rows, s'.log[k]) {
      if k < |s.log| {
        SentLater(s.rows, s'.rows, s.log[k]);
      }
    }
  }

  lemma {:induction false} LogIsHonest(c: Config, pace: Leases.Pace, n: nat, steps: seq<Leases.Step>)
    ensures var s := Leases.Run(c, pace, n, steps); Honest(s.rows, s.log)
  {
    if steps != [] {
      var earlier := steps[..|steps| - 1];
      LogIsHonest(c, pace, n, earlier);
      Accounting.RunIsTracked(c, pace, n, earlier);
      Delivery.RunIsAccounted(c, pace, n, earlier);
      NextIsHonest(c, pace, Leases.Run(c, pace, n, earlier), steps[|steps| - 1]);
    }
  }

  /**
   * Every callback of the system reports a recorded event and the shipment behind it: the event's id, type, status and
   * time, and the shipment's public id, order, tracking number and lane.
   */
  lemma CallbacksReportEvents(warehouse: Address, c: Config, pace: Leases.Pace, n: nat, events: seq<Event>, k: nat)
    returns (i: nat)
    requires k < |Run(warehouse, c, pace, n, events).dispatchers.log|
    ensures var s := Run(warehouse, c, pace, n, events);
            var t, call := s.history.tables, s.dispatchers.log[k];
            && i < |t.events| == |t.outbox| && t.outbox[i].id == call.id && t.outbox[i].message.payload == call.payload
            && call.payload.eventId == t.events[i].eventId && call.payload.status == t.events[i].status
            && call.payload.eventType == t.events[i].eventType && call.payload.occurredAt == t.events[i].occurredAt
            && t.events[i].shipmentId in t.shipments
            && var o := t.shipments[t.events[i].shipmentId].origin;
               && call.payload.shipmentId == o.publicId && call.payload.order == o.order
               && call.payload.trackingNumber == o.trackingNumber && call.payload.isReturn == o.isReturn
               && 1 <= call.attempt <= t.outbox[i].attempts
  {
    var s := Run(warehouse, c, pace, n, events);
    SystemIsBoth(warehouse, c, pace, n, events);
    Runs.RunKeepsInv(warehouse, ServiceSide(warehouse, c, pace, n, events));
    LogIsHonest(c, pace, n, DispatcherSide(warehouse, c, pace, n, events));
    i := SentIsRecorded(s.history.tables, s.dispatchers.log[k]);
  }

  lemma SentIsRecorded(t: Tables, call: Leases.Callback) returns (i: nat)
    requires Aligned(t) && AllCarry(t) && Sent(t.outbox, call)
    ensures i < |t.events| == |t.outbox| && t.outbox[i].id == call.id && t.outbox[i].message.payload == call.payload
    ensures 1 <= call.attempt <= t.outbox[i].attempts
    ensures call.payload.eventId == t.events[i].eventId && call.payload.status == t.events[i].status
    ensures call.payload.eventType == t.events[i].eventType && call.payload.occurredAt == t.events[i].occurredAt
    ensures t.events[i].shipmentId in t.shipments
    ensures var o := t.shipments[t.events[i].shipmentId].origin;
            && call.payload.shipmentId == o.publicId && call.payload.order == o.order
            && call.payload.trackingNumber == o.trackingNumber && call.payload.isReturn == o.isReturn
  {
    i :| 0 <= i < |t.outbox| && t.outbox[i].id == call.id && t.outbox[i].message.payload == call.payload
         && 1 <= call.attempt <= t.outbox[i].attempts;
    assert Described(t.events[i], t.audits[i], t.outbox[i].message) && Carries(t.shipments, t.outbox[i].message);
  }

  // ----- what the shop is told -----

  /** The last row of the stream that names a shipment. */
  predicate LastNaming(outbox: seq<OutboxRow>, publicId: string, i: nat) {
    && i < |outbox| && outbox[i].message.payload.shipmentId == publicId
    && forall j :: i < j < |outbox| ==> outbox[j].message.payload.shipmentId != publicId
  }

  lemma {:induction false} LastNamingIsConsumed(outbox: seq<OutboxRow>, publicId: string) returns (i: nat)
    requires publicId in Consumed(outbox)
    ensures LastNaming(outbox, publicId, i)
    ensures var p := outbox[i].message.payload; Consumed(outbox)[publicId] == View(p.status, p.eta)
  {
    var last := |outbox| - 1;
    if outbox[last].message.payload.shipmentId == publicId {
      i := last;
    } else {
      i := LastNamingIsConsumed(outbox[..last], publicId);
    }
  }

  /**
   * What reaches the shop of a shipment: the last row that names it holds its current status and estimate. If that row
   * is delivered, a callback with that payload was answered with 2xx, so the shop has been told the shipment's present
   * state; if it failed, there is a logged reason; otherwise it is still waiting or in delivery.
   */
  lemma ShopIsTold(warehouse: Address, c: Config, pace: Leases.Pace, n: nat, events: seq<Event>, id: nat)
    returns (i: nat)
    requires id in Run(warehouse, c, pace, n, events).history.tables.shipments
    ensures var s := Run(warehouse, c, pace, n, events);
            var shipment, outbox := s.history.tables.shipments[id], s.history.tables.outbox;
            && LastNaming(outbox, shipment.origin.publicId, i)
            && View(outbox[i].message.payload.status, outbox[i].message.payload.eta) == ViewOf(shipment)
            && (outbox[i].status == DeliveredToShop ==> Delivery.Acknowledged(s.dispatchers.log, outbox[i]))
            && (outbox[i].status == Failed ==> Delivery.GivenUp(c, s.dispatchers.log, outbox[i]))
  {
    var s := Run(warehouse, c, pace, n, events);
    SystemIsBoth(warehouse, c, pace, n, events);
    Runs.CallbacksReproduceShipments(warehouse, ServiceSide(warehouse, c, pace, n, events));
    Delivery.RunIsAccounted(c, pace, n, DispatcherSide(warehouse, c, pace, n, events));
    i := LastNamingIsConsumed(s.history.tables.outbox, s.history.tables.shipments[id].origin.publicId);
    assert Delivery.Justified(c, s.dispatchers.log, s.dispatchers.rows[i]);
  }
}
