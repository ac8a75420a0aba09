/** The other direction of serializability: the interleaving machine can do whatever an atomic call does. */
module Adequacy {
  import opened Text
  import opened Models
  import opened Store
  import opened Operations
  import opened Runs
  import opened Interleaving
  import Serializability
  import Concurrency

  /** Worker `w` is the only one under way, and nothing has been committed yet. */
  ghost predicate Alone(s0: State, s: State, w: nat, worker: Worker) {
    w < |s0.workers| && s == s0.(workers := s0.workers[w := worker])
  }

  predicate OwnStep(step: Step, w: nat) {
    !step.CommitAll? && !step.Dispatch? && step.worker == w
  }

  lemma NothingReserved(s0: State, s: State, w: nat, worker: Worker)
    requires Concurrency.Quiet(s0) && Alone(s0, s, w, worker)
    ensures forall id, o :: !ShipmentReserved(s, w, id, o)
    ensures forall e :: !EventReserved(s, w, e)
    ensures forall r :: !OutboxReserved(s, w, r)
    ensures forall id :: !LockTaken(s, w, id)
  {
    assert forall v :: 0 <= v < |s.workers| && v != w ==> s.workers[v] == s0.workers[v] && s.workers[v].Idle?;
  }

  /** A lone worker is never kept waiting. */
  lemma LoneStepIsEnabled(s0: State, s: State, w: nat, worker: Worker, step: Step)
    requires Concurrency.Quiet(s0) && Alone(s0, s, w, worker) && OwnStep(step, w)
    requires match step
             case Begin(_, q, _) => worker.Idle? && PlainRequest(q)
             case CheckKey(_) => worker.Begun?
             case LockRow(_) => worker.Checked?
             case UpdateRow(_) => worker.Locked?
             case InsertRow(_) => worker.Prepared?
             case RecordEvent(_) => worker.Written?
             case QueueRow(_) => worker.Recorded?
             case _ => false
    ensures Interleaving.Enabled(s, step)
  {
    NothingReserved(s0, s, w, worker);
  }

  lemma LoneStep(warehouse: Address, s0: State, s: State, w: nat, worker: Worker, step: Step)
    requires Alone(s0, s, w, worker) && OwnStep(step, w) && Interleaving.Enabled(s, step)
    ensures Alone(s0, Interleaving.Next(warehouse, s, step), w, WorkerAfter(warehouse, s0.history.tables, worker, step))
  {
  }

  lemma Extend(warehouse: Address, n: nat, steps: seq<Step>, step: Step)
    ensures Interleaved(warehouse, n, steps + [step])
            == Interleaving.Next(warehouse, Interleaved(warehouse, n, steps), step)
  {
    assert (steps + [step])[..|steps|] == steps;
  }

  lemma Advance(warehouse: Address, n: nat, s0: State, before: seq<Step>, w: nat, worker: Worker, step: Step)
    returns (steps: seq<Step>)
    requires Concurrency.Quiet(s0) && Alone(s0, Interleaved(warehouse, n, before), w, worker) && OwnStep(step, w)
    requires match step
             case Begin(_, q, _) => worker.Idle? && PlainRequest(q)
             case CheckKey(_) => worker.Begun?
             case LockRow(_) => worker.Checked?
             case UpdateRow(_) => worker.Locked?
             case InsertRow(_) => worker.Prepared?
             case RecordEvent(_) => worker.Written?
             case QueueRow(_) => worker.Recorded?
             case _ => false
    ensures before <= steps
    ensures Alone(s0, Interleaved(warehouse, n, steps), w, WorkerAfter(warehouse, s0.history.tables, worker, step))
  {
    LoneStepIsEnabled(s0, Interleaved(warehouse, n, before), w, worker, step);
    LoneStep(warehouse, s0, Interleaved(warehouse, n, before), w, worker, step);
    Extend(warehouse, n, before, step);
    steps := before + [step];
  }

  // ----- from an uncommitted row to the commit -----

  lemma LoneCommit(warehouse: Address, s0: State, s: State, w: nat, q: Request, f: Draws, d: Draft)
    requires Concurrency.Quiet(s0) && Alone(s0, s, w, Queued(q, f, d))
    ensures Interleaving.Next(warehouse, s, CommitAll(w)).history
            == History(Commit(s0.history.tables, WriteOfDraft(d, f)), s0.history.kinds + [d.kind])
    ensures Concurrency.Quiet(Interleaving.Next(warehouse, s, CommitAll(w)))
  {
    assert s.workers[w].Write() == WriteOfDraft(d, f);
  }

  lemma EventInserted(warehouse: Address, t: Tables, worker: Worker, w: nat)
    requires worker.Written? && Recordable(worker.draft.record) && !EventTaken(t.events, worker.Write().event)
    ensures WorkerAfter(warehouse, t, worker, RecordEvent(w)) == Recorded(worker.request, worker.drawn, worker.draft)
  {
  }

  lemma RowInserted(warehouse: Address, t: Tables, worker: Worker, w: nat)
    requires worker.Recorded? && !OutboxTaken(t.outbox, worker.Write().row)
    ensures WorkerAfter(warehouse, t, worker, QueueRow(w)) == Queued(worker.request, worker.drawn, worker.draft)
  {
  }

  lemma Finished(warehouse: Address, n: nat, s0: State, before: seq<Step>, w: nat, q: Request, f: Draws, d: Draft)
    returns (steps: seq<Step>)
    requires Concurrency.Quiet(s0) && Alone(s0, Interleaved(warehouse, n, before), w, Written(q, f, d))
    requires Recordable(d.record) && !EventTaken(s0.history.tables.events, WriteOfDraft(d, f).event)
    requires !OutboxTaken(s0.history.tables.outbox, WriteOfDraft(d, f).row)
    ensures before <= steps && Concurrency.Quiet(Interleaved(warehouse, n, steps))
    ensures Interleaved(warehouse, n, steps).history
            == History(Commit(s0.history.tables, WriteOfDraft(d, f)), s0.history.kinds + [d.kind])
  {
    EventInserted(warehouse, s0.history.tables, Written(q, f, d), w);
    RowInserted(warehouse, s0.history.tables, Recorded(q, f, d), w);
    var s1 := Advance(warehouse, n, s0, before, w, Written(q, f, d), RecordEvent(w));
    var s2 := Advance(warehouse, n, s0, s1, w, Recorded(q, f, d), QueueRow(w));
    LoneCommit(warehouse, s0, Interleaved(warehouse, n, s2), w, q, f, d);
    Extend(warehouse, n, s2, CommitAll(w));
    steps := s2 + [CommitAll(w)];
  }

  lemma RecordAcceptSees(t: Tables, d: Draft, f: Draws)
    requires Record(t, d.kind, d.id, d.shipment, d.items, d.record, f).Accept?
    ensures Recordable(d.record) && !EventTaken(t.events, WriteOfDraft(d, f).event)
    ensures !OutboxTaken(t.outbox, WriteOfDraft(d, f).row)
    ensures Record(t, d.kind, d.id, d.shipment, d.items, d.record, f) == Accept(WriteOfDraft(d, f))
  {
  }

  // ----- changes -----

  /** What an accepted change has seen on its way. */
  lemma AcceptedChange(t: Tables, call: RowCall, f: Draws) returns (id: nat, d: Draft)
    requires RowOutcome(t, call, f).Accept?
    ensures RowFault(call) == None && EventUnderKey(t, call.meta) == None
    ensures FindByPublicId(t, call.meta.publicId) == Some(id) && d.id == id && id in t.shipments && d.items == []
    ensures ChangeOf(call, t.shipments[id], f.now) == Change(d.kind, d.shipment, d.record)
    ensures RowAffected(t, id, call, t.shipments[id])
    ensures RowOutcome(t, call, f) == Record(t, d.kind, d.id, d.shipment, d.items, d.record, f)
  {
    id := FindByPublicId(t, call.meta.publicId).value;
    var c := ChangeOf(call, t.shipments[id], f.now);
    d := Draft(c.kind, id, c.shipment, [], c.record);
  }

  lemma ChangeIsChecked(warehouse: Address, t: Tables, q: Request, call: RowCall, f: Draws, w: nat)
    requires (q.Update? || q.Cancel?) && EventUnderKey(t, call.meta) == None
    ensures WorkerAfter(warehouse, t, Begun(q, f, Some(call)), CheckKey(w)) == Checked(q, f, call)
  {
  }

  lemma ChangeIsLocked(warehouse: Address, t: Tables, q: Request, call: RowCall, f: Draws, w: nat, id: nat)
    requires FindByPublicId(t, call.meta.publicId) == Some(id)
    ensures WorkerAfter(warehouse, t, Checked(q, f, call), LockRow(w)) == Locked(q, f, call, id, t.shipments[id])
  {
  }

  lemma ChangeIsWritten(warehouse: Address, t: Tables, q: Request, call: RowCall, f: Draws, w: nat, d: Draft)
    requires d.id in t.shipments && d.items == [] && RowAffected(t, d.id, call, t.shipments[d.id])
    requires ChangeOf(call, t.shipments[d.id], f.now) == Change(d.kind, d.shipment, d.record)
    ensures WorkerAfter(warehouse, t, Locked(q, f, call, d.id, t.shipments[d.id]), UpdateRow(w)) == Written(q, f, d)
  {
  }

  lemma ChangeSteps(warehouse: Address, n: nat, s0: State, before: seq<Step>, w: nat, q: Request, call: RowCall,
                    f: Draws, d: Draft)
    returns (steps: seq<Step>)
    requires Concurrency.Quiet(s0) && Alone(s0, Interleaved(warehouse, n, before), w, Begun(q, f, Some(call)))
    requires (q.Update? || q.Cancel?) && EventUnderKey(s0.history.tables, call.meta) == None
    requires FindByPublicId(s0.history.tables, call.meta.publicId) == Some(d.id) && d.items == []
    requires RowAffected(s0.history.tables, d.id, call, s0.history.tables.shipments[d.id])
    requires ChangeOf(call, s0.history.tables.shipments[d.id], f.now) == Change(d.kind, d.shipment, d.record)
    ensures before <= steps && Alone(s0, Interleaved(warehouse, n, steps), w, Written(q, f, d))
  {
    var t := s0.history.tables;
    ChangeIsChecked(warehouse, t, q, call, f, w);
    ChangeIsLocked(warehouse, t, q, call, f, w, d.id);
    ChangeIsWritten(warehouse, t, q, call, f, w, d);
    steps := Advance(warehouse, n, s0, before, w, Begun(q, f, Some(call)), CheckKey(w));
    steps := Advance(warehouse, n, s0, steps, w, Checked(q, f, call), LockRow(w));
    steps := Advance(warehouse, n, s0, steps, w, Locked(q, f, call, d.id, t.shipments[d.id]), UpdateRow(w));
  }

  // ----- creations -----

  lemma CreateIsPrepared(t: Tables, warehouse: Address, q: Request, f: Draws)
    requires q.Create? && FindByKey(t, q.source, q.key) == None
    ensures CheckedWorker(warehouse, t, Begun(q, f, None))
            == Prepared(q, f, OutboundDraft(warehouse, q.create, q.key, q.source, q.requestId, f))
  {
  }

  lemma AcceptedCreate(t: Tables, warehouse: Address, q: Request, f: Draws) returns (d: Draft)
    requires q.Create? && CreateTransaction(t, warehouse, q.create, q.key, q.source, q.requestId, f).Accept?
    ensures d == OutboundDraft(warehouse, q.create, q.key, q.source, q.requestId, f)
    ensures FindByKey(t, q.source, q.key) == None
    ensures !ShipmentTaken(t.shipments, d.id, d.shipment.origin)
    ensures CreateTransaction(t, warehouse, q.create, q.key, q.source, q.requestId, f)
            == Record(t, Creation, d.id, d.shipment, d.items, d.record, f)
  {
    d := OutboundDraft(warehouse, q.create, q.key, q.source, q.requestId, f);
  }

  lemma ReturnIsPrepared(t: Tables, warehouse: Address, q: Request, f: Draws, id: nat)
    requires q.CreateReturn? && FindByKey(t, q.source, q.key) == None
    requires FindByPublicId(t, q.returned.original) == Some(id)
    ensures CheckedWorker(warehouse, t, Begun(q, f, None))
            == Prepared(q, f,
                        ReturnDraft(warehouse, q.returned, id, t.shipments[id].origin, q.key, q.source, q.requestId, f))
  {
  }

  lemma AcceptedReturn(t: Tables, warehouse: Address, q: Request, f: Draws) returns (id: nat, d: Draft)
    requires q.CreateReturn? && ReturnTransaction(t, warehouse, q.returned, q.key, q.source, q.requestId, f).Accept?
    ensures FindByKey(t, q.source, q.key) == None && FindByPublicId(t, q.returned.original) == Some(id)
    ensures id in t.shipments
    ensures d == ReturnDraft(warehouse, q.returned, id, t.shipments[id].origin, q.key, q.source, q.requestId, f)
    ensures !ShipmentTaken(t.shipments, d.id, d.shipment.origin)
    ensures ReturnTransaction(t, warehouse, q.returned, q.key, q.source, q.requestId, f)
            == Record(t, Creation, d.id, d.shipment, d.items, d.record, f)
  {
    id := FindByPublicId(t, q.returned.original).value;
    d := ReturnDraft(warehouse, q.returned, id, t.shipments[id].origin, q.key, q.source, q.requestId, f);
  }

  /** What an accepted creation needs on its way. */
  lemma AcceptedInsertion(t: Tables, warehouse: Address, q: Request, f: Draws) returns (d: Draft)
    requires (q.Create? || q.CreateReturn?) && OutcomeOf(t, warehouse, q, f).Accept?
    ensures BeginWorker(t, q, f) == Begun(q, f, None)
    ensures CheckedWorker(warehouse, t, Begun(q, f, None)) == Prepared(q, f, d)
    ensures d.kind == Creation && !ShipmentTaken(t.shipments, d.id, d.shipment.origin)
    ensures OutcomeOf(t, warehouse, q, f) == Record(t, Creation, d.id, d.shipment, d.items, d.record, f)
  {
    if q.Create? {
      CreatePassesValidation(t, warehouse, q, f);
      d := AcceptedCreate(t, warehouse, q, f);
      CreateIsPrepared(t, warehouse, q, f);
    } else {
      var id;
      ReturnPassesValidation(t, warehouse, q, f);
      id, d := AcceptedReturn(t, warehouse, q, f);
      ReturnIsPrepared(t, warehouse, q, f, id);
    }
  }

  lemma CreatePassesValidation(t: Tables, warehouse: Address, q: Request, f: Draws)
    requires q.Create? && OutcomeOf(t, warehouse, q, f).Accept?
    ensures BeginWorker(t, q, f) == Begun(q, f, None)
    ensures OutcomeOf(t, warehouse, q, f) == CreateTransaction(t, warehouse, q.create, q.key, q.source, q.requestId, f)
  {
  }

  lemma ReturnPassesValidation(t: Tables, warehouse: Address, q: Request, f: Draws)
    requires q.CreateReturn? && OutcomeOf(t, warehouse, q, f).Accept?
    ensures BeginWorker(t, q, f) == Begun(q, f, None)
    ensures OutcomeOf(t, warehouse, q, f)
            == ReturnTransaction(t, warehouse, q.returned, q.key, q.source, q.requestId, f)
  {
  }

  lemma InsertionSteps(warehouse: Address, n: nat, s0: State, before: seq<Step>, w: nat, q: Request, f: Draws, d: Draft)
    returns (steps: seq<Step>)
    requires Concurrency.Quiet(s0) && Alone(s0, Interleaved(warehouse, n, before), w, Begun(q, f, None))
    requires CheckedWorker(warehouse, s0.history.tables, Begun(q, f, None)) == Prepared(q, f, d)
    requires d.kind == Creation && !ShipmentTaken(s0.history.tables.shipments, d.id, d.shipment.origin)
    requires Record(s0.history.tables, d.kind, d.id, d.shipment, d.items, d.record, f).Accept?
    ensures before <= steps && Concurrency.Quiet(Interleaved(warehouse, n, steps))
    ensures Interleaved(warehouse, n, steps).history
            == History(Commit(s0.history.tables, WriteOfDraft(d, f)), s0.history.kinds + [d.kind])
  {
    RecordAcceptSees(s0.history.tables, d, f);
    steps := Advance(warehouse, n, s0, before, w, Begun(q, f, None), CheckKey(w));
    steps := Advance(warehouse, n, s0, steps, w, Prepared(q, f, d), InsertRow(w));
    steps := Finished(warehouse, n, s0, steps, w, q, f, d);
  }

  // ----- every call -----

  lemma BegunChange(t: Tables, warehouse: Address, q: Request, f: Draws) returns (call: RowCall)
    requires (q.Update? || q.Cancel?) && OutcomeOf(t, warehouse, q, f).Accept?
    ensures BeginWorker(t, q, f) == Begun(q, f, Some(call))
    ensures OutcomeOf(t, warehouse, q, f) == RowOutcome(t, call, f)
  {
    call := if q.Update? then q.call else PlanCancel(t, q.publicId, q.key, q.requestId, q.source).call;
  }

  lemma EveryCreationCommits(warehouse: Address, n: nat, s0: State, begun: seq<Step>, w: nat, q: Request, f: Draws)
    returns (steps: seq<Step>)
    requires Concurrency.Quiet(s0)
    requires Alone(s0, Interleaved(warehouse, n, begun), w, BeginWorker(s0.history.tables, q, f))
    requires (q.Create? || q.CreateReturn?) && OutcomeOf(s0.history.tables, warehouse, q, f).Accept?
    ensures begun <= steps && Concurrency.Quiet(Interleaved(warehouse, n, steps))
    ensures Interleaved(warehouse, n, steps).history
            == var write := OutcomeOf(s0.history.tables, warehouse, q, f).write;
               History(Commit(s0.history.tables, write), s0.history.kinds + [write.kind])
  {
    var d := AcceptedInsertion(s0.history.tables, warehouse, q, f);
    RecordAcceptSees(s0.history.tables, d, f);
    steps := InsertionSteps(warehouse, n, s0, begun, w, q, f, d);
  }

  lemma EveryChangeCommits(warehouse: Address, n: nat, s0: State, begun: seq<Step>, w: nat, q: Request, f: Draws)
    returns (steps: seq<Step>)
    requires Concurrency.Quiet(s0)
    requires Alone(s0, Interleaved(warehouse, n, begun), w, BeginWorker(s0.history.tables, q, f))
    requires (q.Update? || q.Cancel?) && OutcomeOf(s0.history.tables, warehouse, q, f).Accept?
    ensures begun <= steps && Concurrency.Quiet(Interleaved(warehouse, n, steps))
    ensures Interleaved(warehouse, n, steps).history
            == var write := OutcomeOf(s0.history.tables, warehouse, q, f).write;
               History(Commit(s0.history.tables, write), s0.history.kinds + [write.kind])
  {
    var call := BegunChange(s0.history.tables, warehouse, q, f);
    var id, d := AcceptedChange(s0.history.tables, call, f);
    RecordAcceptSees(s0.history.tables, d, f);
    var written := ChangeSteps(warehouse, n, s0, begun, w, q, call, f, d);
    steps := Finished(warehouse, n, s0, written, w, q, f, d);
  }

  lemma AcceptedCall(warehouse: Address, h: History, q: Request, f: Draws, w: Store.Write)
    requires OutcomeOf(h.tables, warehouse, q, f) == Accept(w)
    ensures Runs.Next(warehouse, h, Call(q, f)) == History(Commit(h.tables, w), h.kinds + [w.kind])
  {
  }

  lemma LoneBegin(warehouse: Address, n: nat, earlier: seq<Step>, w: nat, q: Request, f: Draws)
    returns (begun: seq<Step>)
    requires Concurrency.Quiet(Interleaved(warehouse, n, earlier)) && w < |Interleaved(warehouse, n, earlier).workers|
    requires PlainRequest(q)
    ensures earlier <= begun
    ensures var s0 := Interleaved(warehouse, n, earlier);
            Alone(s0, Interleaved(warehouse, n, begun), w, BeginWorker(s0.history.tables, q, f))
  {
    var s0 := Interleaved(warehouse, n, earlier);
    assert s0.workers[w := Idle] == s0.workers;
    begun := Advance(warehouse, n, s0, earlier, w, Idle, Begin(w, q, f));
  }

  /**
   * Every call that would be accepted alone is carried out by some continuation of any quiet interleaving: one worker
   * that is left alone takes all its statements to the commit, with the same effect, and the moment after is quiet
   * again.
   */
  lemma EveryCallCommits(warehouse: Address, n: nat, earlier: seq<Step>, w: nat, q: Request, f: Draws)
    returns (steps: seq<Step>)
    requires Concurrency.Quiet(Interleaved(warehouse, n, earlier)) && w < |Interleaved(warehouse, n, earlier).workers|
    requires PlainRequest(q) && OutcomeOf(Interleaved(warehouse, n, earlier).history.tables, warehouse, q, f).Accept?
    ensures earlier <= steps && Concurrency.Quiet(Interleaved(warehouse, n, steps))
    ensures Interleaved(warehouse, n, steps).history
            == Runs.Next(warehouse, Interleaved(warehouse, n, earlier).history, Call(q, f))
  {
    var s0 := Interleaved(warehouse, n, earlier);
    var begun := LoneBegin(warehouse, n, earlier, w, q, f);
    AcceptedCall(warehouse, s0.history, q, f, OutcomeOf(s0.history.tables, warehouse, q, f).write);
    if q.Create? || q.CreateReturn? {
      steps := EveryCreationCommits(warehouse, n, s0, begun, w, q, f);
    } else {
      steps := EveryChangeCommits(warehouse, n, s0, begun, w, q, f);
    }
  }

  // ----- whole runs -----

  /** Calls with sources and keys as the API passes them on. */
  ghost predicate PlainCalls(events: seq<Event>) {
    forall k :: 0 <= k < |events| && events[k].Call? ==> PlainRequest(events[k].request)
  }

  lemma {:induction false} WorkerCount(warehouse: Address, n: nat, steps: seq<Step>)
    ensures |Interleaved(warehouse, n, steps).workers| == n
  {
    if steps != [] {
      WorkerCount(warehouse, n, steps[..|steps| - 1]);
    }
  }

  lemma DeliveryIsDispatch(warehouse: Address, n: nat, earlier: seq<Step>, outbox: seq<OutboxRow>)
    requires Concurrency.Quiet(Interleaved(warehouse, n, earlier))
    ensures var s := Interleaved(warehouse, n, earlier + [Dispatch(outbox)]);
            && Concurrency.Quiet(s)
            && s.history == Runs.Next(warehouse, Interleaved(warehouse, n, earlier).history, Deliver(outbox))
  {
    Extend(warehouse, n, earlier, Dispatch(outbox));
  }

  lemma RefusalChangesNothing(warehouse: Address, h: History, q: Request, f: Draws)
    requires !OutcomeOf(h.tables, warehouse, q, f).Accept?
    ensures Runs.Next(warehouse, h, Call(q, f)) == h
  {
  }

  /** One more event of a run: the statements of an accepted call, a dispatch, or nothing for a refusal. */
  lemma EventIsInterleaved(warehouse: Address, n: nat, earlier: seq<Step>, e: Event) returns (steps: seq<Step>)
    requires n >= 1 && Concurrency.Quiet(Interleaved(warehouse, n, earlier)) && (e.Call? ==> PlainRequest(e.request))
    ensures earlier <= steps && Concurrency.Quiet(Interleaved(warehouse, n, steps))
    ensures Interleaved(warehouse, n, steps).history
            == Runs.Next(warehouse, Interleaved(warehouse, n, earlier).history, e)
  {
    var h := Interleaved(warehouse, n, earlier).history;
    if e.Deliver? {
      DeliveryIsDispatch(warehouse, n, earlier, e.outbox);
      steps := earlier + [Dispatch(e.outbox)];
    } else if OutcomeOf(h.tables, warehouse, e.request, e.drawn).Accept? {
      WorkerCount(warehouse, n, earlier);
      steps := EveryCallCommits(warehouse, n, earlier, 0, e.request, e.drawn);
    } else {
      RefusalChangesNothing(warehouse, h, e.request, e.drawn);
      steps := earlier;
    }
  }

  /** The converse of serializability: every run of atomic calls is what some interleaving of statements leaves. */
  lemma {:induction false} EveryRunIsInterleaved(warehouse: Address, n: nat, events: seq<Event>)
    returns (steps: seq<Step>)
    requires n >= 1 && PlainCalls(events)
    ensures Concurrency.Quiet(Interleaved(warehouse, n, steps))
    ensures Interleaved(warehouse, n, steps).history == Run(warehouse, events)
  {
    if events == [] {
      steps := [];
    } else {
      var shorter := events[..|events| - 1];
      var earlier := EveryRunIsInterleaved(warehouse, n, shorter);
      steps := EventIsInterleaved(warehouse, n, earlier, events[|events| - 1]);
    }
  }

  lemma StepIsPlain(warehouse: Address, s: State, step: Step)
    requires Serializability.AllSound(warehouse, s)
    ensures var e := EventOf(s, step); e.Some? && e.value.Call? ==> PlainRequest(e.value.request)
  {
    if step.CommitAll? && Interleaving.Enabled(s, step) {
      assert Serializability.Sound(warehouse, s.history.tables, s.workers[step.worker]);
    }
  }

  lemma {:induction false} SerialIsPlain(warehouse: Address, n: nat, steps: seq<Step>)
    ensures PlainCalls(Serial(warehouse, n, steps))
  {
    if steps != [] {
      var earlier := steps[..|steps| - 1];
      SerialIsPlain(warehouse, n, earlier);
      Concurrency.InterleavingIsSound(warehouse, n, earlier);
      StepIsPlain(warehouse, Interleaved(warehouse, n, earlier), steps[|steps| - 1]);
    }
  }

  /**
   * Both directions at once: with at least one worker, the databases that interleaved statements can leave are exactly
   * those that atomic calls can leave.
   */
  lemma InterleavedIffAtomic(warehouse: Address, n: nat, h: History)
    requires n >= 1
    ensures (exists steps :: Interleaved(warehouse, n, steps).history == h)
            <==> exists events :: PlainCalls(events) && Run(warehouse, events) == h
  {
    if steps :| Interleaved(warehouse, n, steps).history == h {
      Serializability.Serializable(warehouse, n, steps);
      SerialIsPlain(warehouse, n, steps);
      assert Run(warehouse, Serial(warehouse, n, steps)) == h;
    }
    if events :| PlainCalls(events) && Run(warehouse, events) == h {
      var steps := EveryRunIsInterleaved(warehouse, n, events);
      assert Interleaved(warehouse, n, steps).history == h;
    }
  }
}
