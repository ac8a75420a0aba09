/** Every interleaving of transactions is a run of atomic calls: those that commit, in the order of their commits. */
module Serializability {
  import opened Text
  import opened Models
  import opened Store
  import opened Operations
  import opened Writes
  import opened Invariants
  import opened Runs
  import opened Interleaving
  import Replays

  // ----- what a transaction knows, and keeps knowing while others commit -----

  ghost predicate OutboundNamed(t: Tables, publicId: string) {
    exists id :: id in t.shipments && t.shipments[id].origin.publicId == TrimSpace(publicId)
      && !t.shipments[id].origin.isReturn
  }

  function CancelCall(publicId: string, key: string, requestId: string, source: string,
                      status: ShipmentStatus): (call: RowCall) {
    TransitionCall(Meta(publicId, RoleAdmin, source, key, requestId, source), status, Replays.CancelTarget(status))
  }

  /** The call is what the request asked for; a cancellation planned it for a status it read without a lock. */
  ghost predicate Planned(t: Tables, q: Request, call: RowCall) {
    && RowFault(call) == None
    && match q
       case Update(c) => call == c
       case Cancel(publicId, key, requestId, source) =>
         && call.TransitionCall? && !Replays.CancelDone(call.expected) && !Replays.CancelTooLate(call.expected)
         && call == CancelCall(publicId, key, requestId, source, call.expected) && OutboundNamed(t, publicId)
       case _ => false
  }

  ghost predicate CreationDraft(warehouse: Address, t: Tables, q: Request, f: Draws, d: Draft) {
    match q
    case Create(input, key, source, requestId) =>
      CreateFault(input, key, source) == None && d == OutboundDraft(warehouse, input, key, source, requestId, f)
    case CreateReturn(input, key, source, requestId) =>
      && ReturnFault(input, key, source) == None
      && var original := d.shipment.origin.original;
         && original.Some? && original.value in t.shipments
         && t.shipments[original.value].origin.publicId == TrimSpace(input.original)
         && d == ReturnDraft(warehouse, input, original.value, t.shipments[original.value].origin, key, source,
                             requestId, f)
    case _ => false
  }

  ghost predicate Names(t: Tables, id: nat, publicId: string) {
    id in t.shipments && t.shipments[id].origin.publicId == TrimSpace(publicId)
  }

  /** The draft is what the planned call makes of the row as it is stored. */
  ghost predicate ChangeDraft(t: Tables, call: RowCall, f: Draws, d: Draft) {
    && Names(t, d.id, call.meta.publicId)
    && d.items == [] && ChangeOf(call, t.shipments[d.id], f.now) == Change(d.kind, d.shipment, d.record)
  }

  /** The call behind a change of a row: for a cancellation, the one for the row's own status. */
  function CallFor(q: Request, status: ShipmentStatus): (call: Option<RowCall>) {
    match q
    case Update(call) => Some(call)
    case Cancel(publicId, key, requestId, source) => Some(CancelCall(publicId, key, requestId, source, status))
    case _ => None
  }

  ghost predicate Drafted(warehouse: Address, t: Tables, q: Request, f: Draws, d: Draft) {
    if d.kind == Creation then
      CreationDraft(warehouse, t, q, f, d) && !ShipmentTaken(t.shipments, d.id, d.shipment.origin)
    else
      && d.id in t.shipments
      && var call := CallFor(q, t.shipments[d.id].status);
         call.Some? && Planned(t, q, call.value) && ChangeDraft(t, call.value, f, d)
  }

  ghost predicate Sound(warehouse: Address, t: Tables, worker: Worker) {
    && (!worker.Idle? ==> PlainRequest(worker.request))
    && match worker
       case Idle => true
       case Begun(q, f, call) =>
         (match q
          case Create(input, key, source, _) => CreateFault(input, key, source) == None
          case CreateReturn(input, key, source, _) => ReturnFault(input, key, source) == None
          case _ => call.Some? && Planned(t, q, call.value))
       case Checked(q, f, call) => Planned(t, q, call)
       case Prepared(q, f, d) => d.kind == Creation && CreationDraft(warehouse, t, q, f, d)
       case Locked(q, f, call, id, seen) =>
         Planned(t, q, call) && Names(t, id, call.meta.publicId) && t.shipments[id] == seen
       case _ => RowsSound(warehouse, t, worker)
  }

  /** The uncommitted rows of a transaction are what its request asks for, and collide with no committed row. */
  ghost predicate RowsSound(warehouse: Address, t: Tables, worker: Worker)
    requires worker.HasRow()
  {
    && Drafted(warehouse, t, worker.request, worker.drawn, worker.draft)
    && (worker.HasEvent() ==> Recordable(worker.draft.record) && !EventTaken(t.events, worker.Write().event))
    && (worker.Queued? ==> !OutboxTaken(t.outbox, worker.Write().row))
  }

  ghost predicate LocksApart(a: Worker, b: Worker) {
    forall id :: a.Holds(id) ==> !b.Holds(id)
  }

  ghost predicate InsertsApart(a: Worker, b: Worker) {
    a.Inserts() && b.Inserts() ==> !SameUniqueColumn(a.draft.shipment.origin, b.draft.shipment.origin)
  }

  ghost predicate EventsApart(a: Worker, b: Worker) {
    a.HasEvent() && b.HasEvent() ==> !SameEventColumn(a.Write().event, b.Write().event)
  }

  ghost predicate QueuesApart(a: Worker, b: Worker) {
    a.Queued? && b.Queued? ==> !SameOutboxColumn(a.Write().row, b.Write().row)
  }

  /** Two transactions never hold the same lock or colliding uncommitted rows. */
  ghost predicate Apart(a: Worker, b: Worker) {
    LocksApart(a, b) && InsertsApart(a, b) && EventsApart(a, b) && QueuesApart(a, b)
  }

  ghost predicate AllSound(warehouse: Address, s: State) {
    forall w :: 0 <= w < |s.workers| ==> Sound(warehouse, s.history.tables, s.workers[w])
  }

  ghost predicate AllApart(s: State) {
    forall v, w :: 0 <= v < |s.workers| && 0 <= w < |s.workers| && v != w ==> Apart(s.workers[v], s.workers[w])
  }

  // ----- another worker's commit -----

  /** A commit keeps every other row and every column that is written once. */
  ghost predicate Keeps(t: Tables, t': Tables, changed: nat) {
    forall id :: id in t.shipments ==>
      id in t'.shipments && t'.shipments[id].origin == t.shipments[id].origin
      && (id != changed ==> t'.shipments[id] == t.shipments[id])
  }

  lemma CommitKeeps(t: Tables, w: Write)
    requires Lawful(t, w)
    ensures Keeps(t, Commit(t, w), w.id)
  {
  }

  lemma PlannedLater(t: Tables, t': Tables, changed: nat, q: Request, call: RowCall)
    requires Planned(t, q, call) && Keeps(t, t', changed)
    ensures Planned(t', q, call)
  {
    if q.Cancel? {
      var id :| id in t.shipments && t.shipments[id].origin.publicId == TrimSpace(q.publicId)
        && !t.shipments[id].origin.isReturn;
      assert id in t'.shipments && t'.shipments[id].origin.publicId == TrimSpace(q.publicId)
             && !t'.shipments[id].origin.isReturn;
    }
  }

  lemma CreationDraftLater(warehouse: Address, t: Tables, t': Tables, changed: nat, q: Request, f: Draws, d: Draft)
    requires CreationDraft(warehouse, t, q, f, d) && Keeps(t, t', changed)
    ensures CreationDraft(warehouse, t', q, f, d)
  {
  }

  lemma UntakenLater(t: Tables, w: Write, id: nat, o: Origin)
    requires Lawful(t, w) && !ShipmentTaken(t.shipments, id, o) && id != w.id
    requires w.kind == Creation ==> !SameUniqueColumn(w.shipment.origin, o)
    ensures !ShipmentTaken(Commit(t, w).shipments, id, o)
  {
    var t' := Commit(t, w);
    forall other | other in t'.shipments ensures !SameUniqueColumn(t'.shipments[other].origin, o) {
      assert other in t.shipments ==> t'.shipments[other].origin == t.shipments[other].origin;
    }
  }

  lemma DraftedLater(warehouse: Address, t: Tables, w: Write, q: Request, f: Draws, d: Draft)
    requires Drafted(warehouse, t, q, f, d) && Lawful(t, w) && d.id != w.id
    requires w.kind == Creation && d.kind == Creation ==> !SameUniqueColumn(w.shipment.origin, d.shipment.origin)
    ensures Drafted(warehouse, Commit(t, w), q, f, d)
  {
    CommitKeeps(t, w);
    if d.kind == Creation {
      CreationDraftLater(warehouse, t, Commit(t, w), w.id, q, f, d);
      UntakenLater(t, w, d.id, d.shipment.origin);
    } else {
      PlannedLater(t, Commit(t, w), w.id, q, CallFor(q, t.shipments[d.id].status).value);
    }
  }

  lemma EventFreeLater(t: Tables, w: Write, e: EventRow)
    requires !EventTaken(t.events, e) && !SameEventColumn(w.event, e)
    ensures !EventTaken(Commit(t, w).events, e)
  {
  }

  lemma RowFreeLater(t: Tables, w: Write, r: OutboxRow)
    requires !OutboxTaken(t.outbox, r) && !SameOutboxColumn(w.row, r)
    ensures !OutboxTaken(Commit(t, w).outbox, r)
  {
  }

  /** Apart transactions hold different rows. */
  lemma DraftsDiffer(other: Worker, worker: Worker)
    requires other.Queued? && worker.HasRow() && Apart(other, worker)
    ensures other.Write().id != worker.draft.id
    ensures other.Write().kind == Creation && worker.draft.kind == Creation ==>
              !SameUniqueColumn(other.Write().shipment.origin, worker.draft.shipment.origin)
    ensures worker.HasEvent() ==> !SameEventColumn(other.Write().event, worker.Write().event)
    ensures worker.Queued? ==> !SameOutboxColumn(other.Write().row, worker.Write().row)
  {
    assert other.Holds(other.draft.id) && worker.Holds(worker.draft.id);
  }

  lemma RowsSoundLater(warehouse: Address, t: Tables, other: Worker, worker: Worker)
    requires other.Queued? && Lawful(t, other.Write()) && worker.HasRow() && RowsSound(warehouse, t, worker)
    requires Apart(other, worker)
    ensures RowsSound(warehouse, Commit(t, other.Write()), worker)
  {
    DraftsDiffer(other, worker);
    DraftedLater(warehouse, t, other.Write(), worker.request, worker.drawn, worker.draft);
    if worker.HasEvent() {
      EventFreeLater(t, other.Write(), worker.Write().event);
    }
    if worker.Queued? {
      RowFreeLater(t, other.Write(), worker.Write().row);
    }
  }

  lemma PlanSoundLater(warehouse: Address, t: Tables, t': Tables, changed: nat, worker: Worker)
    requires worker.Begun? || worker.Checked? || worker.Prepared?
    requires Keeps(t, t', changed) && Sound(warehouse, t, worker)
    ensures Sound(warehouse, t', worker)
  {
    match worker
    case Begun(q, f, call) => if call.Some? && (q.Update? || q.Cancel?) { PlannedLater(t, t', changed, q, call.value); }
    case Checked(q, f, call) => PlannedLater(t, t', changed, q, call);
    case Prepared(q, f, d) => CreationDraftLater(warehouse, t, t', changed, q, f, d);
  }

  lemma LockSoundLater(warehouse: Address, t: Tables, t': Tables, changed: nat, worker: Worker)
    requires worker.Locked? && worker.id != changed && Keeps(t, t', changed) && Sound(warehouse, t, worker)
    ensures Sound(warehouse, t', worker)
  {
    PlannedLater(t, t', changed, worker.request, worker.planned);
  }

  lemma LocksDiffer(other: Worker, worker: Worker)
    requires other.Queued? && worker.Locked? && Apart(other, worker)
    ensures worker.id != other.draft.id
  {
    assert worker.Holds(worker.id) && other.Holds(other.draft.id);
  }

  lemma RowsAreEnough(warehouse: Address, t: Tables, worker: Worker)
    requires worker.HasRow()
    ensures Sound(warehouse, t, worker) <==> PlainRequest(worker.request) && RowsSound(warehouse, t, worker)
  {
  }

  /** What a transaction knows survives the commit of another one that is apart from it. */
  lemma SoundLater(warehouse: Address, t: Tables, other: Worker, worker: Worker)
    requires other.Queued? && Lawful(t, other.Write()) && Sound(warehouse, t, worker) && Apart(other, worker)
    ensures Sound(warehouse, Commit(t, other.Write()), worker)
  {
    var t' := Commit(t, other.Write());
    CommitKeeps(t, other.Write());
    if worker.HasRow() {
      RowsAreEnough(warehouse, t, worker);
      RowsSoundLater(warehouse, t, other, worker);
      RowsAreEnough(warehouse, t', worker);
    } else if worker.Locked? {
      LocksDiffer(other, worker);
      LockSoundLater(warehouse, t, t', other.draft.id, worker);
    } else if !worker.Idle? {
      PlanSoundLater(warehouse, t, t', other.draft.id, worker);
    }
  }

  // ----- a worker's own statements -----

  lemma BegunIsSound(warehouse: Address, t: Tables, q: Request, f: Draws)
    requires PlainRequest(q)
    ensures Sound(warehouse, t, BeginWorker(t, q, f))
  {
    if q.Cancel? {
      var found := OutboundByPublicId(t, q.publicId);
      if found.Some? {
        assert found.value in t.shipments;
      }
    }
  }

  lemma CheckedIsSound(warehouse: Address, t: Tables, worker: Worker)
    requires worker.Begun? && Sound(warehouse, t, worker)
    ensures Sound(warehouse, t, CheckedWorker(warehouse, t, worker))
  {
  }

  lemma LockedIsSound(warehouse: Address, t: Tables, worker: Worker)
    requires worker.Checked? && Sound(warehouse, t, worker)
    ensures Sound(warehouse, t, LockedWorker(t, worker))
  {
  }

  /** The row behind a lock is the committed one, so the guarded UPDATE of a transition always finds it. */
  lemma GuardedUpdateFindsItsRow(warehouse: Address, t: Tables, worker: Worker)
    requires worker.Locked? && Sound(warehouse, t, worker)
    requires ChangeOf(worker.planned, worker.seen, worker.drawn.now).Change?
    ensures RowAffected(t, worker.id, worker.planned, worker.seen)
  {
  }

  lemma PlannedForStatus(t: Tables, q: Request, call: RowCall, s: Shipment, now: int)
    requires Planned(t, q, call) && ChangeOf(call, s, now).Change?
    ensures CallFor(q, s.status) == Some(call)
  {
  }

  lemma UpdatedIsSound(warehouse: Address, t: Tables, worker: Worker)
    requires worker.Locked? && Sound(warehouse, t, worker)
    ensures Sound(warehouse, t, UpdatedWorker(t, worker))
  {
    var c := ChangeOf(worker.planned, worker.seen, worker.drawn.now);
    if c.Change? {
      GuardedUpdateFindsItsRow(warehouse, t, worker);
      PlannedForStatus(t, worker.request, worker.planned, worker.seen, worker.drawn.now);
      ChangeIsStep(worker.planned, worker.seen, worker.drawn.now);
      assert ChangeDraft(t, worker.planned, worker.drawn, UpdatedWorker(t, worker).draft);
    }
  }

  lemma DraftedWhenFree(warehouse: Address, t: Tables, q: Request, f: Draws, d: Draft)
    requires d.kind == Creation && CreationDraft(warehouse, t, q, f, d)
    requires !ShipmentTaken(t.shipments, d.id, d.shipment.origin)
    ensures Drafted(warehouse, t, q, f, d)
  {
  }

  lemma DraftIsSound(warehouse: Address, t: Tables, q: Request, f: Draws, d: Draft)
    requires Drafted(warehouse, t, q, f, d) && PlainRequest(q)
    ensures Sound(warehouse, t, Written(q, f, d))
  {
    DraftedRows(warehouse, t, Written(q, f, d));
    RowsAreEnough(warehouse, t, Written(q, f, d));
  }

  lemma DraftedRows(warehouse: Address, t: Tables, worker: Worker)
    requires worker.Written? && Drafted(warehouse, t, worker.request, worker.drawn, worker.draft)
    ensures RowsSound(warehouse, t, worker)
  {
    assert !worker.HasEvent() && !worker.Queued?;
  }

  lemma InsertedIsSound(warehouse: Address, t: Tables, worker: Worker, step: Step)
    requires worker.Prepared? && Sound(warehouse, t, worker) && step.InsertRow?
    ensures Sound(warehouse, t, WorkerAfter(warehouse, t, worker, step))
  {
    if !ShipmentTaken(t.shipments, worker.draft.id, worker.draft.shipment.origin) {
      DraftedWhenFree(warehouse, t, worker.request, worker.drawn, worker.draft);
      DraftIsSound(warehouse, t, worker.request, worker.drawn, worker.draft);
    }
  }

  /** One more uncommitted row over the same draft. */
  lemma OneRowMore(warehouse: Address, t: Tables, worker: Worker, next: Worker)
    requires worker.HasRow() && RowsSound(warehouse, t, worker) && next.HasRow()
    requires next.request == worker.request && next.drawn == worker.drawn && next.draft == worker.draft
    requires next.HasEvent() ==> Recordable(next.draft.record) && !EventTaken(t.events, next.Write().event)
    requires next.Queued? ==> !OutboxTaken(t.outbox, next.Write().row)
    ensures RowsSound(warehouse, t, next)
  {
  }

  lemma AfterRecording(warehouse: Address, t: Tables, worker: Worker, step: Step) returns (recorded: bool)
    requires worker.Written? && step.RecordEvent?
    ensures WorkerAfter(warehouse, t, worker, step)
            == if recorded then Recorded(worker.request, worker.drawn, worker.draft) else Idle
    ensures recorded ==> Recordable(worker.draft.record) && !EventTaken(t.events, worker.Write().event)
  {
    recorded := Recordable(worker.draft.record) && !EventTaken(t.events, worker.Write().event);
  }

  lemma AfterQueueing(warehouse: Address, t: Tables, worker: Worker, step: Step) returns (queued: bool)
    requires worker.Recorded? && step.QueueRow?
    ensures WorkerAfter(warehouse, t, worker, step)
            == if queued then Queued(worker.request, worker.drawn, worker.draft) else Idle
    ensures queued ==> !OutboxTaken(t.outbox, worker.Write().row)
  {
    queued := !OutboxTaken(t.outbox, worker.Write().row);
  }

  lemma RecordedIsSound(warehouse: Address, t: Tables, worker: Worker, step: Step)
    requires worker.Written? && PlainRequest(worker.request) && RowsSound(warehouse, t, worker) && step.RecordEvent?
    ensures Sound(warehouse, t, WorkerAfter(warehouse, t, worker, step))
  {
    var recorded := AfterRecording(warehouse, t, worker, step);
    if recorded {
      OneRowMore(warehouse, t, worker, Recorded(worker.request, worker.drawn, worker.draft));
      RowsAreEnough(warehouse, t, Recorded(worker.request, worker.drawn, worker.draft));
    }
  }

  lemma QueuedIsSound(warehouse: Address, t: Tables, worker: Worker, step: Step)
    requires worker.Recorded? && PlainRequest(worker.request) && RowsSound(warehouse, t, worker) && step.QueueRow?
    ensures Sound(warehouse, t, WorkerAfter(warehouse, t, worker, step))
  {
    var queued := AfterQueueing(warehouse, t, worker, step);
    if queued {
      OneRowMore(warehouse, t, worker, Queued(worker.request, worker.drawn, worker.draft));
      RowsAreEnough(warehouse, t, Queued(worker.request, worker.drawn, worker.draft));
    }
  }

  /** The statements before the first write. */
  lemma ReadIsSound(warehouse: Address, t: Tables, worker: Worker, step: Step)
    requires Sound(warehouse, t, worker)
    requires (step.Begin? && PlainRequest(step.request)) || (step.CheckKey? && worker.Begun?)
             || (step.LockRow? && worker.Checked?)
    ensures Sound(warehouse, t, WorkerAfter(warehouse, t, worker, step))
  {
    match step
    case Begin(_, q, f) => BegunIsSound(warehouse, t, q, f);
    case CheckKey(_) => CheckedIsSound(warehouse, t, worker);
    case LockRow(_) => LockedIsSound(warehouse, t, worker);
  }

  lemma RowStepIsSound(warehouse: Address, t: Tables, worker: Worker, step: Step)
    requires Sound(warehouse, t, worker)
    requires (step.UpdateRow? && worker.Locked?) || (step.InsertRow? && worker.Prepared?)
    ensures Sound(warehouse, t, WorkerAfter(warehouse, t, worker, step))
  {
    if step.UpdateRow? {
      UpdatedIsSound(warehouse, t, worker);
    } else {
      InsertedIsSound(warehouse, t, worker, step);
    }
  }

  lemma RecordStepIsSound(warehouse: Address, t: Tables, worker: Worker, step: Step)
    requires Sound(warehouse, t, worker)
    requires (step.RecordEvent? && worker.Written?) || (step.QueueRow? && worker.Recorded?)
    ensures Sound(warehouse, t, WorkerAfter(warehouse, t, worker, step))
  {
    RowsAreEnough(warehouse, t, worker);
    if step.RecordEvent? {
      RecordedIsSound(warehouse, t, worker, step);
    } else {
      QueuedIsSound(warehouse, t, worker, step);
    }
  }

  lemma OwnStepIsSound(warehouse: Address, s: State, step: Step)
    requires Enabled(s, step) && !step.CommitAll? && !step.Dispatch?
    requires Sound(warehouse, s.history.tables, s.workers[step.worker])
    ensures Sound(warehouse, s.history.tables, WorkerAfter(warehouse, s.history.tables, s.workers[step.worker], step))
  {
    var t, worker := s.history.tables, s.workers[step.worker];
    if step.Begin? || step.CheckKey? || step.LockRow? {
      ReadIsSound(warehouse, t, worker, step);
    } else if step.UpdateRow? || step.InsertRow? {
      RowStepIsSound(warehouse, t, worker, step);
    } else if step.RecordEvent? || step.QueueRow? {
      RecordStepIsSound(warehouse, t, worker, step);
    }
  }

  // ----- transactions stay apart -----

  lemma LocksAreSymmetric(a: Worker, b: Worker)
    requires LocksApart(a, b)
    ensures LocksApart(b, a)
  {
  }

  lemma ColumnsAreSymmetric(a: Worker, b: Worker)
    ensures InsertsApart(a, b) ==> InsertsApart(b, a)
    ensures EventsApart(a, b) ==> EventsApart(b, a)
    ensures QueuesApart(a, b) ==> QueuesApart(b, a)
  {
  }

  lemma ApartIsSymmetric(a: Worker, b: Worker)
    requires Apart(a, b)
    ensures Apart(b, a)
  {
    LocksAreSymmetric(a, b);
    ColumnsAreSymmetric(a, b);
  }

  lemma HoldsNothing(next: Worker, other: Worker)
    requires next.Idle? || next.Begun? || next.Checked? || next.Prepared?
    ensures Apart(next, other)
  {
  }

  lemma ReadIsApart(warehouse: Address, t: Tables, worker: Worker, step: Step, other: Worker)
    requires step.Begin? || step.Fail? || (step.CheckKey? && worker.Begun?)
    ensures Apart(WorkerAfter(warehouse, t, worker, step), other)
  {
    match step
    case Begin(_, q, f) => NewWorkersHoldNothing(warehouse, t, worker, q, f); HoldsNothing(BeginWorker(t, q, f), other);
    case CheckKey(_) =>
      CheckedHoldsNothing(warehouse, t, worker); HoldsNothing(CheckedWorker(warehouse, t, worker), other);
    case Fail(_) => HoldsNothing(Idle, other);
  }

  /** A statement only adds a lock or row that no other transaction holds. */
  lemma OwnStepIsApart(warehouse: Address, s: State, step: Step, v: nat)
    requires Enabled(s, step) && !step.CommitAll? && !step.Dispatch?
    requires v < |s.workers| && v != step.worker && Apart(s.workers[step.worker], s.workers[v])
    ensures Apart(WorkerAfter(warehouse, s.history.tables, s.workers[step.worker], step), s.workers[v])
  {
    var w := step.worker;
    if step.LockRow? {
      LockIsApart(s, w, v);
    } else if step.UpdateRow? {
      UpdateHoldsTheSame(s.history.tables, s.workers[w], s.workers[v]);
    } else if step.InsertRow? {
      InsertIsApart(warehouse, s, w, v);
    } else if step.RecordEvent? {
      RecordIsApart(warehouse, s, w, v);
    } else if step.QueueRow? {
      QueueIsApart(warehouse, s, w, v);
    } else {
      ReadIsApart(warehouse, s.history.tables, s.workers[w], step, s.workers[v]);
    }
  }

  lemma NewWorkersHoldNothing(warehouse: Address, t: Tables, worker: Worker, q: Request, f: Draws)
    ensures var next := BeginWorker(t, q, f); next.Idle? || next.Begun?
  {
  }

  lemma CheckedHoldsNothing(warehouse: Address, t: Tables, worker: Worker)
    requires worker.Begun?
    ensures var next := CheckedWorker(warehouse, t, worker); next.Idle? || next.Checked? || next.Prepared?
  {
  }

  lemma LockIsApart(s: State, w: nat, v: nat)
    requires Enabled(s, LockRow(w)) && v < |s.workers| && v != w
    ensures Apart(LockedWorker(s.history.tables, s.workers[w]), s.workers[v])
  {
    var next := LockedWorker(s.history.tables, s.workers[w]);
    if next.Locked? {
      assert !LockTaken(s, w, next.id);
    }
  }

  lemma UpdateHoldsTheSame(t: Tables, worker: Worker, other: Worker)
    requires worker.Locked? && Apart(worker, other)
    ensures Apart(UpdatedWorker(t, worker), other)
  {
    assert worker.Holds(worker.id);
    var c := ChangeOf(worker.planned, worker.seen, worker.drawn.now);
    assert c.Change? ==> c.kind != Creation;
  }

  lemma InsertIsApart(warehouse: Address, s: State, w: nat, v: nat)
    requires Enabled(s, InsertRow(w)) && v < |s.workers| && v != w
    ensures Apart(WorkerAfter(warehouse, s.history.tables, s.workers[w], InsertRow(w)), s.workers[v])
  {
    var d, other := s.workers[w].draft, s.workers[v];
    assert !LockTaken(s, w, d.id) && !ShipmentReserved(s, w, d.id, d.shipment.origin);
    if other.Inserts() {
      assert !SameUniqueColumn(other.draft.shipment.origin, d.shipment.origin);
    }
  }

  lemma ApartWithEvent(worker: Worker, other: Worker)
    requires worker.Written? && Apart(worker, other)
    requires other.HasEvent() ==> !SameEventColumn(other.Write().event, worker.Write().event)
    ensures Apart(Recorded(worker.request, worker.drawn, worker.draft), other)
  {
    assert worker.Holds(worker.draft.id);
  }

  lemma RecordIsApart(warehouse: Address, s: State, w: nat, v: nat)
    requires Enabled(s, RecordEvent(w)) && v < |s.workers| && v != w && Apart(s.workers[w], s.workers[v])
    ensures Apart(WorkerAfter(warehouse, s.history.tables, s.workers[w], RecordEvent(w)), s.workers[v])
  {
    assert !EventReserved(s, w, s.workers[w].Write().event);
    ApartWithEvent(s.workers[w], s.workers[v]);
  }

  lemma ApartWithRow(worker: Worker, other: Worker)
    requires worker.Recorded? && Apart(worker, other)
    requires other.Queued? ==> !SameOutboxColumn(other.Write().row, worker.Write().row)
    ensures Apart(Queued(worker.request, worker.drawn, worker.draft), other)
  {
    assert worker.Holds(worker.draft.id);
  }

  lemma QueueIsApart(warehouse: Address, s: State, w: nat, v: nat)
    requires Enabled(s, QueueRow(w)) && v < |s.workers| && v != w && Apart(s.workers[w], s.workers[v])
    ensures Apart(WorkerAfter(warehouse, s.history.tables, s.workers[w], QueueRow(w)), s.workers[v])
  {
    assert !OutboxReserved(s, w, s.workers[w].Write().row);
    ApartWithRow(s.workers[w], s.workers[v]);
  }

  // ----- a commit is an atomic call -----

  lemma RecordAccepts(t: Tables, d: Draft, f: Draws)
    requires Recordable(d.record) && !EventTaken(t.events, WriteOfDraft(d, f).event)
    requires !OutboxTaken(t.outbox, WriteOfDraft(d, f).row)
    ensures Record(t, d.kind, d.id, d.shipment, d.items, d.record, f) == Accept(WriteOfDraft(d, f))
  {
  }

  /** A reserved event row means that no committed event has the call's key. */
  lemma KeyIsStillFree(t: Tables, call: RowCall, f: Draws, d: Draft)
    requires PlainKey(call.meta.source, call.meta.key) && d.record.source == call.meta.source
    requires d.record.key == call.meta.key
    requires !EventTaken(t.events, WriteOfDraft(d, f).event)
    ensures EventUnderKey(t, call.meta) == None
  {
    var e := WriteOfDraft(d, f).event;
    forall i | 0 <= i < |t.events|
      ensures !(t.events[i].source == call.meta.source && t.events[i].key == call.meta.key)
    {
      assert !SameEventColumn(t.events[i], e);
    }
  }

  lemma ChangeCommits(t: Tables, call: RowCall, f: Draws, d: Draft)
    requires ShipmentsDistinct(t.shipments) && RowFault(call) == None && ChangeDraft(t, call, f, d)
    requires PlainKey(call.meta.source, call.meta.key) && Recordable(d.record)
    requires !EventTaken(t.events, WriteOfDraft(d, f).event) && !OutboxTaken(t.outbox, WriteOfDraft(d, f).row)
    ensures RowOutcome(t, call, f) == Accept(WriteOfDraft(d, f))
  {
    Replays.RecordUnderCallersKey(call, t.shipments[d.id], f.now);
    KeyIsStillFree(t, call, f, d);
    Replays.PublicIdFindsRow(t, d.id, call.meta.publicId);
    RecordAccepts(t, d, f);
  }

  /**
   * The unlocked read of a cancellation still holds when it commits: the locked row has the status it was planned for.
   */
  lemma CancelPlanHolds(t: Tables, q: Request, f: Draws, d: Draft, call: RowCall)
    requires q.Cancel? && ShipmentsDistinct(t.shipments) && Planned(t, q, call) && ChangeDraft(t, call, f, d)
    ensures PlanCancel(t, q.publicId, q.key, q.requestId, q.source) == Proceed(call)
  {
    assert t.shipments[d.id].status == call.expected;
    var id :| id in t.shipments && t.shipments[id].origin.publicId == TrimSpace(q.publicId)
      && !t.shipments[id].origin.isReturn;
    assert id == d.id || !SameUniqueColumn(t.shipments[id].origin, t.shipments[d.id].origin);
    Replays.PlanFor(t, d.id, q.publicId, q.key, q.requestId, q.source);
  }

  lemma KeyIsUnregistered(t: Tables, source: string, key: string, id: nat, o: Origin)
    requires PlainKey(source, key) && o.source == source && o.key == key && !ShipmentTaken(t.shipments, id, o)
    ensures FindByKey(t, source, key) == None
  {
    forall other | other in t.shipments ensures other !in ByKey(t.shipments, source, key) {
      assert !SameUniqueColumn(t.shipments[other].origin, o);
    }
  }

  lemma CreateCommits(warehouse: Address, t: Tables, q: Request, f: Draws, d: Draft)
    requires q.Create? && PlainRequest(q) && d.kind == Creation && Drafted(warehouse, t, q, f, d)
    requires Recordable(d.record)
    requires !EventTaken(t.events, WriteOfDraft(d, f).event) && !OutboxTaken(t.outbox, WriteOfDraft(d, f).row)
    ensures CreateTransaction(t, warehouse, q.create, q.key, q.source, q.requestId, f) == Accept(WriteOfDraft(d, f))
  {
    KeyIsUnregistered(t, q.source, q.key, d.id, d.shipment.origin);
    RecordAccepts(t, d, f);
  }

  lemma ReturnCommits(warehouse: Address, t: Tables, q: Request, f: Draws, d: Draft)
    requires q.CreateReturn? && PlainRequest(q) && d.kind == Creation && Drafted(warehouse, t, q, f, d)
    requires Recordable(d.record)
    requires ShipmentsDistinct(t.shipments)
    requires !EventTaken(t.events, WriteOfDraft(d, f).event) && !OutboxTaken(t.outbox, WriteOfDraft(d, f).row)
    ensures ReturnTransaction(t, warehouse, q.returned, q.key, q.source, q.requestId, f) == Accept(WriteOfDraft(d, f))
  {
    KeyIsUnregistered(t, q.source, q.key, d.id, d.shipment.origin);
    Replays.PublicIdFindsRow(t, d.shipment.origin.original.value, q.returned.original);
    RecordAccepts(t, d, f);
  }

  lemma CreationIsAtomic(warehouse: Address, t: Tables, worker: Worker)
    requires worker.Queued? && Sound(warehouse, t, worker) && ShipmentsDistinct(t.shipments)
    requires worker.request.Create? || worker.request.CreateReturn?
    ensures OutcomeOf(t, warehouse, worker.request, worker.drawn) == Accept(worker.Write())
  {
    var q, f, d := worker.request, worker.drawn, worker.draft;
    assert RowsSound(warehouse, t, worker) && d.kind == Creation;
    if q.Create? {
      CreateCommits(warehouse, t, q, f, d);
    } else {
      ReturnCommits(warehouse, t, q, f, d);
    }
  }

  lemma ChangeIsAtomic(warehouse: Address, t: Tables, worker: Worker)
    requires worker.Queued? && Sound(warehouse, t, worker) && ShipmentsDistinct(t.shipments)
    requires worker.request.Update? || worker.request.Cancel?
    ensures OutcomeOf(t, warehouse, worker.request, worker.drawn) == Accept(worker.Write())
  {
    var q, f, d := worker.request, worker.drawn, worker.draft;
    assert RowsSound(warehouse, t, worker) && d.kind != Creation;
    var call := CallFor(q, t.shipments[d.id].status).value;
    ChangeCommits(t, call, f, d);
    if q.Cancel? {
      CancelPlanHolds(t, q, f, d, call);
    }
  }

  /** At its commit a transaction does exactly what its call would do alone, in the database as it is then. */
  lemma CommitIsAtomic(warehouse: Address, t: Tables, worker: Worker)
    requires worker.Queued? && Sound(warehouse, t, worker) && ShipmentsDistinct(t.shipments)
    ensures OutcomeOf(t, warehouse, worker.request, worker.drawn) == Accept(worker.Write())
    ensures Lawful(t, worker.Write())
  {
    if worker.request.Create? || worker.request.CreateReturn? {
      CreationIsAtomic(warehouse, t, worker);
    } else {
      ChangeIsAtomic(warehouse, t, worker);
    }
    AcceptIsLawful(t, warehouse, worker.request, worker.drawn);
  }

  // ----- every interleaving -----

  /** All transactions know what they should, and are apart. */
  ghost predicate Sane(warehouse: Address, s: State) {
    AllSound(warehouse, s) && AllApart(s)
  }

  ghost predicate Orderly(warehouse: Address, s: State) {
    Inv(s.history.tables, s.history.kinds) && Sane(warehouse, s)
  }

  lemma OthersStaySound(warehouse: Address, s: State, w: nat)
    requires AllSound(warehouse, s) && AllApart(s) && w < |s.workers| && s.workers[w].Queued?
    requires Lawful(s.history.tables, s.workers[w].Write())
    ensures forall v :: 0 <= v < |s.workers| && v != w ==>
              Sound(warehouse, Commit(s.history.tables, s.workers[w].Write()), s.workers[v])
  {
    forall v | 0 <= v < |s.workers| && v != w
      ensures Sound(warehouse, Commit(s.history.tables, s.workers[w].Write()), s.workers[v])
    {
      assert Sound(warehouse, s.history.tables, s.workers[v]) && Apart(s.workers[w], s.workers[v]);
      SoundLater(warehouse, s.history.tables, s.workers[w], s.workers[v]);
    }
  }

  lemma WithoutWorker(warehouse: Address, h: History, s: State, w: nat)
    requires AllApart(s) && w < |s.workers|
    requires forall v :: 0 <= v < |s.workers| && v != w ==> Sound(warehouse, h.tables, s.workers[v])
    ensures Sane(warehouse, State(h, s.workers[w := Idle]))
  {
    var s' := State(h, s.workers[w := Idle]);
    forall u, v | 0 <= u < |s.workers| && 0 <= v < |s.workers| && u != v ensures Apart(s'.workers[u], s'.workers[v]) {
      assert Apart(s.workers[u], s.workers[v]);
    }
  }

  lemma CommittingIsLawful(warehouse: Address, s: State, w: nat)
    requires Sane(warehouse, s) && ShipmentsDistinct(s.history.tables.shipments) && w < |s.workers|
    requires s.workers[w].Queued?
    ensures Lawful(s.history.tables, s.workers[w].Write())
  {
    assert Sound(warehouse, s.history.tables, s.workers[w]);
    CommitIsAtomic(warehouse, s.history.tables, s.workers[w]);
  }

  lemma CommitLeaves(warehouse: Address, s: State, w: nat)
    requires Enabled(s, CommitAll(w))
    ensures var s' := Interleaving.Next(warehouse, s, CommitAll(w));
            s'.history.tables == Commit(s.history.tables, s.workers[w].Write()) && s'.workers == s.workers[w := Idle]
  {
  }

  lemma CommitKeepsSane(warehouse: Address, s: State, w: nat)
    requires Sane(warehouse, s) && ShipmentsDistinct(s.history.tables.shipments) && Enabled(s, CommitAll(w))
    ensures Sane(warehouse, Interleaving.Next(warehouse, s, CommitAll(w)))
  {
    CommittingIsLawful(warehouse, s, w);
    OthersStaySound(warehouse, s, w);
    CommitLeaves(warehouse, s, w);
    WithoutWorker(warehouse, Interleaving.Next(warehouse, s, CommitAll(w)).history, s, w);
  }

  lemma DispatchKeepsRows(warehouse: Address, t: Tables, outbox: seq<OutboxRow>, worker: Worker)
    requires worker.HasRow() && RowsSound(warehouse, t, worker) && SameMessages(t.outbox, outbox)
    ensures RowsSound(warehouse, t.(outbox := outbox), worker)
  {
    DispatchKeepsDraft(warehouse, t, t.(outbox := outbox), worker.request, worker.drawn, worker.draft);
    if worker.Queued? {
      forall i | 0 <= i < |outbox| ensures !SameOutboxColumn(outbox[i], worker.Write().row) {
        assert !SameOutboxColumn(t.outbox[i], worker.Write().row);
      }
    }
  }

  lemma DispatchKeepsSound(warehouse: Address, t: Tables, outbox: seq<OutboxRow>, worker: Worker)
    requires Sound(warehouse, t, worker) && SameMessages(t.outbox, outbox)
    ensures Sound(warehouse, t.(outbox := outbox), worker)
  {
    if worker.HasRow() {
      RowsAreEnough(warehouse, t, worker);
      DispatchKeepsRows(warehouse, t, outbox, worker);
      RowsAreEnough(warehouse, t.(outbox := outbox), worker);
    }
  }

  lemma DispatchKeepsDraft(warehouse: Address, t: Tables, t': Tables, q: Request, f: Draws, d: Draft)
    requires Drafted(warehouse, t, q, f, d) && t'.shipments == t.shipments
    ensures Drafted(warehouse, t', q, f, d)
  {
  }

  lemma OneWorkerApart(s: State, w: nat, next: Worker)
    requires AllApart(s) && w < |s.workers|
    requires forall v :: 0 <= v < |s.workers| && v != w ==> Apart(next, s.workers[v])
    ensures AllApart(s.(workers := s.workers[w := next]))
  {
    forall v | 0 <= v < |s.workers| && v != w ensures Apart(s.workers[v], next) {
      ApartIsSymmetric(next, s.workers[v]);
    }
  }

  lemma OneWorkerSound(warehouse: Address, s: State, w: nat, next: Worker)
    requires AllSound(warehouse, s) && w < |s.workers| && Sound(warehouse, s.history.tables, next)
    ensures AllSound(warehouse, s.(workers := s.workers[w := next]))
  {
  }

  lemma StepKeepsApart(warehouse: Address, s: State, step: Step)
    requires AllApart(s) && Enabled(s, step) && !step.CommitAll? && !step.Dispatch?
    ensures AllApart(Interleaving.Next(warehouse, s, step))
  {
    var next := WorkerAfter(warehouse, s.history.tables, s.workers[step.worker], step);
    forall v | 0 <= v < |s.workers| && v != step.worker ensures Apart(next, s.workers[v]) {
      assert Apart(s.workers[step.worker], s.workers[v]);
      OwnStepIsApart(warehouse, s, step, v);
    }
    OneWorkerApart(s, step.worker, next);
  }

  lemma StepKeepsSound(warehouse: Address, s: State, step: Step)
    requires AllSound(warehouse, s) && Enabled(s, step) && !step.CommitAll? && !step.Dispatch?
    ensures AllSound(warehouse, Interleaving.Next(warehouse, s, step))
  {
    assert Sound(warehouse, s.history.tables, s.workers[step.worker]);
    OwnStepIsSound(warehouse, s, step);
    OneWorkerSound(warehouse, s, step.worker, WorkerAfter(warehouse, s.history.tables, s.workers[step.worker], step));
  }

  lemma DispatchKeepsSane(warehouse: Address, s: State, outbox: seq<OutboxRow>)
    requires Sane(warehouse, s) && SameMessages(s.history.tables.outbox, outbox)
    ensures Sane(warehouse, s.(history := s.history.(tables := s.history.tables.(outbox := outbox))))
  {
    forall v | 0 <= v < |s.workers| ensures Sound(warehouse, s.history.tables.(outbox := outbox), s.workers[v]) {
      DispatchKeepsSound(warehouse, s.history.tables, outbox, s.workers[v]);
    }
  }

  lemma NextKeepsSane(warehouse: Address, s: State, step: Step)
    requires Sane(warehouse, s) && ShipmentsDistinct(s.history.tables.shipments)
    ensures Sane(warehouse, Interleaving.Next(warehouse, s, step))
  {
    if Enabled(s, step) {
      match step
      case CommitAll(w) => CommitKeepsSane(warehouse, s, w);
      case Dispatch(outbox) => DispatchKeepsSane(warehouse, s, outbox);
      case _ => StepKeepsApart(warehouse, s, step); StepKeepsSound(warehouse, s, step);
    }
  }

  lemma SilentStep(warehouse: Address, s: State, step: Step)
    requires EventOf(s, step) == None
    ensures Interleaving.Next(warehouse, s, step).history == s.history
  {
  }

  lemma DispatchStep(warehouse: Address, s: State, outbox: seq<OutboxRow>)
    requires Enabled(s, Dispatch(outbox))
    ensures Interleaving.Next(warehouse, s, Dispatch(outbox)).history
            == Runs.Next(warehouse, s.history, Deliver(outbox))
  {
  }

  lemma CommitStep(warehouse: Address, s: State, w: nat)
    requires Enabled(s, CommitAll(w))
    requires OutcomeOf(s.history.tables, warehouse, s.workers[w].request, s.workers[w].drawn)
             == Accept(s.workers[w].Write())
    ensures Interleaving.Next(warehouse, s, CommitAll(w)).history
            == Runs.Next(warehouse, s.history, Call(s.workers[w].request, s.workers[w].drawn))
  {
  }

  /** Only commits and deliveries change the tables, each exactly as its atomic event does; a commit is accepted. */
  lemma StepIsAtomic(warehouse: Address, s: State, step: Step)
    requires Sane(warehouse, s) && ShipmentsDistinct(s.history.tables.shipments)
    ensures var e := EventOf(s, step);
            Interleaving.Next(warehouse, s, step).history
            == if e.Some? then Runs.Next(warehouse, s.history, e.value) else s.history
    ensures step.CommitAll? && Enabled(s, step) ==>
              var worker := s.workers[step.worker];
              OutcomeOf(s.history.tables, warehouse, worker.request, worker.drawn) == Accept(worker.Write())
  {
    if !Enabled(s, step) {
    } else if step.CommitAll? {
      assert Sound(warehouse, s.history.tables, s.workers[step.worker]);
      CommitIsAtomic(warehouse, s.history.tables, s.workers[step.worker]);
      CommitStep(warehouse, s, step.worker);
    } else if step.Dispatch? {
      DispatchStep(warehouse, s, step.outbox);
    } else {
      SilentStep(warehouse, s, step);
    }
  }

  lemma NextKeepsHistory(warehouse: Address, s: State, step: Step)
    requires Orderly(warehouse, s)
    ensures var h := Interleaving.Next(warehouse, s, step).history; Inv(h.tables, h.kinds)
  {
    StepIsAtomic(warehouse, s, step);
    var e := EventOf(s, step);
    if e.Some? {
      NextKeepsInv(warehouse, s.history, e.value);
    }
  }

  lemma {:induction false} InterleavingIsOrderly(warehouse: Address, n: nat, steps: seq<Step>)
    ensures Orderly(warehouse, Interleaved(warehouse, n, steps))
  {
    if steps == [] {
      EmptyInv();
    } else {
      InterleavingIsOrderly(warehouse, n, steps[..|steps| - 1]);
      NextKeepsHistory(warehouse, Interleaved(warehouse, n, steps[..|steps| - 1]), steps[|steps| - 1]);
      NextKeepsSane(warehouse, Interleaved(warehouse, n, steps[..|steps| - 1]), steps[|steps| - 1]);
    }
  }

  lemma RunOfOneMore(warehouse: Address, events: seq<Event>, e: Event)
    ensures Run(warehouse, events + [e]) == Runs.Next(warehouse, Run(warehouse, events), e)
  {
    assert (events + [e])[..|events|] == events;
  }

  /**
   * Serializability: whatever statements interleave, the committed tables are those of the committed calls run one
   * after another. A transaction that fails, loses a race or is refused leaves no trace.
   */
  lemma {:induction false} Serializable(warehouse: Address, n: nat, steps: seq<Step>)
    ensures Interleaved(warehouse, n, steps).history == Run(warehouse, Serial(warehouse, n, steps))
  {
    if steps != [] {
      var earlier, step := steps[..|steps| - 1], steps[|steps| - 1];
      Serializable(warehouse, n, earlier);
      InterleavingIsOrderly(warehouse, n, earlier);
      var s := Interleaved(warehouse, n, earlier);
      StepIsAtomic(warehouse, s, step);
      if EventOf(s, step).Some? {
        RunOfOneMore(warehouse, Serial(warehouse, n, earlier), EventOf(s, step).value);
      }
    }
  }
}
