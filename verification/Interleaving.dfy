/**
 * Any number of service workers over one database, their transactions split into statements: the key check, the locking
 * read or the insertion, the event row, the outbox row, the commit. Statements interleave freely, a worker may fail at
 * any point, and dispatchers change the delivery state of the outbox in between.
 */
module Interleaving {
  import opened Text
  import opened Models
  import opened Items
  import opened Store
  import opened Operations
  import opened Runs

  /** A shipment row as a transaction is about to write it, and the event it will record. */
  datatype Draft = Draft(kind: OpKind, id: nat, shipment: Shipment, items: seq<ItemRow>, record: RecordInput)

  function WriteOfDraft(d: Draft, f: Draws): (w: Write) {
    WriteOf(d.kind, d.id, d.shipment, d.items, d.record, f)
  }

  /**
   * Where a worker's transaction stands. A change goes through Checked and Locked, a creation through Prepared; both
   * then hold an uncommitted shipment row (Written), an event and audit row (Recorded) and an outbox row (Queued).
   */
  datatype Worker =
    | Idle
    | Begun(request: Request, drawn: Draws, call: Option<RowCall>)
    | Checked(request: Request, drawn: Draws, planned: RowCall)
    | Prepared(request: Request, drawn: Draws, draft: Draft)
    | Locked(request: Request, drawn: Draws, planned: RowCall, id: nat, seen: Shipment)
    | Written(request: Request, drawn: Draws, draft: Draft)
    | Recorded(request: Request, drawn: Draws, draft: Draft)
    | Queued(request: Request, drawn: Draws, draft: Draft)
  {
    predicate HasRow() { Written? || Recorded? || Queued? }

    predicate HasEvent() { Recorded? || Queued? }

    /** The row lock on a shipment: taken by the locking read, or held on an inserted row. */
    predicate Holds(row: nat) {
      (Locked? && id == row) || (HasRow() && draft.id == row)
    }

    predicate Inserts() { HasRow() && draft.kind == Creation }

    function Write(): (w: Store.Write)
      requires HasRow()
    {
      WriteOfDraft(draft, drawn)
    }
  }

  datatype State = State(history: History, workers: seq<Worker>)

  datatype Step =
    | Begin(worker: nat, request: Request, drawn: Draws) // validation and, for a cancellation, its unlocked read
    | CheckKey(worker: nat)
    | LockRow(worker: nat)
    | UpdateRow(worker: nat)
    | InsertRow(worker: nat)
    | RecordEvent(worker: nat)
    | QueueRow(worker: nat)
    | CommitAll(worker: nat)
    | Fail(worker: nat) // any error, timeout or crash: the transaction rolls back
    | Dispatch(outbox: seq<OutboxRow>)

  /** Sources and keys as the API passes them on: trimmed, and the key not empty. */
  ghost predicate PlainKey(source: string, key: string) {
    TrimSpace(source) == source && TrimSpace(key) == key && key != ""
  }

  ghost predicate PlainRequest(q: Request) {
    match q
    case Create(_, key, source, _) => PlainKey(source, key)
    case CreateReturn(_, key, source, _) => PlainKey(source, key)
    case Cancel(_, key, _, source) => PlainKey(source, key)
    case Update(call) => PlainKey(call.meta.source, call.meta.key)
  }

  // ----- what the statements see and do -----

  function BeginWorker(t: Tables, q: Request, f: Draws): (next: Worker) {
    match q
    case Create(input, key, source, _) => if CreateFault(input, key, source) == None then Begun(q, f, None) else Idle
    case CreateReturn(input, key, source, _) =>
      if ReturnFault(input, key, source) == None then Begun(q, f, None) else Idle
    case Update(call) => if RowFault(call) == None then Begun(q, f, Some(call)) else Idle
    case Cancel(publicId, key, requestId, source) =>
      match PlanCancel(t, publicId, key, requestId, source)
      case Done(_) => Idle
      case Proceed(call) => if RowFault(call) == None then Begun(q, f, Some(call)) else Idle
  }

  function OutboundDraft(warehouse: Address, input: CreateInput, key: string, source: string, requestId: string,
                         f: Draws): (d: Draft) {
    Draft(Creation, f.shipmentId, OutboundShipment(warehouse, input, key, source, f),
          ItemRows(f.shipmentId, input.items),
          OutboundRecord(input, key, source, requestId, f))
  }

  function ReturnDraft(warehouse: Address, input: ReturnInput, originalId: nat, original: Origin, key: string,
                       source: string,
                       requestId: string, f: Draws): (d: Draft) {
    Draft(Creation, f.shipmentId, ReturnShipment(warehouse, input, originalId, original, key, source, f),
          ItemRows(f.shipmentId, input.items), ReturnRecord(input, key, source, requestId, f))
  }

  /** The snapshot reads of a transaction: the key check, and for a return its original. */
  function CheckedWorker(warehouse: Address, t: Tables, worker: Worker): (next: Worker)
    requires worker.Begun?
  {
    var f := worker.drawn;
    match worker.request
    case Create(input, key, source, requestId) =>
      if FindByKey(t, source, key).Some? then Idle
      else Prepared(worker.request, f, OutboundDraft(warehouse, input, key, source, requestId, f))
    case CreateReturn(input, key, source, requestId) =>
      if FindByKey(t, source, key).Some? then Idle
      else
        (match FindByPublicId(t, input.original)
         case None => Idle
         case Some(id) =>
           Prepared(worker.request, f,
                    ReturnDraft(warehouse, input, id, t.shipments[id].origin, key, source, requestId, f)))
    case _ =>
      match worker.call
      case None => Idle
      case Some(call) => if EventUnderKey(t, call.meta).Some? then Idle else Checked(worker.request, f, call)
  }

  function LockedWorker(t: Tables, worker: Worker): (next: Worker)
    requires worker.Checked?
  {
    match FindByPublicId(t, worker.planned.meta.publicId)
    case None => Idle
    case Some(id) => Locked(worker.request, worker.drawn, worker.planned, id, t.shipments[id])
  }

  /** The rows that the guarded UPDATE of a transition finds. */
  predicate RowAffected(t: Tables, id: nat, call: RowCall, seen: Shipment) {
    && id in t.shipments
    && (call.TransitionCall? ==> t.shipments[id].status == call.expected && t.shipments[id].version == seen.version)
  }

  function UpdatedWorker(t: Tables, worker: Worker): (next: Worker)
    requires worker.Locked?
  {
    match ChangeOf(worker.planned, worker.seen, worker.drawn.now)
    case Refused(_) => Idle
    case Change(kind, s, r) =>
      if RowAffected(t, worker.id, worker.planned, worker.seen)
      then Written(worker.request, worker.drawn, Draft(kind, worker.id, s, [], r))
      else Idle
  }

  /** Uncommitted rows of other workers that an insertion would collide with, and so has to wait for. */
  ghost predicate ShipmentReserved(s: State, w: nat, id: nat, o: Origin) {
    exists v :: 0 <= v < |s.workers| && v != w && s.workers[v].Inserts()
                && (s.workers[v].draft.id == id || SameUniqueColumn(s.workers[v].draft.shipment.origin, o))
  }

  ghost predicate EventReserved(s: State, w: nat, e: EventRow) {
    exists v :: 0 <= v < |s.workers| && v != w && s.workers[v].HasEvent()
      && SameEventColumn(s.workers[v].Write().event, e)
  }

  ghost predicate OutboxReserved(s: State, w: nat, r: OutboxRow) {
    exists v :: 0 <= v < |s.workers| && v != w && s.workers[v].Queued? && SameOutboxColumn(s.workers[v].Write().row, r)
  }

  ghost predicate LockTaken(s: State, w: nat, id: nat) {
    exists v :: 0 <= v < |s.workers| && v != w && s.workers[v].Holds(id)
  }

  ghost predicate Enabled(s: State, step: Step) {
    match step
    case Begin(w, q, _) => w < |s.workers| && s.workers[w].Idle? && PlainRequest(q)
    case CheckKey(w) => w < |s.workers| && s.workers[w].Begun?
    case LockRow(w) =>
      && w < |s.workers| && s.workers[w].Checked?
      && var found := FindByPublicId(s.history.tables, s.workers[w].planned.meta.publicId);
         found.Some? ==> !LockTaken(s, w, found.value)
    case UpdateRow(w) => w < |s.workers| && s.workers[w].Locked?
    case InsertRow(w) =>
      && w < |s.workers| && s.workers[w].Prepared?
      && var d := s.workers[w].draft; !ShipmentReserved(s, w, d.id, d.shipment.origin) && !LockTaken(s, w, d.id)
    case RecordEvent(w) =>
      w < |s.workers| && s.workers[w].Written? && !EventReserved(s, w, s.workers[w].Write().event)
    case QueueRow(w) =>
      w < |s.workers| && s.workers[w].Recorded? && !OutboxReserved(s, w, s.workers[w].Write().row)
    case CommitAll(w) => w < |s.workers| && s.workers[w].Queued?
    case Fail(w) => w < |s.workers|
    case Dispatch(outbox) => SameMessages(s.history.tables.outbox, outbox)
  }

  /** What an enabled statement makes of its worker. */
  function WorkerAfter(warehouse: Address, t: Tables, worker: Worker, step: Step): (next: Worker) {
    match step
    case Begin(_, q, f) => BeginWorker(t, q, f)
    case CheckKey(_) => if worker.Begun? then CheckedWorker(warehouse, t, worker) else worker
    case LockRow(_) => if worker.Checked? then LockedWorker(t, worker) else worker
    case UpdateRow(_) => if worker.Locked? then UpdatedWorker(t, worker) else worker
    case InsertRow(_) =>
      if !worker.Prepared? then worker
      else if ShipmentTaken(t.shipments, worker.draft.id, worker.draft.shipment.origin) then Idle
      else Written(worker.request, worker.drawn, worker.draft)
    case RecordEvent(_) =>
      if !worker.Written? then worker
      else if !Recordable(worker.draft.record) || EventTaken(t.events, worker.Write().event) then Idle
      else Recorded(worker.request, worker.drawn, worker.draft)
    case QueueRow(_) =>
      if !worker.Recorded? then worker
      else if OutboxTaken(t.outbox, worker.Write().row) then Idle
      else Queued(worker.request, worker.drawn, worker.draft)
    case _ => Idle
  }

  ghost function Next(warehouse: Address, s: State, step: Step): (s': State) {
    if !Enabled(s, step) then s
    else
      match step
      case Dispatch(outbox) => s.(history := s.history.(tables := s.history.tables.(outbox := outbox)))
      case CommitAll(w) =>
        var write := s.workers[w].Write();
        State(History(Commit(s.history.tables, write), s.history.kinds + [write.kind]), s.workers[w := Idle])
      case _ =>
        s.(workers := s.workers[step.worker := WorkerAfter(warehouse, s.history.tables, s.workers[step.worker], step)])
  }

  function Start(n: nat): (s: State) {
    State(History(EMPTY, []), seq(n, _ => Idle))
  }

  ghost function Interleaved(warehouse: Address, n: nat, steps: seq<Step>): (s: State) {
    if steps == [] then Start(n)
    else Next(warehouse, Interleaved(warehouse, n, steps[..|steps| - 1]), steps[|steps| - 1])
  }

  /** The atomic event behind a step: a call at its commit, or a change of the dispatcher. */
  ghost function EventOf(s: State, step: Step): (e: Option<Event>) {
    if !Enabled(s, step) then None
    else
      match step
      case CommitAll(w) => Some(Call(s.workers[w].request, s.workers[w].drawn))
      case Dispatch(outbox) => Some(Deliver(outbox))
      case _ => None
  }

  /** The calls that committed, in the order of their commits, with the deliveries in between. */
  ghost function Serial(warehouse: Address, n: nat, steps: seq<Step>): (events: seq<Event>) {
    if steps == [] then []
    else
      var earlier := steps[..|steps| - 1];
      match EventOf(Interleaved(warehouse, n, earlier), steps[|steps| - 1])
      case None => Serial(warehouse, n, earlier)
      case Some(e) => Serial(warehouse, n, earlier) + [e]
  }
}
