/** What every accepted call has in common, whatever operation it comes from. */
module Writes {
  import opened Text
  import opened Models
  import opened Items
  import opened Store
  import opened Operations

  function StartStatus(isReturn: bool): (s: ShipmentStatus) {
    if isReturn then ReturnAuthorized else AwaitingReceipt
  }

  /** The three records of a write describe the shipment row that it leaves behind. */
  ghost predicate Consistent(w: Write) {
    var m := w.row.message;
    && w.event.shipmentId == w.audit.shipmentId == m.shipmentId == w.id
    && w.event.status == w.audit.newStatus == m.payload.status == w.shipment.status
    && m.eventId == m.payload.eventId == w.event.eventId && m.shipmentEventId == w.event.id
    && m.requestId == w.event.requestId == w.audit.requestId
    && m.payload.shipmentId == w.audit.entityId == w.shipment.origin.publicId
    && m.payload.eta == EtaPayload(w.shipment.eta)
    && w.row.status == Pending && w.row.attempts == 0
  }

  /** The callback tells what the shipment row and the event say, column by column. */
  ghost predicate Tells(p: Payload, s: Shipment, e: EventRow) {
    && p.shipmentId == s.origin.publicId && p.order == s.origin.order && p.trackingNumber == s.origin.trackingNumber
    && p.isReturn == s.origin.isReturn
    && p.eventId == e.eventId && p.eventType == e.eventType && p.status == e.status && p.occurredAt == e.occurredAt
    && p.stops == if e.stops.Some? then e.stops else s.stops
  }

  /** The audit row names the same actor and action. */
  ghost predicate Attested(a: AuditRow, e: EventRow) {
    a.actorType == e.createdByType && a.actorId == e.createdById && a.action == e.eventType
  }

  /** What an event tells of the change behind it: the status left behind, and the stops and estimate that were set. */
  ghost predicate Recounts(kind: OpKind, before: Option<Shipment>, w: Write) {
    match kind
    case Creation =>
      w.event.stops == None && w.event.eta == NO_ETA
      && w.audit.oldStatus == if w.shipment.origin.isReturn then None else Some(Created)
    case Transitioned =>
      && w.event.stops == None && w.event.eta == NO_ETA
      && before.Some? && w.audit.oldStatus == Some(before.value.status)
      && (w.shipment.status == Delivered ==> w.shipment.deliveredAt == Some(w.event.occurredAt))
    case StopsUpdated =>
      w.event.stops == w.shipment.stops && w.event.eta == NO_ETA && w.audit.oldStatus == None
    case EtaUpdated => w.event.stops == None && w.event.eta == w.shipment.eta && w.audit.oldStatus == None
    case EventAdded => w.event.eta == w.shipment.eta && w.audit.oldStatus == None
  }

  /** The records say what happened. */
  ghost predicate Truthful(t: Tables, w: Write) {
    && Tells(w.row.message.payload, w.shipment, w.event) && w.row.message.eventType == w.event.eventType
    && Attested(w.audit, w.event)
    && Recounts(w.kind, if w.id in t.shipments then Some(t.shipments[w.id]) else None, w)
  }

  ghost predicate NewRows(t: Tables, w: Write) {
    !EventTaken(t.events, w.event) && !OutboxTaken(t.outbox, w.row)
  }

  /** The business key of a row spells its order, and for a return the public id of a stored original. */
  ghost predicate WellKeyed(shipments: map<nat, Shipment>, o: Origin) {
    && Trimmed(o.order) && o.order != ""
    && if o.isReturn then
         && o.handoverCode == None && o.original.Some? && o.original.value in shipments
         && o.businessKey == "return:" + o.order + ":" + shipments[o.original.value].origin.publicId
       else
         && o.handoverCode.Some? && o.original == None
         && o.businessKey == "shipment:" + o.order
  }

  /** A creation: a row under unused keys, at the start of its lane, with its items. */
  ghost predicate Born(t: Tables, w: Write) {
    && !ShipmentTaken(t.shipments, w.id, w.shipment.origin)
    && w.shipment.status == StartStatus(w.shipment.origin.isReturn)
    && w.shipment.version == 1 && w.shipment.deliveredAt == None && w.shipment.stops == None
    && w.shipment.eta.Ordered()
    && (forall i :: 0 <= i < |w.items| ==> w.items[i].shipmentId == w.id)
    && ColonFree(w.shipment.origin.publicId) && Trimmed(w.shipment.origin.publicId)
    && WellKeyed(t.shipments, w.shipment.origin)
  }

  /** How one change may alter a shipment row. */
  ghost predicate Step(kind: OpKind, s: Shipment, s': Shipment) {
    && s'.origin == s.origin
    && match kind
       case Creation => false
       case Transitioned =>
         && s.status.CanTransitionTo(s'.status) && s'.version == s.version + 1 && s'.eta == s.eta
         && (if s'.status == Delivered then s'.deliveredAt.Some? && s'.stops == Some(0)
             else s'.deliveredAt == s.deliveredAt && s'.stops == s.stops)
       case StopsUpdated =>
         s.status == OutForDelivery && s'.stops.Some? && s'.stops.value >= 0
         && s' == s.(stops := s'.stops, version := s.version + 1)
       case EtaUpdated => s'.eta.Ordered() && s' == s.(eta := s'.eta, version := s.version + 1)
       case EventAdded => s' == s
  }

  ghost predicate Grown(t: Tables, w: Write) {
    w.id in t.shipments && w.items == [] && Step(w.kind, t.shipments[w.id], w.shipment)
  }

  ghost predicate Lawful(t: Tables, w: Write) {
    Consistent(w) && NewRows(t, w) && Truthful(t, w) && if w.kind == Creation then Born(t, w) else Grown(t, w)
  }

  lemma RecordIsLawful(t: Tables, kind: OpKind, id: nat, s: Shipment, items: seq<ItemRow>, r: RecordInput, f: Draws)
    requires Record(t, kind, id, s, items, r, f).Accept?
    requires r.status == s.status
    requires r.eta.Given() ==> r.eta == s.eta
    ensures var w := Record(t, kind, id, s, items, r, f).write;
            w == WriteOf(kind, id, s, items, r, f) && Consistent(w) && NewRows(t, w)
  {
  }

  /** What the input of a record has to say for its event to be true. */
  ghost predicate Reports(kind: OpKind, before: Option<Shipment>, s: Shipment, r: RecordInput) {
    match kind
    case Creation =>
      r.stops == None && r.eta == NO_ETA && r.oldStatus == if s.origin.isReturn then None else Some(Created)
    case Transitioned =>
      && r.stops == None && r.eta == NO_ETA && before.Some? && r.oldStatus == Some(before.value.status)
      && (s.status == Delivered ==> s.deliveredAt == Some(r.occurredAt))
    case StopsUpdated => r.stops == s.stops && r.eta == NO_ETA && r.oldStatus == None
    case EtaUpdated => r.stops == None && r.eta == s.eta && r.oldStatus == None
    case EventAdded => r.eta == s.eta && r.oldStatus == None
  }

  lemma RecordIsTruthful(t: Tables, kind: OpKind, id: nat, s: Shipment, items: seq<ItemRow>, r: RecordInput, f: Draws)
    requires Reports(kind, if id in t.shipments then Some(t.shipments[id]) else None, s, r)
    ensures Truthful(t, WriteOf(kind, id, s, items, r, f))
  {
  }

  lemma ChangeReports(call: RowCall, s: Shipment, now: int)
    requires ChangeOf(call, s, now).Change?
    ensures var c := ChangeOf(call, s, now); Reports(c.kind, Some(s), c.shipment, c.record)
  {
  }

  lemma ChangeIsStep(call: RowCall, s: Shipment, now: int)
    requires RowFault(call) == None && ChangeOf(call, s, now).Change?
    ensures var c := ChangeOf(call, s, now);
            && c.kind != Creation && Step(c.kind, s, c.shipment)
            && c.record.status == c.shipment.status && (c.record.eta.Given() ==> c.record.eta == c.shipment.eta)
  {
  }

  lemma RowAcceptIsLawful(t: Tables, call: RowCall, f: Draws)
    requires RowOutcome(t, call, f).Accept?
    ensures var w := RowOutcome(t, call, f).write;
            Lawful(t, w) && w.kind != Creation && FindByPublicId(t, call.meta.publicId) == Some(w.id)
  {
    var id := FindByPublicId(t, call.meta.publicId).value;
    var c := ChangeOf(call, t.shipments[id], f.now);
    ChangeIsStep(call, t.shipments[id], f.now);
    RecordIsLawful(t, c.kind, id, c.shipment, [], c.record, f);
    ChangeReports(call, t.shipments[id], f.now);
    RecordIsTruthful(t, c.kind, id, c.shipment, [], c.record, f);
  }

  lemma BirthIsLawful(t: Tables, id: nat, s: Shipment, items: seq<ItemInput>, r: RecordInput, f: Draws)
    requires !ShipmentTaken(t.shipments, id, s.origin)
    requires Record(t, Creation, id, s, ItemRows(id, items), r, f).Accept?
    requires s.status == r.status == StartStatus(s.origin.isReturn)
    requires s.version == 1 && s.deliveredAt == None && s.stops == None && s.eta.Ordered() && r.eta == NO_ETA
    requires s.origin.publicId == PublicId(f) && WellKeyed(t.shipments, s.origin)
    requires r.stops == None && r.oldStatus == if s.origin.isReturn then None else Some(Created)
    ensures Lawful(t, Record(t, Creation, id, s, ItemRows(id, items), r, f).write)
  {
    RecordIsLawful(t, Creation, id, s, ItemRows(id, items), r, f);
    RecordIsTruthful(t, Creation, id, s, ItemRows(id, items), r, f);
    IdentifierIsColonFree("shp", f.publicToken);
  }

  /** An accepted insertion of an outbound shipment is a birth. */
  lemma InsertOutboundIsLawful(t: Tables, warehouse: Address, input: CreateInput, key: string, source: string,
                               requestId: string, f: Draws)
    requires InsertOutbound(t, warehouse, input, key, source, requestId, f).Accept?
    requires input.eta.Ordered() && ValidLength(input.order, 64)
    ensures var o := InsertOutbound(t, warehouse, input, key, source, requestId, f);
            && Lawful(t, o.write)
            && o == Record(t, Creation, f.shipmentId, OutboundShipment(warehouse, input, key, source, f),
                           ItemRows(f.shipmentId, input.items), OutboundRecord(input, key, source, requestId, f), f)
  {
    TrimSpaceIsIdempotent(input.order);
    BirthIsLawful(t, f.shipmentId, OutboundShipment(warehouse, input, key, source, f), input.items,
                  OutboundRecord(input, key, source, requestId, f), f);
  }

  lemma InsertReturnIsLawful(t: Tables, warehouse: Address, input: ReturnInput, id: nat, original: Origin,
                             key: string, source: string, requestId: string, f: Draws)
    requires InsertReturn(t, warehouse, input, id, original, key, source, requestId, f).Accept?
    requires ValidLength(input.order, 64)
    requires id in t.shipments && t.shipments[id].origin == original && original.publicId == TrimSpace(input.original)
    ensures var o := InsertReturn(t, warehouse, input, id, original, key, source, requestId, f);
            && Lawful(t, o.write)
            && o == Record(t, Creation, f.shipmentId, ReturnShipment(warehouse, input, id, original, key, source, f),
                           ItemRows(f.shipmentId, input.items), ReturnRecord(input, key, source, requestId, f), f)
  {
    TrimSpaceIsIdempotent(input.order);
    BirthIsLawful(t, f.shipmentId, ReturnShipment(warehouse, input, id, original, key, source, f), input.items,
                  ReturnRecord(input, key, source, requestId, f), f);
  }

  lemma CreateFaultSees(input: CreateInput, key: string, source: string)
    requires CreateFault(input, key, source) == None
    ensures input.eta.Ordered() && ValidLength(input.order, 64)
  {
  }

  lemma CreateAcceptIsLawful(t: Tables, warehouse: Address, input: CreateInput, key: string, source: string,
                             requestId: string, f: Draws)
    requires CreateTransaction(t, warehouse, input, key, source, requestId, f).Accept?
    requires input.eta.Ordered() && ValidLength(input.order, 64)
    ensures var o := CreateTransaction(t, warehouse, input, key, source, requestId, f);
            Lawful(t, o.write) && o == InsertOutbound(t, warehouse, input, key, source, requestId, f)
  {
    InsertOutboundIsLawful(t, warehouse, input, key, source, requestId, f);
  }

  lemma ReturnFaultSees(input: ReturnInput, key: string, source: string)
    requires ReturnFault(input, key, source) == None
    ensures ValidLength(input.order, 64) && ValidLength(input.original, 64)
  {
  }

  lemma ReturnAcceptIsLawful(t: Tables, warehouse: Address, input: ReturnInput, key: string, source: string,
                             requestId: string, f: Draws)
    requires ReturnTransaction(t, warehouse, input, key, source, requestId, f).Accept?
    requires ValidLength(input.order, 64)
    ensures var o := ReturnTransaction(t, warehouse, input, key, source, requestId, f);
            && Lawful(t, o.write) && FindByPublicId(t, input.original).Some?
            && var id := FindByPublicId(t, input.original).value;
               o == InsertReturn(t, warehouse, input, id, t.shipments[id].origin, key, source, requestId, f)
  {
    var id := FindByPublicId(t, input.original).value;
    InsertReturnIsLawful(t, warehouse, input, id, t.shipments[id].origin, key, source, requestId, f);
  }

  // ----- the write of an accepted creation -----

  lemma RecordWrites(t: Tables, kind: OpKind, id: nat, s: Shipment, items: seq<ItemRow>, r: RecordInput, f: Draws)
    requires Record(t, kind, id, s, items, r, f).Accept?
    ensures Record(t, kind, id, s, items, r, f).write == WriteOf(kind, id, s, items, r, f) && Recordable(r)
  {
  }

  lemma OutboundIsRecorded(t: Tables, warehouse: Address, input: CreateInput, key: string, source: string,
                           requestId: string, f: Draws)
    requires InsertOutbound(t, warehouse, input, key, source, requestId, f).Accept?
    ensures var s := OutboundShipment(warehouse, input, key, source, f);
            && !ShipmentTaken(t.shipments, f.shipmentId, s.origin)
            && InsertOutbound(t, warehouse, input, key, source, requestId, f)
               == Record(t, Creation, f.shipmentId, s, ItemRows(f.shipmentId, input.items),
                         OutboundRecord(input, key, source, requestId, f), f)
  {
  }

  lemma ReturnIsRecorded(t: Tables, warehouse: Address, input: ReturnInput, id: nat, original: Origin, key: string,
                         source: string, requestId: string, f: Draws)
    requires InsertReturn(t, warehouse, input, id, original, key, source, requestId, f).Accept?
    ensures var s := ReturnShipment(warehouse, input, id, original, key, source, f);
            && !ShipmentTaken(t.shipments, f.shipmentId, s.origin)
            && InsertReturn(t, warehouse, input, id, original, key, source, requestId, f)
               == Record(t, Creation, f.shipmentId, s, ItemRows(f.shipmentId, input.items),
                         ReturnRecord(input, key, source, requestId, f), f)
  {
  }

  lemma CreateIsInserted(t: Tables, warehouse: Address, input: CreateInput, key: string, source: string,
                         requestId: string, f: Draws)
    requires CreateOutcome(t, warehouse, input, key, source, requestId, f).Accept?
    ensures CreateFault(input, key, source) == None && FindByKey(t, source, key) == None
    ensures CreateOutcome(t, warehouse, input, key, source, requestId, f)
            == InsertOutbound(t, warehouse, input, key, source, requestId, f)
  {
    assert CreateTransaction(t, warehouse, input, key, source, requestId, f).Accept?;
  }

  lemma ReturnIsInserted(t: Tables, warehouse: Address, input: ReturnInput, key: string, source: string,
                         requestId: string, f: Draws) returns (id: nat)
    requires ReturnOutcome(t, warehouse, input, key, source, requestId, f).Accept?
    ensures ReturnFault(input, key, source) == None && FindByKey(t, source, key) == None
    ensures FindByPublicId(t, input.original) == Some(id) && id in t.shipments
    ensures ReturnOutcome(t, warehouse, input, key, source, requestId, f)
            == InsertReturn(t, warehouse, input, id, t.shipments[id].origin, key, source, requestId, f)
  {
    assert ReturnTransaction(t, warehouse, input, key, source, requestId, f).Accept?;
    id := FindByPublicId(t, input.original).value;
  }

  /** Every accepted call, of any operation, is a lawful write. */
  lemma AcceptIsLawful(t: Tables, warehouse: Address, q: Request, f: Draws)
    requires OutcomeOf(t, warehouse, q, f).Accept?
    ensures Lawful(t, OutcomeOf(t, warehouse, q, f).write)
  {
    match q
    case Create(input, key, source, requestId) =>
      CreateFaultSees(input, key, source);
      CreateAcceptIsLawful(t, warehouse, input, key, source, requestId, f);
    case CreateReturn(input, key, source, requestId) =>
      ReturnFaultSees(input, key, source);
      ReturnAcceptIsLawful(t, warehouse, input, key, source, requestId, f);
    case Cancel(publicId, key, requestId, source) =>
      RowAcceptIsLawful(t, PlanCancel(t, publicId, key, requestId, source).call, f);
    case Update(call) => RowAcceptIsLawful(t, call, f);
  }
}
