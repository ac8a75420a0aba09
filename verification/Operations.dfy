/** What each call of the shipment service does to the tables when it runs alone. */
module Operations {
  import opened Text
  import opened Models
  import opened Items
  import opened Store

  datatype Error =
    | InvalidShipment | ShipmentNotFound | InvalidTransition | Forbidden | InvalidEta | InvalidEvent
    | IdempotencyConflict
    | DuplicateKey // a unique index refused a row
    | MissingRow   // a row named by an event is gone

  datatype Outcome =
    | Accept(write: Write)
    | ReplayShipment(id: nat)
    | ReplayEvent(event: EventRow)
    | Reject(error: Error)

  /** The tables after a call: an accepted one commits all its rows, any other leaves no trace. */
  function After(t: Tables, o: Outcome): (t': Tables) {
    if o.Accept? then Commit(t, o.write) else t
  }

  /** The clock reading, random identifiers and auto-increment values that a call draws. */
  datatype Draws = Draws(
    shipmentId: nat, publicToken: seq<Nibble>, shipmentNumber: string, trackingNumber: string,
    eventRowId: nat, eventToken: seq<Nibble>, requestToken: seq<Nibble>, outboxRowId: nat, now: int)

  function PublicId(f: Draws): (s: string) { "shp" + "_" + Hex(f.publicToken) }

  function EventId(f: Draws): (s: string) { "evt" + "_" + Hex(f.eventToken) }

  // ----- validation -----

  predicate GermanPostalCode(s: string) {
    |s| == 5 && forall i :: 0 <= i < 5 ==> '0' <= s[i] <= '9'
  }

  predicate ValidAddress(a: Address) {
    && ValidLength(a.firstName, 100) && ValidLength(a.lastName, 100) && ValidLength(a.street, 160)
    && ValidLength(a.houseNumber, 30) && ValidLength(a.postalCode, 20) && ValidLength(a.city, 120)
    && ByteLen(TrimSpace(a.company)) <= 160 && ByteLen(TrimSpace(a.addressLine2)) <= 160
    && ByteLen(TrimSpace(a.state)) <= 120 && ByteLen(TrimSpace(a.phone)) <= 40
    && var country := ToUpper(TrimSpace(a.countryCode));
    && ByteLen(country) == 2
    && (country == "DE" ==> GermanPostalCode(TrimSpace(a.postalCode)))
  }

  function NormalizeAddress(a: Address): (n: Address) {
    Address(TrimSpace(a.firstName), TrimSpace(a.lastName), TrimSpace(a.company), TrimSpace(a.street),
            TrimSpace(a.houseNumber), TrimSpace(a.addressLine2), TrimSpace(a.postalCode), TrimSpace(a.city),
            TrimSpace(a.state), ToUpper(TrimSpace(a.countryCode)), TrimSpace(a.phone))
  }

  predicate ValidItem(item: ItemInput) {
    && ValidLength(item.productId, 64) && ValidLength(item.name, 255)
    && ByteLen(TrimSpace(item.sku)) <= 100 && item.quantity >= 1
  }

  predicate ValidItems(items: seq<ItemInput>) {
    forall i :: 0 <= i < |items| ==> ValidItem(items[i])
  }

  datatype CreateInput = CreateInput(
    order: string, customer: string, handoverCode: string, recipient: Address, items: seq<ItemInput>,
    carrier: string, serviceLevel: string, eta: Eta)

  datatype ReturnInput = ReturnInput(
    original: string, order: string, customer: string, customerAddress: Address, items: seq<ItemInput>)

  /** The error a creation is refused with before it touches the database, if any. */
  function CreateFault(input: CreateInput, key: string, source: string): (e: Option<Error>) {
    if !ValidLength(input.order, 64) || !ValidLength(input.customer, 64) || !ValidLength(input.handoverCode, 64)
       || !ValidLength(key, 128) || |input.items| == 0 || |input.items| > 500 then Some(InvalidShipment)
    else if !ValidAddress(input.recipient) then Some(InvalidShipment)
    else if !ValidLength(input.carrier, 80) || !ValidLength(input.serviceLevel, 80) then Some(InvalidShipment)
    else if !input.eta.Ordered() then Some(InvalidEta)
    else if !ValidItems(input.items) || !ValidLength(source, 40) then Some(InvalidShipment)
    else None
  }

  function ReturnFault(input: ReturnInput, key: string, source: string): (e: Option<Error>) {
    if !ValidLength(input.original, 64) || !ValidLength(input.order, 64) || !ValidLength(input.customer, 64)
       || !ValidLength(key, 128) || |input.items| == 0 || |input.items| > 500 then Some(InvalidShipment)
    else if !ValidAddress(input.customerAddress) then Some(InvalidShipment)
    else if !ValidItems(input.items) || !ValidLength(source, 40) then Some(InvalidShipment)
    else None
  }

  // ----- events -----

  datatype RecordInput = RecordInput(
    source: string, requestId: string, actorType: string, actorId: string, oldStatus: Option<ShipmentStatus>,
    status: ShipmentStatus, eventType: string, note: Note, stops: Option<int>, eta: Eta, key: string, occurredAt: int)

  const MAX_EVENT_KEY: nat := 128

  predicate Recordable(r: RecordInput) {
    ValidLength(r.source, 80) && ByteLen(TrimSpace(r.key)) <= MAX_EVENT_KEY
  }

  function RequestIdOf(r: RecordInput, f: Draws): (s: string) {
    var given := TrimSpace(r.requestId);
    if given == "" || ByteLen(given) > 80 then "req" + "_" + Hex(f.requestToken) else given
  }

  function EventRowOf(id: nat, r: RecordInput, f: Draws): (e: EventRow) {
    EventRow(f.eventRowId, EventId(f), id, TrimSpace(r.source),
             if TrimSpace(r.key) == "" then EventId(f) else TrimSpace(r.key),
             RequestIdOf(r, f), TrimSpace(r.eventType), r.status, r.note, r.stops, r.eta, r.occurredAt,
             TrimSpace(r.actorType), TrimSpace(r.actorId))
  }

  function AuditRowOf(id: nat, s: Shipment, r: RecordInput, f: Draws): (a: AuditRow) {
    AuditRow(id, TrimSpace(r.actorType), TrimSpace(r.actorId), TrimSpace(r.eventType), s.origin.publicId,
             RequestIdOf(r, f), r.oldStatus, r.status)
  }

  /** The estimate as a payload shows it: left out when neither end is known. */
  function EtaPayload(eta: Eta): (p: Option<Eta>) {
    if eta.Given() then Some(eta) else None
  }

  function PayloadOf(s: Shipment, r: RecordInput, f: Draws): (p: Payload) {
    Payload(EventId(f), TrimSpace(r.eventType), s.origin.publicId, s.origin.order, s.origin.trackingNumber,
            s.origin.isReturn, r.status, if r.stops.Some? then r.stops else s.stops,
            if r.eta.Given() then EtaPayload(r.eta) else EtaPayload(s.eta), r.occurredAt)
  }

  function OutboxRowOf(id: nat, s: Shipment, r: RecordInput, f: Draws): (row: OutboxRow) {
    OutboxRow(f.outboxRowId,
              Message(EventId(f), id, f.eventRowId, RequestIdOf(r, f), TrimSpace(r.eventType), PayloadOf(s, r, f)),
              Pending, 0, f.now, f.now)
  }

  function WriteOf(kind: OpKind, id: nat, s: Shipment, items: seq<ItemRow>, r: RecordInput, f: Draws): (w: Write) {
    Write(kind, id, s, items, EventRowOf(id, r, f), AuditRowOf(id, s, r, f), OutboxRowOf(id, s, r, f))
  }

  /** recordEvent at the end of a transaction that has already written the shipment row and its items. */
  function Record(t: Tables, kind: OpKind, id: nat, s: Shipment, items: seq<ItemRow>, r: RecordInput,
                  f: Draws): (o: Outcome) {
    if !Recordable(r) then Reject(InvalidEvent)
    else
      var w := WriteOf(kind, id, s, items, r, f);
      if EventTaken(t.events, w.event) || OutboxTaken(t.outbox, w.row) then Reject(DuplicateKey) else Accept(w)
  }

  // ----- creations -----

  function OutboundBusinessKey(order: string): (s: string) { "shipment:" + TrimSpace(order) }

  function ReturnBusinessKey(order: string, original: string): (s: string) {
    "return:" + TrimSpace(order) + ":" + TrimSpace(original)
  }

  function OutboundShipment(warehouse: Address, input: CreateInput, key: string, source: string,
                            f: Draws): (s: Shipment) {
    Shipment(
      Origin(PublicId(f), f.shipmentNumber, Some(TrimSpace(input.handoverCode)), f.trackingNumber,
             TrimSpace(input.order), TrimSpace(input.customer), OutboundBusinessKey(input.order), source,
             TrimSpace(key),
             None, false, TrimSpace(input.carrier), TrimSpace(input.serviceLevel),
             warehouse, NormalizeAddress(input.recipient)),
      AwaitingReceipt, input.eta, None, None, 1)
  }

  function ReturnShipment(warehouse: Address, input: ReturnInput, originalId: nat, original: Origin,
                          key: string, source: string, f: Draws): (s: Shipment) {
    Shipment(
      Origin(PublicId(f), f.shipmentNumber, None, f.trackingNumber,
             TrimSpace(input.order), TrimSpace(input.customer), ReturnBusinessKey(input.order, input.original), source,
             TrimSpace(key), Some(originalId), true, original.carrier, original.serviceLevel,
             NormalizeAddress(input.customerAddress), warehouse),
      ReturnAuthorized, NO_ETA, None, None, 1)
  }

  function OutboundRecord(input: CreateInput, key: string, source: string, requestId: string,
                          f: Draws): (r: RecordInput) {
    RecordInput(source, requestId, source, TrimSpace(input.customer), Some(Created), AwaitingReceipt,
                "shipment_handed_over", Generated, None, NO_ETA, key + "/handed-over", f.now)
  }

  function ReturnRecord(input: ReturnInput, key: string, source: string, requestId: string,
                        f: Draws): (r: RecordInput) {
    RecordInput(source, requestId, source, TrimSpace(input.customer), None, ReturnAuthorized,
                "return_authorized", Generated, None, NO_ETA, key + "/created", f.now)
  }

  /** The columns of an outbound row agree with a request. */
  predicate OriginMatchesCreate(o: Origin, input: CreateInput) {
    && !o.isReturn
    && o.order == TrimSpace(input.order) && o.customer == TrimSpace(input.customer)
    && o.handoverCode == Some(TrimSpace(input.handoverCode))
    && o.carrier == TrimSpace(input.carrier) && o.serviceLevel == TrimSpace(input.serviceLevel)
    && o.recipient == NormalizeAddress(input.recipient)
  }

  ghost predicate MatchesCreate(t: Tables, id: nat, input: CreateInput)
    requires id in t.shipments
  {
    && OriginMatchesCreate(t.shipments[id].origin, input)
    && SameLines(StoredLines(ItemsOf(t.items, id)), RequestedLines(input.items))
  }

  predicate OriginMatchesReturn(o: Origin, input: ReturnInput) {
    && o.isReturn && o.original.Some?
    && o.order == TrimSpace(input.order) && o.customer == TrimSpace(input.customer)
    && o.sender == NormalizeAddress(input.customerAddress)
  }

  /** What comparing a stored shipment with a return request yields; the original it names may be gone. */
  datatype Comparison = Same | Different | Broken

  ghost function MatchesReturn(t: Tables, id: nat, input: ReturnInput): (c: Comparison)
    requires id in t.shipments
  {
    var o := t.shipments[id].origin;
    if !OriginMatchesReturn(o, input) || !SameLines(StoredLines(ItemsOf(t.items, id)), RequestedLines(input.items))
      then Different
    else if o.original.value !in t.shipments then Broken
    else if t.shipments[o.original.value].origin.publicId == TrimSpace(input.original) then Same
    else Different
  }

  ghost function CreateReplay(t: Tables, id: nat, input: CreateInput): (o: Outcome)
    requires id in t.shipments
    ensures o == ReplayShipment(id) || o == Reject(IdempotencyConflict)
  {
    if MatchesCreate(t, id, input) then ReplayShipment(id) else Reject(IdempotencyConflict)
  }

  ghost function ReturnReplay(t: Tables, id: nat, input: ReturnInput): (o: Outcome)
    requires id in t.shipments
    ensures o == ReplayShipment(id) || o == Reject(IdempotencyConflict) || o == Reject(MissingRow)
  {
    match MatchesReturn(t, id, input)
    case Same => ReplayShipment(id)
    case Different => Reject(IdempotencyConflict)
    case Broken => Reject(MissingRow)
  }

  /** A creation whose key is unused: insert, and fall back on the row that a unique index points at. */
  ghost function InsertOutbound(t: Tables, warehouse: Address, input: CreateInput, key: string, source: string,
                                requestId: string, f: Draws): (o: Outcome) {
    var s := OutboundShipment(warehouse, input, key, source, f);
    if ShipmentTaken(t.shipments, f.shipmentId, s.origin) then
      match FindByKeyOrBusiness(t, source, key, s.origin.businessKey)
      case Some(id) => CreateReplay(t, id, input)
      case None => Reject(DuplicateKey)
    else
      Record(t, Creation, f.shipmentId, s, ItemRows(f.shipmentId, input.items),
             OutboundRecord(input, key, source, requestId, f), f)
  }

  ghost function InsertReturn(t: Tables, warehouse: Address, input: ReturnInput, originalId: nat, original: Origin,
                              key: string, source: string, requestId: string, f: Draws): (o: Outcome) {
    var s := ReturnShipment(warehouse, input, originalId, original, key, source, f);
    if ShipmentTaken(t.shipments, f.shipmentId, s.origin) then
      match FindByKeyOrBusiness(t, source, key, s.origin.businessKey)
      case Some(id) => ReturnReplay(t, id, input)
      case None => Reject(DuplicateKey)
    else
      Record(t, Creation, f.shipmentId, s, ItemRows(f.shipmentId, input.items),
             ReturnRecord(input, key, source, requestId, f), f)
  }

  /** The transaction of a creation whose input is valid. */
  ghost function CreateTransaction(t: Tables, warehouse: Address, input: CreateInput, key: string, source: string,
                                   requestId: string, f: Draws): (o: Outcome) {
    match FindByKey(t, source, key)
    case Some(id) => CreateReplay(t, id, input)
    case None => InsertOutbound(t, warehouse, input, key, source, requestId, f)
  }

  ghost function ReturnTransaction(t: Tables, warehouse: Address, input: ReturnInput, key: string, source: string,
                                   requestId: string, f: Draws): (o: Outcome) {
    match FindByKey(t, source, key)
    case Some(id) => ReturnReplay(t, id, input)
    case None =>
      match FindByPublicId(t, input.original)
      case None => Reject(ShipmentNotFound)
      case Some(id) => InsertReturn(t, warehouse, input, id, t.shipments[id].origin, key, source, requestId, f)
  }

  ghost function CreateOutcome(t: Tables, warehouse: Address, input: CreateInput, key: string, source: string,
                               requestId: string, f: Draws): (o: Outcome) {
    var fault := CreateFault(input, key, source);
    if fault.Some? then Reject(fault.value) else CreateTransaction(t, warehouse, input, key, source, requestId, f)
  }

  ghost function ReturnOutcome(t: Tables, warehouse: Address, input: ReturnInput, key: string, source: string,
                               requestId: string, f: Draws): (o: Outcome) {
    var fault := ReturnFault(input, key, source);
    if fault.Some? then Reject(fault.value) else ReturnTransaction(t, warehouse, input, key, source, requestId, f)
  }

  // ----- changes of an existing shipment -----

  datatype Meta = Meta(publicId: string, role: Role, actorId: string, key: string, requestId: string, source: string)

  datatype EventInput = EventInput(
    eventType: string, title: string, description: string, locationName: string, city: string, postalCode: string,
    countryCode: string, occurredAt: Option<int>, stops: Option<int>)

  datatype RowCall =
    | TransitionCall(meta: Meta, expected: ShipmentStatus, next: ShipmentStatus)
    | StopsCall(meta: Meta, remaining: int)
    | EtaCall(meta: Meta, eta: Eta)
    | EventCall(meta: Meta, input: EventInput)

  predicate CanManageStatus(role: Role, status: ShipmentStatus) {
    match role
    case RoleAdmin | RoleEmployee | RoleShippingAdmin => true
    case RoleWarehouseEmployee =>
      status == ReceivedByShipping || status == ShipmentPrepared || status == InTransit
      || status == ArrivedDestinationHub
    case RoleSupport => status == DeliveryRescheduled || status == ReturnAuthorized || status == ReturnCompleted
    case RoleDeliveryEmployee => status == OutForDelivery || status == Delivered || status == DeliveryFailed
    case OtherRole(_) => false
  }

  predicate ValidEventInput(input: EventInput) {
    && TrimSpace(input.eventType) != "" && TrimSpace(input.title) != ""
    && (TrimSpace(input.countryCode) != "" ==> ByteLen(TrimSpace(input.countryCode)) == 2)
    && (input.stops.Some? ==> input.stops.value >= 0)
  }

  /** The error a change is refused with before its transaction, if any. */
  function RowFault(call: RowCall): (e: Option<Error>) {
    var role := call.meta.role;
    match call
    case TransitionCall(_, _, next) => if CanManageStatus(role, next) then None else Some(Forbidden)
    case StopsCall(_, remaining) =>
      if role in {RoleDeliveryEmployee, RoleShippingAdmin, RoleAdmin, RoleEmployee} && remaining >= 0 then None
      else Some(Forbidden)
    case EtaCall(_, eta) =>
      if role !in {RoleShippingAdmin, RoleSupport, RoleDeliveryEmployee, RoleAdmin, RoleEmployee} then Some(Forbidden)
      else if !eta.Ordered() then Some(InvalidEta)
      else None
    case EventCall(_, input) =>
      if role.OtherRole? then Some(Forbidden)
      else if !ValidEventInput(input) then Some(InvalidEvent)
      else None
  }

  /** The new row and the event that a call makes of a locked row, or the reason it refuses. */
  datatype Change = Change(kind: OpKind, shipment: Shipment, record: RecordInput) | Refused(error: Error)

  function Moved(s: Shipment, next: ShipmentStatus, now: int): (s': Shipment) {
    if next == Delivered
    then s.(status := next, version := s.version + 1, deliveredAt := Some(now), stops := Some(0))
    else s.(status := next, version := s.version + 1)
  }

  function NoteOf(input: EventInput): (n: Note) {
    Given(TrimSpace(input.title), TrimSpace(input.description), TrimSpace(input.locationName), TrimSpace(input.city),
          TrimSpace(input.postalCode), ToUpper(TrimSpace(input.countryCode)))
  }

  function RecordFor(meta: Meta, oldStatus: Option<ShipmentStatus>, status: ShipmentStatus, eventType: string,
                     note: Note,
                     stops: Option<int>, eta: Eta, occurredAt: int): (r: RecordInput) {
    RecordInput(meta.source, meta.requestId, RoleText(meta.role), TrimSpace(meta.actorId), oldStatus, status, eventType,
                note,
                stops, eta, meta.key, occurredAt)
  }

  function ChangeOf(call: RowCall, s: Shipment, now: int): (c: Change) {
    match call
    case TransitionCall(meta, expected, next) =>
      if s.status != expected || !s.status.CanTransitionTo(next) then Refused(InvalidTransition)
      else Change(Transitioned, Moved(s, next, now),
                  RecordFor(meta, Some(s.status), next, "status_changed", Generated, None, NO_ETA, now))
    case StopsCall(meta, remaining) =>
      if s.status != OutForDelivery then Refused(InvalidTransition)
      else Change(StopsUpdated, s.(stops := Some(remaining), version := s.version + 1),
                  RecordFor(meta, None, s.status, "stops_updated", Generated, Some(remaining), NO_ETA, now))
    case EtaCall(meta, eta) =>
      Change(EtaUpdated, s.(eta := eta, version := s.version + 1),
             RecordFor(meta, None, s.status, "eta_updated", Generated, None, eta, now))
    case EventCall(meta, input) =>
      Change(EventAdded, s,
             RecordFor(meta, None, s.status, TrimSpace(input.eventType), NoteOf(input), input.stops, s.eta,
                       if input.occurredAt.Some? then input.occurredAt.value else now))
  }

  function EventUnderKey(t: Tables, meta: Meta): (r: Option<EventRow>) {
    if meta.key == "" then None else FindEvent(t.events, meta.source, TrimSpace(meta.key))
  }

  function RowReplay(t: Tables, call: RowCall, e: EventRow): (o: Outcome) {
    if call.EventCall? then ReplayEvent(e)
    else if e.shipmentId in t.shipments then ReplayShipment(e.shipmentId)
    else Reject(MissingRow)
  }

  function Changed(t: Tables, id: nat, c: Change, f: Draws): (o: Outcome) {
    match c
    case Refused(e) => Reject(e)
    case Change(kind, s, r) => Record(t, kind, id, s, [], r, f)
  }

  function RowOutcome(t: Tables, call: RowCall, f: Draws): (o: Outcome) {
    if RowFault(call).Some? then Reject(RowFault(call).value)
    else
      match EventUnderKey(t, call.meta)
      case Some(e) => RowReplay(t, call, e)
      case None =>
        match FindByPublicId(t, call.meta.publicId)
        case None => Reject(ShipmentNotFound)
        case Some(id) => Changed(t, id, ChangeOf(call, t.shipments[id], f.now), f)
  }

  // ----- cancellation -----

  function OutboundByPublicId(t: Tables, publicId: string): (r: Option<nat>)
    ensures r.Some? ==> r.value in t.shipments && t.shipments[r.value].origin.publicId == TrimSpace(publicId)
                        && !t.shipments[r.value].origin.isReturn
    ensures r == None ==> forall id :: id in t.shipments && t.shipments[id].origin.publicId == TrimSpace(publicId) ==>
                            t.shipments[id].origin.isReturn
  {
    var ids := set id | id in ByPublicId(t.shipments, TrimSpace(publicId)) && !t.shipments[id].origin.isReturn;
    assert forall id :: id in ByPublicId(t.shipments, TrimSpace(publicId)) && !t.shipments[id].origin.isReturn ==>
             id in ids;
    First(ids)
  }

  /** What the unlocked read of a cancellation leads to. */
  datatype CancelPlan = Done(outcome: Outcome) | Proceed(call: RowCall)

  function PlanCancel(t: Tables, publicId: string, key: string, requestId: string, source: string): (p: CancelPlan) {
    match OutboundByPublicId(t, publicId)
    case None => Done(Reject(ShipmentNotFound))
    case Some(id) =>
      var status := t.shipments[id].status;
      if status == Cancelled || status == ReturnToSenderRequested then Done(ReplayShipment(id))
      else if status == Delivered || status == ReturnToSenderPrepared || status == ReturnToSenderInTransit
              || status == ReturnToSenderReceived then Done(Reject(InvalidTransition))
      else
        Proceed(TransitionCall(Meta(publicId, RoleAdmin, source, key, requestId, source), status,
                               if status == AwaitingReceipt then Cancelled else ReturnToSenderRequested))
  }

  function CancelOutcome(t: Tables, publicId: string, key: string, requestId: string, source: string,
                         f: Draws): (o: Outcome) {
    match PlanCancel(t, publicId, key, requestId, source)
    case Done(o) => o
    case Proceed(call) => RowOutcome(t, call, f)
  }

  // ----- any call -----

  datatype Request =
    | Create(create: CreateInput, key: string, source: string, requestId: string)
    | CreateReturn(returned: ReturnInput, key: string, source: string, requestId: string)
    | Cancel(publicId: string, key: string, requestId: string, source: string)
    | Update(call: RowCall)

  ghost function OutcomeOf(t: Tables, warehouse: Address, q: Request, f: Draws): (o: Outcome) {
    match q
    case Create(input, key, source, requestId) => CreateOutcome(t, warehouse, input, key, source, requestId, f)
    case CreateReturn(input, key, source, requestId) => ReturnOutcome(t, warehouse, input, key, source, requestId, f)
    case Cancel(publicId, key, requestId, source) => CancelOutcome(t, publicId, key, requestId, source, f)
    case Update(call) => RowOutcome(t, call, f)
  }
}
