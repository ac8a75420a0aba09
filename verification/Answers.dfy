/**
 * What a caller of the service is promised: which rows an answer stands for, column by column, and that every other
 * answer leaves the tables alone. Said of the request, the tables before and after, and the reply only.
 */
module Answers {
  import opened Text
  import opened Models
  import opened Items
  import opened Store
  import opened Operations
  import opened Writes
  import opened Columns

  /** What a caller gets back: a shipment or an event, whether it is a replay, or an error. */
  datatype Reply = ShipmentReply(id: nat, replayed: bool) | EventReply(event: EventRow) | Failure(error: Error)

  /** The reply that goes with an outcome. */
  function ReplyOf(o: Outcome): (r: Reply) {
    match o
    case Accept(w) => if w.kind == EventAdded then EventReply(w.event) else ShipmentReply(w.id, false)
    case ReplayShipment(id) => ShipmentReply(id, true)
    case ReplayEvent(e) => EventReply(e)
    case Reject(e) => Failure(e)
  }

  // ----- the records of one change -----

  /** On whose behalf an event is recorded. */
  datatype Author = Author(source: string, key: string, requestId: string, actorType: string, actorId: string)

  function AuthorOf(r: RecordInput): (who: Author) {
    Author(r.source, r.key, r.requestId, r.actorType, r.actorId)
  }

  ghost predicate Signed(e: EventRow, who: Author, f: Draws) {
    var given := TrimSpace(who.requestId);
    && e.id == f.eventRowId && e.eventId == "evt_" + Hex(f.eventToken)
    && e.source == TrimSpace(who.source)
    && e.key == (if TrimSpace(who.key) == "" then e.eventId else TrimSpace(who.key))
    && (if given != "" && ByteLen(given) <= 80 then e.requestId == given
        else e.requestId == "req_" + Hex(f.requestToken))
    && e.createdByType == TrimSpace(who.actorType) && e.createdById == TrimSpace(who.actorId)
  }

  /** A new outbox row is due at once. */
  ghost predicate Enqueued(row: OutboxRow, s: Shipment, e: EventRow, f: Draws) {
    && row.id == f.outboxRowId && row.status == Pending && row.attempts == 0 && row.nextAttemptAt == f.now
    && row.message.shipmentId == e.shipmentId && row.message.eventId == e.eventId
    && row.message.shipmentEventId == e.id && row.message.requestId == e.requestId
    && row.message.eventType == e.eventType
    && Tells(row.message.payload, s, e)
    && row.message.payload.eta == if e.eta.Given() then Some(e.eta) else if s.eta.Given() then Some(s.eta) else None
  }

  ghost predicate Audited(a: AuditRow, s: Shipment, e: EventRow) {
    && a.shipmentId == e.shipmentId && a.entityId == s.origin.publicId && a.newStatus == e.status == s.status
    && a.requestId == e.requestId && Attested(a, e)
  }

  /** One event, one audit row and one outbox row have been added, and they are about this shipment. */
  ghost predicate Logged(t: Tables, t': Tables, id: nat, who: Author, f: Draws) {
    && id in t'.shipments
    && |t'.events| == |t.events| + 1 && |t'.audits| == |t.audits| + 1 && |t'.outbox| == |t.outbox| + 1
    && t.events <= t'.events && t.audits <= t'.audits && t.outbox <= t'.outbox
    && var e := t'.events[|t.events|];
       && e.shipmentId == id && Signed(e, who, f)
       && Audited(t'.audits[|t.audits|], t'.shipments[id], e)
       && Enqueued(t'.outbox[|t.outbox|], t'.shipments[id], e, f)
  }

  lemma EventIdIs(f: Draws)
    ensures EventId(f) == "evt_" + Hex(f.eventToken)
  {
    assert "evt" + "_" == "evt_";
  }

  lemma RequestIdIs(r: RecordInput, f: Draws)
    ensures var given := TrimSpace(r.requestId);
            RequestIdOf(r, f) == if given != "" && ByteLen(given) <= 80 then given else "req_" + Hex(f.requestToken)
  {
    assert "req" + "_" == "req_";
  }

  lemma EventIsSigned(id: nat, r: RecordInput, f: Draws)
    ensures Signed(EventRowOf(id, r, f), AuthorOf(r), f)
  {
    EventIdIs(f);
    RequestIdIs(r, f);
  }

  lemma RowIsEnqueued(id: nat, s: Shipment, r: RecordInput, f: Draws)
    requires r.status == s.status
    ensures Enqueued(OutboxRowOf(id, s, r, f), s, EventRowOf(id, r, f), f)
    ensures Audited(AuditRowOf(id, s, r, f), s, EventRowOf(id, r, f))
  {
  }

  lemma WriteIsLogged(t: Tables, kind: OpKind, id: nat, s: Shipment, items: seq<ItemRow>, r: RecordInput, f: Draws)
    requires r.status == s.status
    ensures Logged(t, Commit(t, WriteOf(kind, id, s, items, r, f)), id, AuthorOf(r), f)
  {
    EventIsSigned(id, r, f);
    RowIsEnqueued(id, s, r, f);
  }

  /** Why records cannot be inserted: a unique column of the event or of the outbox row is taken. */
  ghost predicate RecordTaken(t: Tables, source: string, key: string, f: Draws) {
    var eventKey := if TrimSpace(key) == "" then "evt_" + Hex(f.eventToken) else TrimSpace(key);
    || (exists i :: 0 <= i < |t.events|
                    && (t.events[i].id == f.eventRowId || t.events[i].eventId == "evt_" + Hex(f.eventToken)
                        || (t.events[i].source == TrimSpace(source) && t.events[i].key == eventKey)))
    || exists i :: 0 <= i < |t.outbox|
                   && (t.outbox[i].id == f.outboxRowId || t.outbox[i].message.eventId == "evt_" + Hex(f.eventToken)
                       || t.outbox[i].message.shipmentEventId == f.eventRowId)
  }

  lemma RecordRefusal(t: Tables, kind: OpKind, id: nat, s: Shipment, items: seq<ItemRow>, r: RecordInput, f: Draws)
    ensures var o := Record(t, kind, id, s, items, r, f);
            && (o.Accept? || o == Reject(InvalidEvent) || o == Reject(DuplicateKey))
            && (o == Reject(InvalidEvent) <==> !(Fills(TrimSpace(r.source), 80) && ByteLen(TrimSpace(r.key)) <= 128))
            && (o == Reject(DuplicateKey) ==> RecordTaken(t, r.source, r.key, f))
  {
    EventIdIs(f);
    if Recordable(r) {
      var w := WriteOf(kind, id, s, items, r, f);
      if i :| 0 <= i < |t.events| && SameEventColumn(t.events[i], w.event) {
      } else if i :| 0 <= i < |t.outbox| && SameOutboxColumn(t.outbox[i], w.row) {
      }
    }
  }

  // ----- changes of a shipment -----

  /** An event under the key of a call. */
  ghost predicate HoldsKey(t: Tables, meta: Meta, e: EventRow) {
    meta.key != "" && e in t.events && e.source == meta.source && e.key == TrimSpace(meta.key)
  }

  /** What an event says besides whose it is. */
  predicate Says(e: EventRow, eventType: string, note: Note, stops: Option<int>, eta: Eta, occurredAt: int) {
    e.eventType == eventType && e.note == note && e.stops == stops && e.eta == eta && e.occurredAt == occurredAt
  }

  /** What a call makes of a row, and what it tells of it. */
  ghost predicate Made(call: RowCall, s: Shipment, s': Shipment, e: EventRow, a: AuditRow, now: int) {
    match call
    case TransitionCall(_, expected, next) =>
      && s.status == expected && expected.CanTransitionTo(next) && s'.status == next
      && s'.version == s.version + 1 && s'.origin == s.origin && s'.eta == s.eta
      && (if next == Delivered then s'.deliveredAt == Some(now) && s'.stops == Some(0)
          else s'.deliveredAt == s.deliveredAt && s'.stops == s.stops)
      && Says(e, "status_changed", Generated, None, NO_ETA, now) && a.oldStatus == Some(expected)
    case StopsCall(_, remaining) =>
      && s.status == OutForDelivery && s' == s.(stops := Some(remaining), version := s.version + 1)
      && Says(e, "stops_updated", Generated, Some(remaining), NO_ETA, now) && a.oldStatus == None
    case EtaCall(_, eta) =>
      && s' == s.(eta := eta, version := s.version + 1)
      && Says(e, "eta_updated", Generated, None, eta, now) && a.oldStatus == None
    case EventCall(_, input) =>
      && s' == s && a.oldStatus == None
      && Says(e, TrimSpace(input.eventType),
              Given(TrimSpace(input.title), TrimSpace(input.description), TrimSpace(input.locationName),
                    TrimSpace(input.city), TrimSpace(input.postalCode), ToUpper(TrimSpace(input.countryCode))),
              input.stops, s.eta, if input.occurredAt.Some? then input.occurredAt.value else now)
  }

  /** A call was carried out: the named row, its records, and nothing else. */
  ghost predicate CarriedOut(t: Tables, t': Tables, call: RowCall, id: nat, f: Draws) {
    && RowFault(call) == None && (forall e :: !HoldsKey(t, call.meta, e))
    && id in t.shipments && t.shipments[id].origin.publicId == TrimSpace(call.meta.publicId)
    && id in t'.shipments && t'.shipments == t.shipments[id := t'.shipments[id]] && t'.items == t.items
    && Logged(t, t', id, Author(call.meta.source, call.meta.key, call.meta.requestId, RoleText(call.meta.role),
                                call.meta.actorId), f)
    && Made(call, t.shipments[id], t'.shipments[id], t'.events[|t.events|], t'.audits[|t.audits|], f.now)
  }

  /** Why a change may be refused. */
  ghost predicate RefusedFor(t: Tables, call: RowCall, error: Error, f: Draws) {
    match error
    case Forbidden => RowFault(call) == Some(Forbidden)
    case InvalidEta => call.EtaCall? && !call.eta.Ordered()
    case ShipmentNotFound =>
      forall id :: id in t.shipments ==> t.shipments[id].origin.publicId != TrimSpace(call.meta.publicId)
    case InvalidTransition =>
      exists id :: id in t.shipments && t.shipments[id].origin.publicId == TrimSpace(call.meta.publicId)
                   && ((call.TransitionCall?
                        && !(t.shipments[id].status == call.expected && call.expected.CanTransitionTo(call.next)))
                       || (call.StopsCall? && t.shipments[id].status != OutForDelivery))
    case InvalidEvent =>
      || !(Fills(TrimSpace(call.meta.source), 80) && ByteLen(TrimSpace(call.meta.key)) <= 128)
      || (call.EventCall? && !Sensible(call.input))
    case DuplicateKey => RecordTaken(t, call.meta.source, call.meta.key, f)
    case MissingRow => exists e :: HoldsKey(t, call.meta, e) && e.shipmentId !in t.shipments
    case _ => false
  }

  /** An event has a type and a title, a country of two bytes or none, and no negative stops. */
  predicate Sensible(input: EventInput) {
    && TrimSpace(input.eventType) != "" && TrimSpace(input.title) != ""
    && ByteLen(TrimSpace(input.countryCode)) in {0, 2} && (input.stops.Some? ==> input.stops.value >= 0)
  }

  /**
   * The promise of a change: an unreplayed answer names the row that was changed as asked, or is the event that was
   * recorded; a replay names the shipment of the event under the key, or is that event; any other answer is an error
   * with its reason.
   */
  ghost predicate ChangePromise(t: Tables, t': Tables, call: RowCall, f: Draws, reply: Reply) {
    match reply
    case ShipmentReply(id, replayed) =>
      !call.EventCall?
      && if replayed then
           t' == t && id in t.shipments && exists e :: HoldsKey(t, call.meta, e) && e.shipmentId == id
         else CarriedOut(t, t', call, id, f)
    case EventReply(e) =>
      && call.EventCall?
      && if t' == t then HoldsKey(t, call.meta, e)
         else CarriedOut(t, t', call, e.shipmentId, f) && e == t'.events[|t.events|] && Sensible(call.input)
    case Failure(error) => t' == t && RefusedFor(t, call, error, f)
  }

  lemma EmptyIffNoBytes(s: string)
    ensures ByteLen(s) == 0 <==> s == ""
  {
  }

  lemma SensibleIffValid(input: EventInput)
    ensures ValidEventInput(input) <==> Sensible(input)
  {
    EmptyIffNoBytes(TrimSpace(input.countryCode));
  }

  lemma FaultIsReason(t: Tables, call: RowCall, f: Draws)
    requires RowFault(call).Some?
    ensures RefusedFor(t, call, RowFault(call).value, f)
  {
    if call.EventCall? {
      SensibleIffValid(call.input);
    }
  }

  lemma KeyIsHeld(t: Tables, meta: Meta)
    ensures EventUnderKey(t, meta).Some? ==> HoldsKey(t, meta, EventUnderKey(t, meta).value)
    ensures EventUnderKey(t, meta) == None ==> forall e :: !HoldsKey(t, meta, e)
  {
    if EventUnderKey(t, meta) == None {
      forall e | e in t.events && meta.key != "" ensures !(e.source == meta.source && e.key == TrimSpace(meta.key)) {
        var i :| 0 <= i < |t.events| && t.events[i] == e;
      }
    }
  }

  lemma NotNamed(t: Tables, publicId: string)
    requires FindByPublicId(t, publicId) == None
    ensures forall id :: id in t.shipments ==> t.shipments[id].origin.publicId != TrimSpace(publicId)
  {
    assert ByPublicId(t.shipments, TrimSpace(publicId)) == {};
    forall id | id in t.shipments ensures t.shipments[id].origin.publicId != TrimSpace(publicId) {
      assert id !in ByPublicId(t.shipments, TrimSpace(publicId));
    }
  }

  lemma RefusalIsReason(t: Tables, call: RowCall, f: Draws, id: nat)
    requires id in t.shipments && t.shipments[id].origin.publicId == TrimSpace(call.meta.publicId)
    requires ChangeOf(call, t.shipments[id], f.now).Refused?
    ensures RefusedFor(t, call, ChangeOf(call, t.shipments[id], f.now).error, f)
  {
  }

  /** The record of a change is under the caller's source and key, in the caller's name. */
  lemma ChangeIsSigned(call: RowCall, s: Shipment, f: Draws)
    requires ChangeOf(call, s, f.now).Change?
    ensures var c := ChangeOf(call, s, f.now);
            && AuthorOf(c.record)
               == Author(call.meta.source, call.meta.key, call.meta.requestId, RoleText(call.meta.role),
                                            TrimSpace(call.meta.actorId))
            && c.record.status == c.shipment.status && c.kind != Creation && (c.kind == EventAdded <==> call.EventCall?)
  {
  }

  lemma EventSays(id: nat, r: RecordInput, f: Draws)
    ensures Says(EventRowOf(id, r, f), TrimSpace(r.eventType), r.note, r.stops, r.eta, r.occurredAt)
    ensures forall s :: AuditRowOf(id, s, r, f).oldStatus == r.oldStatus
  {
  }

  /** An event and an audit row that say what the input of a record says. */
  ghost predicate SaysRecord(e: EventRow, a: AuditRow, r: RecordInput) {
    Says(e, TrimSpace(r.eventType), r.note, r.stops, r.eta, r.occurredAt) && a.oldStatus == r.oldStatus
  }

  lemma TransitionIsMade(call: RowCall, s: Shipment, e: EventRow, a: AuditRow, now: int)
    requires call.TransitionCall? && ChangeOf(call, s, now).Change? && SaysRecord(e, a, ChangeOf(call, s, now).record)
    ensures Made(call, s, ChangeOf(call, s, now).shipment, e, a, now)
  {
    TrimSpaceIsIdempotent("status_changed");
  }

  lemma StopsAreMade(call: RowCall, s: Shipment, e: EventRow, a: AuditRow, now: int)
    requires call.StopsCall? && ChangeOf(call, s, now).Change? && SaysRecord(e, a, ChangeOf(call, s, now).record)
    ensures Made(call, s, ChangeOf(call, s, now).shipment, e, a, now)
  {
    TrimSpaceIsIdempotent("stops_updated");
  }

  lemma EtaIsMade(call: RowCall, s: Shipment, e: EventRow, a: AuditRow, now: int)
    requires call.EtaCall? && ChangeOf(call, s, now).Change? && SaysRecord(e, a, ChangeOf(call, s, now).record)
    ensures Made(call, s, ChangeOf(call, s, now).shipment, e, a, now)
  {
    TrimSpaceIsIdempotent("eta_updated");
  }

  lemma EventIsMade(call: RowCall, s: Shipment, e: EventRow, a: AuditRow, now: int)
    requires call.EventCall? && ChangeOf(call, s, now).Change? && SaysRecord(e, a, ChangeOf(call, s, now).record)
    ensures Made(call, s, ChangeOf(call, s, now).shipment, e, a, now)
  {
    TrimSpaceIsIdempotent(call.input.eventType);
  }

  lemma ChangeIsMade(call: RowCall, id: nat, s: Shipment, f: Draws)
    requires ChangeOf(call, s, f.now).Change?
    ensures var c := ChangeOf(call, s, f.now);
            Made(call, s, c.shipment, EventRowOf(id, c.record, f), AuditRowOf(id, c.shipment, c.record, f), f.now)
  {
    var c := ChangeOf(call, s, f.now);
    EventSays(id, c.record, f);
    var e, a := EventRowOf(id, c.record, f), AuditRowOf(id, c.shipment, c.record, f);
    match call
    case TransitionCall(_, _, _) => TransitionIsMade(call, s, e, a, f.now);
    case StopsCall(_, _) => StopsAreMade(call, s, e, a, f.now);
    case EtaCall(_, _) => EtaIsMade(call, s, e, a, f.now);
    case EventCall(_, _) => EventIsMade(call, s, e, a, f.now);
  }

  lemma SignedByTrimmed(e: EventRow, who: Author, f: Draws, actorId: string)
    requires who.actorId == TrimSpace(actorId) && Signed(e, who, f)
    ensures Signed(e, who.(actorId := actorId), f)
  {
    TrimSpaceIsIdempotent(actorId);
  }

  lemma ChangeIsDone(t: Tables, call: RowCall, f: Draws, id: nat)
    requires RowFault(call) == None && EventUnderKey(t, call.meta) == None
    requires id in t.shipments && t.shipments[id].origin.publicId == TrimSpace(call.meta.publicId)
    requires ChangeOf(call, t.shipments[id], f.now).Change?
    ensures var c := ChangeOf(call, t.shipments[id], f.now);
            CarriedOut(t, Commit(t, WriteOf(c.kind, id, c.shipment, [], c.record, f)), call, id, f)
  {
    var c := ChangeOf(call, t.shipments[id], f.now);
    var t' := Commit(t, WriteOf(c.kind, id, c.shipment, [], c.record, f));
    KeyIsHeld(t, call.meta);
    ChangeIsSigned(call, t.shipments[id], f);
    WriteIsLogged(t, c.kind, id, c.shipment, [], c.record, f);
    SignedByTrimmed(t'.events[|t.events|], AuthorOf(c.record), f, call.meta.actorId);
    ChangeIsMade(call, id, t.shipments[id], f);
  }

  lemma ChangedAnswers(t: Tables, call: RowCall, f: Draws, id: nat)
    requires RowFault(call) == None && EventUnderKey(t, call.meta) == None
    requires id in t.shipments && t.shipments[id].origin.publicId == TrimSpace(call.meta.publicId)
    ensures var o := Changed(t, id, ChangeOf(call, t.shipments[id], f.now), f);
            ChangePromise(t, After(t, o), call, f, ReplyOf(o))
  {
    var c := ChangeOf(call, t.shipments[id], f.now);
    if c.Refused? {
      RefusalIsReason(t, call, f, id);
    } else {
      if Record(t, c.kind, id, c.shipment, [], c.record, f).Accept? {
        AcceptedAnswers(t, call, f, id);
      } else {
        RejectedAnswers(t, call, f, id);
      }
    }
  }

  lemma RejectedAnswers(t: Tables, call: RowCall, f: Draws, id: nat)
    requires id in t.shipments && ChangeOf(call, t.shipments[id], f.now).Change?
    requires var c := ChangeOf(call, t.shipments[id], f.now);
             !Record(t, c.kind, id, c.shipment, [], c.record, f).Accept?
    ensures var c := ChangeOf(call, t.shipments[id], f.now);
            var o := Record(t, c.kind, id, c.shipment, [], c.record, f);
            ChangePromise(t, After(t, o), call, f, ReplyOf(o))
  {
    var c := ChangeOf(call, t.shipments[id], f.now);
    RecordRefusal(t, c.kind, id, c.shipment, [], c.record, f);
    ChangeIsSigned(call, t.shipments[id], f);
  }

  lemma AcceptedAnswers(t: Tables, call: RowCall, f: Draws, id: nat)
    requires RowFault(call) == None && EventUnderKey(t, call.meta) == None
    requires id in t.shipments && t.shipments[id].origin.publicId == TrimSpace(call.meta.publicId)
    requires var c := ChangeOf(call, t.shipments[id], f.now);
             c.Change? && Record(t, c.kind, id, c.shipment, [], c.record, f).Accept?
    ensures var c := ChangeOf(call, t.shipments[id], f.now);
            var o := Record(t, c.kind, id, c.shipment, [], c.record, f);
            ChangePromise(t, After(t, o), call, f, ReplyOf(o))
  {
    var c := ChangeOf(call, t.shipments[id], f.now);
    RecordWrites(t, c.kind, id, c.shipment, [], c.record, f);
    ChangeIsSigned(call, t.shipments[id], f);
    ChangeIsDone(t, call, f, id);
    if call.EventCall? {
      SensibleIffValid(call.input);
    }
  }

  lemma ReplayAnswers(t: Tables, call: RowCall, f: Draws)
    requires RowFault(call) == None && EventUnderKey(t, call.meta).Some?
    ensures var o := RowOutcome(t, call, f); ChangePromise(t, After(t, o), call, f, ReplyOf(o))
  {
    KeyIsHeld(t, call.meta);
    assert RowOutcome(t, call, f) == RowReplay(t, call, EventUnderKey(t, call.meta).value);
  }

  lemma UnnamedAnswers(t: Tables, call: RowCall, f: Draws)
    requires RowFault(call) == None && EventUnderKey(t, call.meta) == None
    requires FindByPublicId(t, call.meta.publicId) == None
    ensures var o := RowOutcome(t, call, f); ChangePromise(t, After(t, o), call, f, ReplyOf(o))
  {
    NotNamed(t, call.meta.publicId);
  }

  lemma NamedIsChanged(t: Tables, call: RowCall, f: Draws, id: nat)
    requires RowFault(call) == None && EventUnderKey(t, call.meta) == None
    requires FindByPublicId(t, call.meta.publicId) == Some(id)
    ensures RowOutcome(t, call, f) == Changed(t, id, ChangeOf(call, t.shipments[id], f.now), f)
  {
  }

  /** Every change keeps its promise. */
  lemma ChangesKeepPromise(t: Tables, call: RowCall, f: Draws)
    ensures var o := RowOutcome(t, call, f); ChangePromise(t, After(t, o), call, f, ReplyOf(o))
  {
    if RowFault(call).Some? {
      FaultIsReason(t, call, f);
    } else {
      KeyIsHeld(t, call.meta);
      if EventUnderKey(t, call.meta).Some? {
        ReplayAnswers(t, call, f);
      } else {
        var found := FindByPublicId(t, call.meta.publicId);
        if found == None {
          UnnamedAnswers(t, call, f);
        } else {
          NamedIsChanged(t, call, f, found.value);
          ChangedAnswers(t, call, f, found.value);
        }
      }
    }
  }
}
