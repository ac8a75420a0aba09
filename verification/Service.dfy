/** The shipment service itself: statements against the tables inside transactions that are undone when they fail. */
module Service {
  import opened Text
  import opened Models
  import opened Items
  import opened Store
  import opened Operations
  import opened Answers
  import opened Creations

  /** The tables, as one process reads and writes them between two commits. */
  class Database {
    var shipments: map<nat, Shipment>
    var items: seq<ItemRow>
    var events: seq<EventRow>
    var audits: seq<AuditRow>
    var outbox: seq<OutboxRow>

    function Contents(): (t: Tables)
      reads this
    {
      Tables(shipments, items, events, audits, outbox)
    }

    constructor ()
      ensures Contents() == EMPTY
    {
      shipments, items, events, audits, outbox := map[], [], [], [], [];
    }

    method Rollback(t: Tables)
      modifies this
      ensures Contents() == t
    {
      shipments, items, events, audits, outbox := t.shipments, t.items, t.events, t.audits, t.outbox;
    }

    method InsertShipment(id: nat, s: Shipment) returns (duplicate: bool)
      modifies this`shipments
      ensures duplicate <==> ShipmentTaken(old(shipments), id, s.origin)
      ensures shipments == if duplicate then old(shipments) else old(shipments)[id := s]
    {
      duplicate := ShipmentTaken(shipments, id, s.origin);
      if !duplicate {
        shipments := shipments[id := s];
      }
    }

    /** One UPDATE of a shipment by its primary key, guarded by status and version if asked. */
    method UpdateShipment(id: nat, guard: Option<(ShipmentStatus, nat)>, s: Shipment) returns (affected: nat)
      modifies this`shipments
      ensures var found := id in old(shipments)
                           && (guard.Some? ==> guard.value == (old(shipments)[id].status, old(shipments)[id].version));
              affected == (if found then 1 else 0) && shipments == if found then old(shipments)[id := s]
                else old(shipments)
    {
      if id in shipments && (guard.None? || guard.value == (shipments[id].status, shipments[id].version)) {
        shipments := shipments[id := s];
        affected := 1;
      } else {
        affected := 0;
      }
    }

    method InsertItem(row: ItemRow)
      modifies this`items
      ensures items == old(items) + [row]
    {
      items := items + [row];
    }

    method InsertEvent(e: EventRow) returns (duplicate: bool)
      modifies this`events
      ensures duplicate <==> EventTaken(old(events), e)
      ensures events == if duplicate then old(events) else old(events) + [e]
    {
      duplicate := EventTaken(events, e);
      if !duplicate {
        events := events + [e];
      }
    }

    method InsertAudit(a: AuditRow)
      modifies this`audits
      ensures audits == old(audits) + [a]
    {
      audits := audits + [a];
    }

    method InsertOutbox(r: OutboxRow) returns (duplicate: bool)
      modifies this`outbox
      ensures duplicate <==> OutboxTaken(old(outbox), r)
      ensures outbox == if duplicate then old(outbox) else old(outbox) + [r]
    {
      duplicate := OutboxTaken(outbox, r);
      if !duplicate {
        outbox := outbox + [r];
      }
    }
  }

  /** How recordEvent ends; after an error its partial inserts are left to the caller's rollback. */
  datatype Recording = Recorded(event: EventRow) | NotRecorded(error: Error)

  /** A change whose key is unused, of a shipment that exists. */
  lemma OutcomeOfChange(t: Tables, call: RowCall, f: Draws, id: nat)
    requires RowFault(call) == None && EventUnderKey(t, call.meta) == None
    requires FindByPublicId(t, call.meta.publicId) == Some(id)
    ensures RowOutcome(t, call, f) == Changed(t, id, ChangeOf(call, t.shipments[id], f.now), f)
  {
  }

  class ShipmentService {
    const database: Database
    const warehouse: Address

    constructor (database: Database, warehouse: Address)
      ensures this.database == database && this.warehouse == warehouse
    {
      this.database := database;
      this.warehouse := warehouse;
    }

    /** The three inserts of recordEvent, up to the first that a unique index refuses. */
    method InsertRecord(event: EventRow, audit: AuditRow, row: OutboxRow) returns (duplicate: bool)
      modifies database
      ensures var t := old(database.Contents());
              && (duplicate <==> EventTaken(t.events, event) || OutboxTaken(t.outbox, row))
              && (!duplicate ==>
                    database.Contents()
                    == t.(events := t.events + [event], audits := t.audits + [audit], outbox := t.outbox + [row]))
    {
      duplicate := database.InsertEvent(event);
      if duplicate {
        return;
      }
      database.InsertAudit(audit);
      duplicate := database.InsertOutbox(row);
    }

    /** The callback body: what the event leaves open comes from the shipment. */
    method PayloadFor(shipment: Shipment, r: RecordInput, f: Draws) returns (payload: Payload)
      ensures payload == PayloadOf(shipment, r, f)
    {
      var stops := r.stops;
      if stops.None? {
        stops := shipment.stops;
      }
      var eta := EtaPayload(r.eta);
      if eta.None? {
        eta := EtaPayload(shipment.eta);
      }
      payload := Payload(EventId(f), TrimSpace(r.eventType), shipment.origin.publicId, shipment.origin.order,
                         shipment.origin.trackingNumber, shipment.origin.isReturn, r.status, stops, eta, r.occurredAt);
    }

    /** The last part of every transaction: the event row, the audit row and the outbox row. */
    method RecordEvent(id: nat, shipment: Shipment, r: RecordInput, f: Draws) returns (result: Recording)
      modifies database
      ensures var t, e, row := old(database.Contents()), EventRowOf(id, r, f), OutboxRowOf(id, shipment, r, f);
              if !Recordable(r) then result == NotRecorded(InvalidEvent)
              else if EventTaken(t.events, e) || OutboxTaken(t.outbox, row) then result == NotRecorded(DuplicateKey)
              else
                && result == Recorded(e)
                && database.Contents()
                   == t.(events := t.events + [e], audits := t.audits + [AuditRowOf(id, shipment, r, f)],
                                             outbox := t.outbox + [row])
      ensures result.Recorded? ==>
                var t, t', e := old(database.Contents()), database.Contents(), result.event;
                && t'.events == t.events + [e] && |t'.audits| == |t.audits| + 1 && |t'.outbox| == |t.outbox| + 1
                && e.shipmentId == id && Signed(e, AuthorOf(r), f)
                && Says(e, TrimSpace(r.eventType), r.note, r.stops, r.eta, r.occurredAt)
                && (r.status == shipment.status ==>
                      && Audited(t'.audits[|t.audits|], shipment, e) && Enqueued(t'.outbox[|t.outbox|], shipment, e, f))
    {
      EventIsSigned(id, r, f);
      EventSays(id, r, f);
      if r.status == shipment.status {
        RowIsEnqueued(id, shipment, r, f);
      }
      var requestId := TrimSpace(r.requestId);
      if requestId == "" || ByteLen(requestId) > 80 {
        requestId := "req" + "_" + Hex(f.requestToken);
      }
      if !ValidLength(r.source, 80) || ByteLen(TrimSpace(r.key)) > MAX_EVENT_KEY {
        return NotRecorded(InvalidEvent);
      }
      var eventId := EventId(f);
      var key := TrimSpace(r.key);
      if key == "" {
        key := eventId;
      }
      var event :=
        EventRow(f.eventRowId, eventId, id, TrimSpace(r.source), key, requestId, TrimSpace(r.eventType), r.status,
                 r.note,
                            r.stops, r.eta, r.occurredAt, TrimSpace(r.actorType), TrimSpace(r.actorId));
      assert event == EventRowOf(id, r, f);
      var audit := AuditRow(id, TrimSpace(r.actorType), TrimSpace(r.actorId), TrimSpace(r.eventType),
                            shipment.origin.publicId, requestId, r.oldStatus, r.status);
      var payload := PayloadFor(shipment, r, f);
      var row := OutboxRow(f.outboxRowId,
                           Message(eventId, id, f.eventRowId, requestId, TrimSpace(r.eventType), payload),
                           Pending, 0, f.now, f.now);
      assert row == OutboxRowOf(id, shipment, r, f);
      var duplicate := InsertRecord(event, audit, row);
      if duplicate {
        return NotRecorded(DuplicateKey);
      }
      return Recorded(event);
    }

    method FindEventByKey(meta: Meta) returns (event: Option<EventRow>)
      ensures event == EventUnderKey(database.Contents(), meta)
    {
      event := None;
      if meta.key != "" {
        event := FindEvent(database.events, meta.source, TrimSpace(meta.key));
      }
    }

    /** The shipment that an earlier call with the same key changed. */
    method ReplayShipmentOf(event: EventRow) returns (reply: Reply)
      ensures reply == if event.shipmentId in database.shipments then ShipmentReply(event.shipmentId, true)
              else Failure(MissingRow)
    {
      if event.shipmentId !in database.shipments {
        return Failure(MissingRow);
      }
      return ShipmentReply(event.shipmentId, true);
    }

    /** The first reads of every change: its key, which may answer the call, and the row it names. */
    method Locate(call: RowCall, f: Draws) returns (early: Option<Reply>, id: nat, ghost o: Outcome)
      requires RowFault(call) == None
      ensures o == RowOutcome(database.Contents(), call, f)
      ensures early.Some? ==> !o.Accept? && early.value == ReplyOf(o)
      ensures early.None? ==>
                id in database.shipments
                && o == Changed(database.Contents(), id, ChangeOf(call, database.shipments[id], f.now), f)
    {
      o, id := RowOutcome(database.Contents(), call, f), 0;
      var event := FindEventByKey(call.meta);
      if event.Some? {
        var reply := if call.EventCall? then EventReply(event.value) else Failure(MissingRow);
        if !call.EventCall? {
          reply := ReplayShipmentOf(event.value);
        }
        return Some(reply), id, o;
      }
      var found := FindByPublicId(database.Contents(), call.meta.publicId);
      if found.None? {
        return Some(Failure(ShipmentNotFound)), id, o;
      }
      OutcomeOfChange(database.Contents(), call, f, found.value);
      return None, found.value, o;
    }

    /** Records the event of a change that is already written, and undoes the change if that fails. */
    method Finish(before: Tables, id: nat, c: Change, f: Draws) returns (reply: Reply)
      requires c.Change? && id in before.shipments
      requires database.Contents() == before.(shipments := before.shipments[id := c.shipment])
      modifies database
      ensures var o := Changed(before, id, c, f);
              database.Contents() == After(before, o) && reply == ReplyOf(o)
    {
      var result := RecordEvent(id, c.shipment, c.record, f);
      match result {
        case NotRecorded(error) =>
          database.Rollback(before);
          reply := Failure(error);
        case Recorded(event) =>
          assert before.items + [] == before.items;
          reply := if c.kind == EventAdded then EventReply(event) else ShipmentReply(id, false);
      }
    }

    method Transition(meta: Meta, expected: ShipmentStatus, next: ShipmentStatus, f: Draws) returns (reply: Reply)
      modifies database
      ensures var o := RowOutcome(old(database.Contents()), TransitionCall(meta, expected, next), f);
              database.Contents() == After(old(database.Contents()), o) && reply == ReplyOf(o)
      ensures ChangePromise(old(database.Contents()), database.Contents(), TransitionCall(meta, expected, next), f,
                            reply)
    {
      ChangesKeepPromise(database.Contents(), TransitionCall(meta, expected, next), f);
      if !CanManageStatus(meta.role, next) {
        return Failure(Forbidden);
      }
      var early, id, o := Locate(TransitionCall(meta, expected, next), f);
      if early.Some? {
        return early.value;
      }
      reply := MoveRow(id, meta, expected, next, f);
    }

    method MoveRow(id: nat, meta: Meta, expected: ShipmentStatus, next: ShipmentStatus, f: Draws) returns (reply: Reply)
      requires id in database.shipments
      modifies database
      ensures var t := old(database.Contents());
              var o := Changed(t, id, ChangeOf(TransitionCall(meta, expected, next), t.shipments[id], f.now), f);
              database.Contents() == After(t, o) && reply == ReplyOf(o)
    {
      var before, shipment := database.Contents(), database.shipments[id];
      if shipment.status != expected || !shipment.status.CanTransitionTo(next) {
        return Failure(InvalidTransition);
      }
      var moved := shipment.(status := next, version := shipment.version + 1);
      if next == Delivered {
        moved := moved.(deliveredAt := Some(f.now), stops := Some(0));
      }
      var affected := database.UpdateShipment(id, Some((expected, shipment.version)), moved);
      if affected != 1 {
        assert false; // the row is locked since it was read
      }
      assert moved == Moved(shipment, next, f.now);
      var c := Change(Transitioned, moved,
                      RecordFor(meta, Some(shipment.status), next, "status_changed", Generated, None, NO_ETA, f.now));
      assert c == ChangeOf(TransitionCall(meta, expected, next), shipment, f.now);
      reply := Finish(before, id, c, f);
    }

    method UpdateStops(meta: Meta, remaining: int, f: Draws) returns (reply: Reply)
      modifies database
      ensures var o := RowOutcome(old(database.Contents()), StopsCall(meta, remaining), f);
              database.Contents() == After(old(database.Contents()), o) && reply == ReplyOf(o)
      ensures ChangePromise(old(database.Contents()), database.Contents(), StopsCall(meta, remaining), f, reply)
    {
      ChangesKeepPromise(database.Contents(), StopsCall(meta, remaining), f);
      if (meta.role != RoleDeliveryEmployee && meta.role != RoleShippingAdmin && meta.role != RoleAdmin
          && meta.role != RoleEmployee)
         || remaining < 0 {
        return Failure(Forbidden);
      }
      var early, id, o := Locate(StopsCall(meta, remaining), f);
      if early.Some? {
        return early.value;
      }
      reply := SetStops(id, meta, remaining, f);
    }

    method SetStops(id: nat, meta: Meta, remaining: int, f: Draws) returns (reply: Reply)
      requires id in database.shipments
      modifies database
      ensures var t := old(database.Contents());
              var o := Changed(t, id, ChangeOf(StopsCall(meta, remaining), t.shipments[id], f.now), f);
              database.Contents() == After(t, o) && reply == ReplyOf(o)
    {
      var before, shipment := database.Contents(), database.shipments[id];
      if shipment.status != OutForDelivery {
        return Failure(InvalidTransition);
      }
      var updated := shipment.(stops := Some(remaining), version := shipment.version + 1);
      var _ := database.UpdateShipment(id, None, updated);
      var c := Change(StopsUpdated, updated,
                      RecordFor(meta, None, shipment.status, "stops_updated", Generated, Some(remaining), NO_ETA,
                                f.now));
      assert c == ChangeOf(StopsCall(meta, remaining), shipment, f.now);
      reply := Finish(before, id, c, f);
    }

    method UpdateEta(meta: Meta, eta: Eta, f: Draws) returns (reply: Reply)
      modifies database
      ensures var o := RowOutcome(old(database.Contents()), EtaCall(meta, eta), f);
              database.Contents() == After(old(database.Contents()), o) && reply == ReplyOf(o)
      ensures ChangePromise(old(database.Contents()), database.Contents(), EtaCall(meta, eta), f, reply)
    {
      ChangesKeepPromise(database.Contents(), EtaCall(meta, eta), f);
      if meta.role != RoleShippingAdmin && meta.role != RoleSupport && meta.role != RoleDeliveryEmployee
         && meta.role != RoleAdmin && meta.role != RoleEmployee {
        return Failure(Forbidden);
      }
      if eta.from.Some? && eta.until.Some? && eta.until.value < eta.from.value {
        return Failure(InvalidEta);
      }
      var early, id, o := Locate(EtaCall(meta, eta), f);
      if early.Some? {
        return early.value;
      }
      reply := SetEta(id, meta, eta, f);
    }

    method SetEta(id: nat, meta: Meta, eta: Eta, f: Draws) returns (reply: Reply)
      requires id in database.shipments
      modifies database
      ensures var t := old(database.Contents());
              var o := Changed(t, id, ChangeOf(EtaCall(meta, eta), t.shipments[id], f.now), f);
              database.Contents() == After(t, o) && reply == ReplyOf(o)
    {
      var before, shipment := database.Contents(), database.shipments[id];
      var updated := shipment.(eta := eta, version := shipment.version + 1);
      var _ := database.UpdateShipment(id, None, updated);
      var c := Change(EtaUpdated, updated,
                      RecordFor(meta, None, shipment.status, "eta_updated", Generated, None, eta, f.now));
      assert c == ChangeOf(EtaCall(meta, eta), shipment, f.now);
      reply := Finish(before, id, c, f);
    }

    method AddEvent(meta: Meta, input: EventInput, f: Draws) returns (reply: Reply)
      modifies database
      ensures var o := RowOutcome(old(database.Contents()), EventCall(meta, input), f);
              database.Contents() == After(old(database.Contents()), o) && reply == ReplyOf(o)
      ensures ChangePromise(old(database.Contents()), database.Contents(), EventCall(meta, input), f, reply)
    {
      ChangesKeepPromise(database.Contents(), EventCall(meta, input), f);
      if meta.role.OtherRole? {
        return Failure(Forbidden);
      }
      if !ValidEventInput(input) {
        return Failure(InvalidEvent);
      }
      var early, id, o := Locate(EventCall(meta, input), f);
      if early.Some? {
        return early.value;
      }
      reply := RecordGiven(id, meta, input, f);
    }

    method RecordGiven(id: nat, meta: Meta, input: EventInput, f: Draws) returns (reply: Reply)
      requires id in database.shipments
      modifies database
      ensures var t := old(database.Contents());
              var o := Changed(t, id, ChangeOf(EventCall(meta, input), t.shipments[id], f.now), f);
              database.Contents() == After(t, o) && reply == ReplyOf(o)
    {
      var before, shipment := database.Contents(), database.shipments[id];
      var occurredAt := f.now;
      if input.occurredAt.Some? {
        occurredAt := input.occurredAt.value;
      }
      assert before.shipments[id := shipment] == before.shipments;
      var c := Change(EventAdded, shipment,
                      RecordFor(meta, None, shipment.status, TrimSpace(input.eventType), NoteOf(input), input.stops,
                                shipment.eta,
                                occurredAt));
      assert c == ChangeOf(EventCall(meta, input), shipment, f.now);
      reply := Finish(before, id, c, f);
    }

    /** The read that decides on the transition takes no lock. */
    method Cancel(publicId: string, key: string, requestId: string, source: string, f: Draws) returns (reply: Reply)
      modifies database
      ensures var o := CancelOutcome(old(database.Contents()), publicId, key, requestId, source, f);
              database.Contents() == After(old(database.Contents()), o) && reply == ReplyOf(o)
      ensures CancelPromise(old(database.Contents()), database.Contents(), publicId, key, requestId, source, f, reply)
    {
      CancelKeepsPromise(database.Contents(), publicId, key, requestId, source, f);
      var found := OutboundByPublicId(database.Contents(), publicId);
      if found.None? {
        return Failure(ShipmentNotFound);
      }
      var status := database.shipments[found.value].status;
      if status == Cancelled || status == ReturnToSenderRequested {
        return ShipmentReply(found.value, true);
      }
      if status == Delivered || status == ReturnToSenderPrepared || status == ReturnToSenderInTransit
         || status == ReturnToSenderReceived {
        return Failure(InvalidTransition);
      }
      var next := ReturnToSenderRequested;
      if status == AwaitingReceipt {
        next := Cancelled;
      }
      reply := Transition(Meta(publicId, RoleAdmin, source, key, requestId, source), status, next, f);
    }

    // ----- creations -----

    method AnswerCreate(id: nat, input: CreateInput) returns (reply: Reply)
      requires id in database.shipments
      ensures reply == ReplyOf(CreateReplay(database.Contents(), id, input))
    {
      var matches := OriginMatchesCreate(database.shipments[id].origin, input);
      if matches {
        matches := ItemsMatch(ItemsOf(database.items, id), input.items);
      }
      reply := if matches then ShipmentReply(id, true) else Failure(IdempotencyConflict);
    }

    method AnswerReturn(id: nat, input: ReturnInput) returns (reply: Reply)
      requires id in database.shipments
      ensures reply == ReplyOf(ReturnReplay(database.Contents(), id, input))
    {
      var origin := database.shipments[id].origin;
      var matches := OriginMatchesReturn(origin, input);
      if matches {
        matches := ItemsMatch(ItemsOf(database.items, id), input.items);
      }
      if !matches {
        return Failure(IdempotencyConflict);
      }
      if origin.original.value !in database.shipments {
        return Failure(MissingRow);
      }
      matches := database.shipments[origin.original.value].origin.publicId == TrimSpace(input.original);
      reply := if matches then ShipmentReply(id, true) else Failure(IdempotencyConflict);
    }

    method InsertItems(id: nat, items: seq<ItemInput>)
      modifies database
      ensures database.Contents() == old(database.Contents()).(items := old(database.items) + ItemRows(id, items))
    {
      ghost var rows := ItemRows(id, items);
      for i := 0 to |items|
        invariant database.Contents() == old(database.Contents()).(items := old(database.items) + rows[..i])
      {
        database.InsertItem(ItemRow(id, TrimSpace(items[i].productId), TrimSpace(items[i].name),
                                    TrimSpace(items[i].sku), items[i].quantity));
        assert rows[..i + 1] == rows[..i] + [rows[i]];
      }
      assert rows[..|items|] == rows;
    }

    /**
     * The items and the event of a shipment row that was just inserted; if the event is refused, all of it is undone.
     */
    method FinishCreation(before: Tables, id: nat, s: Shipment, items: seq<ItemInput>, r: RecordInput, f: Draws)
      returns (reply: Reply)
      requires database.Contents() == before.(shipments := before.shipments[id := s])
      modifies database
      ensures var o := Record(before, Creation, id, s, ItemRows(id, items), r, f);
              database.Contents() == After(before, o) && reply == ReplyOf(o)
    {
      InsertItems(id, items);
      var result := RecordEvent(id, s, r, f);
      match result {
        case NotRecorded(error) =>
          database.Rollback(before);
          reply := Failure(error);
        case Recorded(event) => reply := ShipmentReply(id, false);
      }
    }

    method CreateNew(input: CreateInput, key: string, source: string, requestId: string, f: Draws)
      returns (reply: Reply)
      modifies database
      ensures var o := InsertOutbound(old(database.Contents()), warehouse, input, key, source, requestId, f);
              database.Contents() == After(old(database.Contents()), o) && reply == ReplyOf(o)
    {
      var before := database.Contents();
      var origin := Origin(PublicId(f), f.shipmentNumber, Some(TrimSpace(input.handoverCode)), f.trackingNumber,
                           TrimSpace(input.order), TrimSpace(input.customer), OutboundBusinessKey(input.order), source,
                           TrimSpace(key), None, false, TrimSpace(input.carrier), TrimSpace(input.serviceLevel),
                           warehouse, NormalizeAddress(input.recipient));
      var s := Shipment(origin, AwaitingReceipt, input.eta, None, None, 1);
      assert s == OutboundShipment(warehouse, input, key, source, f);
      var duplicate := database.InsertShipment(f.shipmentId, s);
      if duplicate {
        var existing := FindByKeyOrBusiness(database.Contents(), source, key, origin.businessKey);
        if existing.None? {
          return Failure(DuplicateKey);
        }
        reply := AnswerCreate(existing.value, input);
        return;
      }
      var r := RecordInput(source, requestId, source, TrimSpace(input.customer), Some(Created), AwaitingReceipt,
                           "shipment_handed_over", Generated, None, NO_ETA, key + "/handed-over", f.now);
      assert r == OutboundRecord(input, key, source, requestId, f);
      reply := FinishCreation(before, f.shipmentId, s, input.items, r, f);
    }

    method CreateValid(input: CreateInput, key: string, source: string, requestId: string, f: Draws)
      returns (reply: Reply)
      modifies database
      ensures var o := CreateTransaction(old(database.Contents()), warehouse, input, key, source, requestId, f);
              database.Contents() == After(old(database.Contents()), o) && reply == ReplyOf(o)
    {
      var existing := FindByKey(database.Contents(), source, key);
      if existing.Some? {
        reply := AnswerCreate(existing.value, input);
        return;
      }
      reply := CreateNew(input, key, source, requestId, f);
    }

    method Create(input: CreateInput, key: string, source: string, requestId: string, f: Draws) returns (reply: Reply)
      modifies database
      ensures var o := CreateOutcome(old(database.Contents()), warehouse, input, key, source, requestId, f);
              database.Contents() == After(old(database.Contents()), o) && reply == ReplyOf(o)
      ensures CreatePromise(old(database.Contents()), database.Contents(), warehouse, input, key, source, requestId, f,
                            reply)
    {
      CreateKeepsPromise(database.Contents(), warehouse, input, key, source, requestId, f);
      var fault := CreateFault(input, key, source);
      if fault.Some? {
        return Failure(fault.value);
      }
      reply := CreateValid(input, key, source, requestId, f);
    }

    method ReturnNew(input: ReturnInput, originalId: nat, original: Origin, key: string, source: string,
                     requestId: string, f: Draws)
      returns (reply: Reply)
      modifies database
      ensures var o :=
        InsertReturn(old(database.Contents()), warehouse, input, originalId, original, key, source, requestId, f);
              database.Contents() == After(old(database.Contents()), o) && reply == ReplyOf(o)
    {
      var before := database.Contents();
      var origin :=
        Origin(PublicId(f), f.shipmentNumber, None, f.trackingNumber, TrimSpace(input.order), TrimSpace(input.customer),
                           ReturnBusinessKey(input.order, input.original), source, TrimSpace(key), Some(originalId),
                           true,
                           original.carrier, original.serviceLevel, NormalizeAddress(input.customerAddress), warehouse);
      var s := Shipment(origin, ReturnAuthorized, NO_ETA, None, None, 1);
      assert s == ReturnShipment(warehouse, input, originalId, original, key, source, f);
      var duplicate := database.InsertShipment(f.shipmentId, s);
      if duplicate {
        var existing := FindByKeyOrBusiness(database.Contents(), source, key, origin.businessKey);
        if existing.None? {
          return Failure(DuplicateKey);
        }
        reply := AnswerReturn(existing.value, input);
        return;
      }
      var r := RecordInput(source, requestId, source, TrimSpace(input.customer), None, ReturnAuthorized,
                           "return_authorized", Generated, None, NO_ETA, key + "/created", f.now);
      assert r == ReturnRecord(input, key, source, requestId, f);
      reply := FinishCreation(before, f.shipmentId, s, input.items, r, f);
    }

    method ReturnValid(input: ReturnInput, key: string, source: string, requestId: string, f: Draws)
      returns (reply: Reply)
      modifies database
      ensures var o := ReturnTransaction(old(database.Contents()), warehouse, input, key, source, requestId, f);
              database.Contents() == After(old(database.Contents()), o) && reply == ReplyOf(o)
    {
      var existing := FindByKey(database.Contents(), source, key);
      if existing.Some? {
        reply := AnswerReturn(existing.value, input);
        return;
      }
      var original := FindByPublicId(database.Contents(), input.original);
      if original.None? {
        return Failure(ShipmentNotFound);
      }
      reply := ReturnNew(input, original.value, database.shipments[original.value].origin, key, source, requestId, f);
    }

    method CreateReturn(input: ReturnInput, key: string, source: string, requestId: string, f: Draws)
      returns (reply: Reply)
      modifies database
      ensures var o := ReturnOutcome(old(database.Contents()), warehouse, input, key, source, requestId, f);
              database.Contents() == After(old(database.Contents()), o) && reply == ReplyOf(o)
      ensures ReturnPromise(old(database.Contents()), database.Contents(), warehouse, input, key, source, requestId, f,
                            reply)
    {
      ReturnKeepsPromise(database.Contents(), warehouse, input, key, source, requestId, f);
      var fault := ReturnFault(input, key, source);
      if fault.Some? {
        return Failure(fault.value);
      }
      reply := ReturnValid(input, key, source, requestId, f);
    }
  }
}
