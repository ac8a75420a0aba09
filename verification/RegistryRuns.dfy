/** Creations over whole runs: registered once, remembered for good, answered alike ever after. */
module RegistryRuns {
  import opened Text
  import opened Models
  import opened Items
  import opened Store
  import opened Operations
  import opened Writes
  import opened Invariants
  import opened Runs
  import opened Registry

  lemma NextRemembers(warehouse: Address, h: History, e: Event)
    requires Anchored(h.tables)
    ensures Remembers(h.tables, Next(warehouse, h, e).tables)
  {
    if e.Call? && OutcomeOf(h.tables, warehouse, e.request, e.drawn).Accept? {
      AcceptIsLawful(h.tables, warehouse, e.request, e.drawn);
      CommitRemembers(h.tables, OutcomeOf(h.tables, warehouse, e.request, e.drawn).write);
    }
  }

  /** Whatever happens later, the compared columns and the items of a shipment stay as they were inserted. */
  lemma {:induction false} RunRemembers(warehouse: Address, earlier: seq<Event>, later: seq<Event>)
    ensures Remembers(Run(warehouse, earlier).tables, Run(warehouse, earlier + later).tables)
  {
    if later == [] {
      assert earlier + later == earlier;
    } else {
      var before := earlier + later[..|later| - 1];
      RunRemembers(warehouse, earlier, later[..|later| - 1]);
      OneMoreRemembers(warehouse, before, later[|later| - 1]);
      assert earlier + later == before + [later[|later| - 1]];
      RemembersTransitive(Run(warehouse, earlier).tables, Run(warehouse, before).tables,
                          Run(warehouse, earlier + later).tables);
    }
  }

  lemma OneMoreRemembers(warehouse: Address, before: seq<Event>, e: Event)
    ensures Remembers(Run(warehouse, before).tables, Run(warehouse, before + [e]).tables)
  {
    assert (before + [e])[..|before|] == before;
    ReachedRows(warehouse, before);
    NextRemembers(warehouse, Run(warehouse, before), e);
  }

  lemma RemembersTransitive(a: Tables, b: Tables, c: Tables)
    requires Remembers(a, b) && Remembers(b, c)
    ensures Remembers(a, c)
  {
  }

  /** The registration that an accepted Create leaves behind. */
  lemma RegistersOutbound(t: Tables, w: Write, warehouse: Address, input: CreateInput, key: string, source: string,
                          f: Draws)
    requires Lawful(t, w) && Anchored(t) && RowsKeyed(t.shipments) && w.kind == Creation
    requires w.shipment == OutboundShipment(warehouse, input, key, source, f) && w.items == ItemRows(w.id, input.items)
    ensures RowsKeyed(Commit(t, w).shipments) && w.id in BookOf(Commit(t, w))
    ensures BookOf(Commit(t, w))[w.id] == Registration(CreateSubject(input), source, TrimSpace(key))
  {
    RowsKeyedAfterCommit(t, w);
    ItemsAfterCommit(t, w, w.id);
    StoredItemsMatchTheirRequest(w.id, input.items);
    assert WellKeyed(Commit(t, w).shipments, w.shipment.origin);
  }

  /** The subject of a stored return whose columns are those of a request. */
  lemma SubjectOfReturn(t: Tables, id: nat, input: ReturnInput)
    requires id in t.shipments && WellKeyed(t.shipments, t.shipments[id].origin)
    requires var o := t.shipments[id].origin;
             && o.isReturn && o.order == TrimSpace(input.order) && o.customer == TrimSpace(input.customer)
             && o.sender == NormalizeAddress(input.customerAddress)
             && t.shipments[o.original.value].origin.publicId == TrimSpace(input.original)
    requires StoredLines(ItemsOf(t.items, id)) == RequestedLines(input.items)
    ensures SubjectOf(t, id) == ReturnedSubject(input)
  {
  }

  lemma RegistersReturn(t: Tables, w: Write, warehouse: Address, input: ReturnInput, originalId: nat, original: Origin,
                        key: string, source: string, f: Draws)
    requires Lawful(t, w) && Anchored(t) && RowsKeyed(t.shipments) && w.kind == Creation
    requires originalId in t.shipments && t.shipments[originalId].origin == original
    requires original.publicId == TrimSpace(input.original)
    requires w.shipment == ReturnShipment(warehouse, input, originalId, original, key, source, f)
    requires w.items == ItemRows(w.id, input.items)
    ensures RowsKeyed(Commit(t, w).shipments) && w.id in BookOf(Commit(t, w))
    ensures BookOf(Commit(t, w))[w.id] == Registration(ReturnedSubject(input), source, TrimSpace(key))
  {
    RowsKeyedAfterCommit(t, w);
    ItemsAfterCommit(t, w, w.id);
    StoredItemsMatchTheirRequest(w.id, input.items);
    assert WellKeyed(Commit(t, w).shipments, w.shipment.origin);
    assert Commit(t, w).shipments[originalId].origin == original;
    SubjectOfReturn(Commit(t, w), w.id, input);
  }

  lemma CreateIsAnswered(t: Tables, warehouse: Address, id: nat, input: CreateInput, key: string, source: string,
                         requestId: string, f: Draws)
    requires ShipmentsDistinct(t.shipments) && RowsKeyed(t.shipments) && RowsOk(t.shipments) && id in t.shipments
    requires Plain(source) && ValidLength(input.order, 64)
    requires Concerns(BookOf(t), id, OfOrder(TrimSpace(input.order)), source, TrimSpace(key))
    ensures CreateTransaction(t, warehouse, input, key, source, requestId, f)
            == if Equivalent(BookOf(t)[id].subject, CreateSubject(input)) then ReplayShipment(id)
               else Reject(IdempotencyConflict)
  {
    AskFindsRegistration(t, id, CreateSubject(input), source, TrimSpace(key));
    CreateRefines(t, warehouse, input, key, source, requestId, f);
  }

  lemma ReturnIsAnswered(t: Tables, warehouse: Address, id: nat, input: ReturnInput, key: string, source: string,
                         requestId: string, f: Draws)
    requires ShipmentsDistinct(t.shipments) && RowsKeyed(t.shipments) && RowsOk(t.shipments) && id in t.shipments
    requires Plain(source) && ValidLength(input.order, 64) && ValidLength(input.original, 64)
    requires FindByPublicId(t, input.original).Some?
    requires Concerns(BookOf(t), id, OfReturn(TrimSpace(input.order), TrimSpace(input.original)), source,
                      TrimSpace(key))
    ensures ReturnTransaction(t, warehouse, input, key, source, requestId, f)
            == if Equivalent(BookOf(t)[id].subject, ReturnedSubject(input)) then ReplayShipment(id)
               else Reject(IdempotencyConflict)
  {
    AskFindsRegistration(t, id, ReturnedSubject(input), source, TrimSpace(key));
    ReturnRefines(t, warehouse, input, key, source, requestId, f);
  }

  lemma ReachedRows(warehouse: Address, events: seq<Event>)
    ensures var t := Run(warehouse, events).tables;
            ShipmentsDistinct(t.shipments) && RowsKeyed(t.shipments) && RowsOk(t.shipments) && Anchored(t) && Aligned(t)
  {
    RunKeepsInv(warehouse, events);
  }

  /** The registry behind a reachable database. */
  ghost function BookAt(warehouse: Address, events: seq<Event>): (book: Book)
    ensures book.Keys == Run(warehouse, events).tables.shipments.Keys
  {
    ReachedRows(warehouse, events);
    BookOf(Run(warehouse, events).tables)
  }

  /** A registration stays as it was made. */
  lemma RegistrationsLast(warehouse: Address, earlier: seq<Event>, later: seq<Event>, id: nat)
    requires id in BookAt(warehouse, earlier)
    ensures id in BookAt(warehouse, earlier + later)
    ensures BookAt(warehouse, earlier + later)[id] == BookAt(warehouse, earlier)[id]
  {
    ReachedRows(warehouse, earlier);
    ReachedRows(warehouse, earlier + later);
    RunRemembers(warehouse, earlier, later);
    SubjectsLast(Run(warehouse, earlier).tables, Run(warehouse, earlier + later).tables, id);
  }

  /**
   * After a shipment is registered, a later valid Create under its key, or under an unused key for the same order,
   * returns the original row if it asks for the same thing and is a conflict otherwise; neither writes anything.
   */
  lemma LaterCreateIsAnswered(warehouse: Address, earlier: seq<Event>, later: seq<Event>, id: nat,
                              input: CreateInput, key: string, source: string, requestId: string, f: Draws)
    requires id in BookAt(warehouse, earlier) && id in BookAt(warehouse, earlier + later)
    requires Plain(source) && ValidLength(input.order, 64)
    requires Concerns(BookAt(warehouse, earlier + later), id, OfOrder(TrimSpace(input.order)), source, TrimSpace(key))
    ensures CreateTransaction(Run(warehouse, earlier + later).tables, warehouse, input, key, source, requestId, f)
            == if Equivalent(BookAt(warehouse, earlier)[id].subject, CreateSubject(input)) then ReplayShipment(id)
               else Reject(IdempotencyConflict)
  {
    ReachedRows(warehouse, earlier + later);
    RegistrationsLast(warehouse, earlier, later, id);
    CreateIsAnswered(Run(warehouse, earlier + later).tables, warehouse, id, input, key, source, requestId, f);
  }

  /** The same for returns of a stored shipment. */
  lemma LaterReturnIsAnswered(warehouse: Address, earlier: seq<Event>, later: seq<Event>, id: nat,
                              input: ReturnInput, key: string, source: string, requestId: string, f: Draws)
    requires id in BookAt(warehouse, earlier) && id in BookAt(warehouse, earlier + later)
    requires Plain(source) && ValidLength(input.order, 64) && ValidLength(input.original, 64)
    requires FindByPublicId(Run(warehouse, earlier + later).tables, input.original).Some?
    requires Concerns(BookAt(warehouse, earlier + later), id,
                      OfReturn(TrimSpace(input.order), TrimSpace(input.original)),
                      source, TrimSpace(key))
    ensures ReturnTransaction(Run(warehouse, earlier + later).tables, warehouse, input, key, source, requestId, f)
            == if Equivalent(BookAt(warehouse, earlier)[id].subject, ReturnedSubject(input)) then ReplayShipment(id)
               else Reject(IdempotencyConflict)
  {
    ReachedRows(warehouse, earlier + later);
    RegistrationsLast(warehouse, earlier, later, id);
    ReturnIsAnswered(Run(warehouse, earlier + later).tables, warehouse, id, input, key, source, requestId, f);
  }

  lemma RecordedWrite(t: Tables, kind: OpKind, id: nat, s: Shipment, items: seq<ItemRow>, r: RecordInput, f: Draws,
                      w: Write)
    requires Record(t, kind, id, s, items, r, f) == Accept(w)
    ensures w.kind == kind && w.id == id && w.shipment == s && w.items == items
  {
  }

  lemma AcceptedCreate(t: Tables, warehouse: Address, input: CreateInput, key: string, source: string,
                       requestId: string, f: Draws)
    requires CreateOutcome(t, warehouse, input, key, source, requestId, f).Accept?
    requires Anchored(t) && RowsKeyed(t.shipments)
    ensures var w := CreateOutcome(t, warehouse, input, key, source, requestId, f).write;
            && RowsKeyed(Commit(t, w).shipments) && w.id in BookOf(Commit(t, w))
            && BookOf(Commit(t, w))[w.id] == Registration(CreateSubject(input), source, TrimSpace(key))
  {
    CreateFaultSees(input, key, source);
    CreateAcceptIsLawful(t, warehouse, input, key, source, requestId, f);
    InsertOutboundIsLawful(t, warehouse, input, key, source, requestId, f);
    var w := CreateOutcome(t, warehouse, input, key, source, requestId, f).write;
    RecordedWrite(t, Creation, f.shipmentId, OutboundShipment(warehouse, input, key, source, f),
                  ItemRows(f.shipmentId, input.items), OutboundRecord(input, key, source, requestId, f), f, w);
    RegistersOutbound(t, w, warehouse, input, key, source, f);
  }

  lemma TablesAfterAccept(warehouse: Address, earlier: seq<Event>, q: Request, f: Draws, w: Write)
    requires OutcomeOf(Run(warehouse, earlier).tables, warehouse, q, f) == Accept(w)
    ensures Run(warehouse, earlier + [Call(q, f)]).tables == Commit(Run(warehouse, earlier).tables, w)
  {
    assert (earlier + [Call(q, f)])[..|earlier|] == earlier;
  }

  lemma CreateRegisters(warehouse: Address, earlier: seq<Event>, input: CreateInput, key: string, source: string,
                        requestId: string, f: Draws)
    requires CreateOutcome(Run(warehouse, earlier).tables, warehouse, input, key, source, requestId, f).Accept?
    ensures var w := CreateOutcome(Run(warehouse, earlier).tables, warehouse, input, key, source, requestId, f).write;
            var book := BookAt(warehouse, earlier + [Call(Create(input, key, source, requestId), f)]);
            w.id in book && book[w.id] == Registration(CreateSubject(input), source, TrimSpace(key))
  {
    ReachedRows(warehouse, earlier);
    var t := Run(warehouse, earlier).tables;
    AcceptedCreate(t, warehouse, input, key, source, requestId, f);
    TablesAfterAccept(warehouse, earlier, Create(input, key, source, requestId), f,
                      CreateOutcome(t, warehouse, input, key, source, requestId, f).write);
  }

  /**
   * From acceptance to replay: once a Create is accepted, a valid Create under its key, or under an unused key for its
   * order, returns the same row at any later time if it asks for the same thing, and is a conflict otherwise.
   */
  lemma CreateIsRemembered(warehouse: Address, earlier: seq<Event>, input: CreateInput, key: string, source: string,
                           requestId: string, f: Draws, later: seq<Event>, again: CreateInput, key': string,
                             source': string,
                           requestId': string, f': Draws)
    requires CreateOutcome(Run(warehouse, earlier).tables, warehouse, input, key, source, requestId, f).Accept?
    requires Plain(source') && ValidLength(again.order, 64)
    requires var book := BookAt(warehouse, earlier + [Call(Create(input, key, source, requestId), f)] + later);
             || (source' == source && TrimSpace(key') == TrimSpace(key))
             || (KeyHolders(book, source', TrimSpace(key')) == {} && TrimSpace(again.order) == TrimSpace(input.order))
    ensures var w := CreateOutcome(Run(warehouse, earlier).tables, warehouse, input, key, source, requestId, f).write;
            CreateTransaction(Run(warehouse, earlier + [Call(Create(input, key, source, requestId), f)] + later).tables,
                              warehouse, again, key', source', requestId', f')
            == if Equivalent(CreateSubject(input), CreateSubject(again)) then ReplayShipment(w.id)
               else Reject(IdempotencyConflict)
  {
    var id := CreateOutcome(Run(warehouse, earlier).tables, warehouse, input, key, source, requestId, f).write.id;
    var first := earlier + [Call(Create(input, key, source, requestId), f)];
    CreateRegisters(warehouse, earlier, input, key, source, requestId, f);
    RegistrationsLast(warehouse, first, later, id);
    LaterCreateIsAnswered(warehouse, first, later, id, again, key', source', requestId', f');
  }

  lemma AcceptedReturn(t: Tables, warehouse: Address, input: ReturnInput, key: string, source: string,
                       requestId: string, f: Draws)
    requires ReturnOutcome(t, warehouse, input, key, source, requestId, f).Accept?
    requires Anchored(t) && RowsKeyed(t.shipments)
    ensures var w := ReturnOutcome(t, warehouse, input, key, source, requestId, f).write;
            && RowsKeyed(Commit(t, w).shipments) && w.id in BookOf(Commit(t, w))
            && BookOf(Commit(t, w))[w.id] == Registration(ReturnedSubject(input), source, TrimSpace(key))
  {
    ReturnFaultSees(input, key, source);
    ReturnAcceptIsLawful(t, warehouse, input, key, source, requestId, f);
    var id := FindByPublicId(t, input.original).value;
    var original := t.shipments[id].origin;
    InsertReturnIsLawful(t, warehouse, input, id, original, key, source, requestId, f);
    var w := ReturnOutcome(t, warehouse, input, key, source, requestId, f).write;
    RecordedWrite(t, Creation, f.shipmentId, ReturnShipment(warehouse, input, id, original, key, source, f),
                  ItemRows(f.shipmentId, input.items), ReturnRecord(input, key, source, requestId, f), f, w);
    RegistersReturn(t, w, warehouse, input, id, original, key, source, f);
  }

  lemma ReturnRegisters(warehouse: Address, earlier: seq<Event>, input: ReturnInput, key: string, source: string,
                        requestId: string, f: Draws)
    requires ReturnOutcome(Run(warehouse, earlier).tables, warehouse, input, key, source, requestId, f).Accept?
    ensures var w := ReturnOutcome(Run(warehouse, earlier).tables, warehouse, input, key, source, requestId, f).write;
            var book := BookAt(warehouse, earlier + [Call(CreateReturn(input, key, source, requestId), f)]);
            w.id in book && book[w.id] == Registration(ReturnedSubject(input), source, TrimSpace(key))
  {
    ReachedRows(warehouse, earlier);
    var t := Run(warehouse, earlier).tables;
    AcceptedReturn(t, warehouse, input, key, source, requestId, f);
    TablesAfterAccept(warehouse, earlier, CreateReturn(input, key, source, requestId), f,
                      ReturnOutcome(t, warehouse, input, key, source, requestId, f).write);
  }

  /** The same for an accepted return, against any later valid CreateReturn that names a stored original. */
  lemma ReturnIsRemembered(warehouse: Address, earlier: seq<Event>, input: ReturnInput, key: string, source: string,
                           requestId: string, f: Draws, later: seq<Event>, again: ReturnInput, key': string,
                             source': string,
                           requestId': string, f': Draws)
    requires ReturnOutcome(Run(warehouse, earlier).tables, warehouse, input, key, source, requestId, f).Accept?
    requires Plain(source') && ValidLength(again.order, 64) && ValidLength(again.original, 64)
    requires var events := earlier + [Call(CreateReturn(input, key, source, requestId), f)] + later;
             FindByPublicId(Run(warehouse, events).tables, again.original).Some?
    requires var book := BookAt(warehouse, earlier + [Call(CreateReturn(input, key, source, requestId), f)] + later);
             || (source' == source && TrimSpace(key') == TrimSpace(key))
             || (KeyHolders(book, source', TrimSpace(key')) == {}
                 && TrimSpace(again.order) == TrimSpace(input.order)
                 && TrimSpace(again.original) == TrimSpace(input.original))
    ensures var w := ReturnOutcome(Run(warehouse, earlier).tables, warehouse, input, key, source, requestId, f).write;
            ReturnTransaction(Run(warehouse,
                                  earlier + [Call(CreateReturn(input, key, source, requestId), f)] + later).tables,
                              warehouse, again, key', source', requestId', f')
            == if Equivalent(ReturnedSubject(input), ReturnedSubject(again)) then ReplayShipment(w.id)
               else Reject(IdempotencyConflict)
  {
    var id := ReturnOutcome(Run(warehouse, earlier).tables, warehouse, input, key, source, requestId, f).write.id;
    var first := earlier + [Call(CreateReturn(input, key, source, requestId), f)];
    ReturnRegisters(warehouse, earlier, input, key, source, requestId, f);
    RegistrationsLast(warehouse, first, later, id);
    LaterReturnIsAnswered(warehouse, first, later, id, again, key', source', requestId', f');
  }

  /** In every reachable database an order has one outbound shipment at most, and a return one shipment per original. */
  lemma OneShipmentPerBusiness(warehouse: Address, events: seq<Event>, a: nat, b: nat)
    requires a in BookAt(warehouse, events) && b in BookAt(warehouse, events)
    requires BusinessOf(BookAt(warehouse, events)[a].subject) == BusinessOf(BookAt(warehouse, events)[b].subject)
    ensures a == b
  {
    ReachedRows(warehouse, events);
    RegisteredOnce(Run(warehouse, events).tables, a, b);
  }

  // ----- when a first creation goes through -----

  /** Drawn row numbers and event id that no stored row uses. */
  ghost predicate UnusedRows(t: Tables, f: Draws) {
    && (forall i :: 0 <= i < |t.events| ==> t.events[i].id != f.eventRowId && t.events[i].eventId != EventId(f))
    && (forall i :: 0 <= i < |t.outbox| ==> t.outbox[i].id != f.outboxRowId)
  }

  /** An event key that is still free. */
  ghost predicate UnusedKey(events: seq<EventRow>, source: string, key: string) {
    forall i :: 0 <= i < |events| ==> !(events[i].source == source && events[i].key == key)
  }

  lemma EventTakenIff(t: Tables, e: EventRow, row: OutboxRow, f: Draws)
    requires Aligned(t) && e.id == f.eventRowId && e.eventId == EventId(f)
    requires row.id == f.outboxRowId && row.message.eventId == e.eventId && row.message.shipmentEventId == e.id
    ensures !EventTaken(t.events, e) && !OutboxTaken(t.outbox, row)
            <==> UnusedRows(t, f) && UnusedKey(t.events, e.source, e.key)
  {
    forall i | 0 <= i < |t.events|
      ensures SameEventColumn(t.events[i], e) <==>
                t.events[i].id == f.eventRowId || t.events[i].eventId == EventId(f)
                || (t.events[i].source == e.source && t.events[i].key == e.key)
      ensures SameOutboxColumn(t.outbox[i], row) <==>
                t.outbox[i].id == f.outboxRowId || t.events[i].id == f.eventRowId || t.events[i].eventId == EventId(f)
    {
      assert Described(t.events[i], t.audits[i], t.outbox[i].message);
    }
  }

  lemma RecordAcceptsIff(t: Tables, kind: OpKind, id: nat, s: Shipment, items: seq<ItemRow>, r: RecordInput, f: Draws)
    requires Aligned(t) && TrimSpace(r.key) != ""
    ensures Record(t, kind, id, s, items, r, f).Accept?
            <==> Recordable(r) && UnusedRows(t, f) && UnusedKey(t.events, TrimSpace(r.source), TrimSpace(r.key))
  {
    EventTakenIff(t, EventRowOf(id, r, f), OutboxRowOf(id, s, r, f), f);
  }

  lemma SuffixedKey(key: string, suffix: string)
    requires Trimmed(key) && key != "" && Trimmed(suffix) && suffix != ""
    ensures TrimSpace(key + suffix) == key + suffix && ByteLen(key + suffix) == ByteLen(key) + ByteLen(suffix)
  {
    TrimSpaceIsIdempotent(key + suffix);
    ByteLenOfConcat(key, suffix);
  }

  lemma {:induction false} AsciiByteLen(s: string)
    requires forall i :: 0 <= i < |s| ==> s[i] < '\U{80}'
    ensures ByteLen(s) == |s|
  {
    if s != "" {
      AsciiByteLen(s[1..]);
    }
  }

  lemma OriginTakenIff(t: Tables, o: Origin, b: Business, f: Draws)
    requires RowsKeyed(t.shipments) && RowsOk(t.shipments) && (b.OfReturn? ==> ColonFree(b.original))
    requires KeyHolders(BookOf(t), o.source, o.key) == {} && BusinessHolders(BookOf(t), b) == {}
    requires o.businessKey == BusinessText(b) && o.publicId == PublicId(f)
    requires o.shipmentNumber == f.shipmentNumber && o.trackingNumber == f.trackingNumber
    ensures !ShipmentTaken(t.shipments, f.shipmentId, o)
            <==> UnusedNumbers(t.shipments, f)
                 && (o.handoverCode.Some? ==> UnusedHandover(t.shipments, o.handoverCode.value))
  {
    HoldersAgree(t, o.source, o.key, b);
    forall id | id in t.shipments
      ensures SameUniqueColumn(t.shipments[id].origin, o) <==>
                t.shipments[id].origin.publicId == PublicId(f)
                || t.shipments[id].origin.shipmentNumber == f.shipmentNumber
                || t.shipments[id].origin.trackingNumber == f.trackingNumber
                || (o.handoverCode.Some? && t.shipments[id].origin.handoverCode == o.handoverCode)
    {
      assert id !in ByKey(t.shipments, o.source, o.key) && id !in ByBusinessKey(t.shipments, o.businessKey);
    }
  }

  lemma UnregisteredHasNoHolders(book: Book, s: Subject, source: string, key: string)
    requires Ask(book, s, source, key) == Unregistered
    ensures KeyHolders(book, source, key) == {} && BusinessHolders(book, BusinessOf(s)) == {}
  {
  }

  lemma FreeKeyIsInserted(t: Tables, warehouse: Address, input: CreateInput, key: string, source: string,
                          requestId: string, f: Draws)
    requires FindByKey(t, source, key) == None
    ensures CreateTransaction(t, warehouse, input, key, source, requestId, f)
            == InsertOutbound(t, warehouse, input, key, source, requestId, f)
  {
  }

  lemma HandedOverKey(key: string, suffix: string)
    requires Trimmed(key) && key != "" && suffix == "/handed-over"
    ensures TrimSpace(key + suffix) == key + suffix && ByteLen(key + suffix) == ByteLen(key) + 12
  {
    AsciiByteLen(suffix);
    SuffixedKey(key, suffix);
  }

  lemma RecordableIff(key: string, source: string, requestId: string, input: CreateInput, f: Draws)
    requires Plain(source) && ValidLength(source, 40) && Trimmed(key) && key != ""
    ensures var r := OutboundRecord(input, key, source, requestId, f);
            && TrimSpace(r.key) == key + "/handed-over" && TrimSpace(r.source) == source
            && (Recordable(r) <==> ByteLen(key) <= 116)
  {
    TrimSpaceIsIdempotent(source);
    HandedOverKey(key, "/handed-over");
  }

  lemma InsertOutboundAcceptsIff(t: Tables, warehouse: Address, input: CreateInput, key: string, source: string,
                                 requestId: string, f: Draws)
    requires RowsKeyed(t.shipments) && RowsOk(t.shipments) && Plain(source) && ValidLength(input.order, 64)
    requires KeyHolders(BookOf(t), source, TrimSpace(key)) == {}
    requires BusinessHolders(BookOf(t), OfOrder(TrimSpace(input.order))) == {}
    ensures InsertOutbound(t, warehouse, input, key, source, requestId, f).Accept?
            <==> && UnusedNumbers(t.shipments, f) && UnusedHandover(t.shipments, TrimSpace(input.handoverCode))
                 && Record(t, Creation, f.shipmentId, OutboundShipment(warehouse, input, key, source, f),
                           ItemRows(f.shipmentId, input.items), OutboundRecord(input, key, source, requestId, f),
                             f).Accept?
  {
    InsertOutboundRefines(t, warehouse, input, key, source, requestId, f);
    OriginTakenIff(t, OutboundShipment(warehouse, input, key, source, f).origin, OfOrder(TrimSpace(input.order)), f);
  }

  /**
   * A valid, unregistered Create goes through exactly when the drawn numbers, the handover code and the derived event
   * key are free and the key leaves room for that suffix: at most 116 bytes, although validation admits 128.
   */
  lemma FirstCreateSucceedsIff(t: Tables, warehouse: Address, input: CreateInput, key: string, source: string,
                               requestId: string, f: Draws)
    requires RowsKeyed(t.shipments) && RowsOk(t.shipments) && Aligned(t)
    requires Plain(source) && ValidLength(source, 40) && ValidLength(input.order, 64) && Trimmed(key) && key != ""
    requires Ask(BookOf(t), CreateSubject(input), source, key) == Unregistered
    ensures CreateTransaction(t, warehouse, input, key, source, requestId, f).Accept?
            <==> && UnusedNumbers(t.shipments, f) && UnusedHandover(t.shipments, TrimSpace(input.handoverCode))
                 && UnusedRows(t, f) && UnusedKey(t.events, source, key + "/handed-over") && ByteLen(key) <= 116
  {
    TrimSpaceIsIdempotent(key);
    UnregisteredHasNoHolders(BookOf(t), CreateSubject(input), source, key);
    KeyDecides(t, source, key);
    FreeKeyIsInserted(t, warehouse, input, key, source, requestId, f);
    InsertOutboundAcceptsIff(t, warehouse, input, key, source, requestId, f);
    RecordableIff(key, source, requestId, input, f);
    RecordAcceptsIff(t, Creation, f.shipmentId, OutboundShipment(warehouse, input, key, source, f),
                     ItemRows(f.shipmentId, input.items), OutboundRecord(input, key, source, requestId, f), f);
  }

  lemma CreatedKey(key: string, suffix: string)
    requires Trimmed(key) && key != "" && suffix == "/created"
    ensures TrimSpace(key + suffix) == key + suffix && ByteLen(key + suffix) == ByteLen(key) + 8
  {
    AsciiByteLen(suffix);
    SuffixedKey(key, suffix);
  }

  lemma ReturnRecordableIff(key: string, source: string, requestId: string, input: ReturnInput, f: Draws)
    requires Plain(source) && ValidLength(source, 40) && Trimmed(key) && key != ""
    ensures var r := ReturnRecord(input, key, source, requestId, f);
            && TrimSpace(r.key) == key + "/created" && TrimSpace(r.source) == source
            && (Recordable(r) <==> ByteLen(key) <= 120)
  {
    TrimSpaceIsIdempotent(source);
    CreatedKey(key, "/created");
  }

  lemma FreeKeyReturnIsInserted(t: Tables, warehouse: Address, input: ReturnInput, key: string, source: string,
                                requestId: string, f: Draws, id: nat)
    requires FindByKey(t, source, key) == None && FindByPublicId(t, input.original) == Some(id)
    ensures id in t.shipments && t.shipments[id].origin.publicId == TrimSpace(input.original)
    ensures ReturnTransaction(t, warehouse, input, key, source, requestId, f)
            == InsertReturn(t, warehouse, input, id, t.shipments[id].origin, key, source, requestId, f)
  {
  }

  lemma InsertReturnAcceptsIff(t: Tables, warehouse: Address, input: ReturnInput, id: nat, original: Origin,
                               key: string,
                               source: string, requestId: string, f: Draws)
    requires RowsKeyed(t.shipments) && RowsOk(t.shipments) && Plain(source)
    requires ValidLength(input.order, 64) && ValidLength(input.original, 64)
    requires id in t.shipments && t.shipments[id].origin == original && original.publicId == TrimSpace(input.original)
    requires KeyHolders(BookOf(t), source, TrimSpace(key)) == {}
    requires BusinessHolders(BookOf(t), OfReturn(TrimSpace(input.order), TrimSpace(input.original))) == {}
    ensures InsertReturn(t, warehouse, input, id, original, key, source, requestId, f).Accept?
            <==> && UnusedNumbers(t.shipments, f)
                 && Record(t, Creation, f.shipmentId, ReturnShipment(warehouse, input, id, original, key, source, f),
                           ItemRows(f.shipmentId, input.items), ReturnRecord(input, key, source, requestId, f),
                             f).Accept?
  {
    assert RowOk(t.shipments[id]);
    InsertReturnRefines(t, warehouse, input, id, original, key, source, requestId, f);
    OriginTakenIff(t, ReturnShipment(warehouse, input, id, original, key, source, f).origin,
                   OfReturn(TrimSpace(input.order), TrimSpace(input.original)), f);
  }

  /** The same for an unregistered return of a stored shipment; its suffix leaves room for 120 bytes. */
  lemma FirstReturnSucceedsIff(t: Tables, warehouse: Address, input: ReturnInput, key: string, source: string,
                               requestId: string, f: Draws, id: nat)
    requires RowsKeyed(t.shipments) && RowsOk(t.shipments) && Aligned(t)
    requires Plain(source) && ValidLength(source, 40) && Trimmed(key) && key != ""
    requires ValidLength(input.order, 64) && ValidLength(input.original, 64)
    requires FindByPublicId(t, input.original) == Some(id)
    requires Ask(BookOf(t), ReturnedSubject(input), source, key) == Unregistered
    ensures ReturnTransaction(t, warehouse, input, key, source, requestId, f).Accept?
            <==> && UnusedNumbers(t.shipments, f) && UnusedRows(t, f)
                 && UnusedKey(t.events, source, key + "/created") && ByteLen(key) <= 120
  {
    TrimSpaceIsIdempotent(key);
    UnregisteredHasNoHolders(BookOf(t), ReturnedSubject(input), source, key);
    KeyDecides(t, source, key);
    FreeKeyReturnIsInserted(t, warehouse, input, key, source, requestId, f, id);
    var original := t.shipments[id].origin;
    InsertReturnAcceptsIff(t, warehouse, input, id, original, key, source, requestId, f);
    ReturnRecordableIff(key, source, requestId, input, f);
    RecordAcceptsIff(t, Creation, f.shipmentId, ReturnShipment(warehouse, input, id, original, key, source, f),
                     ItemRows(f.shipmentId, input.items), ReturnRecord(input, key, source, requestId, f), f);
  }
}
