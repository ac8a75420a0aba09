/** What a caller of Create, CreateReturn or Cancel is promised, in the manner of module Answers. */
module Creations {
  import opened Text
  import opened Models
  import opened Items
  import opened Store
  import opened Operations
  import opened Writes
  import opened Columns
  import opened Answers

  // ----- what a creation stores -----

  ghost predicate ItemsStored(rows: seq<ItemRow>, id: nat, items: seq<ItemInput>) {
    && |rows| == |items|
    && forall i :: 0 <= i < |rows| ==>
         && rows[i].shipmentId == id && rows[i].productId == TrimSpace(items[i].productId)
         && rows[i].name == TrimSpace(items[i].name) && rows[i].sku == TrimSpace(items[i].sku)
         && rows[i].quantity == items[i].quantity
  }

  /** The drawn numbers, the key of the request, and a version that counts from one. */
  ghost predicate Registered(s: Shipment, key: string, source: string, f: Draws) {
    && s.origin.publicId == "shp_" + Hex(f.publicToken) && s.origin.shipmentNumber == f.shipmentNumber
    && s.origin.trackingNumber == f.trackingNumber && s.origin.source == source && s.origin.key == TrimSpace(key)
    && s.version == 1 && s.deliveredAt == None && s.stops == None
  }

  ghost predicate OutboundStored(s: Shipment, warehouse: Address, input: CreateInput, key: string, source: string,
                                 f: Draws) {
    && Registered(s, key, source, f) && !s.origin.isReturn && s.origin.original == None
    && s.origin.order == TrimSpace(input.order) && s.origin.customer == TrimSpace(input.customer)
    && s.origin.businessKey == "shipment:" + TrimSpace(input.order)
    && s.origin.handoverCode == Some(TrimSpace(input.handoverCode))
    && s.origin.carrier == TrimSpace(input.carrier) && s.origin.serviceLevel == TrimSpace(input.serviceLevel)
    && s.origin.sender == warehouse && TidiedFrom(s.origin.recipient, input.recipient)
    && s.status == AwaitingReceipt && s.eta == input.eta
  }

  ghost predicate ReturnStored(s: Shipment, warehouse: Address, input: ReturnInput, id: nat, original: Origin,
                               key: string,
                               source: string, f: Draws) {
    && Registered(s, key, source, f) && s.origin.isReturn && s.origin.original == Some(id)
    && s.origin.order == TrimSpace(input.order) && s.origin.customer == TrimSpace(input.customer)
    && s.origin.businessKey == "return:" + TrimSpace(input.order) + ":" + TrimSpace(input.original)
    && s.origin.handoverCode == None
    && s.origin.carrier == original.carrier && s.origin.serviceLevel == original.serviceLevel
    && TidiedFrom(s.origin.sender, input.customerAddress) && s.origin.recipient == warehouse
    && s.status == ReturnAuthorized && s.eta == NO_ETA
  }

  /** A row of its own, its items and its records, and nothing else. */
  ghost predicate Inserted(t: Tables, t': Tables, id: nat, items: seq<ItemInput>, who: Author, f: Draws) {
    && id !in t.shipments && id in t'.shipments && t'.shipments == t.shipments[id := t'.shipments[id]]
    && t.items <= t'.items && ItemsStored(t'.items[|t.items|..], id, items)
    && Logged(t, t', id, who, f)
  }

  lemma ItemsAreStored(t: Tables, id: nat, items: seq<ItemInput>)
    ensures ItemsStored((t.items + ItemRows(id, items))[|t.items|..], id, items)
  {
    assert (t.items + ItemRows(id, items))[|t.items|..] == ItemRows(id, items);
  }

  lemma PublicIdIs(f: Draws)
    ensures PublicId(f) == "shp_" + Hex(f.publicToken)
  {
    assert "shp" + "_" == "shp_";
  }

  lemma OutboundIsStored(warehouse: Address, input: CreateInput, key: string, source: string, f: Draws)
    ensures OutboundStored(OutboundShipment(warehouse, input, key, source, f), warehouse, input, key, source, f)
  {
    PublicIdIs(f);
    AddressIsValidIff(input.recipient);
  }

  lemma ReturnIsStored(warehouse: Address, input: ReturnInput, id: nat, original: Origin, key: string, source: string,
                       f: Draws)
    ensures ReturnStored(ReturnShipment(warehouse, input, id, original, key, source, f), warehouse, input, id, original,
                         key,
                         source, f)
  {
    PublicIdIs(f);
    AddressIsValidIff(input.customerAddress);
  }

  lemma WriteIsInserted(t: Tables, id: nat, s: Shipment, items: seq<ItemInput>, r: RecordInput, f: Draws,
                        actorId: string)
    requires id !in t.shipments && r.status == s.status && r.actorId == TrimSpace(actorId)
    ensures Inserted(t, Commit(t, WriteOf(Creation, id, s, ItemRows(id, items), r, f)), id, items,
                     AuthorOf(r).(actorId := actorId), f)
  {
    WriteIsLogged(t, Creation, id, s, ItemRows(id, items), r, f);
    SignedByTrimmed(EventRowOf(id, r, f), AuthorOf(r), f, actorId);
    ItemsAreStored(t, id, items);
  }

  /** An insertion with an event that says what the input of its record says. */
  ghost predicate InsertedSaying(t: Tables, t': Tables, id: nat, s: Shipment, items: seq<ItemInput>, r: RecordInput,
                                 actorId: string, f: Draws) {
    && Inserted(t, t', id, items, AuthorOf(r).(actorId := actorId), f) && t'.shipments[id] == s
    && Says(t'.events[|t.events|], TrimSpace(r.eventType), r.note, r.stops, r.eta, r.occurredAt)
    && t'.audits[|t.audits|].oldStatus == r.oldStatus
  }

  lemma WriteIsInsertedSaying(t: Tables, id: nat, s: Shipment, items: seq<ItemInput>, r: RecordInput, f: Draws,
                              actorId: string)
    requires id !in t.shipments && r.status == s.status && r.actorId == TrimSpace(actorId)
    ensures InsertedSaying(t, Commit(t, WriteOf(Creation, id, s, ItemRows(id, items), r, f)), id, s, items, r, actorId,
                           f)
  {
    WriteIsInserted(t, id, s, items, r, f, actorId);
    EventSays(id, r, f);
  }

  // ----- Create -----

  /** The stored shipment was asked for in the same words, up to outer white space and the order of its items. */
  ghost predicate SameCreate(t: Tables, id: nat, input: CreateInput)
    requires id in t.shipments
  {
    var o := t.shipments[id].origin;
    && !o.isReturn && o.order == TrimSpace(input.order) && o.customer == TrimSpace(input.customer)
    && o.handoverCode == Some(TrimSpace(input.handoverCode))
    && o.carrier == TrimSpace(input.carrier) && o.serviceLevel == TrimSpace(input.serviceLevel)
    && TidiedFrom(o.recipient, input.recipient)
    && SameLines(StoredLines(ItemsOf(t.items, id)), RequestedLines(input.items))
  }

  /** The stored shipment has the key of a request, or its business key. */
  ghost predicate Claims(t: Tables, id: nat, source: string, key: string, businessKey: string) {
    && id in t.shipments
    && var o := t.shipments[id].origin;
       (o.source == TrimSpace(source) && o.key == TrimSpace(key)) || o.businessKey == TrimSpace(businessKey)
  }

  ghost predicate CreationStored(t: Tables, t': Tables, warehouse: Address, input: CreateInput, key: string,
                                 source: string,
                          requestId: string, f: Draws) {
    && CreateFault(input, key, source) == None
    && Inserted(t, t', f.shipmentId, input.items,
                Author(source, key + "/handed-over", requestId, source, input.customer), f)
    && OutboundStored(t'.shipments[f.shipmentId], warehouse, input, key, source, f)
    && Says(t'.events[|t.events|], "shipment_handed_over", Generated, None, NO_ETA, f.now)
    && t'.audits[|t.audits|].oldStatus == Some(Created)
  }

  /** Columns that are taken, be it of the shipment or of its records. */
  ghost predicate NoRoom(t: Tables, o: Origin, source: string, key: string, f: Draws) {
    ShipmentTaken(t.shipments, f.shipmentId, o) || RecordTaken(t, source, key, f)
  }

  ghost predicate CreateRefusedFor(t: Tables, warehouse: Address, input: CreateInput, key: string, source: string,
                                   error: Error, f: Draws) {
    match error
    case InvalidShipment => CreateFault(input, key, source) == Some(InvalidShipment)
    case InvalidEta => !input.eta.Ordered()
    case IdempotencyConflict =>
      exists id :: Claims(t, id, source, key, "shipment:" + TrimSpace(input.order)) && !SameCreate(t, id, input)
    case InvalidEvent => !(Fills(TrimSpace(source), 80) && ByteLen(TrimSpace(key + "/handed-over")) <= 128)
    case DuplicateKey =>
      NoRoom(t, OutboundShipment(warehouse, input, key, source, f).origin, source, key + "/handed-over", f)
    case _ => false
  }

  /**
   * The promise of Create: the answer is an outbound row of that order; a new one, stored as asked with all its
   * records, or one that was there before, asked for in the same words; and any other answer leaves the tables alone
   * and has its reason.
   */
  ghost predicate CreatePromise(t: Tables, t': Tables, warehouse: Address, input: CreateInput, key: string,
                                source: string,
                                requestId: string, f: Draws, reply: Reply) {
    match reply
    case ShipmentReply(id, replayed) =>
      && id in t'.shipments && !t'.shipments[id].origin.isReturn
      && t'.shipments[id].origin.order == TrimSpace(input.order)
      && (replayed <==> id in t.shipments)
      && if replayed then
           t' == t && SameCreate(t, id, input) && Claims(t, id, source, key, "shipment:" + TrimSpace(input.order))
         else id == f.shipmentId && CreationStored(t, t', warehouse, input, key, source, requestId, f)
    case EventReply(_) => false
    case Failure(error) => t' == t && CreateRefusedFor(t, warehouse, input, key, source, error, f)
  }

  lemma SameCreateIff(t: Tables, id: nat, input: CreateInput)
    requires id in t.shipments
    ensures MatchesCreate(t, id, input) <==> SameCreate(t, id, input)
  {
    AddressIsValidIff(input.recipient);
  }

  lemma ReplayAnswersCreate(t: Tables, warehouse: Address, input: CreateInput, key: string, source: string,
                            requestId: string, f: Draws, id: nat)
    requires Claims(t, id, source, key, "shipment:" + TrimSpace(input.order))
    ensures CreatePromise(t, t, warehouse, input, key, source, requestId, f, ReplyOf(CreateReplay(t, id, input)))
    ensures !CreateReplay(t, id, input).Accept?
  {
    SameCreateIff(t, id, input);
  }

  lemma FoundByKey(t: Tables, source: string, key: string, businessKey: string)
    ensures FindByKey(t, source, key).Some? ==> Claims(t, FindByKey(t, source, key).value, source, key, businessKey)
    ensures FindByKeyOrBusiness(t, source, key, businessKey).Some? ==>
              Claims(t, FindByKeyOrBusiness(t, source, key, businessKey).value, source, key, businessKey)
  {
  }

  lemma OutboundSays(t: Tables, warehouse: Address, input: CreateInput, key: string, source: string, requestId: string,
                     f: Draws)
    requires CreateFault(input, key, source) == None && f.shipmentId !in t.shipments
    ensures CreationStored(t,
                           Commit(t, WriteOf(Creation, f.shipmentId, OutboundShipment(warehouse, input, key, source, f),
                                         ItemRows(f.shipmentId, input.items),
                                         OutboundRecord(input, key, source, requestId, f), f)),
                    warehouse, input, key, source, requestId, f)
  {
    var s, r := OutboundShipment(warehouse, input, key, source, f), OutboundRecord(input, key, source, requestId, f);
    WriteIsInsertedSaying(t, f.shipmentId, s, input.items, r, f, input.customer);
    OutboundIsStored(warehouse, input, key, source, f);
    OutboundRecordSays(input, key, source, requestId, f);
    CreatedIfSaid(t, Commit(t, WriteOf(Creation, f.shipmentId, s, ItemRows(f.shipmentId, input.items), r, f)), s,
                  warehouse,
                  input, key, source, requestId, f, r);
  }

  /** What the input of a creation's record says. */
  ghost predicate RecordSays(r: RecordInput, eventType: string, oldStatus: Option<ShipmentStatus>, who: Author,
                             now: int) {
    && r.eventType == eventType && TrimSpace(r.eventType) == eventType && r.note == Generated && r.stops == None
    && r.eta == NO_ETA && r.occurredAt == now && r.oldStatus == oldStatus
    && AuthorOf(r).(actorId := who.actorId) == who
  }

  lemma OutboundRecordSays(input: CreateInput, key: string, source: string, requestId: string, f: Draws)
    ensures RecordSays(OutboundRecord(input, key, source, requestId, f), "shipment_handed_over",
                       Some(Created),
                       Author(source, key + "/handed-over", requestId, source, input.customer), f.now)
  {
    TrimSpaceIsIdempotent(OutboundRecord(input, key, source, requestId, f).eventType);
  }

  lemma CreatedIfSaid(t: Tables, t': Tables, s: Shipment, warehouse: Address, input: CreateInput, key: string,
                      source: string, requestId: string, f: Draws, r: RecordInput)
    requires CreateFault(input, key, source) == None
    requires RecordSays(r, "shipment_handed_over", Some(Created),
                        Author(source, key + "/handed-over", requestId, source, input.customer), f.now)
    requires InsertedSaying(t, t', f.shipmentId, s, input.items, r, input.customer, f)
    requires OutboundStored(s, warehouse, input, key, source, f)
    ensures CreationStored(t, t', warehouse, input, key, source, requestId, f)
  {
  }

  lemma InsertionAnswersCreate(t: Tables, warehouse: Address, input: CreateInput, key: string, source: string,
                               requestId: string, f: Draws)
    requires CreateFault(input, key, source) == None
    requires !ShipmentTaken(t.shipments, f.shipmentId, OutboundShipment(warehouse, input, key, source, f).origin)
    ensures var o := Record(t, Creation, f.shipmentId, OutboundShipment(warehouse, input, key, source, f),
                            ItemRows(f.shipmentId, input.items), OutboundRecord(input, key, source, requestId, f), f);
            CreatePromise(t, After(t, o), warehouse, input, key, source, requestId, f, ReplyOf(o))
  {
    var s, r := OutboundShipment(warehouse, input, key, source, f), OutboundRecord(input, key, source, requestId, f);
    var rows := ItemRows(f.shipmentId, input.items);
    if Record(t, Creation, f.shipmentId, s, rows, r, f).Accept? {
      RecordWrites(t, Creation, f.shipmentId, s, rows, r, f);
      OutboundSays(t, warehouse, input, key, source, requestId, f);
    } else {
      RecordRefusal(t, Creation, f.shipmentId, s, rows, r, f);
    }
  }

  lemma OutboundCases(t: Tables, warehouse: Address, input: CreateInput, key: string, source: string, requestId: string,
                      f: Draws)
    ensures var s := OutboundShipment(warehouse, input, key, source, f);
            InsertOutbound(t, warehouse, input, key, source, requestId, f)
            == if ShipmentTaken(t.shipments, f.shipmentId, s.origin) then
                 match FindByKeyOrBusiness(t, source, key, "shipment:" + TrimSpace(input.order))
                 case Some(id) => CreateReplay(t, id, input)
                 case None => Reject(DuplicateKey)
               else
                 Record(t, Creation, f.shipmentId, s, ItemRows(f.shipmentId, input.items),
                        OutboundRecord(input, key, source, requestId, f), f)
  {
  }

  lemma FreeKeyAnswersCreate(t: Tables, warehouse: Address, input: CreateInput, key: string, source: string,
                             requestId: string, f: Draws)
    requires CreateFault(input, key, source) == None
    ensures var o := InsertOutbound(t, warehouse, input, key, source, requestId, f);
            CreatePromise(t, After(t, o), warehouse, input, key, source, requestId, f, ReplyOf(o))
  {
    OutboundCases(t, warehouse, input, key, source, requestId, f);
    var businessKey := "shipment:" + TrimSpace(input.order);
    if ShipmentTaken(t.shipments, f.shipmentId, OutboundShipment(warehouse, input, key, source, f).origin) {
      FoundByKey(t, source, key, businessKey);
      var found := FindByKeyOrBusiness(t, source, key, businessKey);
      if found.Some? {
        ReplayAnswersCreate(t, warehouse, input, key, source, requestId, f, found.value);
      }
    } else {
      InsertionAnswersCreate(t, warehouse, input, key, source, requestId, f);
    }
  }

  lemma CreateCases(t: Tables, warehouse: Address, input: CreateInput, key: string, source: string, requestId: string,
                    f: Draws)
    ensures CreateOutcome(t, warehouse, input, key, source, requestId, f)
            == match CreateFault(input, key, source)
               case Some(fault) => Reject(fault)
               case None =>
                 match FindByKey(t, source, key)
                 case Some(id) => CreateReplay(t, id, input)
                 case None => InsertOutbound(t, warehouse, input, key, source, requestId, f)
  {
  }

  /** Create keeps its promise. */
  lemma CreateKeepsPromise(t: Tables, warehouse: Address, input: CreateInput, key: string, source: string,
                         requestId: string, f: Draws)
    ensures var o := CreateOutcome(t, warehouse, input, key, source, requestId, f);
            CreatePromise(t, After(t, o), warehouse, input, key, source, requestId, f, ReplyOf(o))
  {
    CreateCases(t, warehouse, input, key, source, requestId, f);
    CreateFaultIs(input, key, source);
    if CreateFault(input, key, source) == None {
      FoundByKey(t, source, key, "shipment:" + TrimSpace(input.order));
      var found := FindByKey(t, source, key);
      if found.Some? {
        ReplayAnswersCreate(t, warehouse, input, key, source, requestId, f, found.value);
      } else {
        FreeKeyAnswersCreate(t, warehouse, input, key, source, requestId, f);
      }
    }
  }

  // ----- CreateReturn -----

  /** The same for a return, which also names the same original. */
  ghost predicate SameReturn(t: Tables, id: nat, input: ReturnInput)
    requires id in t.shipments
  {
    var o := t.shipments[id].origin;
    && o.isReturn && o.order == TrimSpace(input.order) && o.customer == TrimSpace(input.customer)
    && TidiedFrom(o.sender, input.customerAddress)
    && SameLines(StoredLines(ItemsOf(t.items, id)), RequestedLines(input.items))
    && o.original.Some? && o.original.value in t.shipments
    && t.shipments[o.original.value].origin.publicId == TrimSpace(input.original)
  }

  ghost predicate ReturnCreated(t: Tables, t': Tables, warehouse: Address, input: ReturnInput, key: string,
                                source: string,
                           requestId: string, f: Draws) {
    && ReturnFault(input, key, source) == None
    && Inserted(t, t', f.shipmentId, input.items, Author(source, key + "/created", requestId, source, input.customer),
                f)
    && (exists id :: id in t.shipments && t.shipments[id].origin.publicId == TrimSpace(input.original)
                     && ReturnStored(t'.shipments[f.shipmentId], warehouse, input, id, t.shipments[id].origin, key,
                                     source, f))
    && Says(t'.events[|t.events|], "return_authorized", Generated, None, NO_ETA, f.now)
    && t'.audits[|t.audits|].oldStatus == None
  }

  function ReturnKey(input: ReturnInput): (businessKey: string) {
    "return:" + TrimSpace(input.order) + ":" + TrimSpace(input.original)
  }

  ghost predicate ReturnRefusedFor(t: Tables, warehouse: Address, input: ReturnInput, key: string, source: string,
                                   error: Error, f: Draws) {
    match error
    case InvalidShipment => ReturnFault(input, key, source) == Some(InvalidShipment)
    case ShipmentNotFound =>
      forall id :: id in t.shipments ==> t.shipments[id].origin.publicId != TrimSpace(input.original)
    case IdempotencyConflict => exists id :: Claims(t, id, source, key, ReturnKey(input)) && !SameReturn(t, id, input)
    case MissingRow =>
      exists id :: Claims(t, id, source, key, ReturnKey(input)) && t.shipments[id].origin.original.Some?
                   && t.shipments[id].origin.original.value !in t.shipments
    case InvalidEvent => !(Fills(TrimSpace(source), 80) && ByteLen(TrimSpace(key + "/created")) <= 128)
    case DuplicateKey =>
      exists id :: id in t.shipments
                   && NoRoom(t, ReturnShipment(warehouse, input, id, t.shipments[id].origin, key, source, f).origin,
                             source,
                             key + "/created", f)
    case _ => false
  }

  /** The promise of CreateReturn: a return of that order and original, new and stored as asked, or there before. */
  ghost predicate ReturnPromise(t: Tables, t': Tables, warehouse: Address, input: ReturnInput, key: string,
                                source: string,
                                requestId: string, f: Draws, reply: Reply) {
    match reply
    case ShipmentReply(id, replayed) =>
      && id in t'.shipments && t'.shipments[id].origin.isReturn
      && t'.shipments[id].origin.order == TrimSpace(input.order)
      && t'.shipments[id].origin.original.Some? && t'.shipments[id].origin.original.value in t'.shipments
      && t'.shipments[t'.shipments[id].origin.original.value].origin.publicId == TrimSpace(input.original)
      && (replayed <==> id in t.shipments)
      && if replayed then t' == t && SameReturn(t, id, input) && Claims(t, id, source, key, ReturnKey(input))
         else id == f.shipmentId && ReturnCreated(t, t', warehouse, input, key, source, requestId, f)
    case EventReply(_) => false
    case Failure(error) => t' == t && ReturnRefusedFor(t, warehouse, input, key, source, error, f)
  }

  lemma SameReturnIff(t: Tables, id: nat, input: ReturnInput)
    requires id in t.shipments
    ensures MatchesReturn(t, id, input) == Same <==> SameReturn(t, id, input)
    ensures MatchesReturn(t, id, input) == Broken ==>
              t.shipments[id].origin.original.Some? && t.shipments[id].origin.original.value !in t.shipments
  {
    AddressIsValidIff(input.customerAddress);
  }

  lemma ReplayAnswersReturn(t: Tables, warehouse: Address, input: ReturnInput, key: string, source: string,
                            requestId: string, f: Draws, id: nat)
    requires Claims(t, id, source, key, ReturnKey(input))
    ensures ReturnPromise(t, t, warehouse, input, key, source, requestId, f, ReplyOf(ReturnReplay(t, id, input)))
    ensures !ReturnReplay(t, id, input).Accept?
  {
    SameReturnIff(t, id, input);
  }

  lemma ReturnSays(t: Tables, warehouse: Address, input: ReturnInput, id: nat, key: string, source: string,
                   requestId: string, f: Draws)
    requires ReturnFault(input, key, source) == None && f.shipmentId !in t.shipments
    requires id in t.shipments && t.shipments[id].origin.publicId == TrimSpace(input.original)
    ensures var original := t.shipments[id].origin;
            ReturnCreated(t, Commit(t, WriteOf(Creation, f.shipmentId,
                                          ReturnShipment(warehouse, input, id, original, key, source, f),
                                          ItemRows(f.shipmentId, input.items),
                                          ReturnRecord(input, key, source, requestId, f), f)),
                     warehouse, input, key, source, requestId, f)
  {
    var original := t.shipments[id].origin;
    var s, r := ReturnShipment(warehouse, input, id, original, key, source, f),
      ReturnRecord(input, key, source, requestId, f);
    WriteIsInsertedSaying(t, f.shipmentId, s, input.items, r, f, input.customer);
    ReturnIsStored(warehouse, input, id, original, key, source, f);
    ReturnRecordSays(input, key, source, requestId, f);
    ReturnedIfSaid(t, Commit(t, WriteOf(Creation, f.shipmentId, s, ItemRows(f.shipmentId, input.items), r, f)), s,
                   warehouse,
                   input, id, key, source, requestId, f, r);
  }

  lemma ReturnRecordSays(input: ReturnInput, key: string, source: string, requestId: string, f: Draws)
    ensures RecordSays(ReturnRecord(input, key, source, requestId, f), "return_authorized", None,
                       Author(source, key + "/created", requestId, source, input.customer), f.now)
  {
    TrimSpaceIsIdempotent(ReturnRecord(input, key, source, requestId, f).eventType);
  }

  lemma ReturnedIfSaid(t: Tables, t': Tables, s: Shipment, warehouse: Address, input: ReturnInput, id: nat, key: string,
                       source: string, requestId: string, f: Draws, r: RecordInput)
    requires ReturnFault(input, key, source) == None
    requires RecordSays(r, "return_authorized", None,
                        Author(source, key + "/created", requestId, source, input.customer),
                        f.now)
    requires InsertedSaying(t, t', f.shipmentId, s, input.items, r, input.customer, f)
    requires id in t.shipments && t.shipments[id].origin.publicId == TrimSpace(input.original)
    requires ReturnStored(s, warehouse, input, id, t.shipments[id].origin, key, source, f)
    ensures ReturnCreated(t, t', warehouse, input, key, source, requestId, f)
  {
  }

  lemma ReturnedIsPromised(t: Tables, t': Tables, warehouse: Address, input: ReturnInput, key: string, source: string,
                           requestId: string, f: Draws)
    requires ReturnCreated(t, t', warehouse, input, key, source, requestId, f)
    ensures ReturnPromise(t, t', warehouse, input, key, source, requestId, f, ShipmentReply(f.shipmentId, false))
  {
    var id :| id in t.shipments && t.shipments[id].origin.publicId == TrimSpace(input.original)
              && ReturnStored(t'.shipments[f.shipmentId], warehouse, input, id, t.shipments[id].origin, key, source, f);
    assert id in t'.shipments && id != f.shipmentId && t'.shipments[id] == t.shipments[id];
  }

  lemma RejectedReturn(t: Tables, warehouse: Address, input: ReturnInput, id: nat, key: string, source: string,
                       requestId: string, f: Draws, error: Error)
    requires id in t.shipments && (error == InvalidEvent || error == DuplicateKey)
    requires error == InvalidEvent ==> !(Fills(TrimSpace(source), 80) && ByteLen(TrimSpace(key + "/created")) <= 128)
    requires error == DuplicateKey ==> RecordTaken(t, source, key + "/created", f)
    ensures ReturnPromise(t, t, warehouse, input, key, source, requestId, f, Failure(error))
  {
    assert error == DuplicateKey ==>
        NoRoom(t, ReturnShipment(warehouse, input, id, t.shipments[id].origin, key, source, f).origin, source,
               key + "/created", f);
  }

  lemma RejectedRecordAnswersReturn(t: Tables, warehouse: Address, input: ReturnInput, id: nat, key: string,
                                    source: string,
                                    requestId: string, f: Draws, s: Shipment, rows: seq<ItemRow>, r: RecordInput)
    requires id in t.shipments && r.source == source && r.key == key + "/created"
    requires !Record(t, Creation, f.shipmentId, s, rows, r, f).Accept?
    ensures var o := Record(t, Creation, f.shipmentId, s, rows, r, f);
            ReturnPromise(t, After(t, o), warehouse, input, key, source, requestId, f, ReplyOf(o))
  {
    RecordRefusal(t, Creation, f.shipmentId, s, rows, r, f);
    RejectedReturn(t, warehouse, input, id, key, source, requestId, f,
                   Record(t, Creation, f.shipmentId, s, rows, r, f).error);
  }

  lemma AcceptedRecordAnswersReturn(t: Tables, warehouse: Address, input: ReturnInput, key: string, source: string,
                                    requestId: string, f: Draws, s: Shipment, rows: seq<ItemRow>, r: RecordInput,
                                    w: Write)
    requires Record(t, Creation, f.shipmentId, s, rows, r, f) == Accept(w) && w.id == f.shipmentId && w.kind == Creation
    requires ReturnCreated(t, Commit(t, w), warehouse, input, key, source, requestId, f)
    ensures var o := Record(t, Creation, f.shipmentId, s, rows, r, f);
            ReturnPromise(t, After(t, o), warehouse, input, key, source, requestId, f, ReplyOf(o))
  {
    ReturnedIsPromised(t, Commit(t, w), warehouse, input, key, source, requestId, f);
  }

  lemma InsertionAnswersReturn(t: Tables, warehouse: Address, input: ReturnInput, id: nat, key: string, source: string,
                               requestId: string, f: Draws)
    requires ReturnFault(input, key, source) == None
    requires id in t.shipments && t.shipments[id].origin.publicId == TrimSpace(input.original)
    requires !ShipmentTaken(t.shipments, f.shipmentId,
                            ReturnShipment(warehouse, input, id, t.shipments[id].origin, key, source, f).origin)
    ensures var o := Record(t, Creation, f.shipmentId,
                            ReturnShipment(warehouse, input, id, t.shipments[id].origin, key, source, f),
                            ItemRows(f.shipmentId, input.items), ReturnRecord(input, key, source, requestId, f), f);
            ReturnPromise(t, After(t, o), warehouse, input, key, source, requestId, f, ReplyOf(o))
  {
    var s := ReturnShipment(warehouse, input, id, t.shipments[id].origin, key, source, f);
    var rows, r := ItemRows(f.shipmentId, input.items), ReturnRecord(input, key, source, requestId, f);
    if Record(t, Creation, f.shipmentId, s, rows, r, f).Accept? {
      RecordWrites(t, Creation, f.shipmentId, s, rows, r, f);
      ReturnSays(t, warehouse, input, id, key, source, requestId, f);
      AcceptedRecordAnswersReturn(t, warehouse, input, key, source, requestId, f, s, rows, r,
                                  WriteOf(Creation, f.shipmentId, s, rows, r, f));
    } else {
      RejectedRecordAnswersReturn(t, warehouse, input, id, key, source, requestId, f, s, rows, r);
    }
  }

  lemma ReturnInsertCases(t: Tables, warehouse: Address, input: ReturnInput, id: nat, original: Origin, key: string,
                          source: string, requestId: string, f: Draws)
    ensures var s := ReturnShipment(warehouse, input, id, original, key, source, f);
            InsertReturn(t, warehouse, input, id, original, key, source, requestId, f)
            == if ShipmentTaken(t.shipments, f.shipmentId, s.origin) then
                 match FindByKeyOrBusiness(t, source, key, ReturnKey(input))
                 case Some(found) => ReturnReplay(t, found, input)
                 case None => Reject(DuplicateKey)
               else
                 Record(t, Creation, f.shipmentId, s, ItemRows(f.shipmentId, input.items),
                        ReturnRecord(input, key, source, requestId, f), f)
  {
  }

  lemma TakenAnswersReturn(t: Tables, warehouse: Address, input: ReturnInput, id: nat, key: string, source: string,
                           requestId: string, f: Draws)
    requires id in t.shipments
    requires ShipmentTaken(t.shipments, f.shipmentId,
                           ReturnShipment(warehouse, input, id, t.shipments[id].origin, key, source, f).origin)
    ensures var o := match FindByKeyOrBusiness(t, source, key, ReturnKey(input))
                     case Some(found) => ReturnReplay(t, found, input)
                     case None => Reject(DuplicateKey);
            ReturnPromise(t, After(t, o), warehouse, input, key, source, requestId, f, ReplyOf(o))
  {
    FoundByKey(t, source, key, ReturnKey(input));
    var found := FindByKeyOrBusiness(t, source, key, ReturnKey(input));
    if found.Some? {
      ReplayAnswersReturn(t, warehouse, input, key, source, requestId, f, found.value);
    } else {
      assert NoRoom(t, ReturnShipment(warehouse, input, id, t.shipments[id].origin, key, source, f).origin, source,
                    key + "/created", f);
    }
  }

  lemma FreeKeyAnswersReturn(t: Tables, warehouse: Address, input: ReturnInput, id: nat, key: string, source: string,
                             requestId: string, f: Draws)
    requires ReturnFault(input, key, source) == None
    requires id in t.shipments && t.shipments[id].origin.publicId == TrimSpace(input.original)
    ensures var o := InsertReturn(t, warehouse, input, id, t.shipments[id].origin, key, source, requestId, f);
            ReturnPromise(t, After(t, o), warehouse, input, key, source, requestId, f, ReplyOf(o))
  {
    var s := ReturnShipment(warehouse, input, id, t.shipments[id].origin, key, source, f);
    ReturnInsertCases(t, warehouse, input, id, t.shipments[id].origin, key, source, requestId, f);
    if ShipmentTaken(t.shipments, f.shipmentId, s.origin) {
      TakenAnswersReturn(t, warehouse, input, id, key, source, requestId, f);
    } else {
      InsertionAnswersReturn(t, warehouse, input, id, key, source, requestId, f);
    }
  }

  lemma ReturnCases(t: Tables, warehouse: Address, input: ReturnInput, key: string, source: string, requestId: string,
                    f: Draws)
    ensures ReturnOutcome(t, warehouse, input, key, source, requestId, f)
            == match ReturnFault(input, key, source)
               case Some(fault) => Reject(fault)
               case None =>
                 match FindByKey(t, source, key)
                 case Some(id) => ReturnReplay(t, id, input)
                 case None =>
                   match FindByPublicId(t, input.original)
                   case None => Reject(ShipmentNotFound)
                   case Some(id) =>
                     InsertReturn(t, warehouse, input, id, t.shipments[id].origin, key, source, requestId, f)
  {
  }

  lemma ReturnFaultIs(input: ReturnInput, key: string, source: string)
    ensures ReturnFault(input, key, source).Some? ==> ReturnFault(input, key, source).value == InvalidShipment
  {
  }

  /** CreateReturn keeps its promise. */
  lemma ReturnKeepsPromise(t: Tables, warehouse: Address, input: ReturnInput, key: string, source: string,
                         requestId: string, f: Draws)
    ensures var o := ReturnOutcome(t, warehouse, input, key, source, requestId, f);
            ReturnPromise(t, After(t, o), warehouse, input, key, source, requestId, f, ReplyOf(o))
  {
    ReturnCases(t, warehouse, input, key, source, requestId, f);
    ReturnFaultIs(input, key, source);
    if ReturnFault(input, key, source) == None {
      FoundByKey(t, source, key, ReturnKey(input));
      var found, original := FindByKey(t, source, key), FindByPublicId(t, input.original);
      if found.Some? {
        ReplayAnswersReturn(t, warehouse, input, key, source, requestId, f, found.value);
      } else if original.Some? {
        FreeKeyAnswersReturn(t, warehouse, input, original.value, key, source, requestId, f);
      } else {
        NotNamed(t, input.original);
      }
    }
  }

  // ----- Cancel -----

  /** An outbound shipment with this public id. */
  ghost predicate NamesOutbound(t: Tables, id: nat, publicId: string) {
    id in t.shipments && t.shipments[id].origin.publicId == TrimSpace(publicId) && !t.shipments[id].origin.isReturn
  }

  const CANCELLED_ALREADY: set<ShipmentStatus> := {Cancelled, ReturnToSenderRequested}

  const TOO_LATE: set<ShipmentStatus> := {
    Delivered, ReturnToSenderPrepared, ReturnToSenderInTransit, ReturnToSenderReceived}

  /** The transition that a cancellation asks for, as an administrator on behalf of the calling service. */
  function CancelTransition(publicId: string, key: string, requestId: string, source: string, status: ShipmentStatus)
    : (call: RowCall)
  {
    TransitionCall(Meta(publicId, RoleAdmin, source, key, requestId, source), status,
                   if status == AwaitingReceipt then Cancelled else ReturnToSenderRequested)
  }

  /**
   * The promise of Cancel: a shipment that is cancelled already is answered as it is, one that is past cancelling is
   * refused, and any other goes through the transition that its status calls for, whose promise then holds.
   */
  ghost predicate CancelPromise(t: Tables, t': Tables, publicId: string, key: string, requestId: string, source: string,
                                f: Draws, reply: Reply) {
    || (reply == Failure(ShipmentNotFound) && t' == t && forall id :: !NamesOutbound(t, id, publicId))
    || exists id :: NamesOutbound(t, id, publicId)
                    && var status := t.shipments[id].status;
                       if status in CANCELLED_ALREADY then reply == ShipmentReply(id, true) && t' == t
                       else if status in TOO_LATE then reply == Failure(InvalidTransition) && t' == t
                       else ChangePromise(t, t', CancelTransition(publicId, key, requestId, source, status), f, reply)
  }

  lemma NoOutboundNamed(t: Tables, publicId: string)
    requires OutboundByPublicId(t, publicId) == None
    ensures forall id :: !NamesOutbound(t, id, publicId)
  {
  }

  lemma CancelCases(t: Tables, id: nat, publicId: string, key: string, requestId: string, source: string, f: Draws)
    requires OutboundByPublicId(t, publicId) == Some(id)
    ensures CancelOutcome(t, publicId, key, requestId, source, f)
            == var status := t.shipments[id].status;
               if status in CANCELLED_ALREADY then ReplayShipment(id)
               else if status in TOO_LATE then Reject(InvalidTransition)
               else RowOutcome(t, CancelTransition(publicId, key, requestId, source, status), f)
  {
  }

  /** Cancel keeps its promise. */
  lemma CancelKeepsPromise(t: Tables, publicId: string, key: string, requestId: string, source: string, f: Draws)
    ensures var o := CancelOutcome(t, publicId, key, requestId, source, f);
            CancelPromise(t, After(t, o), publicId, key, requestId, source, f, ReplyOf(o))
  {
    var found := OutboundByPublicId(t, publicId);
    if found == None {
      NoOutboundNamed(t, publicId);
    } else {
      CancelCases(t, found.value, publicId, key, requestId, source, f);
      assert NamesOutbound(t, found.value, publicId);
      ChangesKeepPromise(t, CancelTransition(publicId, key, requestId, source, t.shipments[found.value].status), f);
    }
  }
}
