/**
 * What validation is for: a request is valid exactly if what would be stored fits, and everything that is stored does.
 */
module Columns {
  import opened Text
  import opened Models
  import opened Items
  import opened Store
  import opened Operations
  import opened Writes
  import opened Runs

  /** A text that is there, in at most so many bytes. */
  predicate Fills(s: string, maximum: nat) {
    1 <= ByteLen(s) <= maximum
  }

  predicate FiveDigits(s: string) {
    |s| == 5 && forall c :: c in s ==> '0' <= c <= '9'
  }

  /** An address as it is stored. */
  predicate AddressFits(n: Address) {
    && Fills(n.firstName, 100) && Fills(n.lastName, 100) && ByteLen(n.company) <= 160
    && Fills(n.street, 160) && Fills(n.houseNumber, 30) && ByteLen(n.addressLine2) <= 160
    && Fills(n.postalCode, 20) && Fills(n.city, 120) && ByteLen(n.state) <= 120 && ByteLen(n.phone) <= 40
    && ByteLen(n.countryCode) == 2 && (n.countryCode == "DE" ==> FiveDigits(n.postalCode))
  }

  /** The stored address is the given one without outer white space, its country in capitals. */
  predicate TidiedFrom(n: Address, a: Address) {
    && n.firstName == TrimSpace(a.firstName) && n.lastName == TrimSpace(a.lastName)
    && n.company == TrimSpace(a.company) && n.street == TrimSpace(a.street)
    && n.houseNumber == TrimSpace(a.houseNumber) && n.addressLine2 == TrimSpace(a.addressLine2)
    && n.postalCode == TrimSpace(a.postalCode) && n.city == TrimSpace(a.city) && n.state == TrimSpace(a.state)
    && n.countryCode == ToUpper(TrimSpace(a.countryCode)) && n.phone == TrimSpace(a.phone)
  }

  lemma AddressIsValidIff(a: Address)
    ensures ValidAddress(a) <==> AddressFits(NormalizeAddress(a))
    ensures TidiedFrom(NormalizeAddress(a), a)
  {
    var postal := TrimSpace(a.postalCode);
    if GermanPostalCode(postal) {
      forall c | c in postal ensures '0' <= c <= '9' {
        var i :| 0 <= i < |postal| && postal[i] == c;
      }
    }
    if FiveDigits(postal) {
      assert forall i :: 0 <= i < |postal| ==> postal[i] in postal;
    }
  }

  predicate ItemFits(row: ItemRow) {
    Fills(row.productId, 64) && Fills(row.name, 255) && ByteLen(row.sku) <= 100 && row.quantity >= 1
  }

  /** One to 500 items, all of which fit. */
  predicate ItemsFit(rows: seq<ItemRow>) {
    1 <= |rows| <= 500 && forall i :: 0 <= i < |rows| ==> ItemFits(rows[i])
  }

  lemma ItemsAreValidIff(id: nat, items: seq<ItemInput>)
    ensures ValidItems(items) && 1 <= |items| <= 500 <==> ItemsFit(ItemRows(id, items))
  {
    var rows := ItemRows(id, items);
    forall i | 0 <= i < |items| ensures ValidItem(items[i]) <==> ItemFits(rows[i]) {
    }
  }

  /** The columns that every creation fills. */
  predicate KeysFit(o: Origin) {
    && Fills(o.order, 64) && Fills(o.customer, 64) && Fills(o.key, 128) && Fills(TrimSpace(o.source), 40)
  }

  predicate OutboundFits(o: Origin) {
    && KeysFit(o) && o.handoverCode.Some? && Fills(o.handoverCode.value, 64)
    && Fills(o.carrier, 80) && Fills(o.serviceLevel, 80) && AddressFits(o.recipient)
  }

  predicate ReturnFits(o: Origin) {
    KeysFit(o) && AddressFits(o.sender)
  }

  lemma CreateFaultIff(input: CreateInput, key: string, source: string, addressValid: bool, itemsValid: bool)
    requires addressValid == ValidAddress(input.recipient)
    requires itemsValid == (ValidItems(input.items) && 1 <= |input.items| <= 500)
    ensures CreateFault(input, key, source) == None
            <==> && Fills(TrimSpace(input.order), 64) && Fills(TrimSpace(input.customer), 64)
                 && Fills(TrimSpace(key), 128)
                 && Fills(TrimSpace(source), 40) && Fills(TrimSpace(input.handoverCode), 64)
                 && Fills(TrimSpace(input.carrier), 80) && Fills(TrimSpace(input.serviceLevel), 80)
                 && addressValid && itemsValid && input.eta.Ordered()
  {
  }

  /** What a refused Create is told. */
  lemma CreateFaultIs(input: CreateInput, key: string, source: string)
    ensures CreateFault(input, key, source).Some? ==>
              CreateFault(input, key, source).value == InvalidShipment
              || (CreateFault(input, key, source).value == InvalidEta && !input.eta.Ordered())
  {
  }

  lemma OutboundFitsIff(warehouse: Address, input: CreateInput, key: string, source: string, f: Draws,
                        addressFits: bool)
    requires addressFits == AddressFits(NormalizeAddress(input.recipient))
    ensures OutboundFits(OutboundShipment(warehouse, input, key, source, f).origin)
            <==> && Fills(TrimSpace(input.order), 64) && Fills(TrimSpace(input.customer), 64)
                 && Fills(TrimSpace(key), 128)
                 && Fills(TrimSpace(source), 40) && Fills(TrimSpace(input.handoverCode), 64)
                 && Fills(TrimSpace(input.carrier), 80) && Fills(TrimSpace(input.serviceLevel), 80) && addressFits
  {
  }

  /** A Create is valid exactly if the row and the items that it would store fit and its estimate is ordered. */
  lemma CreateIsValidIff(warehouse: Address, input: CreateInput, key: string, source: string, f: Draws)
    ensures CreateFault(input, key, source) == None
            <==> && OutboundFits(OutboundShipment(warehouse, input, key, source, f).origin)
                 && ItemsFit(ItemRows(f.shipmentId, input.items)) && input.eta.Ordered()
  {
    AddressIsValidIff(input.recipient);
    ItemsAreValidIff(f.shipmentId, input.items);
    CreateFaultIff(input, key, source, AddressFits(NormalizeAddress(input.recipient)),
                   ItemsFit(ItemRows(f.shipmentId, input.items)));
    OutboundFitsIff(warehouse, input, key, source, f, AddressFits(NormalizeAddress(input.recipient)));
  }

  /** A return likewise; it has no estimate, and takes carrier and service from the shipment it names. */
  lemma ReturnIsValidIff(warehouse: Address, input: ReturnInput, id: nat, original: Origin, key: string, source: string,
                         f: Draws)
    ensures ReturnFault(input, key, source) == None
            <==> && ReturnFits(ReturnShipment(warehouse, input, id, original, key, source, f).origin)
                 && ItemsFit(ItemRows(f.shipmentId, input.items)) && Fills(TrimSpace(input.original), 64)
    ensures ReturnFault(input, key, source).Some? ==> ReturnFault(input, key, source).value == InvalidShipment
  {
    AddressIsValidIff(input.customerAddress);
    ItemsAreValidIff(f.shipmentId, input.items);
  }

  // ----- whole runs -----

  /** Outbound shipments go from the warehouse, returns to it, as their original was carried. */
  ghost predicate RowFits(warehouse: Address, shipments: map<nat, Shipment>, o: Origin) {
    if o.isReturn then
      && ReturnFits(o) && o.recipient == warehouse && o.original.Some? && o.original.value in shipments
      && o.carrier == shipments[o.original.value].origin.carrier
      && o.serviceLevel == shipments[o.original.value].origin.serviceLevel
    else
      OutboundFits(o) && o.sender == warehouse
  }

  ghost predicate AllFit(warehouse: Address, t: Tables) {
    && (forall id :: id in t.shipments ==> RowFits(warehouse, t.shipments, t.shipments[id].origin))
    && forall i :: 0 <= i < |t.items| ==> ItemFits(t.items[i])
  }

  lemma RowStillFits(warehouse: Address, t: Tables, w: Write, o: Origin)
    requires Lawful(t, w) && RowFits(warehouse, t.shipments, o)
    ensures RowFits(warehouse, Commit(t, w).shipments, o)
  {
  }

  lemma ItemsStillFit(t: Tables, w: Write)
    requires forall i :: 0 <= i < |t.items| ==> ItemFits(t.items[i])
    requires w.items == [] || ItemsFit(w.items)
    ensures forall i :: 0 <= i < |t.items + w.items| ==> ItemFits((t.items + w.items)[i])
  {
  }

  lemma RowsStillFit(warehouse: Address, t: Tables, w: Write)
    requires Lawful(t, w) && AllFit(warehouse, t)
    requires w.kind == Creation ==> RowFits(warehouse, t.shipments, w.shipment.origin)
    ensures forall id :: id in Commit(t, w).shipments ==>
              RowFits(warehouse, Commit(t, w).shipments, Commit(t, w).shipments[id].origin)
  {
    forall id | id in Commit(t, w).shipments
      ensures RowFits(warehouse, Commit(t, w).shipments, Commit(t, w).shipments[id].origin)
    {
      RowStillFits(warehouse, t, w, if id == w.id then w.shipment.origin else t.shipments[id].origin);
    }
  }

  lemma CommitFits(warehouse: Address, t: Tables, w: Write)
    requires Lawful(t, w) && AllFit(warehouse, t)
    requires w.kind == Creation ==> RowFits(warehouse, t.shipments, w.shipment.origin) && ItemsFit(w.items)
    ensures AllFit(warehouse, Commit(t, w))
  {
    RowsStillFit(warehouse, t, w);
    ItemsStillFit(t, w);
  }

  lemma CreationFits(warehouse: Address, t: Tables, q: Request, f: Draws)
    requires (q.Create? || q.CreateReturn?) && OutcomeOf(t, warehouse, q, f).Accept?
    ensures var w := OutcomeOf(t, warehouse, q, f).write;
            RowFits(warehouse, t.shipments, w.shipment.origin) && ItemsFit(w.items)
  {
    if q.Create? {
      CreateIsInserted(t, warehouse, q.create, q.key, q.source, q.requestId, f);
      OutboundIsRecorded(t, warehouse, q.create, q.key, q.source, q.requestId, f);
      RecordWrites(t, Creation, f.shipmentId, OutboundShipment(warehouse, q.create, q.key, q.source, f),
                   ItemRows(f.shipmentId, q.create.items), OutboundRecord(q.create, q.key, q.source, q.requestId, f),
                   f);
      CreateIsValidIff(warehouse, q.create, q.key, q.source, f);
    } else {
      var id := ReturnIsInserted(t, warehouse, q.returned, q.key, q.source, q.requestId, f);
      var original := t.shipments[id].origin;
      ReturnIsRecorded(t, warehouse, q.returned, id, original, q.key, q.source, q.requestId, f);
      RecordWrites(t, Creation, f.shipmentId, ReturnShipment(warehouse, q.returned, id, original, q.key, q.source, f),
                   ItemRows(f.shipmentId, q.returned.items), ReturnRecord(q.returned, q.key, q.source, q.requestId, f),
                   f);
      ReturnIsValidIff(warehouse, q.returned, id, original, q.key, q.source, f);
    }
  }

  lemma ChangeIsNoCreation(warehouse: Address, t: Tables, q: Request, f: Draws)
    requires (q.Cancel? || q.Update?) && OutcomeOf(t, warehouse, q, f).Accept?
    ensures OutcomeOf(t, warehouse, q, f).write.kind != Creation
  {
    if q.Update? {
      RowAcceptIsLawful(t, q.call, f);
    } else {
      RowAcceptIsLawful(t, PlanCancel(t, q.publicId, q.key, q.requestId, q.source).call, f);
    }
  }

  lemma NextFits(warehouse: Address, h: History, e: Event)
    requires AllFit(warehouse, h.tables)
    ensures AllFit(warehouse, Next(warehouse, h, e).tables)
  {
    if e.Call? && OutcomeOf(h.tables, warehouse, e.request, e.drawn).Accept? {
      AcceptIsLawful(h.tables, warehouse, e.request, e.drawn);
      if e.request.Create? || e.request.CreateReturn? {
        CreationFits(warehouse, h.tables, e.request, e.drawn);
      } else {
        ChangeIsNoCreation(warehouse, h.tables, e.request, e.drawn);
      }
      CommitFits(warehouse, h.tables, OutcomeOf(h.tables, warehouse, e.request, e.drawn).write);
    }
  }

  lemma {:induction false} RunFits(warehouse: Address, events: seq<Event>)
    ensures AllFit(warehouse, Run(warehouse, events).tables)
  {
    if events != [] {
      RunFits(warehouse, events[..|events| - 1]);
      NextFits(warehouse, Run(warehouse, events[..|events| - 1]), events[|events| - 1]);
    }
  }

  /**
   * In every reachable database every row fits, outbound shipments leave the warehouse, and returns come back to it.
   */
  lemma EveryRowFits(warehouse: Address, events: seq<Event>, id: nat)
    requires id in Run(warehouse, events).tables.shipments
    ensures var t := Run(warehouse, events).tables;
            && RowFits(warehouse, t.shipments, t.shipments[id].origin)
            && forall i :: 0 <= i < |t.items| ==> ItemFits(t.items[i])
  {
    RunFits(warehouse, events);
  }
}
