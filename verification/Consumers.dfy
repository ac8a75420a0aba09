/** A consumer of the callbacks that takes an absent delivery estimate for an unchanged one, and when it goes wrong. */
module Consumers {
  import opened Text
  import opened Models
  import opened Items
  import opened Store
  import opened Operations
  import opened Writes
  import opened Invariants
  import opened Runs
  import opened Registry
  import opened RegistryRuns
  import Replays

  /** What such a consumer knows after the whole stream: an estimate is kept until another one comes. */
  function Merged(outbox: seq<OutboxRow>): (known: map<string, View>) {
    if outbox == [] then map[] else
      var earlier, p := Merged(outbox[..|outbox| - 1]), outbox[|outbox| - 1].message.payload;
      earlier[p.shipmentId := View(p.status, MergedEta(earlier, p))]
  }

  function MergedEta(known: map<string, View>, p: Payload): (eta: Option<Eta>) {
    if p.eta.Some? then p.eta else if p.shipmentId in known then known[p.shipmentId].eta else None
  }

  /** The latest estimate that the stream gives for a shipment. */
  function LastGiven(outbox: seq<OutboxRow>, publicId: string): (eta: Option<Eta>) {
    if outbox == [] then None else
      var p := outbox[|outbox| - 1].message.payload;
      if p.shipmentId == publicId && p.eta.Some? then p.eta else LastGiven(outbox[..|outbox| - 1], publicId)
  }

  // ----- one write -----

  /** A write that takes a known estimate away. */
  ghost predicate Clears(t: Tables, w: Write) {
    w.id in t.shipments && t.shipments[w.id].eta.Given() && !w.shipment.eta.Given()
  }

  lemma MergedAfterCommit(t: Tables, w: Write)
    ensures Merged(Commit(t, w).outbox)
            == var p := w.row.message.payload;
              Merged(t.outbox)[p.shipmentId := View(p.status, MergedEta(Merged(t.outbox), p))]
  {
    assert (t.outbox + [w.row])[..|t.outbox|] == t.outbox;
  }

  lemma StillReproduces(t: Tables, w: Write)
    requires Lawful(t, w) && ShipmentsDistinct(t.shipments) && Reproduces(Merged(t.outbox), t.shipments)
    requires !Clears(t, w)
    ensures Reproduces(Merged(Commit(t, w).outbox), Commit(t, w).shipments)
  {
    MergedAfterCommit(t, w);
    forall id | id in t.shipments && id != w.id ensures t.shipments[id].origin.publicId != w.shipment.origin.publicId {
      OtherPublicIds(t, w, id);
    }
    MergedIsView(t, w);
    ReproducesAfterUpdate(Merged(t.outbox), t.shipments, w.id, w.shipment);
  }

  /** Without a clearing, merging the payload of a write yields the row that the write leaves. */
  lemma MergedIsView(t: Tables, w: Write)
    requires Lawful(t, w) && ShipmentsDistinct(t.shipments) && Reproduces(Merged(t.outbox), t.shipments)
    ensures var p := w.row.message.payload;
            !Clears(t, w) <==> View(p.status, MergedEta(Merged(t.outbox), p)) == ViewOf(w.shipment)
  {
    forall id | id in t.shipments && id != w.id ensures t.shipments[id].origin.publicId != w.shipment.origin.publicId {
      OtherPublicIds(t, w, id);
    }
  }

  /** A consumer that agrees with the shipments agrees after a write exactly if the write does not clear an estimate. */
  lemma MergingSurvivesIff(t: Tables, w: Write)
    requires Lawful(t, w) && ShipmentsDistinct(t.shipments) && Reproduces(Merged(t.outbox), t.shipments)
    ensures Reproduces(Merged(Commit(t, w).outbox), Commit(t, w).shipments) <==> !Clears(t, w)
  {
    if Clears(t, w) {
      MergedAfterCommit(t, w);
      MergedIsView(t, w);
      assert w.id in Commit(t, w).shipments;
    } else {
      StillReproduces(t, w);
    }
  }

  // ----- whole runs -----

  /** Merging differs from replacing only where the latest payload has no estimate but an earlier one did. */
  lemma {:induction false} MergedAgainstConsumed(outbox: seq<OutboxRow>, publicId: string)
    ensures publicId in Merged(outbox) <==> publicId in Consumed(outbox)
    ensures publicId in Consumed(outbox) ==>
              Merged(outbox)[publicId] == View(Consumed(outbox)[publicId].status, LastGiven(outbox, publicId))
    ensures publicId in Consumed(outbox) && Consumed(outbox)[publicId].eta.Some? ==>
              LastGiven(outbox, publicId) == Consumed(outbox)[publicId].eta
    ensures publicId !in Consumed(outbox) ==> LastGiven(outbox, publicId) == None
  {
    if outbox != [] {
      MergedAgainstConsumed(outbox[..|outbox| - 1], publicId);
    }
  }

  lemma MergesShipmentIff(outbox: seq<OutboxRow>, shipments: map<nat, Shipment>, id: nat)
    requires Reproduces(Consumed(outbox), shipments) && id in shipments
    ensures var publicId := shipments[id].origin.publicId;
            && publicId in Merged(outbox)
            && (Merged(outbox)[publicId] == ViewOf(shipments[id])
                <==> shipments[id].eta.Given() || LastGiven(outbox, publicId) == None)
  {
    MergedAgainstConsumed(outbox, shipments[id].origin.publicId);
  }

  /**
   * In a reachable database the merging consumer is right exactly if every shipment whose estimate is open has never
   * been sent one.
   */
  lemma MergingReproducesIff(warehouse: Address, events: seq<Event>)
    ensures var t := Run(warehouse, events).tables;
            Reproduces(Merged(t.outbox), t.shipments)
            <==> forall id :: id in t.shipments ==>
                   t.shipments[id].eta.Given() || LastGiven(t.outbox, t.shipments[id].origin.publicId) == None
  {
    CallbacksReproduceShipments(warehouse, events);
    var t := Run(warehouse, events).tables;
    MergesAllIff(t.outbox, t.shipments);
  }

  lemma MergesAllIff(outbox: seq<OutboxRow>, shipments: map<nat, Shipment>)
    requires Reproduces(Consumed(outbox), shipments)
    ensures Reproduces(Merged(outbox), shipments)
            <==> forall id :: id in shipments ==>
                   shipments[id].eta.Given() || LastGiven(outbox, shipments[id].origin.publicId) == None
  {
    forall id | id in shipments
      ensures shipments[id].origin.publicId in Merged(outbox)
      ensures Merged(outbox)[shipments[id].origin.publicId] == ViewOf(shipments[id])
              <==> shipments[id].eta.Given() || LastGiven(outbox, shipments[id].origin.publicId) == None
    {
      MergesShipmentIff(outbox, shipments, id);
    }
    forall p | p in Merged(outbox) ensures exists id :: id in shipments && shipments[id].origin.publicId == p {
      MergedAgainstConsumed(outbox, p);
    }
  }

  // ----- a run that clears an estimate -----

  /** A text of one letter. */
  ghost predicate Letter(a: string) {
    a != "" && Trimmed(a) && TrimSpace(a) == a && ByteLen(a) == 1
  }

  ghost predicate Country(code: string) {
    TrimSpace(code) == code && ToUpper(code) == code && ByteLen(code) == 2 && code != "DE"
  }

  function AddressOf(a: string, code: string): (address: Address) {
    Address(a, a, a, a, a, a, a, a, a, code, a)
  }

  function OrderOf(a: string, code: string): (input: CreateInput) {
    CreateInput(a, a, a, AddressOf(a, code), [ItemInput(a, a, a, 1)], a, a, Eta(Some(1), None))
  }

  lemma AddressIsValid(a: string, code: string)
    requires Letter(a) && Country(code)
    ensures ValidAddress(AddressOf(a, code))
  {
  }

  lemma OrderIsValid(a: string, code: string)
    requires Letter(a) && Country(code)
    ensures CreateFault(OrderOf(a, code), a, a) == None
  {
    AddressIsValid(a, code);
    assert ValidItem(ItemInput(a, a, a, 1));
  }

  lemma EmptyHolds(a: string, code: string)
    ensures RowsKeyed(EMPTY.shipments) && RowsOk(EMPTY.shipments) && Aligned(EMPTY)
    ensures Ask(BookOf(EMPTY), CreateSubject(OrderOf(a, code)), a, a) == Unregistered
  {
    var book := BookOf(EMPTY);
    assert book == map[];
    assert KeyHolders(book, a, a) == {} && BusinessHolders(book, BusinessOf(CreateSubject(OrderOf(a, code)))) == {};
  }

  lemma OrderIsAccepted(warehouse: Address, a: string, code: string, f: Draws)
    requires Letter(a) && Country(code)
    ensures CreateTransaction(EMPTY, warehouse, OrderOf(a, code), a, a, a, f).Accept?
  {
    EmptyHolds(a, code);
    FirstCreateSucceedsIff(EMPTY, warehouse, OrderOf(a, code), a, a, a, f);
  }

  function ClearingOf(a: string, publicId: string): (call: RowCall) {
    EtaCall(Meta(publicId, RoleAdmin, a, a, a, a), NO_ETA)
  }

  /** The database that holds one shipment with an estimate, recorded under a longer key than `a`. */
  ghost predicate OneOrder(t: Tables, a: string, f: Draws) {
    && t.shipments.Keys == {f.shipmentId}
    && t.shipments[f.shipmentId].origin.publicId == PublicId(f) && t.shipments[f.shipmentId].eta.Given()
    && |t.events| == 1 && t.events[0].id == f.eventRowId && t.events[0].eventId == EventId(f) && t.events[0].key != a
    && |t.outbox| == 1 && t.outbox[0].id == f.outboxRowId
  }

  lemma OrderIsAlone(warehouse: Address, a: string, code: string, f: Draws, w: Write)
    requires Letter(a) && CreateTransaction(EMPTY, warehouse, OrderOf(a, code), a, a, a, f) == Accept(w)
    ensures OneOrder(Commit(EMPTY, w), a, f)
  {
    var input := OrderOf(a, code);
    CreateAcceptIsLawful(EMPTY, warehouse, input, a, a, a, f);
    InsertOutboundIsLawful(EMPTY, warehouse, input, a, a, a, f);
    HandedOverKey(a, "/handed-over");
    OrderRecord(EMPTY, OutboundShipment(warehouse, input, a, a, f), ItemRows(f.shipmentId, input.items),
                OutboundRecord(input, a, a, a, f), a, f, w);
  }

  lemma OrderRecord(t: Tables, s: Shipment, items: seq<ItemRow>, r: RecordInput, a: string, f: Draws, w: Write)
    requires t == EMPTY && Record(t, Creation, f.shipmentId, s, items, r, f) == Accept(w)
    requires s.origin.publicId == PublicId(f) && s.eta.Given() && TrimSpace(r.key) != a && TrimSpace(r.key) != ""
    ensures OneOrder(Commit(t, w), a, f)
  {
  }

  /** Later draws that repeat none of the first. */
  predicate Differ(f: Draws, f': Draws) {
    f.eventRowId != f'.eventRowId && EventId(f) != EventId(f') && f.outboxRowId != f'.outboxRowId
  }

  lemma NamesItself(t: Tables, a: string, f: Draws)
    requires OneOrder(t, a, f) && ShipmentsDistinct(t.shipments)
    ensures FindByPublicId(t, PublicId(f)) == Some(f.shipmentId)
  {
    IdentifierIsColonFree("shp", f.publicToken);
    TrimSpaceIsIdempotent(PublicId(f));
    Replays.PublicIdFindsRow(t, f.shipmentId, PublicId(f));
  }

  lemma UnusedAfterOrder(t: Tables, a: string, f: Draws, f': Draws, source: string)
    requires OneOrder(t, a, f) && Differ(f, f')
    ensures UnusedRows(t, f') && UnusedKey(t.events, source, a)
  {
    forall i | 0 <= i < |t.events|
      ensures t.events[i].id != f'.eventRowId && t.events[i].eventId != EventId(f') && t.events[i].key != a
    {
      assert i == 0;
    }
    forall i | 0 <= i < |t.outbox| ensures t.outbox[i].id != f'.outboxRowId {
      assert i == 0;
    }
  }

  lemma LetterIsRecordable(r: RecordInput, a: string)
    requires Letter(a) && r.source == a && r.key == a
    ensures Recordable(r) && TrimSpace(r.source) == a && TrimSpace(r.key) == a && a != ""
  {
  }

  lemma ClearingIsRecorded(t: Tables, a: string, f: Draws, f': Draws, s: Shipment, r: RecordInput)
    requires Letter(a) && OneOrder(t, a, f) && Aligned(t) && Differ(f, f')
    requires r.source == a && r.key == a
    ensures Record(t, EtaUpdated, f.shipmentId, s, [], r, f').Accept?
  {
    UnusedAfterOrder(t, a, f, f', a);
    LetterIsRecordable(r, a);
    RecordAcceptsIff(t, EtaUpdated, f.shipmentId, s, [], r, f');
  }

  lemma ClearingIsAccepted(t: Tables, a: string, f: Draws, f': Draws)
    requires Letter(a) && OneOrder(t, a, f) && ShipmentsDistinct(t.shipments) && Aligned(t) && Differ(f, f')
    ensures var o := RowOutcome(t, ClearingOf(a, PublicId(f)), f'); o.Accept? && Clears(t, o.write)
  {
    var c := ChangeOf(ClearingOf(a, PublicId(f)), t.shipments[f.shipmentId], f'.now);
    NamesItself(t, a, f);
    ClearingIsRecorded(t, a, f, f', c.shipment, c.record);
    ClearingOutcome(t, ClearingOf(a, PublicId(f)), f', f.shipmentId);
  }

  lemma ClearingOutcome(t: Tables, call: RowCall, f: Draws, id: nat)
    requires call.EtaCall? && call.eta == NO_ETA && RowFault(call) == None && EventUnderKey(t, call.meta) == None
    requires FindByPublicId(t, call.meta.publicId) == Some(id) && t.shipments[id].eta.Given()
    requires var c := ChangeOf(call, t.shipments[id], f.now); Record(t, c.kind, id, c.shipment, [], c.record, f).Accept?
    ensures RowOutcome(t, call, f).Accept? && Clears(t, RowOutcome(t, call, f).write)
  {
  }

  /** The stream after a run misleads the merging consumer. */
  ghost predicate Misled(warehouse: Address, events: seq<Event>) {
    !Reproduces(Merged(Run(warehouse, events).tables.outbox), Run(warehouse, events).tables.shipments)
  }

  lemma MisledAfter(warehouse: Address, earlier: seq<Event>, q: Request, f: Draws, w: Write)
    requires OutcomeOf(Run(warehouse, earlier).tables, warehouse, q, f) == Accept(w)
    requires Lawful(Run(warehouse, earlier).tables, w) && Clears(Run(warehouse, earlier).tables, w)
    requires !Misled(warehouse, earlier)
    ensures Misled(warehouse, earlier + [Call(q, f)])
  {
    ReachedRows(warehouse, earlier);
    MergingSurvivesIff(Run(warehouse, earlier).tables, w);
    TablesAfterAccept(warehouse, earlier, q, f, w);
  }

  lemma UpdateOutcome(t: Tables, warehouse: Address, call: RowCall, f: Draws)
    ensures OutcomeOf(t, warehouse, Update(call), f) == RowOutcome(t, call, f)
  {
  }

  lemma ClearingMisleads(warehouse: Address, earlier: seq<Event>, call: RowCall, f: Draws)
    requires !Misled(warehouse, earlier) && RowOutcome(Run(warehouse, earlier).tables, call, f).Accept?
    requires Clears(Run(warehouse, earlier).tables, RowOutcome(Run(warehouse, earlier).tables, call, f).write)
    ensures Misled(warehouse, earlier + [Call(Update(call), f)])
  {
    RowAcceptIsLawful(Run(warehouse, earlier).tables, call, f);
    UpdateOutcome(Run(warehouse, earlier).tables, warehouse, call, f);
    MisledAfter(warehouse, earlier, Update(call), f, RowOutcome(Run(warehouse, earlier).tables, call, f).write);
  }

  lemma OrderDoesNotMislead(warehouse: Address, a: string, code: string, f: Draws) returns (events: seq<Event>)
    requires Letter(a) && Country(code)
    ensures !Misled(warehouse, events) && OneOrder(Run(warehouse, events).tables, a, f)
  {
    var q := Create(OrderOf(a, code), a, a, a);
    OrderIsValid(a, code);
    OrderIsAccepted(warehouse, a, code, f);
    var w := CreateTransaction(EMPTY, warehouse, OrderOf(a, code), a, a, a, f).write;
    OrderIsAlone(warehouse, a, code, f, w);
    TablesAfterAccept(warehouse, [], q, f, w);
    AcceptIsLawful(EMPTY, warehouse, q, f);
    StillReproduces(EMPTY, w);
    events := [] + [Call(q, f)];
  }

  /** A creation with an estimate and an update without one: this consumer keeps what the shipment no longer has. */
  lemma SomeRunMisleads(warehouse: Address) returns (events: seq<Event>)
    ensures Misled(warehouse, events)
  {
    var f, f' := Draws(1, [], "n", "t", 1, [], [], 1, 0), Draws(2, [], "n", "t", 2, [1], [], 2, 1);
    IsLetter("a");
    IsCountry("FR");
    var earlier := OrderDoesNotMislead(warehouse, "a", "FR", f);
    assert |EventId(f)| != |EventId(f')|;
    ReachedRows(warehouse, earlier);
    ClearingIsAccepted(Run(warehouse, earlier).tables, "a", f, f');
    ClearingMisleads(warehouse, earlier, ClearingOf("a", PublicId(f)), f');
    events := earlier + [Call(Update(ClearingOf("a", PublicId(f))), f')];
  }

  lemma IsLetter(a: string)
    requires |a| == 1 && !IsSpace(a[0]) && a[0] < '\U{80}'
    ensures Letter(a)
  {
    TrimSpaceIsIdempotent(a);
    AsciiByteLen(a);
  }

  lemma IsCountry(code: string)
    requires |code| == 2 && 'A' <= code[0] <= 'Z' && 'A' <= code[1] <= 'Z' && code != "DE"
    ensures Country(code)
  {
    TrimSpaceIsIdempotent(code);
    AsciiByteLen(code);
    assert ToUpper(code) == code;
  }
}
