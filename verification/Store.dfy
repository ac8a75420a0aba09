/** The five shipping tables, their unique keys and the lookups the service makes. */
module Store {
  import opened Text
  import opened Models

  /** Rows in insertion order; shipments by primary key. */
  datatype Tables = Tables(
    shipments: map<nat, Shipment>, items: seq<ItemRow>,
    events: seq<EventRow>, audits: seq<AuditRow>, outbox: seq<OutboxRow>)

  const EMPTY: Tables := Tables(map[], [], [], [], [])

  datatype OpKind = Creation | Transitioned | StopsUpdated | EtaUpdated | EventAdded

  /** Everything one accepted call writes: the shipment row, its new items, and one event, audit and outbox row. */
  datatype Write = Write(
    kind: OpKind, id: nat, shipment: Shipment, items: seq<ItemRow>, event: EventRow, audit: AuditRow, row: OutboxRow)

  function Commit(t: Tables, w: Write): (t': Tables) {
    Tables(t.shipments[w.id := w.shipment], t.items + w.items, t.events + [w.event], t.audits + [w.audit],
           t.outbox + [w.row])
  }

  function Min(ids: set<nat>): (m: nat)
    requires ids != {}
    ensures m in ids && forall x :: x in ids ==> m <= x
  {
    var y :| y in ids;
    MinExists(ids, y);
    var m :| m in ids && forall x :: x in ids ==> m <= x;
    m
  }

  lemma {:induction false} MinExists(ids: set<nat>, y: nat)
    requires y in ids
    ensures exists m :: m in ids && forall x :: x in ids ==> m <= x
  {
    if x :| x in ids && x < y {
      MinExists(ids, x);
    }
  }

  /** The first row, by primary key, of a selection. */
  function First(ids: set<nat>): (r: Option<nat>)
    ensures r == None <==> ids == {}
    ensures r.Some? ==> r.value in ids
  {
    if ids == {} then None else Some(Min(ids))
  }

  function ByKey(shipments: map<nat, Shipment>, source: string, key: string): (ids: set<nat>) {
    set id | id in shipments && shipments[id].origin.source == source && shipments[id].origin.key == key
  }

  function ByBusinessKey(shipments: map<nat, Shipment>, businessKey: string): (ids: set<nat>) {
    set id | id in shipments && shipments[id].origin.businessKey == businessKey
  }

  function ByPublicId(shipments: map<nat, Shipment>, publicId: string): (ids: set<nat>) {
    set id | id in shipments && shipments[id].origin.publicId == publicId
  }

  function FindByKey(t: Tables, source: string, key: string): (r: Option<nat>)
    ensures r.Some? ==> r.value in t.shipments
  {
    First(ByKey(t.shipments, TrimSpace(source), TrimSpace(key)))
  }

  function FindByKeyOrBusiness(t: Tables, source: string, key: string, businessKey: string): (r: Option<nat>)
    ensures r.Some? ==> r.value in t.shipments
  {
    First(ByKey(t.shipments, TrimSpace(source), TrimSpace(key)) + ByBusinessKey(t.shipments, TrimSpace(businessKey)))
  }

  function FindByPublicId(t: Tables, publicId: string): (r: Option<nat>)
    ensures r.Some? ==> r.value in t.shipments && t.shipments[r.value].origin.publicId == TrimSpace(publicId)
  {
    First(ByPublicId(t.shipments, TrimSpace(publicId)))
  }

  /** The event recorded under a key, which its unique index makes unambiguous. */
  function FindEvent(events: seq<EventRow>, source: string, key: string): (r: Option<EventRow>)
    ensures r == None <==> forall i :: 0 <= i < |events| ==> !(events[i].source == source && events[i].key == key)
    ensures r.Some? ==> r.value in events && r.value.source == source && r.value.key == key
  {
    if events == [] then None
    else if events[0].source == source && events[0].key == key then Some(events[0])
    else
      var rest := events[1..];
      assert forall i :: 0 <= i < |rest| ==> events[i + 1] == rest[i];
      FindEvent(rest, source, key)
  }

  function ItemsOf(items: seq<ItemRow>, id: nat): (mine: seq<ItemRow>) {
    if items == [] then []
    else ItemsOf(items[..|items| - 1], id) + if items[|items| - 1].shipmentId == id then [items[|items| - 1]] else []
  }

  function EventsOf(events: seq<EventRow>, id: nat): (mine: seq<EventRow>) {
    if events == [] then []
    else
      EventsOf(events[..|events| - 1], id)
      + if events[|events| - 1].shipmentId == id then [events[|events| - 1]] else []
  }

  /** Two rows that some unique index of the shipments table would not hold together. */
  predicate SameUniqueColumn(a: Origin, b: Origin) {
    || a.publicId == b.publicId || a.shipmentNumber == b.shipmentNumber || a.trackingNumber == b.trackingNumber
    || (a.handoverCode.Some? && a.handoverCode == b.handoverCode)
    || a.businessKey == b.businessKey || (a.source == b.source && a.key == b.key)
  }

  predicate ShipmentTaken(shipments: map<nat, Shipment>, id: nat, o: Origin) {
    id in shipments || exists other :: other in shipments && SameUniqueColumn(shipments[other].origin, o)
  }

  predicate SameEventColumn(a: EventRow, b: EventRow) {
    a.id == b.id || a.eventId == b.eventId || (a.source == b.source && a.key == b.key)
  }

  predicate EventTaken(events: seq<EventRow>, e: EventRow) {
    exists i :: 0 <= i < |events| && SameEventColumn(events[i], e)
  }

  predicate SameOutboxColumn(a: OutboxRow, b: OutboxRow) {
    a.id == b.id || a.message.eventId == b.message.eventId || a.message.shipmentEventId == b.message.shipmentEventId
  }

  predicate OutboxTaken(outbox: seq<OutboxRow>, r: OutboxRow) {
    exists i :: 0 <= i < |outbox| && SameOutboxColumn(outbox[i], r)
  }
}
