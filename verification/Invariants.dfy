/** What holds in every database that accepted calls can reach. */
module Invariants {
  import opened Text
  import opened Models
  import opened Lifecycle
  import opened Store
  import opened Operations
  import opened Writes

  // ----- unique keys -----

  ghost predicate EventsDistinct(events: seq<EventRow>) {
    forall i, j :: 0 <= i < j < |events| ==> !SameEventColumn(events[i], events[j])
  }

  ghost predicate OutboxDistinct(outbox: seq<OutboxRow>) {
    forall i, j :: 0 <= i < j < |outbox| ==> !SameOutboxColumn(outbox[i], outbox[j])
  }

  ghost predicate ShipmentsDistinct(shipments: map<nat, Shipment>) {
    forall a, b :: a in shipments && b in shipments && a != b
      ==> !SameUniqueColumn(shipments[a].origin, shipments[b].origin)
  }

  lemma EventsDistinctAfter(events: seq<EventRow>, e: EventRow)
    requires EventsDistinct(events) && forall i :: 0 <= i < |events| ==> !SameEventColumn(events[i], e)
    ensures EventsDistinct(events + [e])
  {
  }

  lemma OutboxDistinctAfter(outbox: seq<OutboxRow>, r: OutboxRow)
    requires OutboxDistinct(outbox) && forall i :: 0 <= i < |outbox| ==> !SameOutboxColumn(outbox[i], r)
    ensures OutboxDistinct(outbox + [r])
  {
  }

  lemma ShipmentsDistinctAfter(shipments: map<nat, Shipment>, id: nat, s: Shipment)
    requires ShipmentsDistinct(shipments)
    requires if id in shipments then s.origin == shipments[id].origin else !ShipmentTaken(shipments, id, s.origin)
    ensures ShipmentsDistinct(shipments[id := s])
  {
    var shipments' := shipments[id := s];
    forall a, b | a in shipments' && b in shipments' && a != b
      ensures !SameUniqueColumn(shipments'[a].origin, shipments'[b].origin)
    {
      var other := if a == id then b else a;
      if id !in shipments {
        assert !SameUniqueColumn(shipments[other].origin, s.origin);
      }
    }
  }

  lemma DistinctAfterCommit(t: Tables, w: Write)
    requires Lawful(t, w) && EventsDistinct(t.events) && OutboxDistinct(t.outbox) && ShipmentsDistinct(t.shipments)
    ensures var t' := Commit(t, w);
            EventsDistinct(t'.events) && OutboxDistinct(t'.outbox) && ShipmentsDistinct(t'.shipments)
  {
    EventsDistinctAfter(t.events, w.event);
    OutboxDistinctAfter(t.outbox, w.row);
    ShipmentsDistinctAfter(t.shipments, w.id, w.shipment);
  }

  // ----- correspondence of events, audit rows and outbox rows -----

  ghost predicate Described(e: EventRow, a: AuditRow, m: Message) {
    && e.shipmentId == a.shipmentId == m.shipmentId
    && e.status == a.newStatus == m.payload.status
    && e.eventId == m.eventId == m.payload.eventId && m.shipmentEventId == e.id
    && e.requestId == a.requestId == m.requestId
    && e.eventType == a.action == m.eventType == m.payload.eventType && m.payload.occurredAt == e.occurredAt
    && a.actorType == e.createdByType && a.actorId == e.createdById
    && (m.payload.eta.Some? ==> m.payload.eta.value.Ordered())
  }

  /** One audit row and one outbox row per event, in the same order. */
  ghost predicate Aligned(t: Tables) {
    && |t.events| == |t.audits| == |t.outbox|
    && forall i :: 0 <= i < |t.events| ==> Described(t.events[i], t.audits[i], t.outbox[i].message)
  }

  lemma AlignedAfterCommit(t: Tables, w: Write)
    requires Lawful(t, w) && Aligned(t)
    requires (w.kind != Creation ==> w.id in t.shipments ==> t.shipments[w.id].eta.Ordered())
    ensures Aligned(Commit(t, w))
  {
    assert w.shipment.eta.Ordered();
  }

  // ----- single rows -----

  ghost predicate RowOk(s: Shipment) {
    && s.eta.Ordered() && s.version >= 1
    && (s.status == Delivered <==> s.deliveredAt.Some?)
    && (s.status == Delivered ==> s.stops == Some(0))
    && (s.stops.Some? ==> s.stops.value >= 0)
    && (if s.origin.isReturn then ReturnLane(s.status) else OutboundLane(s.status))
    && ColonFree(s.origin.publicId) && Trimmed(s.origin.publicId)
  }

  ghost predicate RowsOk(shipments: map<nat, Shipment>) {
    forall id :: id in shipments ==> RowOk(shipments[id])
  }

  lemma StepKeepsRowOk(kind: OpKind, s: Shipment, s': Shipment)
    requires Step(kind, s, s') && RowOk(s)
    ensures RowOk(s')
  {
    if !s.origin.isReturn && kind == Transitioned {
      EdgeAdvances(s.status, s'.status);
    }
  }

  lemma RowsOkAfterCommit(t: Tables, w: Write)
    requires Lawful(t, w) && RowsOk(t.shipments)
    ensures RowsOk(Commit(t, w).shipments)
  {
    if w.kind != Creation {
      StepKeepsRowOk(w.kind, t.shipments[w.id], w.shipment);
    }
  }

  /** Business keys mean what they say. */
  ghost predicate RowsKeyed(shipments: map<nat, Shipment>) {
    forall id :: id in shipments ==> WellKeyed(shipments, shipments[id].origin)
  }

  lemma WellKeyedAfterUpdate(shipments: map<nat, Shipment>, id: nat, s: Shipment, o: Origin)
    requires WellKeyed(shipments, o) && (id in shipments ==> s.origin == shipments[id].origin)
    ensures WellKeyed(shipments[id := s], o)
  {
  }

  lemma RowsKeyedAfterCommit(t: Tables, w: Write)
    requires Lawful(t, w) && RowsKeyed(t.shipments)
    ensures RowsKeyed(Commit(t, w).shipments)
  {
    forall id | id in t.shipments || id == w.id
      ensures WellKeyed(Commit(t, w).shipments, Commit(t, w).shipments[id].origin)
    {
      WellKeyedAfterUpdate(t.shipments, w.id, w.shipment, if id == w.id then w.shipment.origin
                           else t.shipments[id].origin);
    }
  }

  // ----- every row belongs to a shipment -----

  ghost predicate Anchored(t: Tables) {
    && (forall i :: 0 <= i < |t.events| ==> t.events[i].shipmentId in t.shipments)
    && (forall i :: 0 <= i < |t.items| ==> t.items[i].shipmentId in t.shipments)
  }

  lemma AnchoredAfterCommit(t: Tables, w: Write)
    requires Lawful(t, w) && Anchored(t)
    ensures Anchored(Commit(t, w))
  {
  }

  /** A callback carries the columns of the shipment that it names. */
  ghost predicate Carries(shipments: map<nat, Shipment>, m: Message) {
    && m.shipmentId in shipments
    && var o, p := shipments[m.shipmentId].origin, m.payload;
       && p.shipmentId == o.publicId && p.order == o.order && p.trackingNumber == o.trackingNumber
       && p.isReturn == o.isReturn
  }

  ghost predicate AllCarry(t: Tables) {
    forall i :: 0 <= i < |t.outbox| ==> Carries(t.shipments, t.outbox[i].message)
  }

  lemma CarriesLater(t: Tables, w: Write, m: Message)
    requires Lawful(t, w) && Carries(t.shipments, m)
    ensures Carries(Commit(t, w).shipments, m)
  {
  }

  lemma AllCarryAfterCommit(t: Tables, w: Write)
    requires Lawful(t, w) && AllCarry(t)
    ensures AllCarry(Commit(t, w))
  {
    forall i | 0 <= i < |t.outbox| ensures Carries(Commit(t, w).shipments, t.outbox[i].message) {
      CarriesLater(t, w, t.outbox[i].message);
    }
    assert Carries(Commit(t, w).shipments, w.row.message);
  }

  lemma EventsOfAppend(events: seq<EventRow>, e: EventRow, id: nat)
    ensures EventsOf(events + [e], id) == if e.shipmentId == id then EventsOf(events, id) + [e]
            else EventsOf(events, id)
  {
    assert (events + [e])[..|events|] == events;
  }

  lemma {:induction false} NoEventsOf(events: seq<EventRow>, id: nat)
    requires forall i :: 0 <= i < |events| ==> events[i].shipmentId != id
    ensures EventsOf(events, id) == []
  {
    if events != [] {
      NoEventsOf(events[..|events| - 1], id);
    }
  }

  // ----- the timeline -----

  function Statuses(events: seq<EventRow>): (ss: seq<ShipmentStatus>)
    ensures |ss| == |events|
  {
    seq(|events|, i requires 0 <= i < |events| => events[i].status)
  }

  /** Statuses that start at `start`, end at `current` and only ever stay or follow the graph. */
  ghost predicate Story(ss: seq<ShipmentStatus>, start: ShipmentStatus, current: ShipmentStatus) {
    && |ss| > 0 && ss[0] == start && ss[|ss| - 1] == current
    && forall i :: 0 < i < |ss| ==> ss[i - 1] == ss[i] || ss[i - 1].CanTransitionTo(ss[i])
  }

  ghost predicate TimelineOf(t: Tables, id: nat)
    requires id in t.shipments
  {
    Story(Statuses(EventsOf(t.events, id)), StartStatus(t.shipments[id].origin.isReturn), t.shipments[id].status)
  }

  ghost predicate Timelines(t: Tables) {
    forall id :: id in t.shipments ==> TimelineOf(t, id)
  }

  lemma StoryGrows(ss: seq<ShipmentStatus>, start: ShipmentStatus, current: ShipmentStatus, next: ShipmentStatus)
    requires Story(ss, start, current) && (current == next || current.CanTransitionTo(next))
    ensures Story(ss + [next], start, next)
  {
  }

  lemma StatusesAppend(events: seq<EventRow>, e: EventRow, id: nat)
    requires e.shipmentId == id
    ensures Statuses(EventsOf(events + [e], id)) == Statuses(EventsOf(events, id)) + [e.status]
  {
    EventsOfAppend(events, e, id);
  }

  lemma TimelineOfBirth(t: Tables, w: Write)
    requires w.event.shipmentId == w.id && w.id !in t.shipments && Anchored(t)
    requires w.event.status == w.shipment.status == StartStatus(w.shipment.origin.isReturn)
    ensures TimelineOf(Commit(t, w), w.id)
  {
    StatusesAppend(t.events, w.event, w.id);
    NoEventsOf(t.events, w.id);
  }

  lemma TimelineOfStep(t: Tables, w: Write)
    requires w.event.shipmentId == w.id && w.id in t.shipments && TimelineOf(t, w.id)
    requires w.event.status == w.shipment.status && w.shipment.origin == t.shipments[w.id].origin
    requires t.shipments[w.id].status == w.shipment.status
             || t.shipments[w.id].status.CanTransitionTo(w.shipment.status)
    ensures TimelineOf(Commit(t, w), w.id)
  {
    StatusesAppend(t.events, w.event, w.id);
    StoryGrows(Statuses(EventsOf(t.events, w.id)), StartStatus(w.shipment.origin.isReturn), t.shipments[w.id].status,
               w.event.status);
  }

  lemma StepMovesAlongEdges(kind: OpKind, s: Shipment, s': Shipment)
    requires Step(kind, s, s')
    ensures s.status == s'.status || s.status.CanTransitionTo(s'.status)
  {
  }

  lemma TimelineAfterCommit(t: Tables, w: Write)
    requires Lawful(t, w) && Anchored(t)
    requires w.id in t.shipments ==> TimelineOf(t, w.id)
    ensures TimelineOf(Commit(t, w), w.id)
  {
    if w.kind == Creation {
      TimelineOfBirth(t, w);
    } else {
      StepMovesAlongEdges(w.kind, t.shipments[w.id], w.shipment);
      TimelineOfStep(t, w);
    }
  }

  lemma TimelineUntouched(t: Tables, w: Write, id: nat)
    requires id in t.shipments && id != w.id == w.event.shipmentId && TimelineOf(t, id)
    ensures TimelineOf(Commit(t, w), id)
  {
    EventsOfAppend(t.events, w.event, id);
    assert EventsOf(Commit(t, w).events, id) == EventsOf(t.events, id);
  }

  lemma TimelinesAfterCommit(t: Tables, w: Write)
    requires Lawful(t, w) && Anchored(t) && Timelines(t)
    ensures Timelines(Commit(t, w))
  {
    TimelineAfterCommit(t, w);
    assert w.event.shipmentId == w.id;
    forall id | id in t.shipments && id != w.id ensures TimelineOf(Commit(t, w), id) {
      TimelineUntouched(t, w, id);
    }
  }

  // ----- the callback stream -----

  /** What a consumer of the callbacks knows about a shipment. */
  datatype View = View(status: ShipmentStatus, eta: Option<Eta>)

  /** A consumer that replays the whole stream; each payload replaces what it knew. */
  function Consumed(outbox: seq<OutboxRow>): (known: map<string, View>) {
    if outbox == [] then map[] else
      var p := outbox[|outbox| - 1].message.payload;
      Consumed(outbox[..|outbox| - 1])[p.shipmentId := View(p.status, p.eta)]
  }

  function ViewOf(s: Shipment): (v: View) {
    View(s.status, EtaPayload(s.eta))
  }

  /** The stream reproduces the shipments table: the same public ids, each with its current status and estimate. */
  ghost predicate Reproduces(known: map<string, View>, shipments: map<nat, Shipment>) {
    && (forall id :: id in shipments ==> shipments[id].origin.publicId in known
                                         && known[shipments[id].origin.publicId] == ViewOf(shipments[id]))
    && (forall p :: p in known ==> exists id :: id in shipments && shipments[id].origin.publicId == p)
  }

  lemma OtherPublicIds(t: Tables, w: Write, id: nat)
    requires Lawful(t, w) && ShipmentsDistinct(t.shipments) && id in t.shipments && id != w.id
    ensures t.shipments[id].origin.publicId != w.shipment.origin.publicId
  {
    if w.kind == Creation {
      assert !SameUniqueColumn(t.shipments[id].origin, w.shipment.origin);
    } else {
      assert !SameUniqueColumn(t.shipments[id].origin, t.shipments[w.id].origin);
    }
  }

  lemma ReproducesAfterUpdate(known: map<string, View>, shipments: map<nat, Shipment>, id: nat, s: Shipment)
    requires Reproduces(known, shipments)
    requires forall other :: other in shipments && other != id ==> shipments[other].origin.publicId != s.origin.publicId
    requires id in shipments ==> shipments[id].origin.publicId == s.origin.publicId
    ensures Reproduces(known[s.origin.publicId := ViewOf(s)], shipments[id := s])
  {
    var known', shipments' := known[s.origin.publicId := ViewOf(s)], shipments[id := s];
    forall p | p in known' ensures exists x :: x in shipments' && shipments'[x].origin.publicId == p {
      if p == s.origin.publicId {
        assert id in shipments' && shipments'[id].origin.publicId == p;
      } else {
        var x :| x in shipments && shipments[x].origin.publicId == p;
        assert x in shipments' && shipments'[x].origin.publicId == p;
      }
    }
  }

  lemma ReproducesAfterCommit(t: Tables, w: Write)
    requires Lawful(t, w) && ShipmentsDistinct(t.shipments) && Reproduces(Consumed(t.outbox), t.shipments)
    ensures var t' := Commit(t, w); Reproduces(Consumed(t'.outbox), t'.shipments)
  {
    forall id | id in t.shipments && id != w.id ensures t.shipments[id].origin.publicId != w.shipment.origin.publicId {
      OtherPublicIds(t, w, id);
    }
    ReproducesAfterUpdate(Consumed(t.outbox), t.shipments, w.id, w.shipment);
    assert (t.outbox + [w.row])[..|t.outbox|] == t.outbox;
  }

  // ----- conservation -----

  /** How many AddEvent calls a history holds for a shipment. */
  function AddedEvents(kinds: seq<OpKind>, events: seq<EventRow>, id: nat): (n: nat)
    requires |kinds| == |events|
  {
    if events == [] then 0
    else AddedEvents(kinds[..|kinds| - 1], events[..|events| - 1], id)
         + if kinds[|kinds| - 1] == EventAdded && events[|events| - 1].shipmentId == id then 1 else 0
  }

  /** The events of a shipment count its versions and its AddEvent calls: no update is lost. */
  ghost predicate Conserved(t: Tables, kinds: seq<OpKind>) {
    && |kinds| == |t.events|
    && forall id :: id in t.shipments ==>
         |EventsOf(t.events, id)| == t.shipments[id].version + AddedEvents(kinds, t.events, id)
  }

  lemma AddedEventsAppend(kinds: seq<OpKind>, events: seq<EventRow>, k: OpKind, e: EventRow, id: nat)
    requires |kinds| == |events|
    ensures AddedEvents(kinds + [k], events + [e], id) == AddedEvents(kinds, events, id)
            + if k == EventAdded && e.shipmentId == id then 1 else 0
  {
    assert (kinds + [k])[..|kinds|] == kinds && (events + [e])[..|events|] == events;
  }

  lemma {:induction false} NothingAdded(kinds: seq<OpKind>, events: seq<EventRow>, id: nat)
    requires |kinds| == |events| && forall i :: 0 <= i < |events| ==> events[i].shipmentId != id
    ensures AddedEvents(kinds, events, id) == 0
  {
    if events != [] {
      NothingAdded(kinds[..|kinds| - 1], events[..|events| - 1], id);
    }
  }

  lemma CountsAfterCommit(t: Tables, kinds: seq<OpKind>, w: Write, id: nat)
    requires |kinds| == |t.events|
    ensures var t' := Commit(t, w);
            && |EventsOf(t'.events, id)| == |EventsOf(t.events, id)| + (if w.event.shipmentId == id then 1 else 0)
            && AddedEvents(kinds + [w.kind], t'.events, id)
               == AddedEvents(kinds, t.events, id) + (if w.kind == EventAdded && w.event.shipmentId == id then 1 else 0)
  {
    EventsOfAppend(t.events, w.event, id);
    AddedEventsAppend(kinds, t.events, w.kind, w.event, id);
  }

  lemma ConservedAfterCommit(t: Tables, kinds: seq<OpKind>, w: Write)
    requires Lawful(t, w) && Anchored(t) && Conserved(t, kinds)
    ensures Conserved(Commit(t, w), kinds + [w.kind])
  {
    if w.kind == Creation {
      NoEventsOf(t.events, w.id);
      NothingAdded(kinds, t.events, w.id);
    }
    forall id | id in t.shipments || id == w.id
      ensures |EventsOf(Commit(t, w).events, id)|
              == Commit(t, w).shipments[id].version + AddedEvents(kinds + [w.kind], Commit(t, w).events, id)
    {
      CountsAfterCommit(t, kinds, w, id);
    }
  }

  // ----- all of it -----

  ghost predicate Inv(t: Tables, kinds: seq<OpKind>) {
    && EventsDistinct(t.events) && OutboxDistinct(t.outbox) && ShipmentsDistinct(t.shipments)
    && Aligned(t) && Anchored(t) && AllCarry(t) && RowsOk(t.shipments) && RowsKeyed(t.shipments) && Timelines(t)
    && Reproduces(Consumed(t.outbox), t.shipments) && Conserved(t, kinds)
  }

  lemma EmptyInv()
    ensures Inv(EMPTY, [])
  {
  }

  /** A lawful write keeps everything. */
  lemma InvAfterCommit(t: Tables, kinds: seq<OpKind>, w: Write)
    requires Inv(t, kinds) && Lawful(t, w)
    ensures Inv(Commit(t, w), kinds + [w.kind])
  {
    DistinctAfterCommit(t, w);
    AlignedAfterCommit(t, w);
    RowsOkAfterCommit(t, w);
    RowsKeyedAfterCommit(t, w);
    AnchoredAfterCommit(t, w);
    AllCarryAfterCommit(t, w);
    TimelinesAfterCommit(t, w);
    ReproducesAfterCommit(t, w);
    ConservedAfterCommit(t, kinds, w);
  }
}
