/**
 * The events of a shipment tell its remaining stops and its delivery time, and every callback the stops of its moment.
 */
module Progress {
  import opened Text
  import opened Models
  import opened Store
  import opened Operations
  import opened Writes
  import opened Runs

  /** The two columns of a shipment that are neither its status nor its estimate. */
  datatype Journey = Journey(stops: Option<int>, deliveredAt: Option<int>)

  /** What one event does to them. */
  function Told(kind: OpKind, e: EventRow, before: Journey): (after: Journey) {
    match kind
    case Creation => Journey(None, None)
    case Transitioned => if e.status == Delivered then Journey(Some(0), Some(e.occurredAt)) else before
    case StopsUpdated => Journey(e.stops, before.deliveredAt)
    case EtaUpdated => before
    case EventAdded => before
  }

  /** What the events of a shipment come to, in their order. */
  function JourneyOf(kinds: seq<OpKind>, events: seq<EventRow>, id: nat): (j: Journey)
    requires |kinds| == |events|
  {
    if events == [] then Journey(None, None)
    else
      var last := |events| - 1;
      var before := JourneyOf(kinds[..last], events[..last], id);
      if events[last].shipmentId == id then Told(kinds[last], events[last], before) else before
  }

  lemma JourneyOfOneMore(kinds: seq<OpKind>, events: seq<EventRow>, k: OpKind, e: EventRow, id: nat)
    requires |kinds| == |events|
    ensures var before := JourneyOf(kinds, events, id);
            JourneyOf(kinds + [k], events + [e], id) == if e.shipmentId == id then Told(k, e, before) else before
  {
    assert (kinds + [k])[..|kinds|] == kinds && (events + [e])[..|events|] == events;
  }

  ghost predicate JourneyTold(t: Tables, kinds: seq<OpKind>, id: nat)
    requires |kinds| == |t.events| && id in t.shipments
  {
    JourneyOf(kinds, t.events, id) == Journey(t.shipments[id].stops, t.shipments[id].deliveredAt)
  }

  ghost predicate AllTold(t: Tables, kinds: seq<OpKind>) {
    |kinds| == |t.events| && forall id :: id in t.shipments ==> JourneyTold(t, kinds, id)
  }

  /** A callback shows the stops that its event gives, or else those of the shipment at that moment. */
  ghost predicate ShowsStops(kinds: seq<OpKind>, events: seq<EventRow>, i: nat, p: Payload)
    requires i < |kinds| == |events|
  {
    p.stops == if events[i].stops.Some? then events[i].stops
               else JourneyOf(kinds[..i + 1], events[..i + 1], events[i].shipmentId).stops
  }

  ghost predicate AllShowStops(t: Tables, kinds: seq<OpKind>) {
    |kinds| == |t.events| == |t.outbox|
    && forall i :: 0 <= i < |t.events| ==> ShowsStops(kinds, t.events, i, t.outbox[i].message.payload)
  }

  lemma WriteTells(t: Tables, kinds: seq<OpKind>, w: Write)
    requires Lawful(t, w) && AllTold(t, kinds)
    ensures JourneyTold(Commit(t, w), kinds + [w.kind], w.id)
  {
    JourneyOfOneMore(kinds, t.events, w.kind, w.event, w.id);
    if w.kind != Creation {
      assert JourneyTold(t, kinds, w.id);
    }
  }

  lemma CommitTells(t: Tables, kinds: seq<OpKind>, w: Write)
    requires Lawful(t, w) && AllTold(t, kinds)
    ensures AllTold(Commit(t, w), kinds + [w.kind])
  {
    WriteTells(t, kinds, w);
    forall id | id in t.shipments && id != w.id ensures JourneyTold(Commit(t, w), kinds + [w.kind], id) {
      JourneyOfOneMore(kinds, t.events, w.kind, w.event, id);
      assert JourneyTold(t, kinds, id);
    }
  }

  lemma ShowsStopsLater(kinds: seq<OpKind>, events: seq<EventRow>, k: OpKind, e: EventRow, i: nat, p: Payload)
    requires i < |kinds| == |events| && ShowsStops(kinds, events, i, p)
    ensures ShowsStops(kinds + [k], events + [e], i, p)
  {
    assert (kinds + [k])[..i + 1] == kinds[..i + 1] && (events + [e])[..i + 1] == events[..i + 1];
  }

  lemma WriteShowsStops(t: Tables, kinds: seq<OpKind>, w: Write)
    requires Lawful(t, w) && AllTold(t, kinds)
    ensures ShowsStops(kinds + [w.kind], t.events + [w.event], |t.events|, w.row.message.payload)
  {
    WriteTells(t, kinds, w);
    var kinds', events' := kinds + [w.kind], t.events + [w.event];
    assert kinds'[..|t.events| + 1] == kinds' && events'[..|t.events| + 1] == events';
  }

  lemma CommitShowsStops(t: Tables, kinds: seq<OpKind>, w: Write)
    requires Lawful(t, w) && AllTold(t, kinds) && AllShowStops(t, kinds)
    ensures AllShowStops(Commit(t, w), kinds + [w.kind])
  {
    WriteShowsStops(t, kinds, w);
    forall i | 0 <= i < |t.events|
      ensures ShowsStops(kinds + [w.kind], t.events + [w.event], i, t.outbox[i].message.payload)
    {
      ShowsStopsLater(kinds, t.events, w.kind, w.event, i, t.outbox[i].message.payload);
    }
  }

  lemma NextShows(warehouse: Address, h: History, e: Event)
    requires AllTold(h.tables, h.kinds) && AllShowStops(h.tables, h.kinds)
    ensures var h' := Next(warehouse, h, e); AllTold(h'.tables, h'.kinds) && AllShowStops(h'.tables, h'.kinds)
  {
    match e
    case Call(q, f) =>
      var o := OutcomeOf(h.tables, warehouse, q, f);
      if o.Accept? {
        AcceptIsLawful(h.tables, warehouse, q, f);
        CommitTells(h.tables, h.kinds, o.write);
        CommitShowsStops(h.tables, h.kinds, o.write);
      }
    case Deliver(outbox) =>
      if SameMessages(h.tables.outbox, outbox) {
        DeliveryShows(h.tables, h.kinds, outbox);
      }
  }

  lemma DeliveryShows(t: Tables, kinds: seq<OpKind>, outbox: seq<OutboxRow>)
    requires AllTold(t, kinds) && AllShowStops(t, kinds) && SameMessages(t.outbox, outbox)
    ensures AllTold(t.(outbox := outbox), kinds) && AllShowStops(t.(outbox := outbox), kinds)
  {
    forall id | id in t.shipments ensures JourneyTold(t.(outbox := outbox), kinds, id) {
      assert JourneyTold(t, kinds, id);
    }
    forall i | 0 <= i < |t.events| ensures ShowsStops(kinds, t.events, i, outbox[i].message.payload) {
      assert ShowsStops(kinds, t.events, i, t.outbox[i].message.payload);
    }
  }

  lemma {:induction false} RunShows(warehouse: Address, events: seq<Event>)
    ensures var h := Run(warehouse, events); AllTold(h.tables, h.kinds) && AllShowStops(h.tables, h.kinds)
  {
    if events != [] {
      RunShows(warehouse, events[..|events| - 1]);
      NextShows(warehouse, Run(warehouse, events[..|events| - 1]), events[|events| - 1]);
    }
  }

  /** The remaining stops and the delivery time of every stored shipment are what its events come to. */
  lemma EventsTellJourney(warehouse: Address, events: seq<Event>, id: nat)
    requires id in Run(warehouse, events).tables.shipments
    ensures var h := Run(warehouse, events);
            && |h.kinds| == |h.tables.events|
            && JourneyOf(h.kinds, h.tables.events, id)
               == Journey(h.tables.shipments[id].stops, h.tables.shipments[id].deliveredAt)
  {
    RunShows(warehouse, events);
    assert JourneyTold(Run(warehouse, events).tables, Run(warehouse, events).kinds, id);
  }

  /** Every callback shows the stops given with its event, or those its shipment had when the event was recorded. */
  lemma CallbacksShowStops(warehouse: Address, events: seq<Event>, i: nat)
    requires i < |Run(warehouse, events).tables.outbox|
    ensures var h := Run(warehouse, events);
            var p, recorded := h.tables.outbox[i].message.payload, h.tables.events;
            && i < |h.kinds| == |recorded|
            && p.stops == if recorded[i].stops.Some? then recorded[i].stops
                          else JourneyOf(h.kinds[..i + 1], recorded[..i + 1], recorded[i].shipmentId).stops
  {
    RunShows(warehouse, events);
    var h := Run(warehouse, events);
    assert ShowsStops(h.kinds, h.tables.events, i, h.tables.outbox[i].message.payload);
  }
}
