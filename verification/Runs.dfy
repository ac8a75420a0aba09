/** Whole runs: any calls in any order, with callback deliveries anywhere between them. */
module Runs {
  import opened Text
  import opened Models
  import opened Lifecycle
  import opened Store
  import opened Operations
  import opened Writes
  import opened Invariants

  /** A call of the service, or any change the dispatcher makes to the delivery state of the outbox. */
  datatype Event = Call(request: Request, drawn: Draws) | Deliver(outbox: seq<OutboxRow>)

  /** The tables, and the kinds of the calls accepted so far. */
  datatype History = History(tables: Tables, kinds: seq<OpKind>)

  ghost predicate SameMessages(a: seq<OutboxRow>, b: seq<OutboxRow>) {
    |a| == |b| && forall i :: 0 <= i < |a| ==> a[i].id == b[i].id && a[i].message == b[i].message
  }

  ghost function Next(warehouse: Address, h: History, e: Event): (h': History) {
    match e
    case Call(q, f) =>
      var o := OutcomeOf(h.tables, warehouse, q, f);
      if o.Accept? then History(Commit(h.tables, o.write), h.kinds + [o.write.kind]) else h
    case Deliver(outbox) =>
      if SameMessages(h.tables.outbox, outbox) then h.(tables := h.tables.(outbox := outbox)) else h
  }

  ghost function Run(warehouse: Address, events: seq<Event>): (h: History) {
    if events == [] then History(EMPTY, [])
    else Next(warehouse, Run(warehouse, events[..|events| - 1]), events[|events| - 1])
  }

  lemma {:induction false} ConsumedSameMessages(a: seq<OutboxRow>, b: seq<OutboxRow>)
    requires SameMessages(a, b)
    ensures Consumed(a) == Consumed(b)
  {
    if a != [] {
      ConsumedSameMessages(a[..|a| - 1], b[..|b| - 1]);
    }
  }

  lemma DistinctSameMessages(a: seq<OutboxRow>, b: seq<OutboxRow>)
    requires SameMessages(a, b) && OutboxDistinct(a)
    ensures OutboxDistinct(b)
  {
    forall i, j | 0 <= i < j < |b| ensures !SameOutboxColumn(b[i], b[j]) {
      assert !SameOutboxColumn(a[i], a[j]);
    }
  }

  lemma TimelinesSameEvents(t: Tables, t': Tables)
    requires Timelines(t) && t'.events == t.events && t'.shipments == t.shipments
    ensures Timelines(t')
  {
    forall id | id in t'.shipments ensures TimelineOf(t', id) {
      assert TimelineOf(t, id);
    }
  }

  lemma AlignedSameMessages(t: Tables, outbox: seq<OutboxRow>)
    requires Aligned(t) && SameMessages(t.outbox, outbox)
    ensures Aligned(t.(outbox := outbox))
  {
  }

  lemma InvAfterDelivery(t: Tables, kinds: seq<OpKind>, outbox: seq<OutboxRow>)
    requires Inv(t, kinds) && SameMessages(t.outbox, outbox)
    ensures Inv(t.(outbox := outbox), kinds)
  {
    ConsumedSameMessages(t.outbox, outbox);
    DistinctSameMessages(t.outbox, outbox);
    AlignedSameMessages(t, outbox);
    assert AllCarry(t.(outbox := outbox)) by {
      forall i | 0 <= i < |outbox| ensures Carries(t.shipments, outbox[i].message) {
        assert Carries(t.shipments, t.outbox[i].message);
      }
    }
    TimelinesSameEvents(t, t.(outbox := outbox));
  }

  /** Every reachable database satisfies the invariant. */
  lemma {:induction false} RunKeepsInv(warehouse: Address, events: seq<Event>)
    ensures Inv(Run(warehouse, events).tables, Run(warehouse, events).kinds)
  {
    if events == [] {
      EmptyInv();
    } else {
      RunKeepsInv(warehouse, events[..|events| - 1]);
      NextKeepsInv(warehouse, Run(warehouse, events[..|events| - 1]), events[|events| - 1]);
    }
  }

  lemma NextKeepsInv(warehouse: Address, h: History, e: Event)
    requires Inv(h.tables, h.kinds)
    ensures Inv(Next(warehouse, h, e).tables, Next(warehouse, h, e).kinds)
  {
    match e
    case Call(q, f) =>
      var o := OutcomeOf(h.tables, warehouse, q, f);
      if o.Accept? {
        AcceptIsLawful(h.tables, warehouse, q, f);
        InvAfterCommit(h.tables, h.kinds, o.write);
      }
    case Deliver(outbox) =>
      if SameMessages(h.tables.outbox, outbox) {
        InvAfterDelivery(h.tables, h.kinds, outbox);
      }
  }

  // ----- the path behind a timeline -----

  /** The status changes of a timeline: its statuses without immediate repetitions. */
  function Changes(ss: seq<ShipmentStatus>): (p: seq<ShipmentStatus>) {
    if |ss| <= 1 then ss
    else
      var p := Changes(ss[..|ss| - 1]);
      if ss[|ss| - 1] == ss[|ss| - 2] then p else p + [ss[|ss| - 1]]
  }

  /** How many events of a timeline enter a status. */
  function Entering(ss: seq<ShipmentStatus>, status: ShipmentStatus): (n: nat) {
    if |ss| <= 1 then 0
    else Entering(ss[..|ss| - 1], status) + if ss[|ss| - 1] == status && ss[|ss| - 2] != status then 1 else 0
  }

  lemma {:induction false} StoryIsPath(ss: seq<ShipmentStatus>, start: ShipmentStatus, current: ShipmentStatus)
    requires Story(ss, start, current)
    ensures IsPath(Changes(ss)) && Changes(ss)[0] == start && Last(Changes(ss)) == current
  {
    if |ss| > 1 {
      var earlier := ss[..|ss| - 1];
      StoryIsPath(earlier, start, ss[|ss| - 2]);
      if ss[|ss| - 2] != current {
        assert ss[|ss| - 2].CanTransitionTo(ss[|ss| - 1]);
        PathGrows(Changes(earlier), current);
      }
    }
  }

  lemma {:induction false} EnteringIsEntries(ss: seq<ShipmentStatus>, status: ShipmentStatus)
    requires |ss| > 0
    ensures |Changes(ss)| > 0 && Last(Changes(ss)) == ss[|ss| - 1]
    ensures Entries(Changes(ss), status) == Entering(ss, status)
  {
    if |ss| > 1 {
      var earlier := ss[..|ss| - 1];
      EnteringIsEntries(earlier, status);
      EntriesGrow(Changes(earlier), ss[|ss| - 1], status);
    }
  }

  /** The counting laws, read off a timeline. */
  lemma OutboundStoryCounts(ss: seq<ShipmentStatus>, current: ShipmentStatus, status: ShipmentStatus)
    requires Story(ss, AwaitingReceipt, current)
    ensures Entering(ss, DeliveryRescheduled) <= Entering(ss, DeliveryFailed) <= Entering(ss, OutForDelivery)
            <= Entering(ss, DeliveryRescheduled) + 1
    ensures |Changes(ss)| - 1 <= 9 + 3 * Entering(ss, DeliveryFailed)
    ensures Stage(status) != DELIVERY_STAGE ==> Entering(ss, status) <= 1
  {
    StoryIsPath(ss, AwaitingReceipt, current);
    EnteringIsEntries(ss, DeliveryRescheduled);
    EnteringIsEntries(ss, DeliveryFailed);
    EnteringIsEntries(ss, OutForDelivery);
    EnteringIsEntries(ss, status);
    AttemptsBalance(Changes(ss));
    if Stage(status) != DELIVERY_STAGE {
      EnteredAtMostOnce(Changes(ss), status);
    }
  }

  lemma OutboundStoryDelivered(ss: seq<ShipmentStatus>)
    requires Story(ss, AwaitingReceipt, Delivered)
    ensures |Changes(ss)| >= 7
    ensures Changes(ss)[..6] == DELIVERY_CHAIN
  {
    StoryIsPath(ss, AwaitingReceipt, Delivered);
    DeliveredInOrder(Changes(ss), |Changes(ss)| - 1);
  }

  lemma OutboundStoryCancelled(ss: seq<ShipmentStatus>, current: ShipmentStatus)
    requires Story(ss, AwaitingReceipt, current)
    ensures current == Cancelled ==> Changes(ss) == [AwaitingReceipt, Cancelled]
    ensures Entering(ss, Cancelled) + Entering(ss, ReturnToSenderRequested) <= 1
  {
    StoryIsPath(ss, AwaitingReceipt, current);
    EnteringIsEntries(ss, Cancelled);
    EnteringIsEntries(ss, ReturnToSenderRequested);
    CancellationIsEnteredOnce(Changes(ss));
    if current == Cancelled {
      CancelledIsImmediate(Changes(ss), |Changes(ss)| - 1);
    }
  }

  ghost function StatusesOf(t: Tables, id: nat): (ss: seq<ShipmentStatus>) {
    Statuses(EventsOf(t.events, id))
  }

  lemma ReachedRow(warehouse: Address, events: seq<Event>, id: nat)
    requires id in Run(warehouse, events).tables.shipments
    ensures var t := Run(warehouse, events).tables;
            && RowOk(t.shipments[id])
            && Story(StatusesOf(t, id), StartStatus(t.shipments[id].origin.isReturn), t.shipments[id].status)
  {
    RunKeepsInv(warehouse, events);
    var t := Run(warehouse, events).tables;
    assert TimelineOf(t, id);
  }

  /**
   * In every reachable database the events of a shipment, in insertion order, start at its creation status, end at its
   * current status, and change status only along the lifecycle graph.
   */
  lemma TimelineReproducesShipment(warehouse: Address, events: seq<Event>, id: nat)
    requires id in Run(warehouse, events).tables.shipments
    ensures var t := Run(warehouse, events).tables;
            var s := t.shipments[id];
            var p := Changes(StatusesOf(t, id));
            && Story(StatusesOf(t, id), StartStatus(s.origin.isReturn), s.status)
            && (if s.origin.isReturn then ReturnPath(p) else OutboundPath(p))
            && Last(p) == s.status
  {
    ReachedRow(warehouse, events, id);
    var t := Run(warehouse, events).tables;
    StoryIsPath(StatusesOf(t, id), StartStatus(t.shipments[id].origin.isReturn), t.shipments[id].status);
  }

  /**
   * Delivery attempts of an outbound shipment balance, however long the run; every other status is entered once at
   * most.
   */
  lemma LifecycleCounts(warehouse: Address, events: seq<Event>, id: nat, status: ShipmentStatus)
    requires id in Run(warehouse, events).tables.shipments
    requires !Run(warehouse, events).tables.shipments[id].origin.isReturn
    ensures var ss := StatusesOf(Run(warehouse, events).tables, id);
            && Entering(ss, DeliveryRescheduled) <= Entering(ss, DeliveryFailed) <= Entering(ss, OutForDelivery)
               <= Entering(ss, DeliveryRescheduled) + 1
            && |Changes(ss)| - 1 <= 9 + 3 * Entering(ss, DeliveryFailed)
            && (Stage(status) != DELIVERY_STAGE ==> Entering(ss, status) <= 1)
  {
    ReachedRow(warehouse, events, id);
    var t := Run(warehouse, events).tables;
    OutboundStoryCounts(StatusesOf(t, id), t.shipments[id].status, status);
  }

  /**
   * A delivered shipment passed every stage in order; it is delivered exactly when it has a delivery time, with no
   * stops left.
   */
  lemma DeliveredMeansDelivered(warehouse: Address, events: seq<Event>, id: nat)
    requires id in Run(warehouse, events).tables.shipments
    ensures var t := Run(warehouse, events).tables;
            var s := t.shipments[id];
            && (s.status == Delivered <==> s.deliveredAt.Some?)
            && (s.status == Delivered ==>
                  && s.stops == Some(0)
                  && var p := Changes(StatusesOf(t, id));
                     |p| >= 7 && p[..6] == DELIVERY_CHAIN)
  {
    ReachedRow(warehouse, events, id);
    var t := Run(warehouse, events).tables;
    if t.shipments[id].status == Delivered {
      OutboundStoryDelivered(StatusesOf(t, id));
    }
  }

  /** A shipment ends cancelled only if it was never received, and at most one event asks for its cancellation. */
  lemma CancelledWasNeverReceived(warehouse: Address, events: seq<Event>, id: nat)
    requires id in Run(warehouse, events).tables.shipments
    requires !Run(warehouse, events).tables.shipments[id].origin.isReturn
    ensures var t := Run(warehouse, events).tables;
            && (t.shipments[id].status == Cancelled ==> Changes(StatusesOf(t, id)) == [AwaitingReceipt, Cancelled])
            && Entering(StatusesOf(t, id), Cancelled) + Entering(StatusesOf(t, id), ReturnToSenderRequested) <= 1
  {
    ReachedRow(warehouse, events, id);
    var t := Run(warehouse, events).tables;
    OutboundStoryCancelled(StatusesOf(t, id), t.shipments[id].status);
  }

  /**
   * Replaying the callbacks in insertion order yields exactly every shipment's current status and delivery estimate.
   */
  lemma CallbacksReproduceShipments(warehouse: Address, events: seq<Event>)
    ensures var t := Run(warehouse, events).tables;
            && Reproduces(Consumed(t.outbox), t.shipments)
            && forall i :: 0 <= i < |t.outbox| ==>
                 t.outbox[i].message.payload.eta.Some? ==> t.outbox[i].message.payload.eta.value.Ordered()
  {
    RunKeepsInv(warehouse, events);
    var t := Run(warehouse, events).tables;
    forall i | 0 <= i < |t.outbox| && t.outbox[i].message.payload.eta.Some?
      ensures t.outbox[i].message.payload.eta.value.Ordered()
    {
      assert Described(t.events[i], t.audits[i], t.outbox[i].message);
    }
  }

  /**
   * No update is lost: a shipment has one event per version and per AddEvent call, and events, audit rows and outbox
   * rows correspond one to one.
   */
  lemma EventsConserveUpdates(warehouse: Address, events: seq<Event>, id: nat)
    requires id in Run(warehouse, events).tables.shipments
    ensures var h := Run(warehouse, events);
            && |h.kinds| == |h.tables.events| == |h.tables.audits| == |h.tables.outbox|
            && |EventsOf(h.tables.events, id)|
               == h.tables.shipments[id].version + AddedEvents(h.kinds, h.tables.events, id)
            && (forall i, j :: 0 <= i < j < |h.tables.outbox| ==>
                  h.tables.outbox[i].message.eventId != h.tables.outbox[j].message.eventId)
            && forall i :: 0 <= i < |h.tables.events| ==>
                 Described(h.tables.events[i], h.tables.audits[i], h.tables.outbox[i].message)
  {
    RunKeepsInv(warehouse, events);
    var h := Run(warehouse, events);
    forall i, j | 0 <= i < j < |h.tables.outbox|
      ensures h.tables.outbox[i].message.eventId != h.tables.outbox[j].message.eventId
    {
      assert !SameOutboxColumn(h.tables.outbox[i], h.tables.outbox[j]);
    }
  }
}
