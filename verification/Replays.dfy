/** Retries: what a call does when it, or another call with its key, has been accepted before. */
module Replays {
  import opened Text
  import opened Models
  import opened Lifecycle
  import opened Store
  import opened Operations
  import opened Writes
  import opened Invariants
  import opened Runs
  import opened RegistryRuns

  lemma NextExtendsEvents(warehouse: Address, h: History, e: Event)
    ensures h.tables.events <= Next(warehouse, h, e).tables.events
  {
  }

  /** Events are only ever appended. */
  lemma {:induction false} EventsLast(warehouse: Address, earlier: seq<Event>, later: seq<Event>)
    ensures Run(warehouse, earlier).tables.events <= Run(warehouse, earlier + later).tables.events
  {
    if later == [] {
      assert earlier + later == earlier;
    } else {
      var before := earlier + later[..|later| - 1];
      EventsLast(warehouse, earlier, later[..|later| - 1]);
      NextExtendsEvents(warehouse, Run(warehouse, before), later[|later| - 1]);
      assert (earlier + later)[..|earlier + later| - 1] == before;
    }
  }

  lemma RecordUnderCallersKey(call: RowCall, s: Shipment, now: int)
    requires ChangeOf(call, s, now).Change?
    ensures var r := ChangeOf(call, s, now).record; r.source == call.meta.source && r.key == call.meta.key
  {
  }

  lemma AcceptedChange(t: Tables, call: RowCall, f: Draws) returns (id: nat)
    requires RowOutcome(t, call, f).Accept?
    ensures id in t.shipments
    ensures var c := ChangeOf(call, t.shipments[id], f.now);
            c.Change? && RowOutcome(t, call, f).write == WriteOf(c.kind, id, c.shipment, [], c.record, f)
  {
    id := FindByPublicId(t, call.meta.publicId).value;
    ChangedIsRecorded(t, id, ChangeOf(call, t.shipments[id], f.now), f);
  }

  lemma ChangedIsRecorded(t: Tables, id: nat, c: Change, f: Draws)
    requires Changed(t, id, c, f).Accept?
    ensures c.Change? && Changed(t, id, c, f).write == WriteOf(c.kind, id, c.shipment, [], c.record, f)
  {
  }

  /** The event that an accepted call leaves behind, under its trimmed source and key. */
  lemma AcceptedEvent(t: Tables, call: RowCall, f: Draws)
    requires RowOutcome(t, call, f).Accept? && TrimSpace(call.meta.key) != ""
    ensures var e := RowOutcome(t, call, f).write.event;
            && e.source == TrimSpace(call.meta.source) && e.key == TrimSpace(call.meta.key)
            && e.shipmentId == RowOutcome(t, call, f).write.id
  {
    var id := AcceptedChange(t, call, f);
    RecordUnderCallersKey(call, t.shipments[id], f.now);
  }

  lemma SameColumnSameRow(events: seq<EventRow>, i: nat, j: nat)
    requires EventsDistinct(events) && i < |events| && j < |events|
    requires SameEventColumn(events[i], events[j]) && SameEventColumn(events[j], events[i])
    ensures i == j
  {
  }

  /** A recorded key makes its event the only one that a lookup can find. */
  lemma FoundEvent(events: seq<EventRow>, i: nat)
    requires EventsDistinct(events) && i < |events|
    ensures FindEvent(events, events[i].source, events[i].key) == Some(events[i])
  {
    var found := FindEvent(events, events[i].source, events[i].key);
    var j :| 0 <= j < |events| && events[j] == found.value;
    SameColumnSameRow(events, i, j);
  }

  /** A change whose key is recorded is never accepted, whatever it asks for and whichever shipment it names. */
  lemma UsedKeyIsRefused(t: Tables, call: RowCall, f: Draws, i: nat)
    requires i < |t.events| && TrimSpace(call.meta.key) != ""
    requires t.events[i].source == TrimSpace(call.meta.source) && t.events[i].key == TrimSpace(call.meta.key)
    ensures !RowOutcome(t, call, f).Accept?
  {
    if RowOutcome(t, call, f).Accept? {
      AcceptedEvent(t, call, f);
      RowAcceptIsLawful(t, call, f);
      assert SameEventColumn(t.events[i], RowOutcome(t, call, f).write.event);
    }
  }

  /**
   * From a plain source such a change is a replay of what was recorded: the event itself, or its shipment as it is now.
   */
  lemma UsedKeyIsReplayed(t: Tables, call: RowCall, f: Draws, i: nat)
    requires EventsDistinct(t.events) && Anchored(t) && i < |t.events| && TrimSpace(call.meta.key) != ""
    requires t.events[i].source == call.meta.source && t.events[i].key == TrimSpace(call.meta.key)
    requires RowFault(call) == None
    ensures RowOutcome(t, call, f) == if call.EventCall? then ReplayEvent(t.events[i])
            else ReplayShipment(t.events[i].shipmentId)
  {
    FoundEvent(t.events, i);
    assert call.meta.key != "" by {
      TrimSpaceIsIdempotent("");
    }
  }

  lemma PlaceOfLast(events: seq<EventRow>, e: EventRow, longer: seq<EventRow>)
    requires events + [e] <= longer
    ensures |events| < |longer| && longer[|events|] == e
  {
  }

  /** The event of an accepted change is found in its place in every later database. */
  lemma AcceptedEventLasts(warehouse: Address, earlier: seq<Event>, call: RowCall, f: Draws, later: seq<Event>)
    requires RowOutcome(Run(warehouse, earlier).tables, call, f).Accept?
    ensures var i := |Run(warehouse, earlier).tables.events|;
            var recorded := Run(warehouse, earlier + [Call(Update(call), f)] + later).tables.events;
            i < |recorded| && recorded[i] == RowOutcome(Run(warehouse, earlier).tables, call, f).write.event
  {
    var t := Run(warehouse, earlier).tables;
    var w := RowOutcome(t, call, f).write;
    TablesAfterAccept(warehouse, earlier, Update(call), f, w);
    EventsLast(warehouse, earlier + [Call(Update(call), f)], later);
    PlaceOfLast(t.events, w.event, Run(warehouse, earlier + [Call(Update(call), f)] + later).tables.events);
  }

  lemma RetryIsRefused(t0: Tables, call: RowCall, f: Draws, t: Tables, i: nat, f': Draws)
    requires RowOutcome(t0, call, f).Accept? && TrimSpace(call.meta.key) != ""
    requires i < |t.events| && t.events[i] == RowOutcome(t0, call, f).write.event
    ensures !RowOutcome(t, call, f').Accept?
  {
    AcceptedEvent(t0, call, f);
    UsedKeyIsRefused(t, call, f', i);
  }

  lemma RetryIsReplayed(t0: Tables, call: RowCall, f: Draws, t: Tables, i: nat, f': Draws)
    requires RowOutcome(t0, call, f).Accept? && TrimSpace(call.meta.key) != ""
    requires TrimSpace(call.meta.source) == call.meta.source
    requires i < |t.events| && t.events[i] == RowOutcome(t0, call, f).write.event
    requires EventsDistinct(t.events) && Anchored(t)
    ensures var w := RowOutcome(t0, call, f).write;
            RowOutcome(t, call, f') == if call.EventCall? then ReplayEvent(w.event) else ReplayShipment(w.id)
  {
    AcceptedEvent(t0, call, f);
    UsedKeyIsReplayed(t, call, f', i);
  }

  /**
   * Repeating an accepted change, at any later time, writes nothing; from a plain source it returns the event or the
   * shipment of the first call.
   */
  lemma RetryChangesNothing(warehouse: Address, earlier: seq<Event>, call: RowCall, f: Draws, later: seq<Event>,
                            f': Draws)
    requires RowOutcome(Run(warehouse, earlier).tables, call, f).Accept? && TrimSpace(call.meta.key) != ""
    ensures var w := RowOutcome(Run(warehouse, earlier).tables, call, f).write;
            var t := Run(warehouse, earlier + [Call(Update(call), f)] + later).tables;
            && !RowOutcome(t, call, f').Accept?
            && (TrimSpace(call.meta.source) == call.meta.source ==>
                  RowOutcome(t, call, f') == if call.EventCall? then ReplayEvent(w.event) else ReplayShipment(w.id))
  {
    var t0 := Run(warehouse, earlier).tables;
    var t := Run(warehouse, earlier + [Call(Update(call), f)] + later).tables;
    AcceptedEventLasts(warehouse, earlier, call, f, later);
    RetryIsRefused(t0, call, f, t, |t0.events|, f');
    if TrimSpace(call.meta.source) == call.meta.source {
      ReachedRows(warehouse, earlier + [Call(Update(call), f)] + later);
      ReachedEvents(warehouse, earlier + [Call(Update(call), f)] + later);
      RetryIsReplayed(t0, call, f, t, |t0.events|, f');
    }
  }

  lemma ReachedEvents(warehouse: Address, events: seq<Event>)
    ensures EventsDistinct(Run(warehouse, events).tables.events)
  {
    RunKeepsInv(warehouse, events);
  }

  /** Two accepted calls of any kind never record the same key of the same source. */
  lemma OneEffectPerKey(warehouse: Address, events: seq<Event>, i: nat, j: nat)
    requires var recorded := Run(warehouse, events).tables.events;
             && i < |recorded| && j < |recorded|
             && recorded[i].source == recorded[j].source && recorded[i].key == recorded[j].key
    ensures i == j
  {
    RunKeepsInv(warehouse, events);
    var recorded := Run(warehouse, events).tables.events;
    SameColumnSameRow(recorded, i, j);
  }

  // ----- cancellation -----

  lemma PublicIdFindsRow(t: Tables, id: nat, publicId: string)
    requires ShipmentsDistinct(t.shipments) && id in t.shipments
    requires t.shipments[id].origin.publicId == TrimSpace(publicId)
    ensures FindByPublicId(t, publicId) == Some(id)
    ensures !t.shipments[id].origin.isReturn ==> OutboundByPublicId(t, publicId) == Some(id)
  {
    forall other | other in t.shipments && t.shipments[other].origin.publicId == TrimSpace(publicId)
      ensures other == id
    {
      assert other == id || !SameUniqueColumn(t.shipments[other].origin, t.shipments[id].origin);
    }
    assert id in ByPublicId(t.shipments, TrimSpace(publicId));
  }

  /** The statuses from which a cancellation has nothing left to do, and those from which it is too late. */
  predicate CancelDone(status: ShipmentStatus) {
    status == Cancelled || status == ReturnToSenderRequested
  }

  predicate CancelTooLate(status: ShipmentStatus) {
    || status == Delivered || status == ReturnToSenderPrepared || status == ReturnToSenderInTransit
    || status == ReturnToSenderReceived
  }

  lemma CancelEdge(status: ShipmentStatus)
    requires OutboundLane(status) && !CancelDone(status) && !CancelTooLate(status)
    ensures status.CanTransitionTo(CancelTarget(status))
  {
  }

  function CancelTarget(status: ShipmentStatus): (next: ShipmentStatus) {
    if status == AwaitingReceipt then Cancelled else ReturnToSenderRequested
  }

  lemma PlanFor(t: Tables, id: nat, publicId: string, key: string, requestId: string, source: string)
    requires ShipmentsDistinct(t.shipments) && id in t.shipments && !t.shipments[id].origin.isReturn
    requires t.shipments[id].origin.publicId == TrimSpace(publicId)
    ensures var status := t.shipments[id].status;
            PlanCancel(t, publicId, key, requestId, source)
            == if CancelDone(status) then Done(ReplayShipment(id))
               else if CancelTooLate(status) then Done(Reject(InvalidTransition))
               else Proceed(TransitionCall(Meta(publicId, RoleAdmin, source, key, requestId, source), status,
                                           CancelTarget(status)))
  {
    PublicIdFindsRow(t, id, publicId);
  }

  /** A permitted transition of the named shipment, under a free key, is accepted. */
  lemma UndisturbedTransition(t: Tables, id: nat, meta: Meta, expected: ShipmentStatus, next: ShipmentStatus, f: Draws)
    requires ShipmentsDistinct(t.shipments) && Aligned(t) && id in t.shipments
    requires t.shipments[id].origin.publicId == TrimSpace(meta.publicId) && CanManageStatus(meta.role, next)
    requires t.shipments[id].status == expected && expected.CanTransitionTo(next)
    requires ValidLength(meta.source, 80) && 0 < ByteLen(TrimSpace(meta.key)) <= MAX_EVENT_KEY
    requires UnusedKey(t.events, meta.source, TrimSpace(meta.key))
    requires UnusedKey(t.events, TrimSpace(meta.source), TrimSpace(meta.key))
    requires UnusedRows(t, f)
    ensures var o := RowOutcome(t, TransitionCall(meta, expected, next), f);
            o.Accept? && o.write.id == id && o.write.shipment.status == next
  {
    PublicIdFindsRow(t, id, meta.publicId);
    var c := ChangeOf(TransitionCall(meta, expected, next), t.shipments[id], f.now);
    RecordAcceptsIff(t, c.kind, id, c.shipment, [], c.record, f);
  }

  lemma CancelProceeds(t: Tables, publicId: string, key: string, requestId: string, source: string, f: Draws)
    ensures CancelOutcome(t, publicId, key, requestId, source, f)
            == match PlanCancel(t, publicId, key, requestId, source)
               case Done(o) => o
               case Proceed(call) => RowOutcome(t, call, f)
  {
  }

  /**
   * An undisturbed Cancel with a fresh key, from any status an outbound shipment can reach: it replays a cancellation,
   * refuses the four late statuses, and is accepted from every other one.
   */
  lemma UndisturbedCancel(t: Tables, id: nat, publicId: string, key: string, requestId: string, source: string,
                          f: Draws)
    requires ShipmentsDistinct(t.shipments) && RowsOk(t.shipments) && Aligned(t) && id in t.shipments
    requires !t.shipments[id].origin.isReturn && t.shipments[id].origin.publicId == TrimSpace(publicId)
    requires ValidLength(source, 80) && 0 < ByteLen(TrimSpace(key)) <= MAX_EVENT_KEY
    requires UnusedKey(t.events, source, TrimSpace(key)) && UnusedKey(t.events, TrimSpace(source), TrimSpace(key))
    requires UnusedRows(t, f)
    ensures var o := CancelOutcome(t, publicId, key, requestId, source, f);
            var status := t.shipments[id].status;
            if CancelDone(status) then o == ReplayShipment(id)
            else if CancelTooLate(status) then o == Reject(InvalidTransition)
            else o.Accept? && o.write.id == id && o.write.shipment.status == CancelTarget(status)
  {
    PlanFor(t, id, publicId, key, requestId, source);
    CancelProceeds(t, publicId, key, requestId, source, f);
    var status := t.shipments[id].status;
    if !CancelDone(status) && !CancelTooLate(status) {
      assert RowOk(t.shipments[id]);
      CancelEdge(status);
      UndisturbedTransition(t, id, Meta(publicId, RoleAdmin, source, key, requestId, source), status,
                            CancelTarget(status), f);
    }
  }

  // ----- cancelled for good -----

  /** No Cancel is accepted any more: it is done, or it comes too late. */
  predicate PastCancelling(status: ShipmentStatus) {
    CancelDone(status) || CancelTooLate(status)
  }

  lemma CancelsNoMore(t: Tables, id: nat, publicId: string, key: string, requestId: string, source: string, f: Draws)
    requires ShipmentsDistinct(t.shipments) && id in t.shipments && !t.shipments[id].origin.isReturn
    requires t.shipments[id].origin.publicId == TrimSpace(publicId) && PastCancelling(t.shipments[id].status)
    ensures CancelOutcome(t, publicId, key, requestId, source, f)
            == if CancelDone(t.shipments[id].status) then ReplayShipment(id) else Reject(InvalidTransition)
  {
    PlanFor(t, id, publicId, key, requestId, source);
    CancelProceeds(t, publicId, key, requestId, source, f);
  }

  lemma WriteStaysPast(t: Tables, w: Write, id: nat)
    requires Lawful(t, w) && id in t.shipments && PastCancelling(t.shipments[id].status)
    ensures PastCancelling(Commit(t, w).shipments[id].status)
  {
  }

  lemma NextStaysPast(warehouse: Address, h: History, e: Event, id: nat)
    requires id in h.tables.shipments && PastCancelling(h.tables.shipments[id].status)
    ensures id in Next(warehouse, h, e).tables.shipments
    ensures PastCancelling(Next(warehouse, h, e).tables.shipments[id].status)
  {
    if e.Call? && OutcomeOf(h.tables, warehouse, e.request, e.drawn).Accept? {
      AcceptIsLawful(h.tables, warehouse, e.request, e.drawn);
      WriteStaysPast(h.tables, OutcomeOf(h.tables, warehouse, e.request, e.drawn).write, id);
    }
  }

  ghost predicate PastAt(warehouse: Address, events: seq<Event>, id: nat) {
    id in Run(warehouse, events).tables.shipments && PastCancelling(Run(warehouse, events).tables.shipments[id].status)
  }

  lemma OneMoreStaysPast(warehouse: Address, before: seq<Event>, e: Event, id: nat)
    requires PastAt(warehouse, before, id)
    ensures PastAt(warehouse, before + [e], id)
  {
    NextStaysPast(warehouse, Run(warehouse, before), e, id);
    assert (before + [e])[..|before|] == before;
  }

  lemma {:induction false} StaysPast(warehouse: Address, earlier: seq<Event>, later: seq<Event>, id: nat)
    requires PastAt(warehouse, earlier, id)
    ensures PastAt(warehouse, earlier + later, id)
  {
    if later == [] {
      assert earlier + later == earlier;
    } else {
      var shorter, last := later[..|later| - 1], later[|later| - 1];
      assert earlier + later == (earlier + shorter) + [last];
      StaysPast(warehouse, earlier, shorter, id);
      OneMoreStaysPast(warehouse, earlier + shorter, last, id);
    }
  }

  /**
   * Once a shipment is cancelled, delivered or on its way back, then whatever happens later no Cancel of it is
   * accepted, under any key: it is answered with the shipment if that is cancelled or a return has been requested, else
   * refused.
   */
  lemma CancelledForGood(warehouse: Address, earlier: seq<Event>, later: seq<Event>, id: nat, publicId: string,
                         key: string,
                         requestId: string, source: string, f: Draws)
    requires PastAt(warehouse, earlier, id) && !Run(warehouse, earlier).tables.shipments[id].origin.isReturn
    requires Run(warehouse, earlier).tables.shipments[id].origin.publicId == TrimSpace(publicId)
    ensures var t := Run(warehouse, earlier + later).tables;
            && id in t.shipments && PastCancelling(t.shipments[id].status)
            && CancelOutcome(t, publicId, key, requestId, source, f)
               == if CancelDone(t.shipments[id].status) then ReplayShipment(id) else Reject(InvalidTransition)
  {
    StaysPast(warehouse, earlier, later, id);
    RunRemembers(warehouse, earlier, later);
    ReachedRows(warehouse, earlier + later);
    CancelsNoMore(Run(warehouse, earlier + later).tables, id, publicId, key, requestId, source, f);
  }
}
