/** Who may do what: the roles behind the events of every reachable database, and when a role is turned away. */
module Authority {
  import opened Text
  import opened Models
  import opened Items
  import opened Store
  import opened Operations
  import opened Writes
  import opened Runs
  import Replays

  /** Personnel and the shipping administrator may do everything. */
  const UNLIMITED: set<string> := {"admin", "employee", "shipping_admin"}

  const WAREHOUSE: set<ShipmentStatus> := {ReceivedByShipping, ShipmentPrepared, InTransit, ArrivedDestinationHub}

  const SUPPORT: set<ShipmentStatus> := {DeliveryRescheduled, ReturnAuthorized, ReturnCompleted}

  const DELIVERY: set<ShipmentStatus> := {OutForDelivery, Delivered, DeliveryFailed}

  /** Whether a role, by its text, may make a change that leaves this status. */
  predicate MayAct(kind: OpKind, status: ShipmentStatus, role: string) {
    match kind
    case Creation => true
    case Transitioned =>
      || role in UNLIMITED || (role == "warehouse_employee" && status in WAREHOUSE)
      || (role == "support" && status in SUPPORT) || (role == "delivery_employee" && status in DELIVERY)
    case StopsUpdated => role in UNLIMITED || role == "delivery_employee"
    case EtaUpdated => role in UNLIMITED || role == "delivery_employee" || role == "support"
    case EventAdded => role in UNLIMITED || role in {"warehouse_employee", "delivery_employee", "support"}
  }

  /** A role given by its text. */
  function RoleNamed(text: string): (role: Role) {
    if text == "admin" then RoleAdmin
    else if text == "employee" then RoleEmployee
    else if text == "shipping_admin" then RoleShippingAdmin
    else if text == "warehouse_employee" then RoleWarehouseEmployee
    else if text == "delivery_employee" then RoleDeliveryEmployee
    else if text == "support" then RoleSupport
    else OtherRole(text)
  }

  function KindOfCall(call: RowCall): (kind: OpKind) {
    match call
    case TransitionCall(_, _, _) => Transitioned
    case StopsCall(_, _) => StopsUpdated
    case EtaCall(_, _) => EtaUpdated
    case EventCall(_, _) => EventAdded
  }

  /** The status that a role is judged by: the one a transition asks for. */
  function AskedStatus(call: RowCall): (status: ShipmentStatus) {
    if call.TransitionCall? then call.next else Created
  }

  /** A change is forbidden exactly to the roles that may not make it; negative stops are forbidden to all. */
  lemma ForbiddenIff(call: RowCall, text: string)
    requires call.meta.role == RoleNamed(text)
    ensures RowFault(call) == Some(Forbidden)
            <==> !MayAct(KindOfCall(call), AskedStatus(call), text) || (call.StopsCall? && call.remaining < 0)
  {
  }

  lemma RoleTextIsPlain(role: Role)
    requires !role.OtherRole?
    ensures TrimSpace(RoleText(role)) == RoleText(role)
    ensures RoleNamed(RoleText(role)) == role
  {
    TrimSpaceIsIdempotent(RoleText(role));
  }

  lemma AcceptedRole(call: RowCall)
    requires RowFault(call) == None
    ensures !call.meta.role.OtherRole? && MayAct(KindOfCall(call), AskedStatus(call), RoleText(call.meta.role))
  {
  }

  lemma ChangeKind(call: RowCall, s: Shipment, now: int)
    requires ChangeOf(call, s, now).Change?
    ensures var c := ChangeOf(call, s, now);
            && c.kind == KindOfCall(call) && c.record.actorType == RoleText(call.meta.role)
            && (c.kind == Transitioned ==> c.record.status == AskedStatus(call))
  {
  }

  lemma RowIsValid(t: Tables, call: RowCall, f: Draws)
    requires RowOutcome(t, call, f).Accept?
    ensures RowFault(call) == None
  {
  }

  lemma RowAcceptIsAuthorized(t: Tables, call: RowCall, f: Draws)
    requires RowOutcome(t, call, f).Accept?
    ensures var w := RowOutcome(t, call, f).write; MayAct(w.kind, w.event.status, w.event.createdByType)
  {
    var id := Replays.AcceptedChange(t, call, f);
    RowIsValid(t, call, f);
    AcceptedRole(call);
    ChangeKind(call, t.shipments[id], f.now);
    RoleTextIsPlain(call.meta.role);
  }

  lemma CreationIsAuthorized(t: Tables, warehouse: Address, q: Request, f: Draws)
    requires (q.Create? || q.CreateReturn?) && OutcomeOf(t, warehouse, q, f).Accept?
    ensures OutcomeOf(t, warehouse, q, f).write.kind == Creation
  {
    if q.Create? {
      CreateIsInserted(t, warehouse, q.create, q.key, q.source, q.requestId, f);
      OutboundIsRecorded(t, warehouse, q.create, q.key, q.source, q.requestId, f);
      RecordWrites(t, Creation, f.shipmentId, OutboundShipment(warehouse, q.create, q.key, q.source, f),
                   ItemRows(f.shipmentId, q.create.items), OutboundRecord(q.create, q.key, q.source, q.requestId, f),
                   f);
    } else {
      var id := ReturnIsInserted(t, warehouse, q.returned, q.key, q.source, q.requestId, f);
      var original := t.shipments[id].origin;
      ReturnIsRecorded(t, warehouse, q.returned, id, original, q.key, q.source, q.requestId, f);
      RecordWrites(t, Creation, f.shipmentId, ReturnShipment(warehouse, q.returned, id, original, q.key, q.source, f),
                   ItemRows(f.shipmentId, q.returned.items), ReturnRecord(q.returned, q.key, q.source, q.requestId, f),
                   f);
    }
  }

  lemma AcceptIsAuthorized(t: Tables, warehouse: Address, q: Request, f: Draws)
    requires OutcomeOf(t, warehouse, q, f).Accept?
    ensures var w := OutcomeOf(t, warehouse, q, f).write; MayAct(w.kind, w.event.status, w.event.createdByType)
  {
    match q
    case Create(_, _, _, _) => CreationIsAuthorized(t, warehouse, q, f);
    case CreateReturn(_, _, _, _) => CreationIsAuthorized(t, warehouse, q, f);
    case Cancel(publicId, key, requestId, source) =>
      RowAcceptIsAuthorized(t, PlanCancel(t, publicId, key, requestId, source).call, f);
    case Update(call) => RowAcceptIsAuthorized(t, call, f);
  }

  ghost predicate AllAuthorized(h: History) {
    |h.kinds| == |h.tables.events|
    && forall i :: 0 <= i < |h.kinds| ==>
         MayAct(h.kinds[i], h.tables.events[i].status, h.tables.events[i].createdByType)
  }

  lemma NextIsAuthorized(warehouse: Address, h: History, e: Event)
    requires AllAuthorized(h)
    ensures AllAuthorized(Next(warehouse, h, e))
  {
    if e.Call? && OutcomeOf(h.tables, warehouse, e.request, e.drawn).Accept? {
      AcceptIsAuthorized(h.tables, warehouse, e.request, e.drawn);
    }
  }

  /**
   * In every reachable database each change was made by a role that may make it: only warehouse personnel moves
   * shipments to the hub, only delivery personnel out for delivery and to its outcome, unless an unlimited role does;
   * others do nothing.
   */
  lemma {:induction false} EveryChangeIsAuthorized(warehouse: Address, events: seq<Event>)
    ensures var h := Run(warehouse, events);
            && |h.kinds| == |h.tables.events|
            && forall i :: 0 <= i < |h.kinds| ==>
                 MayAct(h.kinds[i], h.tables.events[i].status, h.tables.events[i].createdByType)
  {
    if events != [] {
      EveryChangeIsAuthorized(warehouse, events[..|events| - 1]);
      NextIsAuthorized(warehouse, Run(warehouse, events[..|events| - 1]), events[|events| - 1]);
    }
  }
}
