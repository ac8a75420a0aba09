/** Counting laws of the lifecycle graph, for runs of any length. */
module Lifecycle {
  import opened Models

  /** The statuses a shipment goes through, one entry per change. */
  ghost predicate IsPath(p: seq<ShipmentStatus>) {
    |p| > 0 && forall i :: 0 < i < |p| ==> p[i - 1].CanTransitionTo(p[i])
  }

  ghost predicate OutboundPath(p: seq<ShipmentStatus>) {
    IsPath(p) && p[0] == AwaitingReceipt
  }

  ghost predicate ReturnPath(p: seq<ShipmentStatus>) {
    IsPath(p) && p[0] == ReturnAuthorized
  }

  // ----- the graph itself -----

  /** From the first label to the recipient. */
  const WAY_OUT: seq<ShipmentStatus> := [
    Created, LabelCreated, ReadyForPickup, AwaitingReceipt, ReceivedByShipping, ShipmentPrepared, InTransit,
    ArrivedDestinationHub, OutForDelivery, Delivered]

  /** A failed delivery and the next attempt. */
  const RETRY: seq<ShipmentStatus> := [OutForDelivery, DeliveryFailed, DeliveryRescheduled, OutForDelivery]

  /** A return of the customer. */
  const WAY_BACK: seq<ShipmentStatus> := [
    ReturnRequested, ReturnAuthorized, ReturnLabelCreated, WaitingCustomerHandover, ReturnReceivedByShipping,
    ReturnPrepared, ReturnInTransit, ReturnReceivedAtWarehouse, ReturnCompleted]

  /** What was received and goes back undelivered. */
  const TO_SENDER: seq<ShipmentStatus> := [
    ReturnToSenderRequested, ReturnToSenderPrepared, ReturnToSenderInTransit, ReturnToSenderReceived]

  /** One status comes right before another in a chain. */
  ghost predicate Follows(chain: seq<ShipmentStatus>, a: ShipmentStatus, b: ShipmentStatus) {
    exists i :: 0 <= i < |chain| - 1 && chain[i] == a && chain[i + 1] == b
  }

  /** Where a status stands in the chain that leads on from it. */
  function Rung(status: ShipmentStatus): (n: nat) {
    match status
    case Created | ReturnRequested | ReturnToSenderRequested => 0
    case LabelCreated | ReturnAuthorized | ReturnToSenderPrepared | DeliveryFailed => 1
    case ReadyForPickup | ReturnLabelCreated | ReturnToSenderInTransit | DeliveryRescheduled => 2
    case AwaitingReceipt | WaitingCustomerHandover => 3
    case ReceivedByShipping | ReturnReceivedByShipping => 4
    case ShipmentPrepared | ReturnPrepared => 5
    case InTransit | ReturnInTransit => 6
    case ArrivedDestinationHub | ReturnReceivedAtWarehouse => 7
    case OutForDelivery => 8
    case _ => 9
  }

  /** A chain whose every step is an edge. */
  ghost predicate Leads(chain: seq<ShipmentStatus>) {
    forall i :: 0 <= i < |chain| - 1 ==> chain[i].CanTransitionTo(chain[i + 1])
  }

  lemma WayOutLeads()
    ensures Leads(WAY_OUT)
  {
    forall i | 0 <= i < |WAY_OUT| - 1 ensures WAY_OUT[i].CanTransitionTo(WAY_OUT[i + 1]) {
      assert Rung(WAY_OUT[i]) == i && Rung(WAY_OUT[i + 1]) == i + 1;
    }
  }

  lemma WayBackLeads()
    ensures Leads(WAY_BACK)
  {
    forall i | 0 <= i < |WAY_BACK| - 1 ensures WAY_BACK[i].CanTransitionTo(WAY_BACK[i + 1]) {
      assert Rung(WAY_BACK[i]) == i && (i < 7 ==> Rung(WAY_BACK[i + 1]) == i + 1);
    }
  }

  lemma RetryLeads()
    ensures Leads(RETRY)
  {
  }

  lemma ToSenderLeads()
    ensures Leads(TO_SENDER)
  {
  }

  /** What may be cancelled before it is received, and what may only be sent back. */
  const BEFORE_RECEIPT: set<ShipmentStatus> := {Created, LabelCreated, ReadyForPickup, AwaitingReceipt}

  const UNDER_WAY: set<ShipmentStatus> := {
    ReceivedByShipping, ShipmentPrepared, InTransit, ArrivedDestinationHub, OutForDelivery, DeliveryFailed,
    DeliveryRescheduled}

  lemma EdgeOfWayOut(a: ShipmentStatus, b: ShipmentStatus)
    requires a.CanTransitionTo(b) && a in BEFORE_RECEIPT + UNDER_WAY
    requires b !in {Cancelled, ReturnToSenderRequested, DeliveryFailed} && a !in {DeliveryFailed, DeliveryRescheduled}
    ensures Follows(WAY_OUT, a, b)
  {
    var k := Rung(a);
    assert WAY_OUT[k] == a && WAY_OUT[k + 1] == b;
  }

  lemma EdgeOfRetry(a: ShipmentStatus, b: ShipmentStatus)
    requires a.CanTransitionTo(b) && (b == DeliveryFailed || (a in {DeliveryFailed, DeliveryRescheduled}))
    requires b != ReturnToSenderRequested
    ensures Follows(RETRY, a, b)
  {
    var k := if b == DeliveryFailed then 0 else Rung(a);
    assert RETRY[k] == a && RETRY[k + 1] == b;
  }

  lemma EdgeOfWayBack(a: ShipmentStatus, b: ShipmentStatus)
    requires a.CanTransitionTo(b) && a !in BEFORE_RECEIPT + UNDER_WAY
    requires a !in {ReturnToSenderRequested, ReturnToSenderPrepared, ReturnToSenderInTransit}
    ensures Follows(WAY_BACK, a, b)
  {
    var k := Rung(a);
    assert WAY_BACK[k] == a && WAY_BACK[k + 1] == b;
  }

  lemma EdgeToSender(a: ShipmentStatus, b: ShipmentStatus)
    requires a.CanTransitionTo(b) && a in {ReturnToSenderRequested, ReturnToSenderPrepared, ReturnToSenderInTransit}
    ensures Follows(TO_SENDER, a, b)
  {
    var k := Rung(a);
    assert TO_SENDER[k] == a && TO_SENDER[k + 1] == b;
  }

  lemma EdgesOfUnderWay(a: ShipmentStatus, b: ShipmentStatus)
    requires a.CanTransitionTo(b)
    ensures b == Cancelled ==> a in BEFORE_RECEIPT
    ensures b == ReturnToSenderRequested ==> a in UNDER_WAY
  {
  }

  lemma EdgesLeadAlongChains(a: ShipmentStatus, b: ShipmentStatus)
    requires a.CanTransitionTo(b)
    ensures Follows(WAY_OUT, a, b) || Follows(RETRY, a, b) || Follows(WAY_BACK, a, b) || Follows(TO_SENDER, a, b)
            || (a in BEFORE_RECEIPT && b == Cancelled) || (a in UNDER_WAY && b == ReturnToSenderRequested)
  {
    EdgesOfUnderWay(a, b);
    if b != Cancelled && b != ReturnToSenderRequested {
      if a !in BEFORE_RECEIPT + UNDER_WAY {
        if a in {ReturnToSenderRequested, ReturnToSenderPrepared, ReturnToSenderInTransit} {
          EdgeToSender(a, b);
        } else {
          EdgeOfWayBack(a, b);
        }
      } else if b == DeliveryFailed || a in {DeliveryFailed, DeliveryRescheduled} {
        EdgeOfRetry(a, b);
      } else {
        EdgeOfWayOut(a, b);
      }
    }
  }

  lemma SideEdges(a: ShipmentStatus)
    ensures a in BEFORE_RECEIPT ==> a.CanTransitionTo(Cancelled)
    ensures a in UNDER_WAY ==> a.CanTransitionTo(ReturnToSenderRequested)
  {
  }

  lemma LeadsAlongEdges(chain: seq<ShipmentStatus>, a: ShipmentStatus, b: ShipmentStatus)
    requires Leads(chain) && Follows(chain, a, b)
    ensures a.CanTransitionTo(b)
  {
    var i :| 0 <= i < |chain| - 1 && chain[i] == a && chain[i + 1] == b;
  }

  /**
   * The whole graph: three chains, the retry loop, cancellation before receipt, and the way back to the sender after
   * it.
   */
  lemma GraphIs(a: ShipmentStatus, b: ShipmentStatus)
    ensures a.CanTransitionTo(b)
            <==> || Follows(WAY_OUT, a, b) || Follows(RETRY, a, b) || Follows(WAY_BACK, a, b)
                 || Follows(TO_SENDER, a, b)
                 || (a in BEFORE_RECEIPT && b == Cancelled) || (a in UNDER_WAY && b == ReturnToSenderRequested)
  {
    if a.CanTransitionTo(b) {
      EdgesLeadAlongChains(a, b);
    } else {
      WayOutLeads();
      WayBackLeads();
      RetryLeads();
      ToSenderLeads();
      SideEdges(a);
      var chains := [WAY_OUT, RETRY, WAY_BACK, TO_SENDER];
      forall k | 0 <= k < 4 ensures !Follows(chains[k], a, b) {
        if Follows(chains[k], a, b) {
          LeadsAlongEdges(chains[k], a, b);
        }
      }
      assert chains[0] == WAY_OUT && chains[1] == RETRY && chains[2] == WAY_BACK && chains[3] == TO_SENDER;
    }
  }

  function Last<T>(p: seq<T>): (x: T)
    requires |p| > 0
  {
    p[|p| - 1]
  }

  lemma PathGrows(p: seq<ShipmentStatus>, next: ShipmentStatus)
    requires IsPath(p) && Last(p).CanTransitionTo(next)
    ensures IsPath(p + [next]) && (p + [next])[0] == p[0] && Last(p + [next]) == next
  {
  }

  lemma EntriesGrow(p: seq<ShipmentStatus>, next: ShipmentStatus, status: ShipmentStatus)
    requires |p| > 0
    ensures Entries(p + [next], status) == Entries(p, status) + if next == status then 1 else 0
  {
    assert (p + [next])[..|p|] == p;
  }

  /** How often a path enters a status after its start. */
  function Entries(p: seq<ShipmentStatus>, status: ShipmentStatus): (n: nat) {
    if |p| <= 1 then 0
    else Entries(p[..|p| - 1], status) + if Last(p) == status then 1 else 0
  }

  /** Progress along the outbound lane. Only the delivery attempts share a stage. */
  function Stage(status: ShipmentStatus): (n: nat) {
    match status
    case AwaitingReceipt => 0
    case ReceivedByShipping => 1
    case ShipmentPrepared => 2
    case InTransit => 3
    case ArrivedDestinationHub => 4
    case OutForDelivery => 5
    case DeliveryFailed => 5
    case DeliveryRescheduled => 5
    case Delivered => 6
    case ReturnToSenderRequested => 7
    case ReturnToSenderPrepared => 8
    case ReturnToSenderInTransit => 9
    case ReturnToSenderReceived => 10
    case Cancelled => 11
    case _ => 12
  }

  const DELIVERY_STAGE: nat := 5

  predicate OutboundLane(status: ShipmentStatus) {
    Stage(status) < 12
  }

  predicate ReturnLane(status: ShipmentStatus) {
    || status == ReturnAuthorized || status == ReturnLabelCreated || status == WaitingCustomerHandover
    || status == ReturnReceivedByShipping || status == ReturnPrepared || status == ReturnInTransit
    || status == ReturnReceivedAtWarehouse || status == ReturnCompleted
  }

  lemma DeliveryEdgeAdvances(a: ShipmentStatus, b: ShipmentStatus)
    requires a.CanTransitionTo(b) && Stage(a) == DELIVERY_STAGE
    ensures OutboundLane(b) && Stage(a) <= Stage(b)
  {
  }

  lemma EarlyEdgeAdvances(a: ShipmentStatus, b: ShipmentStatus)
    requires a.CanTransitionTo(b) && Stage(a) < DELIVERY_STAGE
    ensures OutboundLane(b) && Stage(a) < Stage(b)
  {
  }

  lemma LateEdgeAdvances(a: ShipmentStatus, b: ShipmentStatus)
    requires a.CanTransitionTo(b) && OutboundLane(a) && DELIVERY_STAGE < Stage(a)
    ensures OutboundLane(b) && Stage(a) < Stage(b)
  {
  }

  /** A transition advances the stage, or stays among the delivery attempts. */
  lemma EdgeAdvances(a: ShipmentStatus, b: ShipmentStatus)
    requires a.CanTransitionTo(b) && OutboundLane(a)
    ensures OutboundLane(b)
    ensures Stage(a) < Stage(b) || Stage(a) == Stage(b) == DELIVERY_STAGE
  {
    if Stage(a) == DELIVERY_STAGE {
      DeliveryEdgeAdvances(a, b);
    } else if Stage(a) < DELIVERY_STAGE {
      EarlyEdgeAdvances(a, b);
    } else {
      LateEdgeAdvances(a, b);
    }
  }

  lemma {:induction false} StaysInLane(p: seq<ShipmentStatus>, j: nat)
    requires OutboundPath(p) && j < |p|
    ensures OutboundLane(p[j])
  {
    if j > 0 {
      StaysInLane(p, j - 1);
      EdgeAdvances(p[j - 1], p[j]);
    }
  }

  function Stages(p: seq<ShipmentStatus>): (ns: seq<nat>)
    ensures |ns| == |p|
  {
    seq(|p|, i requires 0 <= i < |p| => Stage(p[i]))
  }

  lemma StagesRise(p: seq<ShipmentStatus>)
    requires OutboundPath(p)
    ensures forall i :: 0 < i < |p| ==> Stages(p)[i - 1] <= Stages(p)[i]
  {
    forall i | 0 < i < |p| ensures Stages(p)[i - 1] <= Stages(p)[i] {
      StaysInLane(p, i - 1);
      EdgeAdvances(p[i - 1], p[i]);
    }
  }

  lemma {:induction false} RisingIsMonotone(ns: seq<nat>, i: nat, j: nat)
    requires i <= j < |ns| && forall k :: 0 < k < |ns| ==> ns[k - 1] <= ns[k]
    ensures ns[i] <= ns[j]
  {
    if i < j {
      RisingIsMonotone(ns, i, j - 1);
    }
  }

  lemma StageIsMonotone(p: seq<ShipmentStatus>, i: nat, j: nat)
    requires OutboundPath(p) && i <= j < |p|
    ensures OutboundLane(p[i]) && OutboundLane(p[j]) && Stage(p[i]) <= Stage(p[j])
  {
    StaysInLane(p, i);
    StaysInLane(p, j);
    StagesRise(p);
    RisingIsMonotone(Stages(p), i, j);
  }

  lemma {:induction false} LaterStageNotEntered(p: seq<ShipmentStatus>, status: ShipmentStatus)
    requires OutboundPath(p) && Stage(status) > Stage(Last(p))
    ensures Entries(p, status) == 0
  {
    if |p| > 1 {
      EdgeOfPath(p);
      LaterStageNotEntered(p[..|p| - 1], status);
    }
  }

  lemma EdgeOfPath(p: seq<ShipmentStatus>)
    requires OutboundPath(p) && |p| > 1
    ensures var q := p[..|p| - 1];
            OutboundPath(q) && Last(q).CanTransitionTo(Last(p)) && OutboundLane(Last(q)) && OutboundLane(Last(p))
            && (Stage(Last(q)) < Stage(Last(p)) || Stage(Last(q)) == Stage(Last(p)) == DELIVERY_STAGE)
  {
    StageIsMonotone(p, |p| - 2, |p| - 1);
    EdgeAdvances(p[|p| - 2], p[|p| - 1]);
  }

  /** Every status other than the delivery attempts is entered at most once, and the start never again. */
  lemma {:induction false} EnteredAtMostOnce(p: seq<ShipmentStatus>, status: ShipmentStatus)
    requires OutboundPath(p) && Stage(status) != DELIVERY_STAGE
    ensures Entries(p, status) <= 1
    ensures status == AwaitingReceipt ==> Entries(p, status) == 0
  {
    if |p| > 1 {
      EdgeOfPath(p);
      EnteredAtMostOnce(p[..|p| - 1], status);
      if Last(p) == status {
        LaterStageNotEntered(p[..|p| - 1], status);
      }
    }
  }

  /** Where a path stands, in terms of its length and its delivery attempts. */
  ghost predicate Position(last: ShipmentStatus, steps: nat, out: nat, failed: nat, rescheduled: nat) {
    match last
    case AwaitingReceipt => steps == 0 && out == failed == rescheduled == 0
    case ReceivedByShipping => steps == 1 && out == failed == rescheduled == 0
    case ShipmentPrepared => steps == 2 && out == failed == rescheduled == 0
    case InTransit => steps == 3 && out == failed == rescheduled == 0
    case ArrivedDestinationHub => steps == 4 && out == failed == rescheduled == 0
    case OutForDelivery => steps == 5 + 3 * failed && failed == rescheduled && out == rescheduled + 1
    case DeliveryFailed => steps == 3 + 3 * failed && failed == rescheduled + 1 && out == rescheduled + 1
    case DeliveryRescheduled => steps == 4 + 3 * failed && out == failed == rescheduled >= 1
    case Delivered => steps == 6 + 3 * failed && failed == rescheduled && out == rescheduled + 1
    case ReturnToSenderRequested => steps <= 6 + 3 * failed && rescheduled <= failed <= out <= rescheduled + 1
    case ReturnToSenderPrepared => steps <= 7 + 3 * failed && rescheduled <= failed <= out <= rescheduled + 1
    case ReturnToSenderInTransit => steps <= 8 + 3 * failed && rescheduled <= failed <= out <= rescheduled + 1
    case ReturnToSenderReceived => steps <= 9 + 3 * failed && rescheduled <= failed <= out <= rescheduled + 1
    case Cancelled => steps == 1 && out == failed == rescheduled == 0
    case _ => false
  }

  ghost predicate PositionOf(p: seq<ShipmentStatus>)
    requires |p| > 0
  {
    Position(Last(p), |p| - 1, Entries(p, OutForDelivery), Entries(p, DeliveryFailed), Entries(p, DeliveryRescheduled))
  }

  /** One step of the graph moves the position along. */
  lemma PositionAfterEdge(a: ShipmentStatus, b: ShipmentStatus, steps: nat, out: nat, failed: nat, rescheduled: nat)
    requires Position(a, steps, out, failed, rescheduled) && a.CanTransitionTo(b)
    ensures Position(b, steps + 1, out + (if b == OutForDelivery then 1 else 0),
                     failed + (if b == DeliveryFailed then 1 else 0),
                     rescheduled + (if b == DeliveryRescheduled then 1 else 0))
  {
    match a {
      case AwaitingReceipt =>
      case ReceivedByShipping | ShipmentPrepared | InTransit | ArrivedDestinationHub =>
      case OutForDelivery =>
      case DeliveryFailed =>
      case DeliveryRescheduled =>
      case _ =>
    }
  }

  lemma {:induction false} PositionHolds(p: seq<ShipmentStatus>)
    requires OutboundPath(p)
    ensures PositionOf(p)
  {
    if |p| > 1 {
      var earlier := p[..|p| - 1];
      EdgeOfPath(p);
      PositionHolds(earlier);
      PositionAfterEdge(Last(earlier), Last(p), |earlier| - 1, Entries(earlier, OutForDelivery),
                        Entries(earlier, DeliveryFailed),
                        Entries(earlier, DeliveryRescheduled));
    }
  }

  /** Delivery attempts balance, and the whole path is bounded by the number of failed deliveries. */
  lemma AttemptsBalance(p: seq<ShipmentStatus>)
    requires OutboundPath(p)
    ensures Entries(p, DeliveryRescheduled) <= Entries(p, DeliveryFailed) <= Entries(p, OutForDelivery)
            <= Entries(p, DeliveryRescheduled) + 1
    ensures |p| - 1 <= 9 + 3 * Entries(p, DeliveryFailed)
  {
    PositionHolds(p);
  }

  const DELIVERY_CHAIN: seq<ShipmentStatus> :=
    [AwaitingReceipt, ReceivedByShipping, ShipmentPrepared, InTransit, ArrivedDestinationHub, OutForDelivery]

  /** Up to the first delivery attempt the number of steps tells the status. */
  lemma EarlyPosition(status: ShipmentStatus, steps: nat, out: nat, failed: nat, rescheduled: nat)
    requires Position(status, steps, out, failed, rescheduled) && steps < 6 && Stage(status) <= Stage(Delivered)
    ensures status == DELIVERY_CHAIN[steps]
  {
  }

  lemma ChainAt(p: seq<ShipmentStatus>, i: nat)
    requires OutboundPath(p) && i < |p| && i < 6 && Stage(p[i]) <= Stage(Delivered)
    ensures p[i] == DELIVERY_CHAIN[i]
  {
    var q := p[..i + 1];
    PositionHolds(q);
    assert Last(q) == p[i];
    EarlyPosition(p[i], i, Entries(q, OutForDelivery), Entries(q, DeliveryFailed), Entries(q, DeliveryRescheduled));
  }

  lemma DeliveredIsLate(p: seq<ShipmentStatus>, j: nat)
    requires OutboundPath(p) && j < |p| && p[j] == Delivered
    ensures j == |p| - 1 && j >= 6
  {
    assert j + 1 < |p| ==> p[j].CanTransitionTo(p[j + 1]);
    PositionHolds(p[..j + 1]);
    assert Last(p[..j + 1]) == Delivered;
  }

  lemma OnlyDeliveryDelivers(status: ShipmentStatus)
    requires status.CanTransitionTo(Delivered)
    ensures status == OutForDelivery
  {
  }

  /** A delivered shipment went through every earlier stage in order, and nothing follows the delivery. */
  lemma DeliveredInOrder(p: seq<ShipmentStatus>, j: nat)
    requires OutboundPath(p) && j < |p| && p[j] == Delivered
    ensures j == |p| - 1 && j >= 6 && p[j - 1] == OutForDelivery
    ensures p[..6] == DELIVERY_CHAIN
  {
    DeliveredIsLate(p, j);
    assert p[j - 1].CanTransitionTo(p[j]);
    OnlyDeliveryDelivers(p[j - 1]);
    forall i | 0 <= i < 6 ensures p[i] == DELIVERY_CHAIN[i] {
      StageIsMonotone(p, i, j);
      ChainAt(p, i);
    }
  }

  /** A cancelled shipment was never received: its whole path is one step. */
  lemma CancelledIsImmediate(p: seq<ShipmentStatus>, j: nat)
    requires OutboundPath(p) && j < |p| && p[j] == Cancelled
    ensures p == [AwaitingReceipt, Cancelled]
  {
    PositionHolds(p[..j + 1]);
    assert Last(p[..j + 1]) == Cancelled;
    assert j + 1 < |p| ==> p[j].CanTransitionTo(p[j + 1]);
  }

  lemma UncancelledNeverEntered(p: seq<ShipmentStatus>)
    requires OutboundPath(p) && Last(p) != Cancelled
    ensures Entries(p, Cancelled) == 0
  {
    StageIsMonotone(p, |p| - 1, |p| - 1);
    LaterStageNotEntered(p, Cancelled);
  }

  lemma ShortPathEntries(a: ShipmentStatus, b: ShipmentStatus, status: ShipmentStatus)
    ensures Entries([a, b], status) == if b == status then 1 else 0
  {
    EntriesGrow([a], b, status);
    assert [a, b] == [a] + [b];
  }

  /** A path asks for cancellation, before or after receipt, at most once. */
  lemma CancellationIsEnteredOnce(p: seq<ShipmentStatus>)
    requires OutboundPath(p)
    ensures Entries(p, Cancelled) + Entries(p, ReturnToSenderRequested) <= 1
  {
    if Last(p) == Cancelled {
      CancelledIsImmediate(p, |p| - 1);
      ShortPathEntries(AwaitingReceipt, Cancelled, Cancelled);
      ShortPathEntries(AwaitingReceipt, Cancelled, ReturnToSenderRequested);
    } else {
      UncancelledNeverEntered(p);
      EnteredAtMostOnce(p, ReturnToSenderRequested);
    }
  }

  const RETURN_CHAIN: seq<ShipmentStatus> := [
    ReturnAuthorized, ReturnLabelCreated, WaitingCustomerHandover, ReturnReceivedByShipping,
    ReturnPrepared, ReturnInTransit, ReturnReceivedAtWarehouse, ReturnCompleted]

  /** The only way on from each link of the chain is the next one. */
  lemma ReturnEdge(k: nat, next: ShipmentStatus)
    requires k < 8 && RETURN_CHAIN[k].CanTransitionTo(next)
    ensures k + 1 < 8 && next == RETURN_CHAIN[k + 1]
  {
  }

  /** A return moves along its own chain, one status at a time. */
  lemma {:induction false} ReturnStaysInLane(p: seq<ShipmentStatus>)
    requires ReturnPath(p)
    ensures |p| <= 8 && p <= RETURN_CHAIN
  {
    if |p| > 1 {
      ReturnStaysInLane(p[..|p| - 1]);
      ReturnEdge(|p| - 2, p[|p| - 1]);
    }
  }
}
