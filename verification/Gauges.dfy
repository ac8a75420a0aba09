/** The shipment gauges of the state collector, and when they account for every stored shipment. */
module Gauges {
  import opened Models
  import opened Invariants
  import opened Runs
  import opened Sets

  const OUTBOUND_STATUSES: seq<ShipmentStatus> := [
    Created, LabelCreated, ReadyForPickup, AwaitingReceipt, ReceivedByShipping, ShipmentPrepared, InTransit,
    ArrivedDestinationHub, OutForDelivery, Delivered, DeliveryFailed, DeliveryRescheduled, ReturnToSenderRequested,
    ReturnToSenderPrepared, ReturnToSenderInTransit, ReturnToSenderReceived, Cancelled]

  const RETURN_STATUSES: seq<ShipmentStatus> := [
    ReturnRequested, ReturnAuthorized, ReturnLabelCreated, WaitingCustomerHandover, ReturnReceivedByShipping,
    ReturnPrepared, ReturnInTransit, ReturnReceivedAtWarehouse, ReturnCompleted, Cancelled]

  /** One row of the grouped count over (status, is_return). */
  datatype Group = Group(isReturn: bool, status: ShipmentStatus, count: nat)

  /** One emitted gauge: current shipments by status and type, or current returns by status. */
  datatype Gauge =
    | ShipmentsCurrent(status: ShipmentStatus, isReturn: bool, value: nat)
    | ReturnsCurrent(status: ShipmentStatus, value: nat)

  function Members(shipments: map<nat, Shipment>, isReturn: bool, status: ShipmentStatus): (ids: set<nat>) {
    set id | id in shipments && shipments[id].origin.isReturn == isReturn && shipments[id].status == status
  }

  /** What GROUP BY returns: one row per group that occurs, with its size. */
  ghost predicate IsGrouping(shipments: map<nat, Shipment>, rows: seq<Group>) {
    && (forall i :: 0 <= i < |rows| ==> rows[i].count == |Members(shipments, rows[i].isReturn, rows[i].status)|)
    && (forall i, j :: 0 <= i < j < |rows| ==> (rows[i].isReturn, rows[i].status) != (rows[j].isReturn, rows[j].status))
    && forall id :: id in shipments ==>
         exists i :: 0 <= i < |rows| && rows[i].isReturn == shipments[id].origin.isReturn
           && rows[i].status == shipments[id].status
  }

  function CountOf(counts: map<(bool, ShipmentStatus), nat>, isReturn: bool, status: ShipmentStatus): (n: nat) {
    if (isReturn, status) in counts then counts[(isReturn, status)] else 0
  }

  /** The gauges of one status: returns have a second one. */
  function GaugesOf(shipments: map<nat, Shipment>, isReturn: bool, status: ShipmentStatus): (gauges: seq<Gauge>) {
    var count := |Members(shipments, isReturn, status)|;
    if isReturn then [ShipmentsCurrent(status, true, count), ReturnsCurrent(status, count)]
    else [ShipmentsCurrent(status, false, count)]
  }

  /** The gauges of one lane. */
  function Lane(shipments: map<nat, Shipment>, isReturn: bool, statuses: seq<ShipmentStatus>): (gauges: seq<Gauge>) {
    if statuses == [] then []
    else Lane(shipments, isReturn, statuses[..|statuses| - 1]) + GaugesOf(shipments, isReturn, statuses[|statuses| - 1])
  }

  lemma UngroupedIsEmpty(shipments: map<nat, Shipment>, rows: seq<Group>, isReturn: bool, status: ShipmentStatus)
    requires IsGrouping(shipments, rows)
    requires forall i :: 0 <= i < |rows| ==> (rows[i].isReturn, rows[i].status) != (isReturn, status)
    ensures Members(shipments, isReturn, status) == {}
  {
  }

  /** The counts that a map holds, missing groups counting zero. */
  ghost predicate CountsAll(counts: map<(bool, ShipmentStatus), nat>, shipments: map<nat, Shipment>) {
    forall isReturn, status :: CountOf(counts, isReturn, status) == |Members(shipments, isReturn, status)|
  }

  method FillCounts(rows: seq<Group>, ghost shipments: map<nat, Shipment>)
    returns (counts: map<(bool, ShipmentStatus), nat>)
    requires IsGrouping(shipments, rows)
    ensures CountsAll(counts, shipments)
  {
    counts := map[];
    for i := 0 to |rows|
      invariant forall k :: k in counts <==> exists j :: 0 <= j < i && (rows[j].isReturn, rows[j].status) == k
      invariant forall k :: k in counts ==> counts[k] == |Members(shipments, k.0, k.1)|
    {
      counts := counts[(rows[i].isReturn, rows[i].status) := rows[i].count];
    }
    forall isReturn, status ensures CountOf(counts, isReturn, status) == |Members(shipments, isReturn, status)| {
      if (isReturn, status) !in counts {
        UngroupedIsEmpty(shipments, rows, isReturn, status);
      }
    }
  }

  method EmitOutbound(counts: map<(bool, ShipmentStatus), nat>, statuses: seq<ShipmentStatus>,
                      ghost shipments: map<nat, Shipment>)
    returns (gauges: seq<Gauge>)
    requires CountsAll(counts, shipments)
    ensures gauges == Lane(shipments, false, statuses)
  {
    gauges := [];
    for i := 0 to |statuses|
      invariant gauges == Lane(shipments, false, statuses[..i])
    {
      gauges := gauges + [ShipmentsCurrent(statuses[i], false, CountOf(counts, false, statuses[i]))];
      assert statuses[..i + 1][..i] == statuses[..i];
    }
    assert statuses[..|statuses|] == statuses;
  }

  method EmitReturns(counts: map<(bool, ShipmentStatus), nat>, statuses: seq<ShipmentStatus>,
                     ghost shipments: map<nat, Shipment>)
    returns (gauges: seq<Gauge>)
    requires CountsAll(counts, shipments)
    ensures gauges == Lane(shipments, true, statuses)
  {
    gauges := [];
    for i := 0 to |statuses|
      invariant gauges == Lane(shipments, true, statuses[..i])
    {
      var count := CountOf(counts, true, statuses[i]);
      gauges := gauges + [ShipmentsCurrent(statuses[i], true, count), ReturnsCurrent(statuses[i], count)];
      assert statuses[..i + 1][..i] == statuses[..i];
    }
    assert statuses[..|statuses|] == statuses;
  }

  /** A gauge holds the number of shipments that it stands for. */
  ghost predicate Counts(shipments: map<nat, Shipment>, g: Gauge) {
    match g
    case ShipmentsCurrent(status, isReturn, value) =>
      value == |set id | id in shipments && shipments[id].status == status && shipments[id].origin.isReturn == isReturn|
    case ReturnsCurrent(status, value) =>
      value == |set id | id in shipments && shipments[id].status == status && shipments[id].origin.isReturn|
  }

  lemma GaugesOfCount(shipments: map<nat, Shipment>, isReturn: bool, status: ShipmentStatus)
    ensures forall k :: 0 <= k < |GaugesOf(shipments, isReturn, status)| ==>
              Counts(shipments, GaugesOf(shipments, isReturn, status)[k])
  {
    var members := Members(shipments, isReturn, status);
    assert members
           == set id | id in shipments && shipments[id].status == status && shipments[id].origin.isReturn == isReturn;
    if isReturn {
      assert members == set id | id in shipments && shipments[id].status == status && shipments[id].origin.isReturn;
    }
  }

  lemma {:induction false} LaneCounts(shipments: map<nat, Shipment>, isReturn: bool, statuses: seq<ShipmentStatus>)
    ensures forall k :: 0 <= k < |Lane(shipments, isReturn, statuses)| ==>
              Counts(shipments, Lane(shipments, isReturn, statuses)[k])
  {
    if statuses != [] {
      LaneCounts(shipments, isReturn, statuses[..|statuses| - 1]);
      GaugesOfCount(shipments, isReturn, statuses[|statuses| - 1]);
    }
  }

  lemma AllGaugesCount(shipments: map<nat, Shipment>)
    ensures forall k :: 0 <= k < |AllGauges(shipments)| ==> Counts(shipments, AllGauges(shipments)[k])
  {
    LaneCounts(shipments, false, OUTBOUND_STATUSES);
    LaneCounts(shipments, true, RETURN_STATUSES);
  }

  method Collect(rows: seq<Group>, ghost shipments: map<nat, Shipment>) returns (gauges: seq<Gauge>)
    requires IsGrouping(shipments, rows)
    ensures gauges == AllGauges(shipments)
    ensures forall k :: 0 <= k < |gauges| ==> Counts(shipments, gauges[k])
  {
    AllGaugesCount(shipments);
    var counts := FillCounts(rows, shipments);
    gauges := EmitOutbound(counts, OUTBOUND_STATUSES, shipments);
    var returned := EmitReturns(counts, RETURN_STATUSES, shipments);
    gauges := gauges + returned;
  }

  /** The sum of the shipment gauges. */
  function Sum(gauges: seq<Gauge>): (n: nat) {
    if gauges == [] then 0
    else
      var last := gauges[|gauges| - 1];
      Sum(gauges[..|gauges| - 1]) + if last.ShipmentsCurrent? then last.value else 0
  }

  lemma {:induction false} SumOfConcat(a: seq<Gauge>, b: seq<Gauge>)
    ensures Sum(a + b) == Sum(a) + Sum(b)
  {
    if b == [] {
      assert a + b == a;
    } else {
      assert (a + b)[..|a + b| - 1] == a + b[..|b| - 1];
      SumOfConcat(a, b[..|b| - 1]);
    }
  }

  lemma SumOfOneMore(gauges: seq<Gauge>, g: Gauge)
    ensures Sum(gauges + [g]) == Sum(gauges) + if g.ShipmentsCurrent? then g.value else 0
  {
    assert (gauges + [g])[..|gauges|] == gauges;
  }

  lemma SumOfStatus(gauges: seq<Gauge>, shipments: map<nat, Shipment>, isReturn: bool, status: ShipmentStatus)
    ensures Sum(gauges + GaugesOf(shipments, isReturn, status)) == Sum(gauges) + |Members(shipments, isReturn, status)|
  {
    var count := |Members(shipments, isReturn, status)|;
    SumOfOneMore(gauges, ShipmentsCurrent(status, isReturn, count));
    if isReturn {
      SumOfOneMore(gauges + [ShipmentsCurrent(status, true, count)], ReturnsCurrent(status, count));
      assert gauges + GaugesOf(shipments, true, status)
             == gauges + [ShipmentsCurrent(status, true, count)] + [ReturnsCurrent(status, count)];
    }
  }

  /** The shipments of one lane whose status is listed. */
  function InLane(shipments: map<nat, Shipment>, isReturn: bool, statuses: seq<ShipmentStatus>): (ids: set<nat>) {
    set id | id in shipments && shipments[id].origin.isReturn == isReturn && shipments[id].status in statuses
  }

  lemma InLaneOrLast(shipments: map<nat, Shipment>, isReturn: bool, earlier: seq<ShipmentStatus>, last: ShipmentStatus,
                     id: nat)
    ensures id in InLane(shipments, isReturn, earlier + [last])
            <==> id in InLane(shipments, isReturn, earlier) || id in Members(shipments, isReturn, last)
    ensures last !in earlier && id in Members(shipments, isReturn, last) ==> id !in InLane(shipments, isReturn, earlier)
  {
  }

  lemma SizeOfSplit(all: set<nat>, a: set<nat>, b: set<nat>)
    requires forall id :: id in all <==> id in a || id in b
    requires forall id :: id in b ==> id !in a
    ensures |all| == |a| + |b|
  {
    assert all == a + b && a !! b;
  }

  lemma InLaneGrows(shipments: map<nat, Shipment>, isReturn: bool, earlier: seq<ShipmentStatus>, last: ShipmentStatus)
    requires last !in earlier
    ensures |InLane(shipments, isReturn, earlier + [last])|
            == |InLane(shipments, isReturn, earlier)| + |Members(shipments, isReturn, last)|
  {
    var all, before, more :=
      InLane(shipments, isReturn, earlier + [last]), InLane(shipments, isReturn, earlier),
      Members(shipments, isReturn, last);
    forall id: nat ensures (id in all <==> id in before || id in more) && (id in more ==> id !in before) {
      InLaneOrLast(shipments, isReturn, earlier, last, id);
    }
    SizeOfSplit(all, before, more);
  }

  lemma {:induction false} LaneSum(shipments: map<nat, Shipment>, isReturn: bool, statuses: seq<ShipmentStatus>)
    requires NoRepeats(statuses)
    ensures Sum(Lane(shipments, isReturn, statuses)) == |InLane(shipments, isReturn, statuses)|
  {
    if statuses == [] {
      assert InLane(shipments, isReturn, statuses) == {};
    } else {
      var earlier, last := statuses[..|statuses| - 1], statuses[|statuses| - 1];
      LaneSum(shipments, isReturn, earlier);
      SumOfStatus(Lane(shipments, isReturn, earlier), shipments, isReturn, last);
      InLaneGrows(shipments, isReturn, earlier, last);
      assert statuses == earlier + [last];
    }
  }

  predicate ListedIn(s: Shipment, outbound: seq<ShipmentStatus>, returned: seq<ShipmentStatus>) {
    s.status in if s.origin.isReturn then returned else outbound
  }

  predicate Listed(s: Shipment) {
    ListedIn(s, OUTBOUND_STATUSES, RETURN_STATUSES)
  }

  function AllGauges(shipments: map<nat, Shipment>): (gauges: seq<Gauge>) {
    Lane(shipments, false, OUTBOUND_STATUSES) + Lane(shipments, true, RETURN_STATUSES)
  }

  ghost predicate NoRepeats(statuses: seq<ShipmentStatus>) {
    forall i, j :: 0 <= i < j < |statuses| ==> statuses[i] != statuses[j]
  }

  lemma CoveredIffListed(shipments: map<nat, Shipment>, outbound: seq<ShipmentStatus>, returned: seq<ShipmentStatus>)
    ensures InLane(shipments, false, outbound) + InLane(shipments, true, returned) == shipments.Keys
            <==> forall id :: id in shipments ==> ListedIn(shipments[id], outbound, returned)
  {
    var covered := InLane(shipments, false, outbound) + InLane(shipments, true, returned);
    forall id | id in shipments ensures id in covered <==> ListedIn(shipments[id], outbound, returned) {
    }
    assert covered <= shipments.Keys;
    if forall id :: id in shipments ==> ListedIn(shipments[id], outbound, returned) {
      assert shipments.Keys <= covered;
    }
  }

  lemma SumIffListed(shipments: map<nat, Shipment>, outbound: seq<ShipmentStatus>, returned: seq<ShipmentStatus>)
    requires NoRepeats(outbound) && NoRepeats(returned)
    ensures Sum(Lane(shipments, false, outbound) + Lane(shipments, true, returned)) == |shipments|
            <==> forall id :: id in shipments ==> ListedIn(shipments[id], outbound, returned)
  {
    LaneSum(shipments, false, outbound);
    LaneSum(shipments, true, returned);
    SumOfConcat(Lane(shipments, false, outbound), Lane(shipments, true, returned));
    var out, back := InLane(shipments, false, outbound), InLane(shipments, true, returned);
    assert out !! back;
    SubsetSize(out + back, shipments.Keys);
    CoveredIffListed(shipments, outbound, returned);
  }

  /** The place of a status in its list. */
  function Place(status: ShipmentStatus): (n: nat) {
    match status
    case Created | ReturnRequested => 0
    case LabelCreated | ReturnAuthorized => 1
    case ReadyForPickup | ReturnLabelCreated => 2
    case AwaitingReceipt | WaitingCustomerHandover => 3
    case ReceivedByShipping | ReturnReceivedByShipping => 4
    case ShipmentPrepared | ReturnPrepared => 5
    case InTransit | ReturnInTransit => 6
    case ArrivedDestinationHub | ReturnReceivedAtWarehouse => 7
    case OutForDelivery | ReturnCompleted => 8
    case Delivered => 9
    case DeliveryFailed => 10
    case DeliveryRescheduled => 11
    case ReturnToSenderRequested => 12
    case ReturnToSenderPrepared => 13
    case ReturnToSenderInTransit => 14
    case ReturnToSenderReceived => 15
    case Cancelled => 16
    case Unknown(_) => 17
  }

  lemma OutboundStatusesDoNotRepeat()
    ensures NoRepeats(OUTBOUND_STATUSES)
  {
    forall i | 0 <= i < |OUTBOUND_STATUSES| ensures Place(OUTBOUND_STATUSES[i]) == i {
    }
  }

  lemma ReturnStatusesDoNotRepeat()
    ensures NoRepeats(RETURN_STATUSES)
  {
    forall i | 0 <= i < |RETURN_STATUSES| ensures Place(RETURN_STATUSES[i]) == if i == 9 then 16 else i {
    }
  }

  /** The gauges sum to the number of shipments exactly when every stored pair of type and status is listed. */
  lemma GaugesSumIffListed(shipments: map<nat, Shipment>)
    ensures Sum(AllGauges(shipments)) == |shipments| <==> forall id :: id in shipments ==> Listed(shipments[id])
  {
    OutboundStatusesDoNotRepeat();
    ReturnStatusesDoNotRepeat();
    SumIffListed(shipments, OUTBOUND_STATUSES, RETURN_STATUSES);
  }

  /** A row that keeps to its lane is listed. */
  lemma LanesAreListed(s: Shipment)
    requires RowOk(s)
    ensures Listed(s)
  {
  }

  /** In every reachable database the emitted gauges account for every stored shipment. */
  lemma GaugesAreTotal(warehouse: Address, events: seq<Event>)
    ensures var shipments := Run(warehouse, events).tables.shipments;
            Sum(AllGauges(shipments)) == |shipments|
  {
    RunKeepsInv(warehouse, events);
    var shipments := Run(warehouse, events).tables.shipments;
    forall id | id in shipments ensures Listed(shipments[id]) {
      LanesAreListed(shipments[id]);
    }
    GaugesSumIffListed(shipments);
  }
}
