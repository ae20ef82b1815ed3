/**
 * The order tracking dialog (street-share-hub-main/src/components/OrderTrackingDialog.tsx):
 * the progress bar and icon chosen by status, the status label, the short
 * order number in the header, and when tracking data is requested.
 */
module OrderTracking {
  import opened Wrappers

  /** `getProgress`: the bar's percentage for a tracking status. */
  function Progress(status: string): (r: int)
    ensures r == 0 || r == 25 || r == 50 || r == 75 || r == 100
    ensures r == 25 <==> status == "open" || status == "pending"
    ensures r == 50 <==> status == "closed" || status == "confirmed"
    ensures r == 75 <==> status == "in_transit"
    ensures r == 100 <==> status == "delivered"
  {
    if status == "open" || status == "pending" then 25
    else if status == "closed" || status == "confirmed" then 50
    else if status == "in_transit" then 75
    else if status == "delivered" then 100
    else 0
  }

  /** The group order's life cycle and the shipment's, in the order they run. */
  const GroupOrderStages: seq<string> := ["open", "closed", "delivered"]
  const ShipmentStages: seq<string> := ["pending", "confirmed", "in_transit", "delivered"]

  /** Progress strictly rises along both life cycles. */
  lemma ProgressRisesAlongStages(i: nat, j: nat)
    ensures i < j < |GroupOrderStages| ==> Progress(GroupOrderStages[i]) < Progress(GroupOrderStages[j])
    ensures i < j < |ShipmentStages| ==> Progress(ShipmentStages[i]) < Progress(ShipmentStages[j])
  {
  }

  datatype Icon = Clock | CheckBlue | Truck | CheckGreen | CircleDot

  /** `getStatusIcon`. */
  function StatusIcon(status: string): Icon {
    if status == "open" || status == "pending" then Clock
    else if status == "closed" || status == "confirmed" then CheckBlue
    else if status == "in_transit" then Truck
    else if status == "delivered" then CheckGreen
    else CircleDot
  }

  /** Icon and progress bar are chosen by the same grouping of statuses. */
  lemma IconFollowsProgress(s1: string, s2: string)
    ensures StatusIcon(s1) == StatusIcon(s2) <==> Progress(s1) == Progress(s2)
    ensures StatusIcon(s1) == CircleDot <==> Progress(s1) == 0
  {
  }

  /** `status.replace(/_/g, ' ')`: every underscore becomes a space. */
  function StatusLabel(status: string): (r: string)
    ensures |r| == |status|
    ensures forall k :: 0 <= k < |status| ==> r[k] == (if status[k] == '_' then ' ' else status[k])
    ensures '_' !in r
    ensures '_' !in status ==> r == status
  {
    seq(|status|, k requires 0 <= k < |status| => if status[k] == '_' then ' ' else status[k])
  }

  /** `groupOrderId.substring(0, 8)`: the header's short order number. */
  function ShortId(groupOrderId: string): (r: string)
    ensures |r| == if |groupOrderId| < 8 then |groupOrderId| else 8
    ensures groupOrderId == r + groupOrderId[|r|..]
  {
    if |groupOrderId| < 8 then groupOrderId else groupOrderId[..8]
  }

  /** The fetch effect's guard: the id to request tracking for, or None when nothing is fetched. */
  function TrackingRequest(groupOrderId: string, isOpen: bool): (r: Option<string>)
    ensures r.Some? <==> groupOrderId != "" && isOpen
    ensures r.Some? ==> r.value == groupOrderId
  {
    if groupOrderId == "" || !isOpen then None else Some(groupOrderId)
  }
}
