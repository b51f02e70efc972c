/** Order and fulfillment rules of saleor/order/models.py: deposit threshold and
    remaining deposit, cancellation, the "ready to fulfill with inventory" selection,
    fulfillment numbering and the outbound-only shipment guard, received inventory,
    the auto-transition gate, and the fully-picked test. Rows are values. */
module OrderModels {
  import opened Wrappers
  import opened Statuses
  import opened Sums
  import opened WarehouseRecords
  import opened Addresses

  datatype Gateway = Xero | OtherGateway

  datatype ChargeStatus = NotCharged | FullyCharged

  /** A Payment row; `isDeposit` is `metadata["is_deposit"]`. */
  datatype Payment = Payment(
    gateway: Gateway, active: bool, isDeposit: bool,
    total: real, captured: real, chargeStatus: ChargeStatus, pspReference: string)

  datatype Fulfillment = Fulfillment(
    status: FulfillmentStatus,
    fulfillmentOrder: nat,
    shipment: Option<int>,
    trackingUrl: string,
    proformaPaid: bool,
    proformaPaidAt: Option<int>,
    depositAllocated: real,
    pick: Option<PickStatus>,
    xeroPrepaymentId: Option<string>)

  datatype Order = Order(
    status: OrderStatus,
    depositRequired: bool,
    depositPercentage: Option<real>,
    depositPaidAt: Option<int>,
    depositThresholdMetOverride: bool,
    xeroDepositPrepaymentId: Option<string>,
    bankAccountCode: Option<string>,
    bankSortCode: Option<string>,
    bankAccountNumber: Option<string>,
    totalGross: real,
    payments: seq<Payment>,
    fulfillments: seq<Fulfillment>,
    shippingAddress: Option<Address>)

  predicate CountsAsDeposit(p: Payment) {
    p.gateway == Xero && p.active && p.isDeposit
  }

  function DepositCaptures(ps: seq<Payment>): (r: seq<real>)
    ensures |r| <= |ps|
  {
    if ps == [] then []
    else (if CountsAsDeposit(ps[0]) then [ps[0].captured] else []) + DepositCaptures(ps[1..])
  }

  /** `total_deposit_paid`: captured amounts of active Xero deposit payments. */
  function TotalDepositPaid(o: Order): real {
    SumReals(DepositCaptures(o.payments))
  }

  /** `deposit_threshold_met`. A missing or zero percentage never meets a required deposit. */
  predicate DepositThresholdMet(o: Order) {
    if !o.depositRequired then true
    else if !TruthyReal(o.depositPercentage) then false
    else TotalDepositPaid(o) >= o.totalGross * (o.depositPercentage.value / 100.0)
  }

  lemma {:induction false} DepositCapturesAppend(ps: seq<Payment>, p: Payment)
    ensures DepositCaptures(ps + [p]) == DepositCaptures(ps) + (if CountsAsDeposit(p) then [p.captured] else [])
  {
    if ps == [] {
      assert ps + [p] == [p];
    } else {
      assert (ps + [p])[1..] == ps[1..] + [p];
      DepositCapturesAppend(ps[1..], p);
    }
  }

  /** Recording a further non-negative payment never un-meets the threshold. */
  lemma ThresholdMonotone(o: Order, p: Payment)
    requires p.captured >= 0.0
    requires DepositThresholdMet(o)
    ensures DepositThresholdMet(o.(payments := o.payments + [p]))
  {
    DepositCapturesAppend(o.payments, p);
    SumRealsAppend(DepositCaptures(o.payments), if CountsAsDeposit(p) then [p.captured] else []);
  }

  /** Some payment of the order already carries this `psp_reference`. */
  predicate HasReference(o: Order, psp: string) {
    exists i :: 0 <= i < |o.payments| && o.payments[i].pspReference == psp
  }

  /** The references of an order's payments are distinct. */
  predicate ReferencesDistinct(o: Order) {
    forall i, j :: 0 <= i < j < |o.payments| ==> o.payments[i].pspReference != o.payments[j].pspReference
  }

  function AllocatedDeposits(fs: seq<Fulfillment>): real
  {
    if fs == [] then 0.0 else fs[0].depositAllocated + AllocatedDeposits(fs[1..])
  }

  /** `get_remaining_deposit`: 0 when nothing is paid, otherwise paid minus everything
      already credited to fulfillments, with no clamping at 0. */
  function RemainingDeposit(o: Order): (r: real)
    ensures TotalDepositPaid(o) == 0.0 ==> r == 0.0
    ensures TotalDepositPaid(o) != 0.0 ==> r + AllocatedDeposits(o.fulfillments) == TotalDepositPaid(o)
  {
    var paid := TotalDepositPaid(o);
    if paid == 0.0 then 0.0 else paid - AllocatedDeposits(o.fulfillments)
  }

  /** The remaining deposit goes negative exactly when more was credited than paid. */
  lemma RemainingNegativeOnlyWhenOverCredited(o: Order)
    requires TotalDepositPaid(o) != 0.0
    ensures RemainingDeposit(o) < 0.0 <==> AllocatedDeposits(o.fulfillments) > TotalDepositPaid(o)
  {
  }

  predicate AllowsCancel(s: FulfillmentStatus) {
    s in {FulfillmentCanceled, Refunded, Replaced, RefundedAndReturned, FulfillmentReturned}
  }

  /** Fulfillment statuses that block cancellation, in order. */
  function Blocking(fs: seq<Fulfillment>): (r: seq<FulfillmentStatus>)
    ensures forall s :: s in r ==> !AllowsCancel(s)
    ensures (forall i :: 0 <= i < |fs| ==> AllowsCancel(fs[i].status)) <==> r == []
  {
    if fs == [] then []
    else
      var rest := Blocking(fs[1..]);
      assert forall i :: 1 <= i < |fs| ==> fs[i] == fs[1..][i - 1];
      (if AllowsCancel(fs[0].status) then [] else [fs[0].status]) + rest
  }

  /** `can_cancel`: no fulfillment outside the cancelled/refunded/replaced/returned set,
      and the order is not CANCELED, DRAFT or EXPIRED. */
  predicate CanCancel(o: Order) {
    Blocking(o.fulfillments) == [] && o.status !in {Canceled, Draft, Expired}
  }

  /** A further fulfillment keeps the order cancellable exactly when its status is one of
      those that allow cancelling; the order's status is not affected. */
  lemma CanCancelAppend(o: Order, f: Fulfillment)
    ensures CanCancel(o.(fulfillments := o.fulfillments + [f])) <==> CanCancel(o) && AllowsCancel(f.status)
  {
    var fs := o.fulfillments + [f];
    assert forall i :: 0 <= i < |o.fulfillments| ==> fs[i] == o.fulfillments[i];
    assert fs[|o.fulfillments|] == f;
  }

  /** The exclusion of ready_to_fulfill_with_inventory: an allocation outside an owned
      warehouse, without sources, or whose sources do not add up to its quantity. */
  predicate ViolatesReadiness(a: Allocation, owned: set<int>) {
    a.stock.warehouse !in owned || !FullySourced(a)
  }

  predicate HasAllocation(order: int, allocs: seq<Allocation>) {
    exists i :: 0 <= i < |allocs| && allocs[i].order == order
  }

  /** `ready_to_fulfill_with_inventory` for one order (also the meaning given to
      `can_confirm_order`). */
  predicate ReadyToFulfillWithInventory(order: int, status: OrderStatus, allocs: seq<Allocation>, owned: set<int>) {
    status == Unconfirmed
    && HasAllocation(order, allocs)
    && forall i :: 0 <= i < |allocs| && allocs[i].order == order ==> !ViolatesReadiness(allocs[i], owned)
  }

  datatype FulfillmentSaveError = NotOutboundShipment(found: ShipmentType)

  /** The number `save` gives a new fulfillment: one more than the largest existing, or 1. */
  function NextFulfillmentOrder(existing: seq<nat>): (r: nat)
    ensures r >= 1
    ensures forall i :: 0 <= i < |existing| ==> existing[i] < r
    ensures existing == [] ==> r == 1
    ensures existing != [] ==> r - 1 in existing
  {
    if existing == [] then 1
    else
      var rest := NextFulfillmentOrder(existing[1..]);
      assert forall i :: 1 <= i < |existing| ==> existing[i] == existing[1..][i - 1];
      if existing[0] + 1 >= rest then existing[0] + 1 else rest
  }

  /** `Fulfillment.save`: a new fulfillment is numbered, then a linked shipment must be
      OUTBOUND (`clean`). `shipmentType` is the type of the linked shipment, if any. */
  function SaveFulfillment(f: Fulfillment, isNew: bool, siblings: seq<nat>, shipmentType: Option<ShipmentType>)
    : (r: Result<Fulfillment, FulfillmentSaveError>)
    ensures r.Err? <==> (f.shipment.Some? && shipmentType.Some? && shipmentType.value != Outbound)
    ensures r.Ok? && isNew ==> r.value == f.(fulfillmentOrder := NextFulfillmentOrder(siblings))
    ensures r.Ok? && !isNew ==> r.value == f
  {
    var g := if isNew then f.(fulfillmentOrder := NextFulfillmentOrder(siblings)) else f;
    if f.shipment.Some? && shipmentType.Some? && shipmentType.value != Outbound then
      Err(NotOutboundShipment(shipmentType.value))
    else Ok(g)
  }

  /** A newly saved fulfillment never reuses a number of its order. */
  lemma NewFulfillmentNumberFresh(f: Fulfillment, siblings: seq<nat>, t: Option<ShipmentType>)
    requires SaveFulfillment(f, true, siblings, t).Ok?
    ensures SaveFulfillment(f, true, siblings, t).value.fulfillmentOrder !in siblings
  {
  }

  /** Where the purchase-order item behind a source stands in shipping. */
  datatype PoiShipping = NoShipment | NotArrived | Arrived

  /** The reference reading of `has_inventory_received`, over the owned allocations of
      each fulfillment line (line by line, allocation by allocation). */
  predicate AllocationReceived(a: Allocation, shipping: int -> PoiShipping) {
    SumInts(SourceQuantities(a.sources)) == a.quantity
    && forall j :: 0 <= j < |a.sources| ==> shipping(a.sources[j].poi) == Arrived
  }

  function Flatten(lines: seq<seq<Allocation>>): (r: seq<Allocation>)
  {
    if lines == [] then [] else lines[0] + Flatten(lines[1..])
  }

  function OwnedOnly(allocs: seq<Allocation>, owned: set<int>): seq<Allocation>
  {
    if allocs == [] then []
    else (if allocs[0].stock.warehouse in owned then [allocs[0]] else []) + OwnedOnly(allocs[1..], owned)
  }

  /** The owned filter keeps exactly the allocations whose warehouse is owned. */
  lemma {:induction false} OwnedOnlyMembers(allocs: seq<Allocation>, owned: set<int>, a: Allocation)
    ensures a in OwnedOnly(allocs, owned) <==> a in allocs && a.stock.warehouse in owned
  {
    if allocs != [] {
      OwnedOnlyMembers(allocs[1..], owned, a);
      assert allocs == [allocs[0]] + allocs[1..];
    }
  }

  predicate InventoryReceived(lines: seq<seq<Allocation>>, owned: set<int>, shipping: int -> PoiShipping) {
    var owns := OwnedOnly(Flatten(lines), owned);
    owns != [] && forall i :: 0 <= i < |owns| ==> AllocationReceived(owns[i], shipping)
  }

  predicate AllReceived(allocs: seq<Allocation>, shipping: int -> PoiShipping) {
    forall a :: a in allocs ==> AllocationReceived(a, shipping)
  }

  /** One allocation of the inner loop: its sources must add up and all have arrived. */
  method CheckAllocation(a: Allocation, shipping: int -> PoiShipping) returns (ok: bool)
    ensures ok == AllocationReceived(a, shipping)
  {
    if SumInts(SourceQuantities(a.sources)) != a.quantity {
      return false;
    }
    var j := 0;
    while j < |a.sources|
      invariant 0 <= j <= |a.sources|
      invariant forall m :: 0 <= m < j ==> shipping(a.sources[m].poi) == Arrived
    {
      var st := shipping(a.sources[j].poi);
      if st == NoShipment || st == NotArrived {
        return false;
      }
      j := j + 1;
    }
    return true;
  }

  /** `has_inventory_received`: the loops with their early returns.
      `lines[i]` are the allocations of the i-th fulfillment line's order line. */
  method HasInventoryReceived(lines: seq<seq<Allocation>>, owned: set<int>, shipping: int -> PoiShipping)
    returns (received: bool)
    ensures received == InventoryReceived(lines, owned, shipping)
  {
    var hasOwned := false;
    ghost var seen: seq<Allocation> := [];
    var i := 0;
    while i < |lines|
      invariant 0 <= i <= |lines|
      invariant seen == Flatten(lines[..i])
      invariant hasOwned == (OwnedOnly(seen, owned) != [])
      invariant AllReceived(OwnedOnly(seen, owned), shipping)
    {
      var ok;
      ghost var bad;
      ok, hasOwned, bad := CheckLineAllocations(lines[i], owned, shipping, seen, hasOwned);
      if !ok {
        NotReceivedWitness(lines, i, bad, owned, shipping);
        return false;
      }
      seen := seen + lines[i];
      FlattenStep(lines, i);
      i := i + 1;
    }
    assert lines[..i] == lines;
    AllReceivedIndexed(OwnedOnly(seen, owned), shipping);
    received := hasOwned;
  }

  /** The inner loop over one order line's allocations in owned warehouses: `false` at the
      first that has not been received, whose index is `bad`. */
  method CheckLineAllocations(allocs: seq<Allocation>, owned: set<int>, shipping: int -> PoiShipping,
                              ghost seen: seq<Allocation>, hasOwned: bool)
    returns (ok: bool, hasOwned': bool, ghost bad: int)
    requires hasOwned == (OwnedOnly(seen, owned) != [])
    requires AllReceived(OwnedOnly(seen, owned), shipping)
    ensures ok ==> hasOwned' == (OwnedOnly(seen + allocs, owned) != [])
    ensures ok ==> AllReceived(OwnedOnly(seen + allocs, owned), shipping)
    ensures !ok ==> (0 <= bad < |allocs| && allocs[bad].stock.warehouse in owned
                     && !AllocationReceived(allocs[bad], shipping))
  {
    hasOwned', bad := hasOwned, 0;
    ghost var now := seen;
    var k := 0;
    while k < |allocs|
      invariant 0 <= k <= |allocs|
      invariant now == seen + allocs[..k]
      invariant hasOwned' == (OwnedOnly(now, owned) != [])
      invariant AllReceived(OwnedOnly(now, owned), shipping)
    {
      var a := allocs[k];
      if a.stock.warehouse in owned {
        var received := CheckAllocation(a, shipping);
        if !received {
          return false, hasOwned', k;
        }
        hasOwned' := true;
      }
      ExtendSeen(now, a, owned, shipping);
      now := now + [a];
      assert allocs[..k + 1] == allocs[..k] + [a];
      k := k + 1;
    }
    assert allocs[..k] == allocs;
    ok := true;
  }

  lemma ExtendSeen(seen: seq<Allocation>, a: Allocation, owned: set<int>, shipping: int -> PoiShipping)
    requires AllReceived(OwnedOnly(seen, owned), shipping)
    requires a.stock.warehouse in owned ==> AllocationReceived(a, shipping)
    ensures AllReceived(OwnedOnly(seen + [a], owned), shipping)
    ensures (OwnedOnly(seen + [a], owned) != []) == (OwnedOnly(seen, owned) != [] || a.stock.warehouse in owned)
  {
    OwnedOnlyAppend(seen, [a], owned);
  }

  lemma AllReceivedIndexed(owns: seq<Allocation>, shipping: int -> PoiShipping)
    requires AllReceived(owns, shipping)
    ensures forall i :: 0 <= i < |owns| ==> AllocationReceived(owns[i], shipping)
  {
    assert forall i :: 0 <= i < |owns| ==> owns[i] in owns;
  }

  lemma {:induction false} OwnedOnlyAppend(a: seq<Allocation>, b: seq<Allocation>, owned: set<int>)
    ensures OwnedOnly(a + b, owned) == OwnedOnly(a, owned) + OwnedOnly(b, owned)
  {
    if a == [] {
      assert a + b == b;
    } else {
      var h := if a[0].stock.warehouse in owned then [a[0]] else [];
      assert (a + b)[0] == a[0] && (a + b)[1..] == a[1..] + b;
      assert OwnedOnly(a + b, owned) == h + OwnedOnly(a[1..] + b, owned);
      OwnedOnlyAppend(a[1..], b, owned);
      assert h + (OwnedOnly(a[1..], owned) + OwnedOnly(b, owned)) == (h + OwnedOnly(a[1..], owned)) + OwnedOnly(b, owned);
    }
  }

  lemma {:induction false} FlattenAppend(a: seq<seq<Allocation>>, b: seq<seq<Allocation>>)
    ensures Flatten(a + b) == Flatten(a) + Flatten(b)
  {
    if a == [] {
      assert a + b == b;
    } else {
      assert (a + b)[1..] == a[1..] + b;
      FlattenAppend(a[1..], b);
    }
  }

  lemma FlattenStep(lines: seq<seq<Allocation>>, i: int)
    requires 0 <= i < |lines|
    ensures Flatten(lines[..i + 1]) == Flatten(lines[..i]) + lines[i]
  {
    assert lines[..i + 1] == lines[..i] + [lines[i]];
    FlattenAppend(lines[..i], [lines[i]]);
  }

  /** An owned allocation that is not received makes the whole answer false. */
  lemma NotReceivedWitness(lines: seq<seq<Allocation>>, i: int, k: int, owned: set<int>, shipping: int -> PoiShipping)
    requires 0 <= i < |lines| && 0 <= k < |lines[i]|
    requires lines[i][k].stock.warehouse in owned
    requires !AllocationReceived(lines[i][k], shipping)
    ensures !InventoryReceived(lines, owned, shipping)
  {
    var a := lines[i][k];
    FlattenMember(lines, i, k);
    var owns := OwnedOnly(Flatten(lines), owned);
    OwnedOnlyMembers(Flatten(lines), owned, a);
    assert a in owns;
    var m :| 0 <= m < |owns| && owns[m] == a;
  }

  lemma {:induction false} FlattenMember(lines: seq<seq<Allocation>>, i: int, k: int)
    requires 0 <= i < |lines| && 0 <= k < |lines[i]|
    ensures lines[i][k] in Flatten(lines)
  {
    if i > 0 {
      FlattenMember(lines[1..], i - 1, k);
      assert lines[1..][i - 1] == lines[i];
    }
  }

  /** With no owned-warehouse allocation the inventory never counts as received. */
  lemma NothingOwnedNotReceived(lines: seq<seq<Allocation>>, owned: set<int>, shipping: int -> PoiShipping)
    requires forall i, k :: 0 <= i < |lines| && 0 <= k < |lines[i]| ==> lines[i][k].stock.warehouse !in owned
    ensures !InventoryReceived(lines, owned, shipping)
  {
    var owns := OwnedOnly(Flatten(lines), owned);
    if owns != [] {
      var a := owns[0];
      OwnedOnlyMembers(Flatten(lines), owned, a);
      assert a in Flatten(lines);
      FlattenWitness(lines, a);
    }
  }

  lemma {:induction false} FlattenWitness(lines: seq<seq<Allocation>>, a: Allocation)
    requires a in Flatten(lines)
    ensures exists i, k :: 0 <= i < |lines| && 0 <= k < |lines[i]| && lines[i][k] == a
  {
    if a in lines[0] {
      var k :| 0 <= k < |lines[0]| && lines[0][k] == a;
    } else {
      FlattenWitness(lines[1..], a);
      var i, k :| 0 <= i < |lines[1..]| && 0 <= k < |lines[1..][i]| && lines[1..][i][k] == a;
      assert lines[i + 1][k] == a;
    }
  }

  /** `can_auto_transition_to_fulfilled`. `deposit_allocated` is a Money, false when zero. */
  predicate CanAutoTransitionToFulfilled(f: Fulfillment, depositRequired: bool) {
    f.status == WaitingForApproval
    && f.pick == Some(Completed)
    && f.shipment.Some?
    && f.proformaPaid
    && !(depositRequired && f.depositAllocated == 0.0)
  }

  /** An unpaid proforma blocks the transition whatever else holds. */
  lemma UnpaidProformaBlocks(f: Fulfillment, depositRequired: bool)
    requires !f.proformaPaid
    ensures !CanAutoTransitionToFulfilled(f, depositRequired)
  {
  }

  /** `PickItem.is_fully_picked`. */
  predicate IsFullyPicked(quantityPicked: int, quantityToPick: int) {
    quantityPicked >= quantityToPick
  }
}
