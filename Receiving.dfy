/** saleor/shipping/receiving.py `create_shipment`: an inbound shipment from a supplier
    is created for purchase-order items that are confirmed and not yet on a shipment;
    the Incoterm decides whether a shipping cost may be charged; every item is then
    linked to the new shipment with one audit event each. The new shipment's primary
    key is a parameter. */
module Receiving {
  import opened Wrappers
  import opened Statuses
  import opened Addresses
  import opened Shipments

  /** The purchase-order item fields `create_shipment` reads and writes. */
  datatype InboundItem = InboundItem(id: int, status: PoiStatus, shipment: Option<int>)

  datatype ShipmentError =
    | NotConfirmed(poi: int, status: PoiStatus)
    | AlreadyAssigned(poi: int, shipment: int)
    | CostMustBeZero(term: IncoTerm)
    | CostMustBePositive(term: IncoTerm)

  /** The arguments of `create_shipment` other than the items (user and app only
      reach the audit event). */
  datatype InboundRequest = InboundRequest(
    source: Address,
    destination: Address,
    carrier: Option<string>,
    trackingUrl: Option<string>,
    shippingCost: Option<real>,
    currency: string,
    incoTerm: Option<IncoTerm>,
    processedAt: Option<int>)

  /** One `shipment_assigned_event`. */
  datatype AssignedEvent = AssignedEvent(poi: int, shipment: int)

  datatype InboundOutcome = InboundOutcome(
    shipment: Shipment, items: seq<InboundItem>, events: seq<AssignedEvent>)

  predicate Eligible(p: InboundItem) {
    p.status == PoiConfirmed && p.shipment.None?
  }

  /** The error the validation loop raises for one item: the status is checked before
      the existing shipment. */
  function ItemProblem(p: InboundItem): Option<ShipmentError> {
    if p.status != PoiConfirmed then Some(NotConfirmed(p.id, p.status))
    else if p.shipment.Some? then Some(AlreadyAssigned(p.id, p.shipment.value))
    else None
  }

  /** The position of the first item the validation loop rejects (`|items|` if none). */
  function FirstIneligible(items: seq<InboundItem>): (k: nat)
    ensures k <= |items|
    ensures forall j :: 0 <= j < k ==> Eligible(items[j])
    ensures k < |items| ==> !Eligible(items[k])
  {
    if items == [] then 0
    else if !Eligible(items[0]) then 0
    else 1 + FirstIneligible(items[1..])
  }

  /** The error the validation loop raises, if any. */
  function FirstItemProblem(items: seq<InboundItem>): Option<ShipmentError> {
    var k := FirstIneligible(items);
    if k < |items| then ItemProblem(items[k]) else None
  }

  /** The cost rule reference: a given cost under a given Incoterm is zero when the
      buyer pays shipping and strictly positive when the seller does. */
  predicate CostAllowed(term: Option<IncoTerm>, cost: Option<real>) {
    term.None? || cost.None?
    || (BuyerPaysShipping(term.value) && cost.value == 0.0)
    || (!BuyerPaysShipping(term.value) && cost.value > 0.0)
  }

  /** The cost rule as the code writes it: the seller-pays branch rejects only a zero
      cost, so a negative cost passes. */
  function CostProblemAsWritten(term: Option<IncoTerm>, cost: Option<real>): (r: Option<ShipmentError>)
    ensures r.None? <==>
      CostAllowed(term, cost)
      || (term.Some? && cost.Some? && !BuyerPaysShipping(term.value) && cost.value < 0.0)
    ensures r.Some? && term.Some? && BuyerPaysShipping(term.value) ==> r == Some(CostMustBeZero(term.value))
    ensures r.Some? && term.Some? && !BuyerPaysShipping(term.value) ==> r == Some(CostMustBePositive(term.value))
  {
    if term.Some? && cost.Some? then
      if BuyerPaysShipping(term.value) then
        if cost.value != 0.0 then Some(CostMustBeZero(term.value)) else None
      else if cost.value == 0.0 then Some(CostMustBePositive(term.value))
      else None
    else None
  }

  /** The cost rule as its error message states it ("must be greater than 0"); the rest
      of the model uses this one. */
  function CostProblem(term: Option<IncoTerm>, cost: Option<real>): (r: Option<ShipmentError>)
    ensures r.None? <==> CostAllowed(term, cost)
  {
    if term.Some? && cost.Some? then
      if BuyerPaysShipping(term.value) then
        if cost.value != 0.0 then Some(CostMustBeZero(term.value)) else None
      else if cost.value <= 0.0 then Some(CostMustBePositive(term.value))
      else None
    else None
  }

  lemma NegativeCostAcceptedAsWritten()
    ensures CostProblemAsWritten(Some(FOB), Some(-5.0)).None?
    ensures !CostAllowed(Some(FOB), Some(-5.0))
    ensures CostProblem(Some(FOB), Some(-5.0)) == Some(CostMustBePositive(FOB))
  {
  }

  /** The two rules differ exactly on negative costs under a seller-pays Incoterm. */
  lemma CostRulesAgreeOnNonNegative(term: Option<IncoTerm>, cost: Option<real>)
    requires cost.Some? ==> cost.value >= 0.0
    ensures CostProblemAsWritten(term, cost) == CostProblem(term, cost)
  {
  }

  /** Every item on the new shipment. */
  function Assigned(items: seq<InboundItem>, shipment: int): (r: seq<InboundItem>)
    ensures |r| == |items|
    ensures forall i :: 0 <= i < |items| ==>
      r[i].id == items[i].id && r[i].status == items[i].status && r[i].shipment == Some(shipment)
  {
    if items == [] then []
    else [items[0].(shipment := Some(shipment))] + Assigned(items[1..], shipment)
  }

  /** One audit event per item, in the items' order. */
  function AssignedEvents(items: seq<InboundItem>, shipment: int): (r: seq<AssignedEvent>)
    ensures |r| == |items|
    ensures forall i :: 0 <= i < |items| ==> r[i] == AssignedEvent(items[i].id, shipment)
  {
    if items == [] then []
    else [AssignedEvent(items[0].id, shipment)] + AssignedEvents(items[1..], shipment)
  }

  function NewInboundShipment(req: InboundRequest): Shipment {
    Shipment(Inbound, Some(req.source), Some(req.destination), req.carrier, req.trackingUrl,
             req.incoTerm, req.processedAt, req.currency, req.shippingCost, None)
  }

  /** `create_shipment`; the atomic transaction makes an error leave every row as it was. */
  function CreateShipment(req: InboundRequest, items: seq<InboundItem>, newId: int): Result<InboundOutcome, ShipmentError> {
    var itemProblem := FirstItemProblem(items);
    if itemProblem.Some? then Err(itemProblem.value)
    else
      var costProblem := CostProblem(req.incoTerm, req.shippingCost);
      if costProblem.Some? then Err(costProblem.value)
      else Ok(InboundOutcome(NewInboundShipment(req), Assigned(items, newId), AssignedEvents(items, newId)))
  }

  /** The validation loop: stops at the first item that is not confirmed or already shipped. */
  method ValidateItems(items: seq<InboundItem>) returns (problem: Option<ShipmentError>)
    ensures problem == FirstItemProblem(items)
  {
    var i := 0;
    while i < |items|
      invariant 0 <= i <= |items|
      invariant forall j :: 0 <= j < i ==> Eligible(items[j])
    {
      var p := items[i];
      if p.status != PoiConfirmed {
        return Some(NotConfirmed(p.id, p.status));
      }
      if p.shipment.Some? {
        return Some(AlreadyAssigned(p.id, p.shipment.value));
      }
      i := i + 1;
    }
    return None;
  }

  /** The linking loop: sets each item's shipment and logs its event. */
  method LinkItems(items: seq<InboundItem>, shipment: int) returns (linked: seq<InboundItem>, events: seq<AssignedEvent>)
    ensures linked == Assigned(items, shipment)
    ensures events == AssignedEvents(items, shipment)
  {
    linked := [];
    events := [];
    var i := 0;
    while i < |items|
      invariant 0 <= i <= |items|
      invariant |linked| == i && |events| == i
      invariant forall j :: 0 <= j < i ==> linked[j] == items[j].(shipment := Some(shipment))
      invariant forall j :: 0 <= j < i ==> events[j] == AssignedEvent(items[j].id, shipment)
    {
      linked := linked + [items[i].(shipment := Some(shipment))];
      events := events + [AssignedEvent(items[i].id, shipment)];
      i := i + 1;
    }
    var spec := Assigned(items, shipment);
    assert |spec| == |linked|;
    assert forall j :: 0 <= j < |items| ==> spec[j] == linked[j];
  }

  method CreateInboundShipment(req: InboundRequest, items: seq<InboundItem>, newId: int)
    returns (r: Result<InboundOutcome, ShipmentError>)
    ensures r == CreateShipment(req, items, newId)
  {
    var problem := ValidateItems(items);
    if problem.Some? {
      return Err(problem.value);
    }
    var term := req.incoTerm;
    var cost := req.shippingCost;
    if term.Some? && cost.Some? {
      if BuyerPaysShipping(term.value) {
        if cost.value != 0.0 {
          return Err(CostMustBeZero(term.value));
        }
      } else if cost.value <= 0.0 {
        return Err(CostMustBePositive(term.value));
      }
    }
    var linked, events := LinkItems(items, newId);
    return Ok(InboundOutcome(NewInboundShipment(req), linked, events));
  }

  /** A shipment is created exactly when every item is confirmed and unshipped and the
      cost fits the Incoterm. */
  lemma CreateShipmentSucceedsIff(req: InboundRequest, items: seq<InboundItem>, newId: int)
    ensures CreateShipment(req, items, newId).Ok? <==>
      (forall i :: 0 <= i < |items| ==> Eligible(items[i])) && CostAllowed(req.incoTerm, req.shippingCost)
  {
  }

  /** Item errors come before cost errors, and the one reported is the first bad item's. */
  lemma CreateShipmentReportsFirstBadItem(req: InboundRequest, items: seq<InboundItem>, newId: int, k: nat)
    requires k < |items| && !Eligible(items[k])
    requires forall j :: 0 <= j < k ==> Eligible(items[j])
    ensures CreateShipment(req, items, newId) == Err(ItemProblem(items[k]).value)
  {
    assert FirstIneligible(items) == k;
  }

  /** What a successful call creates: an inbound, not yet departed shipment that keeps the
      requested cost; every item, in order, now on it and still confirmed; one event each. */
  lemma CreateShipmentOutcome(req: InboundRequest, items: seq<InboundItem>, newId: int)
    requires CreateShipment(req, items, newId).Ok?
    ensures var o := CreateShipment(req, items, newId).value;
      && o.shipment.shipmentType == Inbound
      && o.shipment.departedAt.None?
      && o.shipment.shippingCost == req.shippingCost
      && o.shipment.incoTerm == req.incoTerm
      && |o.items| == |items| && |o.events| == |items|
      && (forall i :: 0 <= i < |items| ==>
            o.items[i].id == items[i].id && o.items[i].status == PoiConfirmed
            && o.items[i].shipment == Some(newId)
            && o.events[i] == AssignedEvent(items[i].id, newId))
  {
  }

  /** A created shipment's cost obeys the Incoterm rule. */
  lemma CreatedShipmentCostFitsIncoTerm(req: InboundRequest, items: seq<InboundItem>, newId: int)
    requires CreateShipment(req, items, newId).Ok?
    requires req.incoTerm.Some? && req.shippingCost.Some?
    ensures BuyerPaysShipping(req.incoTerm.value) ==> req.shippingCost.value == 0.0
    ensures !BuyerPaysShipping(req.incoTerm.value) ==> req.shippingCost.value > 0.0
  {
  }

  /** Items put on a shipment cannot be put on a second one. */
  lemma ItemsShipOnce(req: InboundRequest, items: seq<InboundItem>, newId: int,
                      req2: InboundRequest, newId2: int)
    requires CreateShipment(req, items, newId).Ok?
    requires items != []
    ensures var o := CreateShipment(req, items, newId).value;
      CreateShipment(req2, o.items, newId2) == Err(AlreadyAssigned(items[0].id, newId))
  {
    var o := CreateShipment(req, items, newId).value;
    CreateShipmentOutcome(req, items, newId);
    CreateShipmentReportsFirstBadItem(req2, o.items, newId2, 0);
  }
}
