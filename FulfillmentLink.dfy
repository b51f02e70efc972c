/** saleor/graphql/shipping/mutations/fulfillment_link_to_shipment.py: a fulfillment
    waiting for approval joins an outbound shipment that has not departed and goes to
    the same address. The result is the fulfillment as handed to
    `assign_shipment_to_fulfillment` (saleor/order/actions.py is not part of this model). */
module FulfillmentLink {
  import opened Wrappers
  import opened Statuses
  import opened Addresses
  import opened OrderModels
  import opened Shipments
  import OutboundShipment
  import ShipmentDeparted

  datatype LinkError =
    | FulfillmentNotFound
    | ShipmentNotFound
    | NotOutbound(found: ShipmentType)
    | NotWaitingForApproval(status: FulfillmentStatus)
    | AlreadyLinked
    | AlreadyDeparted(at: int)
    | NoShippingAddress
    | DestinationMismatch
    | SourceMismatch

  /** `_addresses_match`: both present and equal on street, city, postal code and country. */
  predicate AddressesMatch(a: Option<Address>, b: Option<Address>) {
    a.Some? && b.Some?
    && a.value.street1 == b.value.street1
    && a.value.city == b.value.city
    && a.value.postalCode == b.value.postalCode
    && a.value.country == b.value.country
  }

  /** `_validate_link`, in its order of checks. */
  function LinkProblem(v: FulfillmentView, s: Shipment): Option<LinkError> {
    if s.shipmentType != Outbound then Some(NotOutbound(s.shipmentType))
    else if v.fulfillment.status != WaitingForApproval then Some(NotWaitingForApproval(v.fulfillment.status))
    else if v.fulfillment.shipment.Some? then Some(AlreadyLinked)
    else if s.departedAt.Some? then Some(AlreadyDeparted(s.departedAt.value))
    else if v.orderAddress.None? then Some(NoShippingAddress)
    else if !AddressesMatch(v.orderAddress, s.destination) then Some(DestinationMismatch)
    else if v.firstLine.AtWarehouse? && v.firstLine.address.Some? && s.source.Some?
            && !AddressesMatch(v.firstLine.address, s.source) then Some(SourceMismatch)
    else None
  }

  /** The mutation: look both rows up, validate, copy a non-empty tracking URL. */
  function LinkToShipment(fulfillment: Option<FulfillmentView>, shipment: Option<Shipment>): Result<FulfillmentView, LinkError> {
    if fulfillment.None? then Err(FulfillmentNotFound)
    else if shipment.None? then Err(ShipmentNotFound)
    else
      var v := fulfillment.value;
      var s := shipment.value;
      var problem := LinkProblem(v, s);
      if problem.Some? then Err(problem.value)
      else if s.trackingUrl.Some? && s.trackingUrl.value != "" then
        Ok(v.(fulfillment := v.fulfillment.(trackingUrl := s.trackingUrl.value)))
      else Ok(v)
  }

  lemma AddressesMatchSymmetric(a: Option<Address>, b: Option<Address>)
    ensures AddressesMatch(a, b) <==> AddressesMatch(b, a)
  {
  }

  /** A missing address matches nothing, not even another missing one; a present one
      matches itself. */
  lemma AddressesMatchPresence(a: Option<Address>, b: Option<Address>)
    ensures a.None? || b.None? ==> !AddressesMatch(a, b)
    ensures a.Some? ==> AddressesMatch(a, a)
  {
  }

  /** Matching addresses agree on the key the outbound destination check uses, but not
      conversely: that key leaves out the country. */
  lemma MatchImpliesSameDestinationKey(a: Address, b: Address)
    ensures AddressesMatch(Some(a), Some(b)) ==> OutboundShipment.DestinationKey(a) == OutboundShipment.DestinationKey(b)
    ensures AddressesMatch(Some(a), Some(b)) <==>
      OutboundShipment.DestinationKey(a) == OutboundShipment.DestinationKey(b) && a.country == b.country
  {
  }

  /** The link succeeds exactly when both rows exist, the shipment is outbound and has not
      departed, the fulfillment waits for approval unlinked, its order's address matches
      the shipment's destination and its warehouse, when both are known, the source. */
  lemma LinkSucceedsIff(fulfillment: Option<FulfillmentView>, shipment: Option<Shipment>)
    ensures LinkToShipment(fulfillment, shipment).Ok? <==>
      && fulfillment.Some? && shipment.Some?
      && shipment.value.shipmentType == Outbound
      && shipment.value.departedAt.None?
      && fulfillment.value.fulfillment.status == WaitingForApproval
      && fulfillment.value.fulfillment.shipment.None?
      && AddressesMatch(fulfillment.value.orderAddress, shipment.value.destination)
      && (fulfillment.value.firstLine.AtWarehouse? && fulfillment.value.firstLine.address.Some? && shipment.value.source.Some?
          ==> AddressesMatch(fulfillment.value.firstLine.address, shipment.value.source))
  {
  }

  /** Nothing but the tracking URL changes, and it becomes the shipment's when that is set. */
  lemma LinkChangesOnlyTracking(v: FulfillmentView, s: Shipment)
    requires LinkToShipment(Some(v), Some(s)).Ok?
    ensures var w := LinkToShipment(Some(v), Some(s)).value;
      && w.(fulfillment := w.fulfillment.(trackingUrl := v.fulfillment.trackingUrl)) == v
      && (s.trackingUrl.Some? && s.trackingUrl.value != "" ==> w.fulfillment.trackingUrl == s.trackingUrl.value)
      && (s.trackingUrl.None? || s.trackingUrl.value == "" ==> w == v)
  {
  }

  /** A departed shipment takes no more fulfillments. */
  lemma DepartedShipmentRejectsLinks(v: FulfillmentView, s: Shipment, departedAt: Option<int>, now: int)
    requires ShipmentDeparted.MarkDeparted(Some(s), departedAt, now).Ok?
    ensures LinkToShipment(Some(v), Some(ShipmentDeparted.MarkDeparted(Some(s), departedAt, now).value)).Err?
  {
  }

  /** Fulfillments put on an outbound shipment cannot be linked to another one. */
  lemma ShippedFulfillmentsRejectLinks(table: seq<FulfillmentView>, req: OutboundShipment.OutboundRequest, newId: int,
                                       i: nat, s: Shipment)
    requires OutboundShipment.CreateOutbound(table, req, newId).Ok?
    requires i < |OutboundShipment.CreateOutbound(table, req, newId).value.fulfillments|
    ensures LinkToShipment(Some(OutboundShipment.CreateOutbound(table, req, newId).value.fulfillments[i]), Some(s)).Err?
  {
    OutboundShipment.CreateOutboundOk(table, req, newId);
  }
}
