/** saleor/graphql/shipping/mutations/shipment_mark_departed.py: an outbound shipment is
    marked departed once, at the given time or at the current time (a parameter). */
module ShipmentDeparted {
  import opened Wrappers
  import opened Statuses
  import opened Shipments
  import Receiving
  import OutboundShipment

  datatype DepartError = ShipmentNotFound | NotOutboundShipment(found: ShipmentType) | AlreadyDeparted(at: int)

  /** The mutation: `shipment` is the row the id resolves to, `departedAt` the optional
      input and `now` the clock. Only `departed_at` is written. */
  function MarkDeparted(shipment: Option<Shipment>, departedAt: Option<int>, now: int): Result<Shipment, DepartError> {
    if shipment.None? then Err(ShipmentNotFound)
    else
      var s := shipment.value;
      if s.shipmentType != Outbound then Err(NotOutboundShipment(s.shipmentType))
      else if s.departedAt.Some? then Err(AlreadyDeparted(s.departedAt.value))
      else Ok(s.(departedAt := Some(if departedAt.Some? then departedAt.value else now)))
  }

  /** Marking succeeds exactly for an outbound shipment not yet departed; it records the
      given time, or the clock when none is given, and changes nothing else. */
  lemma MarkDepartedSpec(s: Shipment, departedAt: Option<int>, now: int)
    ensures MarkDeparted(Some(s), departedAt, now).Ok? <==> s.shipmentType == Outbound && s.departedAt.None?
    ensures MarkDeparted(Some(s), departedAt, now).Ok? ==>
      var t := MarkDeparted(Some(s), departedAt, now).value;
      && t.departedAt.Some?
      && (departedAt.Some? ==> t.departedAt == departedAt)
      && (departedAt.None? ==> t.departedAt == Some(now))
      && t.(departedAt := None) == s
  {
  }

  /** A shipment departs once: a second call always fails, reporting the first time. */
  lemma DepartsOnce(s: Shipment, d1: Option<int>, now1: int, d2: Option<int>, now2: int)
    requires MarkDeparted(Some(s), d1, now1).Ok?
    ensures var t := MarkDeparted(Some(s), d1, now1).value;
      MarkDeparted(Some(t), d2, now2) == Err(AlreadyDeparted(t.departedAt.value))
  {
  }

  /** Inbound shipments from `create_shipment` never depart this way. */
  lemma InboundShipmentsDoNotDepart(req: Receiving.InboundRequest, items: seq<Receiving.InboundItem>, newId: int,
                                    departedAt: Option<int>, now: int)
    requires Receiving.CreateShipment(req, items, newId).Ok?
    ensures MarkDeparted(Some(Receiving.CreateShipment(req, items, newId).value.shipment), departedAt, now)
      == Err(NotOutboundShipment(Inbound))
  {
    Receiving.CreateShipmentOutcome(req, items, newId);
  }

  /** A freshly created outbound shipment can always be marked departed. */
  lemma OutboundShipmentsCanDepart(table: seq<FulfillmentView>, req: OutboundShipment.OutboundRequest, newId: int,
                                   departedAt: Option<int>, now: int)
    requires OutboundShipment.CreateOutbound(table, req, newId).Ok?
    ensures MarkDeparted(Some(OutboundShipment.CreateOutbound(table, req, newId).value.shipment), departedAt, now).Ok?
  {
    OutboundShipment.CreateOutboundOk(table, req, newId);
  }
}
