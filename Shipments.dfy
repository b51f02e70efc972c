/** The shipment records the shipping code creates and links (saleor/shipping/__init__.py
    and the Shipment and Fulfillment rows the shipping mutations read). */
module Shipments {
  import opened Wrappers
  import opened Statuses
  import opened Addresses
  import opened OrderModels

  /** saleor/shipping/__init__.py IncoTerm: the eleven Incoterms 2020 codes. */
  datatype IncoTerm = EXW | FCA | CPT | CIP | DAP | DPU | DDP | FAS | FOB | CFR | CIF

  /** `IncoTerm.BUYER_PAYS_SHIPPING`: only Ex Works leaves the freight to the buyer. */
  predicate BuyerPaysShipping(t: IncoTerm) {
    t == EXW
  }

  /** The stored code of an Incoterm (the first element of each `CHOICES` pair). */
  function IncoTermCode(t: IncoTerm): string {
    match t
    case EXW => "EXW" case FCA => "FCA" case CPT => "CPT" case CIP => "CIP"
    case DAP => "DAP" case DPU => "DPU" case DDP => "DDP" case FAS => "FAS"
    case FOB => "FOB" case CFR => "CFR" case CIF => "CIF"
  }

  /** Membership in the `CHOICES` codes: the Incoterm a string names, if any. */
  function ParseIncoTerm(s: string): (r: Option<IncoTerm>)
    ensures r.Some? ==> IncoTermCode(r.value) == s
  {
    if s == "EXW" then Some(EXW) else if s == "FCA" then Some(FCA)
    else if s == "CPT" then Some(CPT) else if s == "CIP" then Some(CIP)
    else if s == "DAP" then Some(DAP) else if s == "DPU" then Some(DPU)
    else if s == "DDP" then Some(DDP) else if s == "FAS" then Some(FAS)
    else if s == "FOB" then Some(FOB) else if s == "CFR" then Some(CFR)
    else if s == "CIF" then Some(CIF) else None
  }

  /** Every code parses back to its Incoterm, so exactly the eleven codes are accepted. */
  lemma ParseIncoTermCode(t: IncoTerm)
    ensures ParseIncoTerm(IncoTermCode(t)) == Some(t)
  {
  }

  /** A Shipment row. Missing optional columns are `None`. */
  datatype Shipment = Shipment(
    shipmentType: ShipmentType,
    source: Option<Address>,
    destination: Option<Address>,
    carrier: Option<string>,
    trackingUrl: Option<string>,
    incoTerm: Option<IncoTerm>,
    processedAt: Option<int>,
    currency: string,
    shippingCost: Option<real>,
    departedAt: Option<int>)

  /** What the first line of a fulfillment says about where its goods are: no line or a
      line without stock, or the stock's warehouse with its (possibly missing) address. */
  datatype FirstLine = NoStockInfo | AtWarehouse(address: Option<Address>)

  /** A fulfillment together with the rows the shipping mutations reach through it:
      its primary key, its order's shipping address and its first line's warehouse. */
  datatype FulfillmentView = FulfillmentView(
    id: int,
    fulfillment: Fulfillment,
    orderAddress: Option<Address>,
    firstLine: FirstLine)
}
