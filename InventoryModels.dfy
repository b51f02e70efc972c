/** Purchase-order item (POI) arithmetic from saleor/inventory/models.py:
    available quantity, received quantity, adjusted unit price, the financial
    impact of an adjustment, and the inbound-only shipment guard of clean/save.
    Money is `real` here because the source divides Decimal amounts. */
module InventoryModels {
  import opened Wrappers
  import opened Statuses
  import opened Sums

  /** A PurchaseOrderItemAdjustment: a quantity change, whether the supplier credits it,
      and whether it has been processed (`processed_at` set). */
  datatype Adjustment = Adjustment(quantityChange: int, affectsPayable: bool, processed: bool)

  datatype Poi = Poi(
    quantityOrdered: nat,
    quantityAllocated: nat,
    quantityFulfilled: nat,
    totalPrice: real,
    adjustments: seq<Adjustment>,
    receiptLines: seq<int>,            // quantity_received of each ReceiptLine
    shipment: Option<ShipmentType>)    // type of the linked shipment, if any

  /** Sum of `quantity_change` over processed adjustments (the fallback query). */
  function ProcessedSum(adjs: seq<Adjustment>): int
  {
    if adjs == [] then 0
    else (if adjs[0].processed then adjs[0].quantityChange else 0) + ProcessedSum(adjs[1..])
  }

  /** Sum over processed adjustments that the supplier credits. */
  function PayableSum(adjs: seq<Adjustment>): int
  {
    if adjs == [] then 0
    else
      var own := if adjs[0].processed && adjs[0].affectsPayable then adjs[0].quantityChange else 0;
      own + PayableSum(adjs[1..])
  }

  function ProcessedOnly(adjs: seq<Adjustment>): (r: seq<Adjustment>)
    ensures forall a :: a in r ==> a.processed
  {
    if adjs == [] then []
    else (if adjs[0].processed then [adjs[0]] else []) + ProcessedOnly(adjs[1..])
  }

  function Changes(adjs: seq<Adjustment>): (r: seq<int>)
    ensures |r| == |adjs|
  {
    if adjs == [] then [] else [adjs[0].quantityChange] + Changes(adjs[1..])
  }

  /** `annotate_available_quantity`: Coalesce(SUM(change) FILTER processed, 0), then
      GREATEST(ordered + processed - allocated - fulfilled, 0). */
  function AnnotatedAvailable(p: Poi): int
  {
    var processed := SumInts(Changes(ProcessedOnly(p.adjustments)));
    Max(p.quantityOrdered + processed - p.quantityAllocated - p.quantityFulfilled, 0)
  }

  /** The `available_quantity` property without an annotation (the fallback query). */
  function AvailableQuantity(p: Poi): (r: int)
    ensures r >= 0
    ensures r >= p.quantityOrdered + ProcessedSum(p.adjustments) - p.quantityAllocated - p.quantityFulfilled
    ensures r == 0 || r == p.quantityOrdered + ProcessedSum(p.adjustments) - p.quantityAllocated - p.quantityFulfilled
  {
    var base := p.quantityOrdered + ProcessedSum(p.adjustments);
    Max(0, base - p.quantityAllocated - p.quantityFulfilled)
  }

  lemma {:induction false} FilteredSumIsProcessedSum(adjs: seq<Adjustment>)
    ensures SumInts(Changes(ProcessedOnly(adjs))) == ProcessedSum(adjs)
  {
    if adjs != [] {
      FilteredSumIsProcessedSum(adjs[1..]);
      var head := if adjs[0].processed then [adjs[0]] else [];
      ChangesAppend(head, ProcessedOnly(adjs[1..]));
      SumAppend(Changes(head), Changes(ProcessedOnly(adjs[1..])));
    }
  }

  lemma {:induction false} ChangesAppend(a: seq<Adjustment>, b: seq<Adjustment>)
    ensures Changes(a + b) == Changes(a) + Changes(b)
  {
    if a != [] {
      assert (a + b)[1..] == a[1..] + b;
      ChangesAppend(a[1..], b);
    } else {
      assert a + b == b;
    }
  }

  /** The annotated value and the fallback property agree on every POI. */
  lemma AnnotationAgrees(p: Poi)
    ensures AnnotatedAvailable(p) == AvailableQuantity(p)
  {
    FilteredSumIsProcessedSum(p.adjustments);
  }

  /** Recording an adjustment that is not yet processed leaves the available quantity alone. */
  lemma {:induction false} UnprocessedIgnored(adjs: seq<Adjustment>, a: Adjustment)
    requires !a.processed
    ensures ProcessedSum(adjs + [a]) == ProcessedSum(adjs)
    ensures PayableSum(adjs + [a]) == PayableSum(adjs)
  {
    if adjs != [] {
      assert (adjs + [a])[1..] == adjs[1..] + [a];
      UnprocessedIgnored(adjs[1..], a);
    }
  }

  /** `quantity_received`: the sum over receipt lines, 0 when there are none. */
  function QuantityReceived(p: Poi): (r: int)
    ensures p.receiptLines == [] ==> r == 0
    ensures (forall i :: 0 <= i < |p.receiptLines| ==> p.receiptLines[i] >= 0) ==> r >= 0
  {
    SumNonNeg(p.receiptLines);
    SumInts(p.receiptLines)
  }

  function BaseUnitPrice(p: Poi): real
    requires p.quantityOrdered > 0
  {
    p.totalPrice / p.quantityOrdered as real
  }

  /** `unit_price_amount`: the cost moves with supplier-credited adjustments only,
      the quantity with every processed adjustment. */
  function UnitPriceAmount(p: Poi): real
  {
    if p.quantityOrdered == 0 then 0.0
    else
      var base := BaseUnitPrice(p);
      var adjustedCost := p.totalPrice + PayableSum(p.adjustments) as real * base;
      var adjustedQuantity := p.quantityOrdered + ProcessedSum(p.adjustments);
      if adjustedQuantity > 0 then adjustedCost / adjustedQuantity as real else base
  }

  lemma UnitPriceZeroWhenNothingOrdered(p: Poi)
    requires p.quantityOrdered == 0
    ensures UnitPriceAmount(p) == 0.0
  {
  }

  /** Every processed adjustment credited by the supplier: unit price stays total/ordered. */
  lemma {:induction false} PayableOnlySums(adjs: seq<Adjustment>)
    requires forall i :: 0 <= i < |adjs| ==> adjs[i].processed ==> adjs[i].affectsPayable
    ensures PayableSum(adjs) == ProcessedSum(adjs)
  {
    if adjs != [] {
      PayableOnlySums(adjs[1..]);
    }
  }

  lemma {:induction false} NonPayableOnlySums(adjs: seq<Adjustment>)
    requires forall i :: 0 <= i < |adjs| ==> !adjs[i].affectsPayable
    ensures PayableSum(adjs) == 0
  {
    if adjs != [] {
      NonPayableOnlySums(adjs[1..]);
    }
  }

  lemma SupplierCreditKeepsUnitPrice(p: Poi)
    requires p.quantityOrdered > 0
    requires forall i :: 0 <= i < |p.adjustments| ==> p.adjustments[i].processed ==> p.adjustments[i].affectsPayable
    ensures UnitPriceAmount(p) == BaseUnitPrice(p)
  {
    PayableOnlySums(p.adjustments);
    var n := p.quantityOrdered as real;
    var d := ProcessedSum(p.adjustments) as real;
    var t := p.totalPrice;
    if p.quantityOrdered + ProcessedSum(p.adjustments) > 0 {
      calc {
        (t + d * (t / n)) / (n + d);
        == { assert t + d * (t / n) == (t / n) * (n + d); }
        ((t / n) * (n + d)) / (n + d);
        == t / n;
      }
    }
  }

  /** Losses we absorb: the same cost spread over fewer units; with no units left the
      base price is returned. */
  lemma AbsorbedLossSpreadsCost(p: Poi)
    requires p.quantityOrdered > 0
    requires forall i :: 0 <= i < |p.adjustments| ==> !p.adjustments[i].affectsPayable
    ensures var q := p.quantityOrdered + ProcessedSum(p.adjustments);
      UnitPriceAmount(p) == if q > 0 then p.totalPrice / q as real else BaseUnitPrice(p)
  {
    NonPayableOnlySums(p.adjustments);
  }

  /** `PurchaseOrderItemAdjustment.financial_impact`: the change priced at the original
      unit price, 0 per unit when nothing was ordered. */
  function FinancialImpact(a: Adjustment, p: Poi): (r: real)
    ensures p.quantityOrdered == 0 ==> r == 0.0
    ensures p.quantityOrdered > 0 ==> r * p.quantityOrdered as real == a.quantityChange as real * p.totalPrice
  {
    var unit := if p.quantityOrdered > 0 then p.totalPrice / p.quantityOrdered as real else 0.0;
    a.quantityChange as real * unit
  }

  /** The impact depends on the POI only through its total and ordered quantity. */
  lemma FinancialImpactIndependent(a: Adjustment, p: Poi, others: seq<Adjustment>)
    ensures FinancialImpact(a, p) == FinancialImpact(a, p.(adjustments := others))
  {
  }

  datatype SaveError = NotInboundShipment(found: ShipmentType)

  /** `PurchaseOrderItem.clean`, run by `save` whenever a shipment is linked. */
  function Save(p: Poi): (r: Result<Poi, SaveError>)
    ensures r.Err? <==> (p.shipment.Some? && p.shipment.value != Inbound)
    ensures r.Ok? ==> r.value == p
  {
    if p.shipment.Some? && p.shipment.value != Inbound then Err(NotInboundShipment(p.shipment.value))
    else Ok(p)
  }
}
