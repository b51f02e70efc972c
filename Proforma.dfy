/** saleor/order/proforma.py: the deposit credit a new fulfillment receives (its share
    of the paid deposit, capped by what is left of it), the fulfillment's value, and the
    bookkeeping of `generate_proforma_invoice`: the credit is stored on the fulfillment,
    then the PROFORMA invoice and its REQUESTED event are created. */
module Proforma {
  import opened Wrappers
  import opened Statuses
  import opened Sums
  import opened OrderModels
  import opened InvoiceModel

  /** A fulfillment line: its order line's gross unit price and the line quantity. */
  datatype ProformaLine = ProformaLine(unitPriceGross: real, quantity: int)

  function LineAmounts(lines: seq<ProformaLine>): (r: seq<real>)
    ensures |r| == |lines|
    ensures forall i :: 0 <= i < |lines| ==> r[i] == lines[i].unitPriceGross * lines[i].quantity as real
  {
    if lines == [] then []
    else [lines[0].unitPriceGross * lines[0].quantity as real] + LineAmounts(lines[1..])
  }

  /** `calculate_fulfillment_total`: the sum of unit price times quantity. */
  function FulfillmentTotal(lines: seq<ProformaLine>): real {
    SumReals(LineAmounts(lines))
  }

  /** The accumulator loop of `calculate_fulfillment_total`. */
  method CalculateFulfillmentTotal(lines: seq<ProformaLine>) returns (total: real)
    ensures total == FulfillmentTotal(lines)
  {
    total := 0.0;
    var i := 0;
    while i < |lines|
      invariant 0 <= i <= |lines|
      invariant total == FulfillmentTotal(lines[..i])
    {
      FulfillmentTotalAppend(lines[..i], lines[i]);
      assert lines[..i + 1] == lines[..i] + [lines[i]];
      total := total + lines[i].unitPriceGross * lines[i].quantity as real;
      i := i + 1;
    }
    assert lines[..i] == lines;
  }

  lemma FulfillmentTotalAppend(lines: seq<ProformaLine>, l: ProformaLine)
    ensures FulfillmentTotal(lines + [l]) == FulfillmentTotal(lines) + l.unitPriceGross * l.quantity as real
  {
    var a, b := LineAmounts(lines + [l]), LineAmounts(lines) + [l.unitPriceGross * l.quantity as real];
    forall k | 0 <= k < |a|
      ensures a[k] == b[k]
    {
      if k < |lines| {
        assert (lines + [l])[k] == lines[k];
      }
    }
    assert a == b;
    SumRealsAppend(LineAmounts(lines), [l.unitPriceGross * l.quantity as real]);
  }

  /** A fulfillment of non-negative prices and quantities is worth at least 0. */
  lemma {:induction false} FulfillmentTotalNonNegative(lines: seq<ProformaLine>)
    requires forall i :: 0 <= i < |lines| ==> lines[i].unitPriceGross >= 0.0 && lines[i].quantity >= 0
    ensures FulfillmentTotal(lines) >= 0.0
  {
    if lines != [] {
      FulfillmentTotalNonNegative(lines[1..]);
      assert LineAmounts(lines) == [lines[0].unitPriceGross * lines[0].quantity as real] + LineAmounts(lines[1..]);
      NonNegativeProduct(lines[0].unitPriceGross, lines[0].quantity as real);
    }
  }

  lemma NonNegativeProduct(a: real, b: real)
    requires a >= 0.0 && b >= 0.0
    ensures a * b >= 0.0
  {
  }

  /** `calculate_deposit_allocation`. The credit is 0 without a required deposit, without
      payments or for a zero order total; otherwise it is the smaller of what is left of
      the paid deposit (never below 0) and the fulfillment's proportional share. */
  function DepositAllocation(o: Order, fulfillmentTotal: real): (r: real)
    ensures !o.depositRequired || TotalDepositPaid(o) == 0.0 || o.totalGross == 0.0 ==> r == 0.0
    ensures o.depositRequired && TotalDepositPaid(o) != 0.0 && o.totalGross != 0.0 ==>
      && r <= MaxR(0.0, TotalDepositPaid(o) - AllocatedDeposits(o.fulfillments))
      && r <= fulfillmentTotal * (TotalDepositPaid(o) / o.totalGross)
      && (r == MaxR(0.0, TotalDepositPaid(o) - AllocatedDeposits(o.fulfillments))
          || r == fulfillmentTotal * (TotalDepositPaid(o) / o.totalGross))
  {
    if !o.depositRequired then 0.0
    else
      var paid := TotalDepositPaid(o);
      if paid == 0.0 then 0.0
      else if o.totalGross == 0.0 then 0.0
      else
        var remaining := MaxR(0.0, paid - AllocatedDeposits(o.fulfillments));
        var share := fulfillmentTotal * (paid / o.totalGross);
        MinR(remaining, share)
  }

  /** The credit of a fulfillment of non-negative value on an order of positive total is
      never negative, and never more than the deposit still unallocated. */
  lemma CreditWithinRemaining(o: Order, fulfillmentTotal: real)
    requires fulfillmentTotal >= 0.0 && o.totalGross > 0.0 && TotalDepositPaid(o) >= 0.0
    ensures 0.0 <= DepositAllocation(o, fulfillmentTotal)
    ensures DepositAllocation(o, fulfillmentTotal) <= MaxR(0.0, TotalDepositPaid(o) - AllocatedDeposits(o.fulfillments))
  {
    var paid := TotalDepositPaid(o);
    if o.depositRequired && paid != 0.0 {
      NonNegativeProduct(fulfillmentTotal, paid / o.totalGross);
    }
  }

  /** The worked example: 100 paid on a total of 300 with 40 already credited gives a
      fulfillment of 100 the proportional share 100/3, below the 60 left. */
  lemma WorkedExample()
    ensures var o := Order(Unfulfilled, true, Some(50.0), None, false, None, None, None, None, 300.0,
                           [Payment(Xero, true, true, 100.0, 100.0, FullyCharged, "dep")],
                           [Fulfillment(WaitingForApproval, 1, None, "", false, None, 40.0, None, None)],
                           None);
      DepositAllocation(o, 100.0) == 100.0 / 3.0
  {
    var o := Order(Unfulfilled, true, Some(50.0), None, false, None, None, None, None, 300.0,
                   [Payment(Xero, true, true, 100.0, 100.0, FullyCharged, "dep")],
                   [Fulfillment(WaitingForApproval, 1, None, "", false, None, 40.0, None, None)],
                   None);
    assert DepositCaptures(o.payments) == [100.0];
    assert TotalDepositPaid(o) == 100.0;
    assert AllocatedDeposits(o.fulfillments) == 40.0;
  }

  // ----- successive fulfillments -----

  /** A new fulfillment, as created before its proforma: nothing credited yet. */
  function NewFulfillment(order: nat): Fulfillment {
    Fulfillment(WaitingForApproval, order, None, "", false, None, 0.0, None, None)
  }

  /** Fulfillments created one after the other, each credited when its proforma is
      generated. */
  function AllocateInTurn(o: Order, totals: seq<real>): Order
    decreases |totals|
  {
    if totals == [] then o
    else
      var created := o.(fulfillments := o.fulfillments + [NewFulfillment(|o.fulfillments| + 1)]);
      var credit := DepositAllocation(created, totals[0]);
      var credited := created.(fulfillments := created.fulfillments[|created.fulfillments| - 1 := NewFulfillment(|o.fulfillments| + 1).(depositAllocated := credit)]);
      AllocateInTurn(credited, totals[1..])
  }

  lemma {:induction false} AllocatedDepositsAppend(fs: seq<Fulfillment>, f: Fulfillment)
    ensures AllocatedDeposits(fs + [f]) == AllocatedDeposits(fs) + f.depositAllocated
  {
    if fs == [] {
      assert fs + [f] == [f];
    } else {
      assert (fs + [f])[1..] == fs[1..] + [f];
      AllocatedDepositsAppend(fs[1..], f);
    }
  }

  /** One more credited fulfillment keeps the credited total within the paid deposit. */
  lemma StepWithinPaid(o: Order, total: real)
    requires total >= 0.0 && o.totalGross > 0.0 && TotalDepositPaid(o) >= 0.0
    requires AllocatedDeposits(o.fulfillments) <= TotalDepositPaid(o)
    ensures var created := o.(fulfillments := o.fulfillments + [NewFulfillment(|o.fulfillments| + 1)]);
      var credit := DepositAllocation(created, total);
      0.0 <= credit && AllocatedDeposits(o.fulfillments) + credit <= TotalDepositPaid(o)
  {
    var created := o.(fulfillments := o.fulfillments + [NewFulfillment(|o.fulfillments| + 1)]);
    AllocatedDepositsAppend(o.fulfillments, NewFulfillment(|o.fulfillments| + 1));
    assert TotalDepositPaid(created) == TotalDepositPaid(o);
    CreditWithinRemaining(created, total);
  }

  /** Successive proformas on one order never credit more than was paid in total. */
  lemma {:induction false} SuccessiveCreditsWithinPaid(o: Order, totals: seq<real>)
    requires forall i :: 0 <= i < |totals| ==> totals[i] >= 0.0
    requires o.totalGross > 0.0 && TotalDepositPaid(o) >= 0.0
    requires AllocatedDeposits(o.fulfillments) <= TotalDepositPaid(o)
    ensures AllocatedDeposits(AllocateInTurn(o, totals).fulfillments) <= TotalDepositPaid(o)
    ensures TotalDepositPaid(AllocateInTurn(o, totals)) == TotalDepositPaid(o)
    decreases |totals|
  {
    if totals != [] {
      var blank := NewFulfillment(|o.fulfillments| + 1);
      var created := o.(fulfillments := o.fulfillments + [blank]);
      var credit := DepositAllocation(created, totals[0]);
      var credited := created.(fulfillments := created.fulfillments[|created.fulfillments| - 1 := blank.(depositAllocated := credit)]);
      StepWithinPaid(o, totals[0]);
      assert credited.fulfillments == o.fulfillments + [blank.(depositAllocated := credit)];
      AllocatedDepositsAppend(o.fulfillments, blank.(depositAllocated := credit));
      assert TotalDepositPaid(credited) == TotalDepositPaid(o);
      SuccessiveCreditsWithinPaid(credited, totals[1..]);
    }
  }

  // ----- generate_proforma_invoice -----

  /** The writes `generate_proforma_invoice` makes, in order. */
  datatype Write =
    | DepositStored(fulfillment: int, amount: real)
    | InvoiceCreated(invoice: InvoiceRow)
    | RequestedEventCreated(invoiceType: InvoiceType)

  /** The rows `generate_proforma_invoice` writes: the order with its fulfillments, the
      invoice table, and the log of writes. */
  class ProformaStore {
    var order: Order
    var invoices: seq<InvoiceRow>
    var writes: seq<Write>

    constructor (order: Order, invoices: seq<InvoiceRow>)
      ensures this.order == order && this.invoices == invoices && this.writes == []
    {
      this.order := order;
      this.invoices := invoices;
      this.writes := [];
    }

    /** The fulfillment at `idx` (primary key `fulfillmentId`, created at `createdAt`, on
        order `orderId`) gets its credit stored first; the PROFORMA invoice is created
        next, and fails on the (fulfillment, type) constraint when one exists already,
        in which case the stored credit stays. */
    method GenerateProformaInvoice(idx: nat, fulfillmentId: int, orderId: int, lines: seq<ProformaLine>, createdAt: int)
      returns (r: Result<InvoiceRow, IntegrityError>)
      requires idx < |order.fulfillments|
      modifies this
      ensures var credit := DepositAllocation(old(order), FulfillmentTotal(lines));
        order == old(order).(fulfillments := old(order).fulfillments[idx := old(order).fulfillments[idx].(depositAllocated := credit)])
      ensures var row := InvoiceRow(Some(orderId), Some(fulfillmentId), None, Proforma, None, Some(createdAt));
        r == (match Insert(old(invoices), row) case Ok(_) => Ok(row) case Err(e) => Err(e))
      ensures r.Ok? ==> invoices == old(invoices) + [r.value]
      ensures r.Err? ==> invoices == old(invoices)
      ensures var credit := DepositAllocation(old(order), FulfillmentTotal(lines));
        writes == old(writes) + [DepositStored(fulfillmentId, credit)]
          + (if r.Ok? then [InvoiceCreated(r.value), RequestedEventCreated(Proforma)] else [])
    {
      var total := CalculateFulfillmentTotal(lines);
      var credit := DepositAllocation(order, total);
      order := order.(fulfillments := order.fulfillments[idx := order.fulfillments[idx].(depositAllocated := credit)]);
      writes := writes + [DepositStored(fulfillmentId, credit)];
      var row := InvoiceRow(Some(orderId), Some(fulfillmentId), None, Proforma, None, Some(createdAt));
      var inserted := Insert(invoices, row);
      if inserted.Err? {
        return Err(inserted.error);
      }
      invoices := inserted.value;
      writes := writes + [InvoiceCreated(row), RequestedEventCreated(Proforma)];
      return Ok(row);
    }
  }
}
