/** saleor/graphql/order/mutations/fulfillment_mark_proforma_paid.py: a fulfillment's
    proforma invoice is marked paid once, at the given time or at the current time, and
    auto-approval is then attempted on the updated fulfillment. */
module ProformaPaid {
  import opened Wrappers
  import opened Statuses
  import opened OrderModels

  /** The mutation's errors: the id resolves to nothing, or the `id` field is INVALID
      because there is no proforma invoice or it is already paid. */
  datatype MarkPaidError = FulfillmentNotFound | NoProformaInvoice | AlreadyPaid

  /** `try_auto_approve_fulfillment`, which is not part of this model: whatever it makes
      of the fulfillment it is handed. */
  type Approver = Fulfillment -> Fulfillment

  /** The outcome: the fulfillment as saved by this mutation and as returned after the
      auto-approval attempt and the refresh. */
  datatype MarkPaidOutcome = MarkPaidOutcome(saved: Fulfillment, returned: Fulfillment)

  /** The two writes: the flag and its time. */
  function Flagged(f: Fulfillment, paidAt: Option<int>, now: int): Fulfillment {
    f.(proformaPaid := true, proformaPaidAt := Some(if paidAt.Some? then paidAt.value else now))
  }

  /** The mutation. `hasProforma` is the `hasattr(fulfillment, "proforma_invoice")` test. */
  function MarkProformaPaid(f: Option<Fulfillment>, hasProforma: bool, paidAt: Option<int>, now: int, approve: Approver)
    : Result<MarkPaidOutcome, MarkPaidError>
  {
    if f.None? then Err(FulfillmentNotFound)
    else if !hasProforma then Err(NoProformaInvoice)
    else if f.value.proformaPaid then Err(AlreadyPaid)
    else
      var saved := Flagged(f.value, paidAt, now);
      Ok(MarkPaidOutcome(saved, approve(saved)))
  }

  /** Marking succeeds exactly for a fulfillment with a proforma that is not yet paid; the
      missing proforma is reported before the paid flag is looked at. */
  lemma MarkPaidSucceedsIff(f: Fulfillment, hasProforma: bool, paidAt: Option<int>, now: int, approve: Approver)
    ensures MarkProformaPaid(Some(f), hasProforma, paidAt, now, approve).Ok? <==> hasProforma && !f.proformaPaid
    ensures !hasProforma ==> MarkProformaPaid(Some(f), hasProforma, paidAt, now, approve) == Err(NoProformaInvoice)
    ensures hasProforma && f.proformaPaid ==> MarkProformaPaid(Some(f), hasProforma, paidAt, now, approve) == Err(AlreadyPaid)
  {
  }

  /** On success the flag is set, the time is the given one or the clock, nothing else
      of the fulfillment is written, and auto-approval is handed the updated row. */
  lemma MarkPaidWrites(f: Fulfillment, paidAt: Option<int>, now: int, approve: Approver)
    requires !f.proformaPaid
    ensures var r := MarkProformaPaid(Some(f), true, paidAt, now, approve);
      && r.Ok?
      && r.value.saved.proformaPaid
      && (paidAt.Some? ==> r.value.saved.proformaPaidAt == paidAt)
      && (paidAt.None? ==> r.value.saved.proformaPaidAt == Some(now))
      && r.value.saved.(proformaPaid := false, proformaPaidAt := f.proformaPaidAt) == f
      && r.value.returned == approve(r.value.saved)
  {
  }

  /** The flag is one-way: marking the fulfillment this mutation saved fails. */
  lemma MarkedOnce(f: Fulfillment, paidAt: Option<int>, now: int, approve: Approver,
                   paidAt2: Option<int>, now2: int, approve2: Approver)
    requires MarkProformaPaid(Some(f), true, paidAt, now, approve).Ok?
    ensures MarkProformaPaid(Some(MarkProformaPaid(Some(f), true, paidAt, now, approve).value.saved),
                             true, paidAt2, now2, approve2) == Err(AlreadyPaid)
  {
  }

  /** The proforma gate of the auto-transition: before marking it blocks, after marking
      the transition depends on the remaining conditions only. */
  lemma MarkingOpensProformaGate(f: Fulfillment, depositRequired: bool, paidAt: Option<int>, now: int, approve: Approver)
    requires MarkProformaPaid(Some(f), true, paidAt, now, approve).Ok?
    ensures !CanAutoTransitionToFulfilled(f, depositRequired)
    ensures var g := MarkProformaPaid(Some(f), true, paidAt, now, approve).value.saved;
      CanAutoTransitionToFulfilled(g, depositRequired) <==>
        f.status == WaitingForApproval && f.pick == Some(Completed) && f.shipment.Some?
        && !(depositRequired && f.depositAllocated == 0.0)
  {
    UnpaidProformaBlocks(f, depositRequired);
  }
}
