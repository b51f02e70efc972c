/** saleor/graphql/order/mutations/fulfillment_replace_prepayment.py: the Xero proforma
    prepayment of a fulfillment is replaced while the current one is not recorded as
    paid; the new prepayment's payment is then recorded on the order if the accounting
    system reports it paid. */
module FulfillmentReplacePrepayment {
  import opened Wrappers
  import opened OrderModels
  import opened XeroPrepayment

  datatype ReplaceProformaError =
    | FulfillmentNotFound
    | PermissionDenied
    | NoPrepaymentId          // non-field error, INVALID
    | ProformaAlreadyPaid     // non-field error, INVALID

  /** The mutation on the order holding the fulfillment at index `idx` (None: the id
      resolves to nothing). */
  function ReplacePrepayment(o: Order, idx: Option<nat>, permitted: bool, prepaymentId: string,
                             status: Option<PrepaymentStatus>, recordExternalPayment: ExternalPaymentRecorder)
    : Result<Order, ReplaceProformaError>
  {
    if idx.None? || idx.value >= |o.fulfillments| then Err(FulfillmentNotFound)
    else if !permitted then Err(PermissionDenied)
    else
      var f := o.fulfillments[idx.value];
      if f.xeroPrepaymentId.None? || f.xeroPrepaymentId.value == "" then Err(NoPrepaymentId)
      else if HasReference(o, f.xeroPrepaymentId.value) then Err(ProformaAlreadyPaid)
      else
        var saved := o.(fulfillments := o.fulfillments[idx.value := f.(xeroPrepaymentId := Some(prepaymentId))]);
        Ok(RecordIfPaid(saved, status, prepaymentId, recordExternalPayment))
  }

  /** The replacement is refused exactly when the fulfillment has no prepayment id (None
      or empty) or its current prepayment is already recorded as a payment. */
  lemma ReplacePrepaymentAcceptedIff(o: Order, idx: nat, prepaymentId: string, status: Option<PrepaymentStatus>, recordExternalPayment: ExternalPaymentRecorder)
    requires idx < |o.fulfillments|
    ensures var cur := o.fulfillments[idx].xeroPrepaymentId;
      ReplacePrepayment(o, Some(idx), true, prepaymentId, status, recordExternalPayment).Ok? <==>
        cur.Some? && cur.value != "" && !HasReference(o, cur.value)
  {
  }

  /** On success the fulfillment holds the new id, the other fulfillments are untouched, and
      a payment is added exactly when the answer is "paid" and no payment carries the new id. */
  lemma ReplacePrepaymentOutcome(o: Order, idx: nat, prepaymentId: string, status: Option<PrepaymentStatus>, recordExternalPayment: ExternalPaymentRecorder)
    requires ReplacePrepayment(o, Some(idx), true, prepaymentId, status, recordExternalPayment).Ok?
    ensures var o' := ReplacePrepayment(o, Some(idx), true, prepaymentId, status, recordExternalPayment).value;
      && |o'.fulfillments| == |o.fulfillments|
      && o'.fulfillments[idx] == o.fulfillments[idx].(xeroPrepaymentId := Some(prepaymentId))
      && (forall k :: 0 <= k < |o.fulfillments| && k != idx ==> o'.fulfillments[k] == o.fulfillments[k])
      && (|o'.payments| == |o.payments| + 1 <==> status.Some? && status.value.isPaid && !HasReference(o, prepaymentId))
      && o'.payments[..|o.payments|] == o.payments
  {
  }

  /** At most one payment per reference: with a recorder storing the reference it is
      given, distinct references stay distinct. */
  lemma ReplaceKeepsReferencesDistinct(o: Order, idx: nat, prepaymentId: string, status: Option<PrepaymentStatus>, recordExternalPayment: ExternalPaymentRecorder)
    requires ReferencesDistinct(o)
    requires status.Some? ==> recordExternalPayment(status.value.amountPaid, prepaymentId).pspReference == prepaymentId
    requires ReplacePrepayment(o, Some(idx), true, prepaymentId, status, recordExternalPayment).Ok?
    ensures ReferencesDistinct(ReplacePrepayment(o, Some(idx), true, prepaymentId, status, recordExternalPayment).value)
  {
    var f := o.fulfillments[idx];
    var saved := o.(fulfillments := o.fulfillments[idx := f.(xeroPrepaymentId := Some(prepaymentId))]);
    assert ReferencesDistinct(saved);
    RecordKeepsReferencesDistinct(saved, status, prepaymentId, recordExternalPayment);
  }

  /** Once the new prepayment is recorded as paid, replacing it again is refused. */
  lemma PaidPrepaymentCannotBeReplaced(o: Order, idx: nat, prepaymentId: string, status: Option<PrepaymentStatus>, recordExternalPayment: ExternalPaymentRecorder,
                                       next: string, status2: Option<PrepaymentStatus>, recordExternalPayment2: ExternalPaymentRecorder)
    requires prepaymentId != ""
    requires status.Some? && status.value.isPaid
    requires recordExternalPayment(status.value.amountPaid, prepaymentId).pspReference == prepaymentId
    requires ReplacePrepayment(o, Some(idx), true, prepaymentId, status, recordExternalPayment).Ok?
    ensures ReplacePrepayment(ReplacePrepayment(o, Some(idx), true, prepaymentId, status, recordExternalPayment).value,
                              Some(idx), true, next, status2, recordExternalPayment2) == Err(ProformaAlreadyPaid)
  {
    var f := o.fulfillments[idx];
    var saved := o.(fulfillments := o.fulfillments[idx := f.(xeroPrepaymentId := Some(prepaymentId))]);
    RecordOnce(saved, status, prepaymentId, recordExternalPayment, status2, recordExternalPayment2);
  }
}
