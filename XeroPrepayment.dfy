/** The step both prepayment-replacement mutations end with
    (saleor/graphql/order/mutations/order_replace_deposit_prepayment.py and
    fulfillment_replace_prepayment.py): the accounting system is asked about the new
    prepayment, and if it reports it paid, the payment is recorded on the order unless a
    payment with that reference exists already. */
module XeroPrepayment {
  import opened Wrappers
  import opened OrderModels

  /** The plugin's answer to `xero_check_prepayment_status`; None stands for no answer or
      an empty one. */
  datatype PrepaymentStatus = PrepaymentStatus(isPaid: bool, amountPaid: real)

  /** `record_external_payment`, which is not part of this model: the Payment row it
      creates for an amount and a reference. */
  type ExternalPaymentRecorder = (real, string) -> Payment

  /** Whether this step records a payment. */
  predicate Records(o: Order, status: Option<PrepaymentStatus>, psp: string) {
    status.Some? && status.value.isPaid && !HasReference(o, psp)
  }

  function RecordIfPaid(o: Order, status: Option<PrepaymentStatus>, psp: string, recordExternalPayment: ExternalPaymentRecorder): (r: Order)
    ensures Records(o, status, psp) ==> r == o.(payments := o.payments + [recordExternalPayment(status.value.amountPaid, psp)])
    ensures !Records(o, status, psp) ==> r == o
  {
    if status.Some? && status.value.isPaid then
      if HasReference(o, psp) then o
      else o.(payments := o.payments + [recordExternalPayment(status.value.amountPaid, psp)])
    else o
  }

  /** With a recorder that stores the reference it is given, this step keeps an order's
      payment references distinct. */
  lemma RecordKeepsReferencesDistinct(o: Order, status: Option<PrepaymentStatus>, psp: string, recordExternalPayment: ExternalPaymentRecorder)
    requires ReferencesDistinct(o)
    requires status.Some? ==> recordExternalPayment(status.value.amountPaid, psp).pspReference == psp
    ensures ReferencesDistinct(RecordIfPaid(o, status, psp, recordExternalPayment))
  {
    var r := RecordIfPaid(o, status, psp, recordExternalPayment);
    if Records(o, status, psp) {
      forall i, j | 0 <= i < j < |r.payments|
        ensures r.payments[i].pspReference != r.payments[j].pspReference
      {
        assert r.payments[i] == o.payments[i];
        if j < |o.payments| {
          assert r.payments[j] == o.payments[j];
        }
      }
    }
  }

  /** Repeating the step records nothing more: after it, a payment with the reference
      exists whenever the answer was "paid". */
  lemma RecordOnce(o: Order, status: Option<PrepaymentStatus>, psp: string, recordExternalPayment: ExternalPaymentRecorder,
                   status2: Option<PrepaymentStatus>, recordExternalPayment2: ExternalPaymentRecorder)
    requires status.Some? ==> recordExternalPayment(status.value.amountPaid, psp).pspReference == psp
    requires status.Some? && status.value.isPaid
    ensures HasReference(RecordIfPaid(o, status, psp, recordExternalPayment), psp)
    ensures var o1 := RecordIfPaid(o, status, psp, recordExternalPayment);
      RecordIfPaid(o1, status2, psp, recordExternalPayment2) == o1
  {
    var o1 := RecordIfPaid(o, status, psp, recordExternalPayment);
    if !HasReference(o, psp) {
      assert o1.payments[|o.payments|].pspReference == psp;
    }
  }
}
