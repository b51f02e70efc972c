/** saleor/graphql/order/mutations/order_add_xero_payment.py: a payment recorded in Xero
    is added to an order as a fully charged Xero payment, and a deposit payment that meets
    the threshold stamps the order's `deposit_paid_at` once. */
module OrderAddXeroPayment {
  import opened Wrappers
  import opened Text
  import opened Sums
  import opened OrderModels

  /** The validation errors, by field and code. */
  datatype AddPaymentError =
    | PaymentIdRequired        // xero_payment_id, REQUIRED
    | AmountNotPositive        // amount, INVALID
    | PaymentIdNotUnique       // xero_payment_id, UNIQUE
    | DepositNotRequired       // is_deposit, INVALID

  /** `clean_input`, its four checks in order. */
  function CleanInput(o: Order, xeroPaymentId: string, amount: real, isDeposit: bool): (r: Option<AddPaymentError>)
    ensures r.None? <==>
      !IsBlank(xeroPaymentId) && amount > 0.0 && !HasReference(o, Strip(xeroPaymentId)) && (isDeposit ==> o.depositRequired)
  {
    StripEmptyIffBlank(xeroPaymentId);
    if xeroPaymentId == [] || Strip(xeroPaymentId) == [] then Some(PaymentIdRequired)
    else if amount <= 0.0 then Some(AmountNotPositive)
    else if HasReference(o, Strip(xeroPaymentId)) then Some(PaymentIdNotUnique)
    else if isDeposit && !o.depositRequired then Some(DepositNotRequired)
    else None
  }

  /** The Payment row `perform_mutation` creates. */
  function XeroPayment(xeroPaymentId: string, amount: real, isDeposit: bool): Payment {
    Payment(Xero, true, isDeposit, amount, amount, FullyCharged, Strip(xeroPaymentId))
  }

  /** The mutation: the payment is created, then `deposit_threshold_met` is read with it
      counted, and `deposit_paid_at` is set to the given time or the clock if it was unset. */
  function AddXeroPayment(o: Order, xeroPaymentId: string, amount: real, isDeposit: bool, paidAt: Option<int>, now: int)
    : Result<Order, AddPaymentError>
  {
    var bad := CleanInput(o, xeroPaymentId, amount, isDeposit);
    if bad.Some? then Err(bad.value)
    else
      var withPayment := o.(payments := o.payments + [XeroPayment(xeroPaymentId, amount, isDeposit)]);
      if isDeposit && DepositThresholdMet(withPayment) && withPayment.depositPaidAt.None? then
        Ok(withPayment.(depositPaidAt := Some(if paidAt.Some? then paidAt.value else now)))
      else Ok(withPayment)
  }

  /** Each check reports its error, the earlier ones first. */
  lemma AddPaymentRejects(o: Order, xeroPaymentId: string, amount: real, isDeposit: bool, paidAt: Option<int>, now: int)
    ensures IsBlank(xeroPaymentId) ==> AddXeroPayment(o, xeroPaymentId, amount, isDeposit, paidAt, now) == Err(PaymentIdRequired)
    ensures !IsBlank(xeroPaymentId) && amount <= 0.0 ==>
      AddXeroPayment(o, xeroPaymentId, amount, isDeposit, paidAt, now) == Err(AmountNotPositive)
    ensures !IsBlank(xeroPaymentId) && amount > 0.0 && HasReference(o, Strip(xeroPaymentId)) ==>
      AddXeroPayment(o, xeroPaymentId, amount, isDeposit, paidAt, now) == Err(PaymentIdNotUnique)
    ensures !IsBlank(xeroPaymentId) && amount > 0.0 && !HasReference(o, Strip(xeroPaymentId)) && isDeposit && !o.depositRequired ==>
      AddXeroPayment(o, xeroPaymentId, amount, isDeposit, paidAt, now) == Err(DepositNotRequired)
  {
    StripEmptyIffBlank(xeroPaymentId);
  }

  /** On success exactly one payment is appended, fully charged with total and captured
      equal to the amount and the stripped reference, and apart from `deposit_paid_at`
      nothing else of the order changes. */
  lemma AddPaymentRecord(o: Order, xeroPaymentId: string, amount: real, isDeposit: bool, paidAt: Option<int>, now: int)
    requires AddXeroPayment(o, xeroPaymentId, amount, isDeposit, paidAt, now).Ok?
    ensures var o' := AddXeroPayment(o, xeroPaymentId, amount, isDeposit, paidAt, now).value;
      && amount > 0.0
      && o'.payments == o.payments + [Payment(Xero, true, isDeposit, amount, amount, FullyCharged, Strip(xeroPaymentId))]
      && o'.(payments := o.payments, depositPaidAt := o.depositPaidAt) == o
  {
    assert CleanInput(o, xeroPaymentId, amount, isDeposit).None?;
  }

  /** The threshold does not read `deposit_paid_at`. */
  lemma ThresholdIgnoresPaidAt(o: Order, t: Option<int>)
    ensures DepositThresholdMet(o.(depositPaidAt := t)) == DepositThresholdMet(o)
  {
    assert TotalDepositPaid(o.(depositPaidAt := t)) == TotalDepositPaid(o);
  }

  /** `deposit_paid_at` changes exactly for a deposit that meets the threshold (with this
      payment counted) on an order not yet stamped, and then holds the given time or the
      clock. */
  lemma AddPaymentStamp(o: Order, xeroPaymentId: string, amount: real, isDeposit: bool, paidAt: Option<int>, now: int)
    requires AddXeroPayment(o, xeroPaymentId, amount, isDeposit, paidAt, now).Ok?
    ensures var o' := AddXeroPayment(o, xeroPaymentId, amount, isDeposit, paidAt, now).value;
      && (o'.depositPaidAt != o.depositPaidAt <==> isDeposit && o.depositPaidAt.None? && DepositThresholdMet(o'))
      && (o'.depositPaidAt != o.depositPaidAt ==> o'.depositPaidAt == Some(if paidAt.Some? then paidAt.value else now))
  {
    var withPayment := o.(payments := o.payments + [XeroPayment(xeroPaymentId, amount, isDeposit)]);
    var o' := AddXeroPayment(o, xeroPaymentId, amount, isDeposit, paidAt, now).value;
    assert CleanInput(o, xeroPaymentId, amount, isDeposit).None?;
    ThresholdIgnoresPaidAt(withPayment, Some(if paidAt.Some? then paidAt.value else now));
  }

  /** An existing `deposit_paid_at` is never overwritten. */
  lemma PaidAtKept(o: Order, xeroPaymentId: string, amount: real, isDeposit: bool, paidAt: Option<int>, now: int)
    requires o.depositPaidAt.Some?
    requires AddXeroPayment(o, xeroPaymentId, amount, isDeposit, paidAt, now).Ok?
    ensures AddXeroPayment(o, xeroPaymentId, amount, isDeposit, paidAt, now).value.depositPaidAt == o.depositPaidAt
  {
  }

  /** A deposit payment raises the deposit paid by its amount; any other payment leaves it. */
  lemma DepositPaidGrows(o: Order, xeroPaymentId: string, amount: real, isDeposit: bool, paidAt: Option<int>, now: int)
    requires AddXeroPayment(o, xeroPaymentId, amount, isDeposit, paidAt, now).Ok?
    ensures TotalDepositPaid(AddXeroPayment(o, xeroPaymentId, amount, isDeposit, paidAt, now).value)
      == TotalDepositPaid(o) + (if isDeposit then amount else 0.0)
  {
    var p := XeroPayment(xeroPaymentId, amount, isDeposit);
    var o' := AddXeroPayment(o, xeroPaymentId, amount, isDeposit, paidAt, now).value;
    assert CleanInput(o, xeroPaymentId, amount, isDeposit).None?;
    assert o'.payments == o.payments + [p];
    assert TotalDepositPaid(o') == SumReals(DepositCaptures(o.payments + [p]));
    DepositCapturesAppend(o.payments, p);
    SumRealsAppend(DepositCaptures(o.payments), if CountsAsDeposit(p) then [p.captured] else []);
  }

  /** Payments added by this mutation never repeat a reference on one order. */
  lemma AddKeepsReferencesDistinct(o: Order, xeroPaymentId: string, amount: real, isDeposit: bool, paidAt: Option<int>, now: int)
    requires ReferencesDistinct(o)
    requires AddXeroPayment(o, xeroPaymentId, amount, isDeposit, paidAt, now).Ok?
    ensures ReferencesDistinct(AddXeroPayment(o, xeroPaymentId, amount, isDeposit, paidAt, now).value)
  {
    var o' := AddXeroPayment(o, xeroPaymentId, amount, isDeposit, paidAt, now).value;
    assert !HasReference(o, Strip(xeroPaymentId));
    forall i, j | 0 <= i < j < |o'.payments|
      ensures o'.payments[i].pspReference != o'.payments[j].pspReference
    {
      assert o'.payments[i] == o.payments[i];
      if j == |o.payments| {
        assert o'.payments[j].pspReference == Strip(xeroPaymentId);
      } else {
        assert o'.payments[j] == o.payments[j];
      }
    }
  }
}
