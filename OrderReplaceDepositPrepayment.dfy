/** saleor/graphql/order/mutations/order_replace_deposit_prepayment.py: the Xero deposit
    prepayment of an order is replaced while the deposit is unpaid. The percentage and the
    bank details change only when given; the new prepayment's payment is then recorded if
    the accounting system reports it paid. */
module OrderReplaceDepositPrepayment {
  import opened Wrappers
  import opened OrderModels
  import opened XeroPrepayment

  datatype ReplaceDepositError =
    | OrderNotFound
    | PermissionDenied
    | DepositNotRequired      // non-field error, INVALID
    | DepositAlreadyPaid      // non-field error, INVALID
    | PercentageOutOfRange    // percentage, INVALID

  /** The optional inputs. */
  datatype Changes = Changes(
    percentage: Option<real>,
    bankAccountCode: Option<string>,
    bankSortCode: Option<string>,
    bankAccountNumber: Option<string>)

  /** An optional input: the given value, or the stored one when omitted. */
  function Given<T>(input: Option<T>, stored: Option<T>): Option<T> {
    if input.Some? then input else stored
  }

  /** The guards of `perform_mutation`, in order. */
  function Guard(o: Order, c: Changes): (r: Option<ReplaceDepositError>)
    ensures r.None? <==> o.depositRequired && o.depositPaidAt.None? && (c.percentage.Some? ==> 0.0 <= c.percentage.value <= 100.0)
  {
    if !o.depositRequired then Some(DepositNotRequired)
    else if o.depositPaidAt.Some? then Some(DepositAlreadyPaid)
    else if c.percentage.Some? && !(0.0 <= c.percentage.value <= 100.0) then Some(PercentageOutOfRange)
    else None
  }

  /** The saved row: the new id, and each optional column set only when given. */
  function Saved(o: Order, prepaymentId: string, c: Changes): Order {
    o.(xeroDepositPrepaymentId := Some(prepaymentId),
       depositPercentage := Given(c.percentage, o.depositPercentage),
       bankAccountCode := Given(c.bankAccountCode, o.bankAccountCode),
       bankSortCode := Given(c.bankSortCode, o.bankSortCode),
       bankAccountNumber := Given(c.bankAccountNumber, o.bankAccountNumber))
  }

  /** The `update_fields` list. */
  function UpdateFields(c: Changes): seq<string> {
    ["xero_deposit_prepayment_id"]
    + (if c.percentage.Some? then ["deposit_percentage"] else [])
    + (if c.bankAccountCode.Some? then ["xero_bank_account_code"] else [])
    + (if c.bankSortCode.Some? then ["xero_bank_account_sort_code"] else [])
    + (if c.bankAccountNumber.Some? then ["xero_bank_account_number"] else [])
  }

  /** The mutation: the order after the save and the payment step, and the columns the
      save writes. */
  function ReplaceDepositPrepayment(o: Option<Order>, permitted: bool, prepaymentId: string, c: Changes,
                                    status: Option<PrepaymentStatus>, recordExternalPayment: ExternalPaymentRecorder)
    : Result<(Order, seq<string>), ReplaceDepositError>
  {
    if o.None? then Err(OrderNotFound)
    else if !permitted then Err(PermissionDenied)
    else
      var bad := Guard(o.value, c);
      if bad.Some? then Err(bad.value)
      else Ok((RecordIfPaid(Saved(o.value, prepaymentId, c), status, prepaymentId, recordExternalPayment), UpdateFields(c)))
  }

  /** `perform_mutation`: the assignments grow `update_fields` one optional input at a time. */
  method ReplaceDepositPrepaymentMutation(o: Option<Order>, permitted: bool, prepaymentId: string, c: Changes,
                                          status: Option<PrepaymentStatus>, recordExternalPayment: ExternalPaymentRecorder)
    returns (r: Result<(Order, seq<string>), ReplaceDepositError>)
    ensures r == ReplaceDepositPrepayment(o, permitted, prepaymentId, c, status, recordExternalPayment)
  {
    if o.None? {
      return Err(OrderNotFound);
    }
    if !permitted {
      return Err(PermissionDenied);
    }
    var order := o.value;
    if !order.depositRequired {
      return Err(DepositNotRequired);
    }
    if order.depositPaidAt.Some? {
      return Err(DepositAlreadyPaid);
    }
    if c.percentage.Some? && !(0.0 <= c.percentage.value <= 100.0) {
      return Err(PercentageOutOfRange);
    }
    var updateFields := ["xero_deposit_prepayment_id"];
    order := order.(xeroDepositPrepaymentId := Some(prepaymentId));
    if c.percentage.Some? {
      order := order.(depositPercentage := c.percentage);
      updateFields := updateFields + ["deposit_percentage"];
    }
    if c.bankAccountCode.Some? {
      order := order.(bankAccountCode := c.bankAccountCode);
      updateFields := updateFields + ["xero_bank_account_code"];
    }
    if c.bankSortCode.Some? {
      order := order.(bankSortCode := c.bankSortCode);
      updateFields := updateFields + ["xero_bank_account_sort_code"];
    }
    if c.bankAccountNumber.Some? {
      order := order.(bankAccountNumber := c.bankAccountNumber);
      updateFields := updateFields + ["xero_bank_account_number"];
    }
    assert order == Saved(o.value, prepaymentId, c);
    assert updateFields == UpdateFields(c);
    if status.Some? && status.value.isPaid {
      var alreadyRecorded := HasReference(order, prepaymentId);
      if !alreadyRecorded {
        order := order.(payments := order.payments + [recordExternalPayment(status.value.amountPaid, prepaymentId)]);
      }
    }
    return Ok((order, updateFields));
  }

  /** The replacement is refused exactly for an order that needs no deposit, whose deposit
      is already stamped paid, or for a percentage outside [0, 100]. */
  lemma ReplaceDepositAcceptedIff(o: Order, prepaymentId: string, c: Changes, status: Option<PrepaymentStatus>, recordExternalPayment: ExternalPaymentRecorder)
    ensures ReplaceDepositPrepayment(Some(o), true, prepaymentId, c, status, recordExternalPayment).Ok? <==>
      o.depositRequired && o.depositPaidAt.None? && (c.percentage.Some? ==> 0.0 <= c.percentage.value <= 100.0)
    ensures !o.depositRequired ==> ReplaceDepositPrepayment(Some(o), true, prepaymentId, c, status, recordExternalPayment) == Err(DepositNotRequired)
    ensures o.depositRequired && o.depositPaidAt.Some? ==>
      ReplaceDepositPrepayment(Some(o), true, prepaymentId, c, status, recordExternalPayment) == Err(DepositAlreadyPaid)
  {
  }

  /** On success the new prepayment id is stored, each optional column changes only when
      given and is written exactly then, and a payment is added exactly when the answer is
      "paid" and no payment carries the new id; nothing else changes. */
  lemma ReplaceDepositOutcome(o: Order, prepaymentId: string, c: Changes, status: Option<PrepaymentStatus>, recordExternalPayment: ExternalPaymentRecorder)
    requires ReplaceDepositPrepayment(Some(o), true, prepaymentId, c, status, recordExternalPayment).Ok?
    ensures var (o', fields) := ReplaceDepositPrepayment(Some(o), true, prepaymentId, c, status, recordExternalPayment).value;
      && o'.xeroDepositPrepaymentId == Some(prepaymentId)
      && (c.percentage.None? ==> o'.depositPercentage == o.depositPercentage)
      && (c.percentage.Some? ==> o'.depositPercentage == c.percentage)
      && (c.bankAccountCode.None? ==> o'.bankAccountCode == o.bankAccountCode)
      && (c.bankSortCode.None? ==> o'.bankSortCode == o.bankSortCode)
      && (c.bankAccountNumber.None? ==> o'.bankAccountNumber == o.bankAccountNumber)
      && ("deposit_percentage" in fields <==> c.percentage.Some?)
      && ("xero_bank_account_code" in fields <==> c.bankAccountCode.Some?)
      && ("xero_bank_account_sort_code" in fields <==> c.bankSortCode.Some?)
      && ("xero_bank_account_number" in fields <==> c.bankAccountNumber.Some?)
      && (|o'.payments| == |o.payments| + 1 <==> status.Some? && status.value.isPaid && !HasReference(o, prepaymentId))
      && o'.payments[..|o.payments|] == o.payments
      && o'.depositRequired == o.depositRequired && o'.depositPaidAt == o.depositPaidAt
      && o'.fulfillments == o.fulfillments && o'.totalGross == o.totalGross
  {
    var s := Saved(o, prepaymentId, c);
    assert s.payments == o.payments;
  }
}
