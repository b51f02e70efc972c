/** saleor/graphql/order/mutations/order_set_deposit_required.py: whether an order needs a
    deposit, and which percentage of its total. Only `deposit_required` and
    `deposit_percentage` are written; the percentage is checked only when a deposit is
    required. */
module OrderSetDepositRequired {
  import opened Wrappers
  import opened OrderModels

  datatype SetDepositError =
    | OrderNotFound
    | PermissionDenied
    | PercentageOutOfRange   // percentage, INVALID

  /** `clean_input`. */
  predicate PercentageAccepted(required: bool, percentage: Option<real>) {
    !(required && percentage.Some?) || 0.0 <= percentage.value <= 100.0
  }

  /** The mutation: the order row after the save, and the columns the save writes. */
  function SetDepositRequired(o: Option<Order>, permitted: bool, required: bool, percentage: Option<real>)
    : (r: Result<(Order, seq<string>), SetDepositError>)
  {
    if o.None? then Err(OrderNotFound)
    else if !permitted then Err(PermissionDenied)
    else if !PercentageAccepted(required, percentage) then Err(PercentageOutOfRange)
    else Ok((o.value.(depositRequired := required, depositPercentage := if required then percentage else None),
             ["deposit_required", "deposit_percentage"]))
  }

  /** The assignments of `perform_mutation`, in order. */
  method SetDepositRequiredMutation(o: Option<Order>, permitted: bool, required: bool, percentage: Option<real>)
    returns (r: Result<(Order, seq<string>), SetDepositError>)
    ensures r == SetDepositRequired(o, permitted, required, percentage)
  {
    if o.None? {
      return Err(OrderNotFound);
    }
    if !permitted {
      return Err(PermissionDenied);
    }
    if required && percentage.Some? {
      if !(0.0 <= percentage.value <= 100.0) {
        return Err(PercentageOutOfRange);
      }
    }
    var order := o.value;
    order := order.(depositRequired := required);
    order := order.(depositPercentage := if required then percentage else None);
    return Ok((order, ["deposit_required", "deposit_percentage"]));
  }

  /** A required deposit with a given percentage is accepted exactly within [0, 100]; the
      percentage is not looked at when no deposit is required. */
  lemma PercentageGuardIff(o: Order, required: bool, percentage: Option<real>)
    ensures required && percentage.Some? ==>
      (SetDepositRequired(Some(o), true, required, percentage).Ok? <==> 0.0 <= percentage.value <= 100.0)
    ensures !required || percentage.None? ==> SetDepositRequired(Some(o), true, required, percentage).Ok?
  {
  }

  /** On success the flag is the input, the stored percentage is the input when a deposit
      is required and None otherwise, and the other columns are unchanged. */
  lemma SetDepositOutcome(o: Order, required: bool, percentage: Option<real>)
    requires SetDepositRequired(Some(o), true, required, percentage).Ok?
    ensures var (o', fields) := SetDepositRequired(Some(o), true, required, percentage).value;
      && o'.depositRequired == required
      && (required ==> o'.depositPercentage == percentage)
      && (!required ==> o'.depositPercentage.None?)
      && o'.(depositRequired := o.depositRequired, depositPercentage := o.depositPercentage) == o
      && fields == ["deposit_required", "deposit_percentage"]
  {
  }

  /** Turning the deposit off makes the threshold trivially met. */
  lemma NotRequiredMeetsThreshold(o: Order, percentage: Option<real>)
    ensures SetDepositRequired(Some(o), true, false, percentage).Ok?
    ensures DepositThresholdMet(SetDepositRequired(Some(o), true, false, percentage).value.0)
  {
  }

  /** A required deposit set without a percentage (or with 0) is never met by payments,
      whatever is paid: `deposit_threshold_met` needs a non-zero percentage. */
  lemma RequiredWithoutPercentageNeverMet(o: Order, percentage: Option<real>)
    requires percentage.None? || percentage == Some(0.0)
    ensures SetDepositRequired(Some(o), true, true, percentage).Ok?
    ensures !DepositThresholdMet(SetDepositRequired(Some(o), true, true, percentage).value.0)
  {
  }
}
