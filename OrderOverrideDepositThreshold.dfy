/** saleor/graphql/order/mutations/order_override_deposit_threshold.py: staff mark the
    deposit threshold of an order as met by hand. Switching the override on needs a
    required deposit and stamps `deposit_paid_at` unless it is already set; switching it
    off is always accepted and only writes the flag. */
module OrderOverrideDepositThreshold {
  import opened Wrappers
  import opened OrderModels

  datatype OverrideError =
    | OrderNotFound
    | PermissionDenied
    | DepositNotRequired   // non-field error, INVALID

  /** The mutation: the order row after the save, and the `update_fields` list. */
  function OverrideDepositThreshold(o: Option<Order>, permitted: bool, override: bool, now: int)
    : Result<(Order, seq<string>), OverrideError>
  {
    if o.None? then Err(OrderNotFound)
    else if !permitted then Err(PermissionDenied)
    else if override && !o.value.depositRequired then Err(DepositNotRequired)
    else if override && o.value.depositPaidAt.None? then
      Ok((o.value.(depositThresholdMetOverride := override, depositPaidAt := Some(now)),
          ["deposit_threshold_met_override", "deposit_paid_at"]))
    else Ok((o.value.(depositThresholdMetOverride := override), ["deposit_threshold_met_override"]))
  }

  /** `perform_mutation`, growing `update_fields` as it assigns. */
  method OverrideDepositThresholdMutation(o: Option<Order>, permitted: bool, override: bool, now: int)
    returns (r: Result<(Order, seq<string>), OverrideError>)
    ensures r == OverrideDepositThreshold(o, permitted, override, now)
  {
    if o.None? {
      return Err(OrderNotFound);
    }
    if !permitted {
      return Err(PermissionDenied);
    }
    var order := o.value;
    if override && !order.depositRequired {
      return Err(DepositNotRequired);
    }
    var updateFields := ["deposit_threshold_met_override"];
    order := order.(depositThresholdMetOverride := override);
    if override && order.depositPaidAt.None? {
      order := order.(depositPaidAt := Some(now));
      updateFields := updateFields + ["deposit_paid_at"];
      assert updateFields == ["deposit_threshold_met_override", "deposit_paid_at"];
    }
    return Ok((order, updateFields));
  }

  /** The override is rejected exactly when it is switched on for an order that requires
      no deposit. */
  lemma OverrideAcceptedIff(o: Order, override: bool, now: int)
    ensures OverrideDepositThreshold(Some(o), true, override, now).Ok? <==> !override || o.depositRequired
  {
  }

  /** On success the flag is the input; `deposit_paid_at` is stamped with the clock only
      when overriding an unstamped order, is never overwritten, and is written exactly
      when it changes; nothing else changes. */
  lemma OverrideOutcome(o: Order, override: bool, now: int)
    requires OverrideDepositThreshold(Some(o), true, override, now).Ok?
    ensures var (o', fields) := OverrideDepositThreshold(Some(o), true, override, now).value;
      && o'.depositThresholdMetOverride == override
      && (o'.depositPaidAt != o.depositPaidAt <==> override && o.depositPaidAt.None?)
      && (o'.depositPaidAt != o.depositPaidAt ==> o'.depositPaidAt == Some(now))
      && (o.depositPaidAt.Some? ==> o'.depositPaidAt == o.depositPaidAt)
      && ("deposit_paid_at" in fields <==> o'.depositPaidAt != o.depositPaidAt)
      && "deposit_threshold_met_override" in fields
      && o'.(depositThresholdMetOverride := o.depositThresholdMetOverride, depositPaidAt := o.depositPaidAt) == o
  {
  }

  /** Overriding a second time changes nothing: the stamp of the first call stays. */
  lemma OverrideIdempotent(o: Order, now1: int, now2: int)
    requires OverrideDepositThreshold(Some(o), true, true, now1).Ok?
    ensures var o1 := OverrideDepositThreshold(Some(o), true, true, now1).value.0;
      OverrideDepositThreshold(Some(o1), true, true, now2) == Ok((o1, ["deposit_threshold_met_override"]))
  {
  }
}
