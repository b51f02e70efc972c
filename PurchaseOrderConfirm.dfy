/** saleor/graphql/inventory/mutations/purchase_order_confirm.py: a purchase order is
    confirmed only when every item is DRAFT; the items are then confirmed one after the
    other with `confirm_purchase_order_item`, each seeing the stock the previous ones
    left, inside one transaction, and one audit event is logged. */
module PurchaseOrderConfirm {
  import opened Wrappers
  import opened Statuses
  import opened StockManagement

  /** How the mutation ends when it does not succeed. The three `ValueError`s of the
      confirmation become a validation error on `id`; its other exceptions (an invalid
      status, a missing source stock row, `InsufficientStock`) leave the mutation as
      they are. Both roll the transaction back. */
  datatype PoConfirmError =
    | PurchaseOrderNotFound
    | NonDraftItems(statuses: set<PoiStatus>)
    | ConfirmRejected(reason: ConfirmError)
    | ConfirmRaised(reason: ConfirmError)

  /** The audit event `purchase_order_confirmed_event`. */
  datatype ConfirmedEvent = ConfirmedEvent(purchaseOrder: int)

  datatype PoConfirmOutcome = PoConfirmOutcome(world: World, items: seq<PoiRow>, events: seq<ConfirmedEvent>)

  /** The allocations the FIFO queryset of the confirmation returns for an item in a
      given state of the database (ordered by order-line creation time). */
  type QueueOf = (World, PoiRow) -> seq<Queued>

  /** The exceptions `confirm_purchase_order_item` raises as `ValueError`. */
  predicate IsValueError(e: ConfirmError) {
    e.SourceWarehouseOwned? || e.DestinationWarehouseNotOwned? || e.InsufficientStockAtSource?
  }

  function Surface(e: ConfirmError): PoConfirmError {
    if IsValueError(e) then ConfirmRejected(e) else ConfirmRaised(e)
  }

  /** The statuses of the non-draft items, as the error message lists them. */
  function NonDraftStatuses(items: seq<PoiRow>): (r: set<PoiStatus>)
    ensures forall s :: s in r <==> s != PoiDraft && exists i :: 0 <= i < |items| && items[i].status == s
  {
    if items == [] then {}
    else
      var rest := NonDraftStatuses(items[1..]);
      assert forall i :: 1 <= i < |items| ==> items[i] == items[1..][i - 1];
      if items[0].status != PoiDraft then {items[0].status} + rest else rest
  }

  /** The items confirmed in order, each on the world the previous confirmation left. */
  function ConfirmAll(w: World, items: seq<PoiRow>, now: int, oracle: SourceOracle, queueOf: QueueOf)
    : Result<(World, seq<PoiRow>), ConfirmError>
    decreases |items|
  {
    if items == [] then Ok((w, []))
    else
      match Confirm(w, items[0], queueOf(w, items[0]), now, oracle)
      case Err(e) => Err(e)
      case Ok(out) =>
        match ConfirmAll(out.world, items[1..], now, oracle, queueOf)
        case Err(e) => Err(e)
        case Ok(rest) => Ok((rest.0, [out.poi] + rest.1))
  }

  /** The mutation: look up the order, the all-DRAFT guard, then the confirmation loop. */
  function ConfirmPurchaseOrder(orders: map<int, seq<PoiRow>>, id: int, w: World, now: int,
                                oracle: SourceOracle, queueOf: QueueOf): Result<PoConfirmOutcome, PoConfirmError>
  {
    if id !in orders then Err(PurchaseOrderNotFound)
    else
      var items := orders[id];
      var statuses := NonDraftStatuses(items);
      if statuses != {} then Err(NonDraftItems(statuses))
      else
        match ConfirmAll(w, items, now, oracle, queueOf)
        case Err(e) => Err(Surface(e))
        case Ok(done) => Ok(PoConfirmOutcome(done.0, done.1, [ConfirmedEvent(id)]))
  }

  /** `ConfirmAll` of the remaining items, with the items already confirmed in front. */
  function Continue(done: seq<PoiRow>, r: Result<(World, seq<PoiRow>), ConfirmError>): Result<(World, seq<PoiRow>), ConfirmError> {
    if r.Ok? then Ok((r.value.0, done + r.value.1)) else r
  }

  /** The guard comprehension. */
  method CollectNonDraft(items: seq<PoiRow>) returns (statuses: set<PoiStatus>)
    ensures statuses == NonDraftStatuses(items)
  {
    statuses := {};
    var i := 0;
    while i < |items|
      invariant 0 <= i <= |items|
      invariant forall s :: s in statuses <==> s != PoiDraft && exists j :: 0 <= j < i && items[j].status == s
    {
      if items[i].status != PoiDraft {
        statuses := statuses + {items[i].status};
      }
      i := i + 1;
    }
  }

  /** The confirmation loop. */
  method ConfirmItems(w: World, items: seq<PoiRow>, now: int, oracle: SourceOracle, queueOf: QueueOf)
    returns (r: Result<(World, seq<PoiRow>), ConfirmError>)
    ensures r == ConfirmAll(w, items, now, oracle, queueOf)
  {
    var current := w;
    var confirmed: seq<PoiRow> := [];
    var i := 0;
    assert items[0..] == items;
    var all := ConfirmAll(w, items, now, oracle, queueOf);
    if all.Ok? {
      assert [] + all.value.1 == all.value.1;
      assert (all.value.0, all.value.1) == all.value;
    }
    while i < |items|
      invariant 0 <= i <= |items|
      invariant ConfirmAll(w, items, now, oracle, queueOf)
        == Continue(confirmed, ConfirmAll(current, items[i..], now, oracle, queueOf))
    {
      var out := ConfirmPurchaseOrderItem(current, items[i], queueOf(current, items[i]), now, oracle);
      assert items[i..][0] == items[i] && items[i..][1..] == items[i + 1..];
      if out.Err? {
        return Err(out.error);
      }
      assert confirmed + [out.value.poi] + [] == confirmed + [out.value.poi];
      ContinueAppend(confirmed, out.value.poi, ConfirmAll(out.value.world, items[i + 1..], now, oracle, queueOf));
      confirmed := confirmed + [out.value.poi];
      current := out.value.world;
      i := i + 1;
    }
    assert items[i..] == [];
    assert confirmed + [] == confirmed;
    return Ok((current, confirmed));
  }

  lemma ContinueAppend(done: seq<PoiRow>, p: PoiRow, r: Result<(World, seq<PoiRow>), ConfirmError>)
    ensures Continue(done, if r.Ok? then Ok((r.value.0, [p] + r.value.1)) else r) == Continue(done + [p], r)
  {
    if r.Ok? {
      assert done + ([p] + r.value.1) == (done + [p]) + r.value.1;
    }
  }

  method PurchaseOrderConfirmMutation(orders: map<int, seq<PoiRow>>, id: int, w: World, now: int,
                                      oracle: SourceOracle, queueOf: QueueOf)
    returns (r: Result<PoConfirmOutcome, PoConfirmError>)
    ensures r == ConfirmPurchaseOrder(orders, id, w, now, oracle, queueOf)
  {
    if id !in orders {
      return Err(PurchaseOrderNotFound);
    }
    var items := orders[id];
    var statuses := CollectNonDraft(items);
    if statuses != {} {
      return Err(NonDraftItems(statuses));
    }
    var done := ConfirmItems(w, items, now, oracle, queueOf);
    if done.Err? {
      return Err(Surface(done.error));
    }
    return Ok(PoConfirmOutcome(done.value.0, done.value.1, [ConfirmedEvent(id)]));
  }

  // ----- properties -----

  /** Any non-draft item rejects the whole confirm before anything is confirmed, and the
      error names exactly the statuses found. */
  lemma NonDraftRejectsConfirm(orders: map<int, seq<PoiRow>>, id: int, w: World, now: int,
                               oracle: SourceOracle, queueOf: QueueOf, i: int)
    requires id in orders && 0 <= i < |orders[id]| && orders[id][i].status != PoiDraft
    ensures var r := ConfirmPurchaseOrder(orders, id, w, now, oracle, queueOf);
      r.Err? && r.error.NonDraftItems? && orders[id][i].status in r.error.statuses
      && forall s :: s in r.error.statuses ==> s != PoiDraft
  {
    var items := orders[id];
    assert exists j :: 0 <= j < |items| && items[j].status == items[i].status;
    assert items[i].status in NonDraftStatuses(items);
  }

  /** The guard passes exactly when every item is DRAFT. */
  lemma {:induction false} NonDraftEmptyIff(items: seq<PoiRow>)
    ensures NonDraftStatuses(items) == {} <==> forall i :: 0 <= i < |items| ==> items[i].status == PoiDraft
    decreases |items|
  {
    if items != [] {
      NonDraftEmptyIff(items[1..]);
      assert forall i :: 1 <= i < |items| ==> items[i] == items[1..][i - 1];
      if items[0].status != PoiDraft {
        assert items[0].status in NonDraftStatuses(items);
      }
    }
  }

  /** Confirmation succeeds exactly when the order exists, every item is DRAFT and every
      item's confirmation (on the stock the earlier ones left) succeeds. */
  lemma ConfirmSucceedsIff(orders: map<int, seq<PoiRow>>, id: int, w: World, now: int,
                           oracle: SourceOracle, queueOf: QueueOf)
    ensures ConfirmPurchaseOrder(orders, id, w, now, oracle, queueOf).Ok? <==>
      id in orders && (forall i :: 0 <= i < |orders[id]| ==> orders[id][i].status == PoiDraft)
      && ConfirmAll(w, orders[id], now, oracle, queueOf).Ok?
  {
    if id in orders {
      NonDraftEmptyIff(orders[id]);
    }
  }

  /** A successful confirmation confirms every item at `now`, keeps their order and the
      rest of each row, and logs exactly one event for this purchase order. */
  lemma ConfirmOutcomeItems(orders: map<int, seq<PoiRow>>, id: int, w: World, now: int,
                            oracle: SourceOracle, queueOf: QueueOf)
    requires ConfirmPurchaseOrder(orders, id, w, now, oracle, queueOf).Ok?
    ensures var o := ConfirmPurchaseOrder(orders, id, w, now, oracle, queueOf).value;
      && o.events == [ConfirmedEvent(id)]
      && |o.items| == |orders[id]|
      && forall i :: 0 <= i < |o.items| ==>
           o.items[i] == orders[id][i].(status := PoiConfirmed, confirmedAt := Some(now))
  {
    ConfirmAllItems(w, orders[id], now, oracle, queueOf);
  }

  lemma {:induction false} ConfirmAllItems(w: World, items: seq<PoiRow>, now: int, oracle: SourceOracle, queueOf: QueueOf)
    requires ConfirmAll(w, items, now, oracle, queueOf).Ok?
    decreases |items|
    ensures var done := ConfirmAll(w, items, now, oracle, queueOf).value.1;
      |done| == |items|
      && forall i :: 0 <= i < |items| ==> done[i] == items[i].(status := PoiConfirmed, confirmedAt := Some(now))
  {
    if items != [] {
      var out := Confirm(w, items[0], queueOf(w, items[0]), now, oracle).value;
      ConfirmMovesStock(w, items[0], queueOf(w, items[0]), now, oracle);
      ConfirmAllItems(out.world, items[1..], now, oracle, queueOf);
      var done := ConfirmAll(w, items, now, oracle, queueOf).value.1;
      forall i | 0 <= i < |items|
        ensures done[i] == items[i].(status := PoiConfirmed, confirmedAt := Some(now))
      {
        if i > 0 {
          assert done[i] == ConfirmAll(out.world, items[1..], now, oracle, queueOf).value.1[i - 1];
          assert items[1..][i - 1] == items[i];
        }
      }
    }
  }

  /** A failing item aborts the whole confirmation: no partial result escapes, and the
      error is the first failing item's. */
  lemma {:induction false} FirstFailureAborts(w: World, items: seq<PoiRow>, now: int, oracle: SourceOracle,
                                              queueOf: QueueOf, k: nat, wk: World)
    requires k < |items|
    requires ConfirmAll(w, items[..k], now, oracle, queueOf).Ok?
    requires wk == ConfirmAll(w, items[..k], now, oracle, queueOf).value.0
    requires Confirm(wk, items[k], queueOf(wk, items[k]), now, oracle).Err?
    decreases k
    ensures ConfirmAll(w, items, now, oracle, queueOf) == Err(Confirm(wk, items[k], queueOf(wk, items[k]), now, oracle).error)
  {
    if k == 0 {
      assert items[..0] == [];
    } else {
      var out := Confirm(w, items[0], queueOf(w, items[0]), now, oracle);
      assert items[..k][0] == items[0];
      assert items[..k][1..] == items[1..][..k - 1];
      FirstFailureAborts(out.value.world, items[1..], now, oracle, queueOf, k - 1, wk);
    }
  }

  /** Only the three validation failures of the confirmation become a validation error. */
  lemma ValidationErrorsOnlyForValueErrors(orders: map<int, seq<PoiRow>>, id: int, w: World, now: int,
                                           oracle: SourceOracle, queueOf: QueueOf)
    requires ConfirmPurchaseOrder(orders, id, w, now, oracle, queueOf).Err?
    ensures var e := ConfirmPurchaseOrder(orders, id, w, now, oracle, queueOf).error;
      (e.ConfirmRejected? ==> IsValueError(e.reason)) && (e.ConfirmRaised? ==> !IsValueError(e.reason))
  {
  }
}
