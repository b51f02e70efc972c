/** saleor/warehouse/queries.py: the "inventory ready" and "missing inventory" order
    filters, as predicates over the allocation rows and what is known about each
    purchase-order item behind an allocation source. */
module WarehouseQueries {
  import opened Wrappers
  import opened Statuses
  import opened WarehouseRecords
  import opened OrderModels

  /** What the filters read about one purchase-order item: the SQL sum of its receipt
      lines (None when it has none) and, per adjustment, whether it is processed. */
  datatype PoiFacts = PoiFacts(receivedTotal: Option<int>, adjustmentsProcessed: seq<bool>)

  type FactsOf = int -> PoiFacts

  predicate NotReceived(p: PoiFacts) {
    p.receivedTotal.None? || p.receivedTotal.value <= 0
  }

  /** The unprocessed-adjustment test with the join the ORM builds: the filter
      `adjustments__processed_at__isnull=True` is evaluated over a LEFT OUTER JOIN, so
      an item with no adjustment at all yields one row with a NULL `processed_at`. */
  predicate UnprocessedAsWritten(p: PoiFacts) {
    p.adjustmentsProcessed == [] || exists j :: 0 <= j < |p.adjustmentsProcessed| && !p.adjustmentsProcessed[j]
  }

  /** The test the docstring describes: some adjustment of the item is unprocessed. */
  predicate Unprocessed(p: PoiFacts) {
    exists j :: 0 <= j < |p.adjustmentsProcessed| && !p.adjustmentsProcessed[j]
  }

  /** The violation filter over one allocation, parameterised by the adjustment test. */
  predicate ViolatesWith(a: Allocation, owned: set<int>, facts: FactsOf, asWritten: bool) {
    ViolatesReadiness(a, owned)
    || (exists k :: 0 <= k < |a.sources| && NotReceived(facts(a.sources[k].poi)))
    || (exists k :: 0 <= k < |a.sources| &&
          (if asWritten then UnprocessedAsWritten(facts(a.sources[k].poi)) else Unprocessed(facts(a.sources[k].poi))))
  }

  predicate HasViolation(o: int, allocs: seq<Allocation>, owned: set<int>, facts: FactsOf, asWritten: bool) {
    exists i :: 0 <= i < |allocs| && allocs[i].order == o && ViolatesWith(allocs[i], owned, facts, asWritten)
  }

  predicate InventoryReadyWith(o: int, allocs: seq<Allocation>, owned: set<int>, facts: FactsOf, asWritten: bool) {
    HasAllocation(o, allocs) && !HasViolation(o, allocs, owned, facts, asWritten)
  }

  /** `filter_orders_with_inventory_ready`, keeping the queryset's order. */
  function FilterOrdersWithInventoryReady(orders: seq<int>, allocs: seq<Allocation>, owned: set<int>, facts: FactsOf, asWritten: bool)
    : (r: seq<int>)
    ensures forall o :: o in r <==> o in orders && InventoryReadyWith(o, allocs, owned, facts, asWritten)
    ensures |r| <= |orders|
  {
    if orders == [] then []
    else
      (if InventoryReadyWith(orders[0], allocs, owned, facts, asWritten) then [orders[0]] else [])
      + FilterOrdersWithInventoryReady(orders[1..], allocs, owned, facts, asWritten)
  }

  /** `get_orders_missing_inventory`: the orders with a violating allocation. */
  function GetOrdersMissingInventory(orders: seq<int>, allocs: seq<Allocation>, owned: set<int>, facts: FactsOf, asWritten: bool)
    : (r: seq<int>)
    ensures forall o :: o in r <==> o in orders && HasViolation(o, allocs, owned, facts, asWritten)
    ensures |r| <= |orders|
  {
    if orders == [] then []
    else
      (if HasViolation(orders[0], allocs, owned, facts, asWritten) then [orders[0]] else [])
      + GetOrdersMissingInventory(orders[1..], allocs, owned, facts, asWritten)
  }

  /** The two filters never select the same order. */
  lemma ReadyAndMissingDisjoint(orders: seq<int>, allocs: seq<Allocation>, owned: set<int>, facts: FactsOf, asWritten: bool, o: int)
    ensures !(o in FilterOrdersWithInventoryReady(orders, allocs, owned, facts, asWritten)
              && o in GetOrdersMissingInventory(orders, allocs, owned, facts, asWritten))
  {
  }

  /** They are inverses only on orders that have allocations: one with none is in
      neither, although the docstring calls one the inverse of the other. */
  lemma ReadyOrMissingIffAllocated(orders: seq<int>, allocs: seq<Allocation>, owned: set<int>, facts: FactsOf, asWritten: bool, o: int)
    requires o in orders
    ensures (o in FilterOrdersWithInventoryReady(orders, allocs, owned, facts, asWritten)
             || o in GetOrdersMissingInventory(orders, allocs, owned, facts, asWritten))
        <==> HasAllocation(o, allocs)
  {
    if HasViolation(o, allocs, owned, facts, asWritten) {
      var i :| 0 <= i < |allocs| && allocs[i].order == o && ViolatesWith(allocs[i], owned, facts, asWritten);
    }
  }

  /** As written, an allocation backed by a received item with no adjustments at all
      counts as a violation, so its order is never ready. */
  lemma NoAdjustmentsBlocksReadinessAsWritten(a: Allocation, owned: set<int>, facts: FactsOf)
    requires |a.sources| > 0 && facts(a.sources[0].poi).adjustmentsProcessed == []
    ensures ViolatesWith(a, owned, facts, true)
    ensures !InventoryReadyWith(a.order, [a], owned, facts, true)
  {
    assert HasViolation(a.order, [a], owned, facts, true) by {
      assert [a][0] == a;
    }
  }

  /** With the intended test, an owned, fully sourced allocation whose items are all
      received and have no adjustments makes its order ready. */
  lemma ReceivedWithoutAdjustmentsIsReady(a: Allocation, owned: set<int>, facts: FactsOf)
    requires a.stock.warehouse in owned && FullySourced(a)
    requires forall k :: 0 <= k < |a.sources| ==>
      !NotReceived(facts(a.sources[k].poi)) && facts(a.sources[k].poi).adjustmentsProcessed == []
    ensures InventoryReadyWith(a.order, [a], owned, facts, false)
  {
    assert [a][0].order == a.order;
  }

  /** The ready filter implies the order-model filter `ready_to_fulfill_with_inventory`
      for an UNCONFIRMED order, which does not look at receipts or adjustments. */
  lemma ReadyImpliesReadyToFulfill(o: int, allocs: seq<Allocation>, owned: set<int>, facts: FactsOf, asWritten: bool)
    requires InventoryReadyWith(o, allocs, owned, facts, asWritten)
    ensures ReadyToFulfillWithInventory(o, Unconfirmed, allocs, owned)
  {
  }
}
