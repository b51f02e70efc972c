/** saleor/warehouse/stock_utils.py: how much of an order line has been received into
    stock, and how much of it can still be fulfilled. */
module StockUtils {
  import opened Wrappers
  import opened Sums
  import opened WarehouseRecords

  /** `poi_received or 0`: the receipt total of the item behind a source. */
  function SourceReceived(s: Source, received: int -> Option<int>): int {
    var r := received(s.poi);
    if r.Some? then r.value else 0
  }

  function SourcesReceived(srcs: seq<Source>, received: int -> Option<int>): int {
    if srcs == [] then 0 else SourceReceived(srcs[0], received) + SourcesReceived(srcs[1..], received)
  }

  /** The allocations of the line, restricted to one warehouse when one is given. */
  predicate Counted(a: Allocation, warehouse: Option<int>) {
    warehouse.None? || a.stock.warehouse == warehouse.value
  }

  /** The reference sum: every source's full receipt total over the counted allocations. */
  function ReceivedQuantity(allocs: seq<Allocation>, warehouse: Option<int>, received: int -> Option<int>): int {
    if allocs == [] then 0
    else (if Counted(allocs[0], warehouse) then SourcesReceived(allocs[0].sources, received) else 0)
         + ReceivedQuantity(allocs[1..], warehouse, received)
  }

  lemma {:induction false} SourcesReceivedAppend(srcs: seq<Source>, s: Source, received: int -> Option<int>)
    ensures SourcesReceived(srcs + [s], received) == SourcesReceived(srcs, received) + SourceReceived(s, received)
  {
    if srcs == [] {
      assert srcs + [s] == [s];
    } else {
      assert (srcs + [s])[1..] == srcs[1..] + [s];
      SourcesReceivedAppend(srcs[1..], s, received);
    }
  }

  lemma {:induction false} ReceivedQuantityAppend(allocs: seq<Allocation>, a: Allocation, warehouse: Option<int>, received: int -> Option<int>)
    ensures ReceivedQuantity(allocs + [a], warehouse, received)
         == ReceivedQuantity(allocs, warehouse, received)
            + (if Counted(a, warehouse) then SourcesReceived(a.sources, received) else 0)
  {
    if allocs == [] {
      assert allocs + [a] == [a];
    } else {
      assert (allocs + [a])[1..] == allocs[1..] + [a];
      ReceivedQuantityAppend(allocs[1..], a, warehouse, received);
    }
  }

  /** `get_received_quantity_for_order_line`: the accumulating loop. `warehouse_id` is a
      UUID, so any given id is truthy. */
  method GetReceivedQuantityForOrderLine(allocs: seq<Allocation>, warehouse: Option<int>, received: int -> Option<int>)
    returns (total: int)
    ensures total == ReceivedQuantity(allocs, warehouse, received)
  {
    total := 0;
    var i := 0;
    while i < |allocs|
      invariant 0 <= i <= |allocs|
      invariant total == ReceivedQuantity(allocs[..i], warehouse, received)
    {
      var a := allocs[i];
      ReceivedQuantityAppend(allocs[..i], a, warehouse, received);
      assert allocs[..i + 1] == allocs[..i] + [a];
      if Counted(a, warehouse) {
        var sum := 0;
        var j := 0;
        while j < |a.sources|
          invariant 0 <= j <= |a.sources|
          invariant sum == SourcesReceived(a.sources[..j], received)
        {
          SourcesReceivedAppend(a.sources[..j], a.sources[j], received);
          assert a.sources[..j + 1] == a.sources[..j] + [a.sources[j]];
          var r := received(a.sources[j].poi);
          sum := sum + (if r.Some? then r.value else 0);
          j := j + 1;
        }
        assert a.sources[..j] == a.sources;
        total := total + sum;
      }
      i := i + 1;
    }
    assert allocs[..i] == allocs;
  }

  /** Receipts are not capped at the allocated quantity: an allocation with one source
      counts the item's whole receipt total, whatever it is, so one that received more
      than the allocation counts more than the allocation. */
  lemma ReceivedNotCapped(a: Allocation, t: int, received: int -> Option<int>)
    requires |a.sources| == 1 && received(a.sources[0].poi) == Some(t)
    ensures ReceivedQuantity([a], None, received) == t
    ensures t > a.quantity ==> ReceivedQuantity([a], None, received) > a.quantity
  {
    assert a.sources[1..] == [];
    assert SourcesReceived(a.sources, received) == t;
    assert [a][1..] == [];
  }

  /** Restricting to a warehouse drops the allocations held elsewhere. */
  lemma {:induction false} WarehouseFilterRestricts(allocs: seq<Allocation>, w: int, received: int -> Option<int>)
    requires forall i :: 0 <= i < |allocs| ==> allocs[i].stock.warehouse != w
    ensures ReceivedQuantity(allocs, Some(w), received) == 0
  {
    if allocs != [] {
      WarehouseFilterRestricts(allocs[1..], w, received);
    }
  }

  /** With non-negative receipt totals the received quantity is non-negative. */
  lemma {:induction false} ReceivedNonNegative(allocs: seq<Allocation>, warehouse: Option<int>, received: int -> Option<int>)
    requires forall p :: received(p).Some? ==> received(p).value >= 0
    ensures ReceivedQuantity(allocs, warehouse, received) >= 0
  {
    if allocs != [] {
      SourcesNonNegative(allocs[0].sources, received);
      ReceivedNonNegative(allocs[1..], warehouse, received);
    }
  }

  lemma {:induction false} SourcesNonNegative(srcs: seq<Source>, received: int -> Option<int>)
    requires forall p :: received(p).Some? ==> received(p).value >= 0
    ensures SourcesReceived(srcs, received) >= 0
  {
    if srcs != [] {
      SourcesNonNegative(srcs[1..], received);
    }
  }

  /** `get_fulfillable_quantity_for_order_line`, given the received quantity and the
      quantities of the line's fulfillment lines. */
  function FulfillableQuantity(ordered: int, receivedQty: int, fulfilled: seq<int>): (r: int)
    ensures r >= 0
    ensures r == 0 || r == Min(receivedQty, ordered) - SumInts(fulfilled)
    ensures r >= Min(receivedQty, ordered) - SumInts(fulfilled)
  {
    Max(0, Min(receivedQty, ordered) - SumInts(fulfilled))
  }

  /** Nothing can be fulfilled beyond what was received or ordered, net of what was. */
  lemma FulfillableBounded(ordered: int, receivedQty: int, fulfilled: seq<int>)
    requires FulfillableQuantity(ordered, receivedQty, fulfilled) > 0
    ensures FulfillableQuantity(ordered, receivedQty, fulfilled) + SumInts(fulfilled) <= receivedQty
    ensures FulfillableQuantity(ordered, receivedQty, fulfilled) + SumInts(fulfilled) <= ordered
  {
  }
}
