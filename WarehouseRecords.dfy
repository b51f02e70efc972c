/** In-memory rows for stock, allocations and allocation sources: the records that
    the inventory, order and warehouse code reads through the ORM. The model of
    saleor/warehouse/models.py itself is not part of this project; only the fields the
    core reads are kept. */
module WarehouseRecords {
  import opened Wrappers
  import opened Sums

  /** A Stock row is identified by (warehouse, product variant). */
  datatype StockKey = StockKey(warehouse: int, variant: int)

  datatype Stock = Stock(quantity: int, quantityAllocated: int)

  /** An AllocationSource: units of one purchase-order item backing an allocation. */
  datatype Source = Source(poi: int, quantity: int)

  /** An Allocation of an order line against a stock row. `lineCreatedAt` is the
      creation time of its order line, the FIFO key of confirmation. */
  datatype Allocation = Allocation(
    order: int,
    line: int,
    lineCreatedAt: int,
    stock: StockKey,
    quantity: int,
    sources: seq<Source>)

  function SourceQuantities(srcs: seq<Source>): (r: seq<int>)
    ensures |r| == |srcs|
    ensures forall i :: 0 <= i < |srcs| ==> r[i] == srcs[i].quantity
  {
    if srcs == [] then [] else [srcs[0].quantity] + SourceQuantities(srcs[1..])
  }

  /** `Sum("allocation_sources__quantity")`: SQL gives NULL when there are no sources. */
  function TotalSourced(srcs: seq<Source>): (r: Option<int>)
    ensures r.None? <==> srcs == []
  {
    if srcs == [] then None else Some(SumInts(SourceQuantities(srcs)))
  }

  /** The allocation is fully backed: it has sources and they add up to its quantity. */
  predicate FullySourced(a: Allocation) {
    TotalSourced(a.sources) == Some(a.quantity)
  }
}
