/** saleor/inventory/stock_management.py: confirming a purchase-order item moves its
    stock from the supplier (non-owned) warehouse to the owned one and re-homes the
    allocations waiting at the supplier, first in first out; receiving records what
    arrived. The database is a `World` value; the transaction is the `Result`: an
    error leaves the caller's world as it was. */
module StockManagement {
  import opened Wrappers
  import opened Statuses
  import opened Sums
  import opened WarehouseRecords
  import opened OrderModels

  /** The purchase-order item fields these operations read and write. `receiptLines`
      are the quantities of its receipt lines. */
  datatype PoiRow = PoiRow(
    status: PoiStatus,
    confirmedAt: Option<int>,
    sourceWarehouse: int,
    destinationWarehouse: int,
    variant: int,
    quantityOrdered: nat,
    receiptLines: seq<int>)

  /** The rows confirmation touches: which warehouses are owned, stock rows, allocations
      by id, order statuses by id, and the next allocation id the database hands out. */
  datatype World = World(
    owned: set<int>,
    stocks: map<StockKey, Stock>,
    allocations: map<int, Allocation>,
    orders: map<int, OrderStatus>,
    nextAllocationId: int)

  datatype ConfirmError =
    | InvalidPurchaseOrderItemStatus(expected: PoiStatus)
    | SourceStockDoesNotExist
    | SourceWarehouseOwned
    | DestinationWarehouseNotOwned
    | InsufficientStockAtSource(need: int, have: int)
    | InsufficientStock

  /** `allocate_sources` (saleor/warehouse/management.py is not part of this model): the
      sources it attaches to an allocation now at the owned stock, or None when it
      raises InsufficientStock. */
  type SourceOracle = Allocation -> Option<seq<Source>>

  /** One allocation of the FIFO queryset, as loaded before the loop. */
  datatype Queued = Queued(id: int, alloc: Allocation)

  datatype MoveState = MoveState(src: Stock, dst: Stock, allocs: map<int, Allocation>, nextId: int)

  datatype ConfirmOutcome = ConfirmOutcome(world: World, poi: PoiRow, source: Stock)

  /** Unallocated units of an owned stock row. */
  function Room(s: Stock): int {
    s.quantity - s.quantityAllocated
  }

  /** The allocation loop: an allocation that fits is moved whole and its sources are
      attached; the first that does not fit is split, the fitting part becoming a new
      allocation at the destination, and the loop stops. Every allocation at the source
      stock takes part; saleor/inventory/tests/test_stock_management.py:809-987 expects
      only those linked to a purchase-order request to move, and the code does not
      make that distinction. */
  function MoveAllocations(s: MoveState, queue: seq<Queued>, destKey: StockKey, oracle: SourceOracle)
    : Result<MoveState, ConfirmError>
    decreases |queue|
  {
    if queue == [] then Ok(s)
    else
      var id := queue[0].id;
      var a := queue[0].alloc;
      if Room(s.dst) >= a.quantity then
        var moved := a.(stock := destKey);
        match oracle(moved)
        case None => Err(InsufficientStock)
        case Some(srcs) => MoveAllocations(MoveWhole(s, queue[0], destKey, srcs), queue[1..], destKey, oracle)
      else
        var m := Min(Room(s.dst), a.quantity);
        var piece := Allocation(a.order, a.line, a.lineCreatedAt, destKey, m, []);
        match oracle(piece)
        case None => Err(InsufficientStock)
        case Some(srcs) =>
          var withPiece := s.allocs[s.nextId := piece.(sources := srcs)];
          var rest := a.quantity - m;
          Ok(MoveState(
            s.src.(quantityAllocated := s.src.quantityAllocated - m),
            s.dst.(quantityAllocated := s.dst.quantityAllocated + m),
            if rest == 0 then withPiece - {id} else withPiece[id := a.(quantity := rest)],
            s.nextId + 1))
  }

  /** One whole move: the allocation is re-pointed to the destination, gains the
      attached sources, and its units change sides. */
  function MoveWhole(s: MoveState, q: Queued, destKey: StockKey, srcs: seq<Source>): MoveState {
    MoveState(
      s.src.(quantityAllocated := s.src.quantityAllocated - q.alloc.quantity),
      s.dst.(quantityAllocated := s.dst.quantityAllocated + q.alloc.quantity),
      s.allocs[q.id := q.alloc.(stock := destKey, sources := q.alloc.sources + srcs)],
      s.nextId)
  }

  /** How many leading allocations of the queue fit whole into `room`. */
  function WholeCount(room: int, queue: seq<Queued>): (k: nat)
    ensures k <= |queue|
    decreases |queue|
  {
    if queue == [] || room < queue[0].alloc.quantity then 0
    else 1 + WholeCount(room - queue[0].alloc.quantity, queue[1..])
  }

  function TotalQuantity(queue: seq<Queued>): int {
    if queue == [] then 0 else queue[0].alloc.quantity + TotalQuantity(queue[1..])
  }

  /** The queue is what the FIFO queryset yields from the state: distinct ids the
      database already issued, each mapped to the loaded allocation. */
  predicate QueueLoaded(s: MoveState, queue: seq<Queued>) {
    (forall i, j :: 0 <= i < j < |queue| ==> queue[i].id != queue[j].id)
    && (forall i :: 0 <= i < |queue| ==> queue[i].id < s.nextId)
    && (forall i :: 0 <= i < |queue| ==> queue[i].id in s.allocs && s.allocs[queue[i].id] == queue[i].alloc)
  }

  /** Every unit taken off the source's allocated count lands on the destination's, and
      physical quantities are not touched by the loop. */
  lemma {:induction false} MoveConserves(s: MoveState, queue: seq<Queued>, destKey: StockKey, oracle: SourceOracle)
    requires MoveAllocations(s, queue, destKey, oracle).Ok?
    ensures var t := MoveAllocations(s, queue, destKey, oracle).value;
      t.src.quantityAllocated + t.dst.quantityAllocated == s.src.quantityAllocated + s.dst.quantityAllocated
      && t.src.quantity == s.src.quantity && t.dst.quantity == s.dst.quantity
    decreases |queue|
  {
    if queue != [] {
      var a := queue[0].alloc;
      if Room(s.dst) >= a.quantity {
        var srcs := oracle(a.(stock := destKey)).value;
        MoveConserves(
          MoveWhole(s, queue[0], destKey, srcs),
          queue[1..], destKey, oracle);
      }
    }
  }

  /** The destination is never over-allocated by the loop. */
  lemma {:induction false} MoveKeepsDestinationCovered(s: MoveState, queue: seq<Queued>, destKey: StockKey, oracle: SourceOracle)
    requires s.dst.quantityAllocated <= s.dst.quantity
    requires MoveAllocations(s, queue, destKey, oracle).Ok?
    ensures var t := MoveAllocations(s, queue, destKey, oracle).value;
      t.dst.quantityAllocated <= t.dst.quantity
    decreases |queue|
  {
    if queue != [] {
      var a := queue[0].alloc;
      if Room(s.dst) >= a.quantity {
        var srcs := oracle(a.(stock := destKey)).value;
        MoveKeepsDestinationCovered(
          MoveWhole(s, queue[0], destKey, srcs),
          queue[1..], destKey, oracle);
      }
    }
  }

  /** Allocations that are not in the queue and were issued before are left alone. */
  lemma {:induction false} MoveFrame(s: MoveState, queue: seq<Queued>, destKey: StockKey, oracle: SourceOracle, id: int)
    requires MoveAllocations(s, queue, destKey, oracle).Ok?
    requires id in s.allocs && id < s.nextId
    requires forall i :: 0 <= i < |queue| ==> queue[i].id != id
    ensures var t := MoveAllocations(s, queue, destKey, oracle).value;
      id in t.allocs && t.allocs[id] == s.allocs[id] && t.nextId >= s.nextId
    decreases |queue|
  {
    if queue != [] {
      var a := queue[0].alloc;
      if Room(s.dst) >= a.quantity {
        var srcs := oracle(a.(stock := destKey)).value;
        MoveFrame(
          MoveWhole(s, queue[0], destKey, srcs),
          queue[1..], destKey, oracle, id);
      }
    }
  }

  /** A split never leaves a zero remainder, so the loop's delete branch is unreachable. */
  lemma SplitRemainderPositive(room: int, quantity: int)
    requires room < quantity
    ensures quantity - Min(room, quantity) > 0
  {
  }

  lemma QueueLoadedAfterWhole(s: MoveState, queue: seq<Queued>, destKey: StockKey, srcs: seq<Source>)
    requires queue != [] && QueueLoaded(s, queue)
    ensures QueueLoaded(MoveWhole(s, queue[0], destKey, srcs), queue[1..])
  {
    var s1 := MoveWhole(s, queue[0], destKey, srcs);
    var q1 := queue[1..];
    forall i | 0 <= i < |q1|
      ensures q1[i].id in s1.allocs && s1.allocs[q1[i].id] == q1[i].alloc
    {
      assert q1[i] == queue[i + 1];
    }
  }

  /** FIFO, first part (k the number of leading allocations that fit whole): those k
      move to the destination with their quantity, and at most one allocation is
      created, exactly when some allocation did not fit. */
  lemma {:induction false} MoveLeadingWhole(s: MoveState, queue: seq<Queued>, destKey: StockKey, oracle: SourceOracle)
    requires QueueLoaded(s, queue)
    requires MoveAllocations(s, queue, destKey, oracle).Ok?
    ensures var t := MoveAllocations(s, queue, destKey, oracle).value;
      var k := WholeCount(Room(s.dst), queue);
      (forall i :: 0 <= i < k ==>
         queue[i].id in t.allocs && t.allocs[queue[i].id].stock == destKey
         && t.allocs[queue[i].id].quantity == queue[i].alloc.quantity)
      && t.nextId == s.nextId + (if k < |queue| then 1 else 0)
    decreases |queue|
  {
    if queue != [] && Room(s.dst) >= queue[0].alloc.quantity {
      var srcs := oracle(queue[0].alloc.(stock := destKey)).value;
      var s1 := MoveWhole(s, queue[0], destKey, srcs);
      QueueLoadedAfterWhole(s, queue, destKey, srcs);
      MoveLeadingWhole(s1, queue[1..], destKey, oracle);
      MoveFrame(s1, queue[1..], destKey, oracle, queue[0].id);
      assert Room(s1.dst) == Room(s.dst) - queue[0].alloc.quantity;
    }
  }

  /** FIFO, second part: allocations after the split one are untouched. */
  lemma {:induction false} MoveTailUntouched(s: MoveState, queue: seq<Queued>, destKey: StockKey, oracle: SourceOracle)
    requires QueueLoaded(s, queue)
    requires MoveAllocations(s, queue, destKey, oracle).Ok?
    ensures var t := MoveAllocations(s, queue, destKey, oracle).value;
      var k := WholeCount(Room(s.dst), queue);
      forall i :: k < i < |queue| ==> queue[i].id in t.allocs && t.allocs[queue[i].id] == queue[i].alloc
    decreases |queue|
  {
    if queue != [] {
      if Room(s.dst) >= queue[0].alloc.quantity {
        var srcs := oracle(queue[0].alloc.(stock := destKey)).value;
        var s1 := MoveWhole(s, queue[0], destKey, srcs);
        QueueLoadedAfterWhole(s, queue, destKey, srcs);
        MoveTailUntouched(s1, queue[1..], destKey, oracle);
        assert Room(s1.dst) == Room(s.dst) - queue[0].alloc.quantity;
        var t := MoveAllocations(s, queue, destKey, oracle).value;
        forall i | WholeCount(Room(s.dst), queue) < i < |queue|
          ensures queue[i].id in t.allocs && t.allocs[queue[i].id] == queue[i].alloc
        {
          assert queue[1..][i - 1] == queue[i];
        }
      } else {
        var t := MoveAllocations(s, queue, destKey, oracle).value;
        forall i | 0 < i < |queue|
          ensures queue[i].id in t.allocs && t.allocs[queue[i].id] == queue[i].alloc
        {
          assert queue[i].id != queue[0].id;
        }
      }
    }
  }

  /** FIFO, third part: the split allocation (the k-th) keeps its place and the unit
      count it did not move, a new allocation at the destination takes the rest of its
      line's units, and the destination ends fully allocated. */
  lemma {:induction false} MoveSplitFillsDestination(s: MoveState, queue: seq<Queued>, destKey: StockKey, oracle: SourceOracle)
    requires QueueLoaded(s, queue)
    requires MoveAllocations(s, queue, destKey, oracle).Ok?
    requires WholeCount(Room(s.dst), queue) < |queue|
    ensures var t := MoveAllocations(s, queue, destKey, oracle).value;
      var k := WholeCount(Room(s.dst), queue);
      t.dst.quantityAllocated == t.dst.quantity
      && queue[k].id in t.allocs
      && t.allocs[queue[k].id].stock == queue[k].alloc.stock
      && t.nextId - 1 in t.allocs
      && t.allocs[t.nextId - 1].stock == destKey
      && t.allocs[t.nextId - 1].line == queue[k].alloc.line
      && t.allocs[t.nextId - 1].quantity + t.allocs[queue[k].id].quantity == queue[k].alloc.quantity
    decreases |queue|
  {
    if Room(s.dst) >= queue[0].alloc.quantity {
      var srcs := oracle(queue[0].alloc.(stock := destKey)).value;
      var s1 := MoveWhole(s, queue[0], destKey, srcs);
      QueueLoadedAfterWhole(s, queue, destKey, srcs);
      assert Room(s1.dst) == Room(s.dst) - queue[0].alloc.quantity;
      MoveSplitFillsDestination(s1, queue[1..], destKey, oracle);
      assert queue[1..][WholeCount(Room(s1.dst), queue[1..])] == queue[WholeCount(Room(s.dst), queue)];
    } else {
      SplitRemainderPositive(Room(s.dst), queue[0].alloc.quantity);
      assert queue[0].id < s.nextId;
    }
  }

  /** When every allocation fits, all of their units are moved. */
  lemma {:induction false} MoveAllFit(s: MoveState, queue: seq<Queued>, destKey: StockKey, oracle: SourceOracle)
    requires MoveAllocations(s, queue, destKey, oracle).Ok?
    requires WholeCount(Room(s.dst), queue) == |queue|
    ensures MoveAllocations(s, queue, destKey, oracle).value.dst.quantityAllocated
         == s.dst.quantityAllocated + TotalQuantity(queue)
    decreases |queue|
  {
    if queue != [] {
      var srcs := oracle(queue[0].alloc.(stock := destKey)).value;
      var s1 := MoveWhole(s, queue[0], destKey, srcs);
      assert Room(s1.dst) == Room(s.dst) - queue[0].alloc.quantity;
      MoveAllFit(s1, queue[1..], destKey, oracle);
    }
  }

  function QueueIds(queue: seq<Queued>): (ids: seq<int>)
    ensures |ids| == |queue| && forall i :: 0 <= i < |queue| ==> ids[i] == queue[i].id
  {
    seq(|queue|, i requires 0 <= i < |queue| => queue[i].id)
  }

  /** `order_by("order_line__created_at")` over the source stock's allocations, and the
      bookkeeping facts the database keeps: issued ids are below the next id. */
  predicate FifoQueue(w: World, key: StockKey, queue: seq<Queued>) {
    (forall i, j :: 0 <= i < j < |queue| ==> queue[i].id != queue[j].id)
    && (forall i :: 0 <= i < |queue| ==>
          queue[i].id in w.allocations && w.allocations[queue[i].id] == queue[i].alloc
          && queue[i].alloc.stock == key)
    && (forall id :: id in w.allocations && w.allocations[id].stock == key ==> id in QueueIds(queue))
    && (forall i, j :: 0 <= i < j < |queue| ==> queue[i].alloc.lineCreatedAt <= queue[j].alloc.lineCreatedAt)
    && (forall id :: id in w.allocations ==> id < w.nextAllocationId)
  }

  /** The readiness part of `can_confirm_order` (read as ready_to_fulfill_with_inventory):
      the order has an allocation and none of its allocations violates. */
  predicate InventoryReady(w: World, o: int) {
    (exists id :: id in w.allocations && w.allocations[id].order == o)
    && forall id :: id in w.allocations && w.allocations[id].order == o ==> !ViolatesReadiness(w.allocations[id], w.owned)
  }

  /** `can_confirm_order` lives in saleor/warehouse/management.py, which is not part of this
      model. It is read as `ready_to_fulfill_with_inventory` (saleor/order/models.py:100-139):
      the order is UNCONFIRMED and inventory-ready. */
  predicate CanConfirmOrder(w: World, o: int) {
    o in w.orders && w.orders[o] == Unconfirmed && InventoryReady(w, o)
  }

  /** The UNCONFIRMED orders owning an allocation at the source, collected before the move. */
  function OrdersToCheck(orders: map<int, OrderStatus>, queue: seq<Queued>): set<int> {
    set i | 0 <= i < |queue| && queue[i].alloc.order in orders && orders[queue[i].alloc.order] == Unconfirmed
      :: queue[i].alloc.order
  }

  /** The auto-confirm pass: each collected order that can be confirmed becomes UNFULFILLED. */
  function AutoConfirm(w: World, toCheck: set<int>): World {
    w.(orders := map o | o in w.orders :: if o in toCheck && CanConfirmOrder(w, o) then Unfulfilled else w.orders[o])
  }

  function SourceKey(poi: PoiRow): StockKey {
    StockKey(poi.sourceWarehouse, poi.variant)
  }

  function DestinationKey(poi: PoiRow): StockKey {
    StockKey(poi.destinationWarehouse, poi.variant)
  }

  /** The destination row `get_or_create` yields. */
  function DestinationStock(w: World, poi: PoiRow): Stock {
    if DestinationKey(poi) in w.stocks then w.stocks[DestinationKey(poi)] else Stock(0, 0)
  }

  /** Physical stock leaves the source: all of it when the order exceeds the free units. */
  function SourceAfterTake(src: Stock, quantity: int): Stock {
    if quantity <= src.quantity then src.(quantity := src.quantity - quantity) else src.(quantity := 0)
  }

  /** The state the allocation loop starts from: the physical move already applied. */
  function MoveStart(w: World, poi: PoiRow): MoveState
    requires SourceKey(poi) in w.stocks
  {
    var dst := DestinationStock(w, poi);
    MoveState(
      SourceAfterTake(w.stocks[SourceKey(poi)], poi.quantityOrdered),
      dst.(quantity := dst.quantity + poi.quantityOrdered),
      w.allocations, w.nextAllocationId)
  }

  /** The loop fails only when `allocate_sources` raises InsufficientStock. */
  lemma {:induction false} MoveFailsOnlyForSources(s: MoveState, queue: seq<Queued>, destKey: StockKey, oracle: SourceOracle)
    requires MoveAllocations(s, queue, destKey, oracle).Err?
    ensures MoveAllocations(s, queue, destKey, oracle).error == InsufficientStock
    decreases |queue|
  {
    if queue != [] && Room(s.dst) >= queue[0].alloc.quantity {
      var r := oracle(queue[0].alloc.(stock := destKey));
      if r.Some? {
        MoveFailsOnlyForSources(MoveWhole(s, queue[0], destKey, r.value), queue[1..], destKey, oracle);
      }
    }
  }

  /** `confirm_purchase_order_item` as a function of the world it starts from. */
  function Confirm(w: World, poi: PoiRow, queue: seq<Queued>, now: int, oracle: SourceOracle)
    : Result<ConfirmOutcome, ConfirmError>
  {
    if poi.status != PoiDraft then Err(InvalidPurchaseOrderItemStatus(PoiDraft))
    else if SourceKey(poi) !in w.stocks then Err(SourceStockDoesNotExist)
    else
      var src := w.stocks[SourceKey(poi)];
      var q := poi.quantityOrdered;
      if poi.sourceWarehouse in w.owned then Err(SourceWarehouseOwned)
      else if poi.destinationWarehouse !in w.owned then Err(DestinationWarehouseNotOwned)
      else if q > src.quantity + src.quantityAllocated then
        Err(InsufficientStockAtSource(q, src.quantity + src.quantityAllocated))
      else
        match MoveAllocations(MoveStart(w, poi), queue, DestinationKey(poi), oracle)
        case Err(e) => Err(e)
        case Ok(m) =>
          var moved := w.(
            stocks := w.stocks[SourceKey(poi) := m.src][DestinationKey(poi) := m.dst],
            allocations := m.allocs,
            nextAllocationId := m.nextId);
          Ok(ConfirmOutcome(
            AutoConfirm(moved, OrdersToCheck(w.orders, queue)),
            poi.(status := PoiConfirmed, confirmedAt := Some(now)),
            m.src))
  }

  /** The loop collecting `orders_to_check`; the Python set is kept as a sequence
      without repetitions, in first-seen order. */
  method CollectOrdersToCheck(orders: map<int, OrderStatus>, queue: seq<Queued>) returns (toCheck: seq<int>)
    ensures forall i, j :: 0 <= i < j < |toCheck| ==> toCheck[i] != toCheck[j]
    ensures forall o :: o in toCheck <==> o in OrdersToCheck(orders, queue)
  {
    toCheck := [];
    var i := 0;
    while i < |queue|
      invariant 0 <= i <= |queue|
      invariant forall a, b :: 0 <= a < b < |toCheck| ==> toCheck[a] != toCheck[b]
      invariant forall o :: o in toCheck <==> o in OrdersToCheck(orders, queue[..i])
    {
      var o := queue[i].alloc.order;
      assert queue[..i + 1][i] == queue[i];
      assert forall j :: 0 <= j < i ==> queue[..i + 1][j] == queue[..i][j];
      if o in orders && orders[o] == Unconfirmed && o !in toCheck {
        toCheck := toCheck + [o];
      }
      i := i + 1;
    }
    assert queue[..i] == queue;
  }

  /** The allocation loop, with its early exit at the first split. */
  method MoveAllocationsLoop(s: MoveState, queue: seq<Queued>, dstKey: StockKey, oracle: SourceOracle)
    returns (r: Result<MoveState, ConfirmError>)
    ensures r == MoveAllocations(s, queue, dstKey, oracle)
  {
    var source := s.src;
    var destination := s.dst;
    var allocs := s.allocs;
    var nextId := s.nextId;
    var k := 0;
    while k < |queue|
      invariant 0 <= k <= |queue|
      invariant MoveAllocations(s, queue, dstKey, oracle)
             == MoveAllocations(MoveState(source, destination, allocs, nextId), queue[k..], dstKey, oracle)
    {
      var id := queue[k].id;
      var allocation := queue[k].alloc;
      var available := destination.quantity - destination.quantityAllocated;
      ghost var st := MoveState(source, destination, allocs, nextId);
      if available >= allocation.quantity {
        var moved := allocation.(stock := dstKey);
        var attached := oracle(moved);
        MoveWholeStep(st, queue, k, dstKey, oracle);
        if attached.None? {
          return Err(InsufficientStock);
        }
        allocs := allocs[id := moved.(sources := moved.sources + attached.value)];
        destination := destination.(quantityAllocated := destination.quantityAllocated + allocation.quantity);
        source := source.(quantityAllocated := source.quantityAllocated - allocation.quantity);
        assert MoveState(source, destination, allocs, nextId) == MoveWhole(st, queue[k], dstKey, attached.value);
      } else {
        var moveQuantity := Min(available, allocation.quantity);
        var piece := Allocation(allocation.order, allocation.line, allocation.lineCreatedAt, dstKey, moveQuantity, []);
        var attached := oracle(piece);
        MoveSplitStep(st, queue, k, dstKey, oracle, piece);
        if attached.None? {
          return Err(InsufficientStock);
        }
        allocs := allocs[nextId := piece.(sources := attached.value)];
        nextId := nextId + 1;
        destination := destination.(quantityAllocated := destination.quantityAllocated + moveQuantity);
        source := source.(quantityAllocated := source.quantityAllocated - moveQuantity);
        var remaining := allocation.quantity - moveQuantity;
        if remaining == 0 {
          allocs := allocs - {id};
        } else {
          allocs := allocs[id := allocation.(quantity := remaining)];
        }
        return Ok(MoveState(source, destination, allocs, nextId));
      }
      k := k + 1;
    }
    return Ok(MoveState(source, destination, allocs, nextId));
  }

  /** The loop's step for an allocation that fits whole. */
  lemma MoveWholeStep(st: MoveState, queue: seq<Queued>, k: nat, dstKey: StockKey, oracle: SourceOracle)
    requires k < |queue| && Room(st.dst) >= queue[k].alloc.quantity
    ensures oracle(queue[k].alloc.(stock := dstKey)).None? ==>
      MoveAllocations(st, queue[k..], dstKey, oracle) == Err(InsufficientStock)
    ensures oracle(queue[k].alloc.(stock := dstKey)).Some? ==>
      MoveAllocations(st, queue[k..], dstKey, oracle)
      == MoveAllocations(MoveWhole(st, queue[k], dstKey, oracle(queue[k].alloc.(stock := dstKey)).value), queue[k + 1..], dstKey, oracle)
  {
    assert queue[k..][0] == queue[k] && queue[k..][1..] == queue[k + 1..];
  }

  /** The loop's last step, at the first allocation that does not fit. */
  lemma MoveSplitStep(st: MoveState, queue: seq<Queued>, k: nat, dstKey: StockKey, oracle: SourceOracle, piece: Allocation)
    requires k < |queue| && Room(st.dst) < queue[k].alloc.quantity
    requires piece == Allocation(queue[k].alloc.order, queue[k].alloc.line, queue[k].alloc.lineCreatedAt, dstKey,
                                 Min(Room(st.dst), queue[k].alloc.quantity), [])
    ensures oracle(piece).None? ==> MoveAllocations(st, queue[k..], dstKey, oracle) == Err(InsufficientStock)
    ensures oracle(piece).Some? ==>
      var m := Min(Room(st.dst), queue[k].alloc.quantity);
      var withPiece := st.allocs[st.nextId := piece.(sources := oracle(piece).value)];
      var rest := queue[k].alloc.quantity - m;
      MoveAllocations(st, queue[k..], dstKey, oracle) == Ok(MoveState(
        st.src.(quantityAllocated := st.src.quantityAllocated - m),
        st.dst.(quantityAllocated := st.dst.quantityAllocated + m),
        if rest == 0 then withPiece - {queue[k].id} else withPiece[queue[k].id := queue[k].alloc.(quantity := rest)],
        st.nextId + 1))
  {
    assert queue[k..][0] == queue[k];
  }

  /** The auto-confirm loop over the collected orders; the database is re-read for
      each order, and an earlier order's new status does not affect a later one. */
  method AutoConfirmLoop(moved: World, toCheck: seq<int>, ghost checkSet: set<int>) returns (orders: map<int, OrderStatus>)
    requires forall i, j :: 0 <= i < j < |toCheck| ==> toCheck[i] != toCheck[j]
    requires forall o :: o in toCheck <==> o in checkSet
    ensures orders == AutoConfirm(moved, checkSet).orders
  {
    orders := moved.orders;
    var i := 0;
    while i < |toCheck|
      invariant 0 <= i <= |toCheck|
      invariant orders.Keys == moved.orders.Keys
      invariant forall o :: o in moved.orders ==>
        orders[o] == if o in toCheck[..i] && CanConfirmOrder(moved, o) then Unfulfilled else moved.orders[o]
    {
      var o := toCheck[i];
      assert o !in toCheck[..i];
      assert CanConfirmOrder(moved.(orders := orders), o) == CanConfirmOrder(moved, o);
      if CanConfirmOrder(moved.(orders := orders), o) {
        orders := orders[o := Unfulfilled];
      }
      assert toCheck[..i + 1] == toCheck[..i] + [o];
      i := i + 1;
    }
    assert toCheck[..i] == toCheck;
    AutoConfirmOrders(moved, toCheck, checkSet, orders);
  }

  /** The statuses the loop leaves are those of `AutoConfirm`. */
  lemma AutoConfirmOrders(moved: World, toCheck: seq<int>, checkSet: set<int>, orders: map<int, OrderStatus>)
    requires forall o :: o in toCheck <==> o in checkSet
    requires orders.Keys == moved.orders.Keys
    requires forall o :: o in moved.orders ==>
      orders[o] == if o in toCheck && CanConfirmOrder(moved, o) then Unfulfilled else moved.orders[o]
    ensures orders == AutoConfirm(moved, checkSet).orders
  {
    var expected := AutoConfirm(moved, checkSet).orders;
    assert orders.Keys == expected.Keys;
    assert forall o :: o in orders ==> orders[o] == expected[o];
  }

  /** The imperative confirmation: the checks, then the collection loop, the physical
      move, the allocation loop and the auto-confirm loop. */
  method ConfirmPurchaseOrderItem(w: World, poi: PoiRow, queue: seq<Queued>, now: int, oracle: SourceOracle)
    returns (r: Result<ConfirmOutcome, ConfirmError>)
    ensures r == Confirm(w, poi, queue, now, oracle)
  {
    if poi.status != PoiDraft {
      return Err(InvalidPurchaseOrderItemStatus(PoiDraft));
    }
    var srcKey := SourceKey(poi);
    var dstKey := DestinationKey(poi);
    if srcKey !in w.stocks {
      return Err(SourceStockDoesNotExist);
    }
    var source := w.stocks[srcKey];
    var destination := if dstKey in w.stocks then w.stocks[dstKey] else Stock(0, 0);
    var quantity := poi.quantityOrdered;
    if poi.sourceWarehouse in w.owned {
      return Err(SourceWarehouseOwned);
    }
    if poi.destinationWarehouse !in w.owned {
      return Err(DestinationWarehouseNotOwned);
    }
    if quantity > source.quantity + source.quantityAllocated {
      return Err(InsufficientStockAtSource(quantity, source.quantity + source.quantityAllocated));
    }
    var toCheck := CollectOrdersToCheck(w.orders, queue);
    if quantity <= source.quantity {
      source := source.(quantity := source.quantity - quantity);
    } else {
      source := source.(quantity := 0);
    }
    destination := destination.(quantity := destination.quantity + quantity);
    var m := MoveAllocationsLoop(MoveState(source, destination, w.allocations, w.nextAllocationId), queue, dstKey, oracle);
    if m.Err? {
      return Err(m.error);
    }
    var moved := w.(
      stocks := w.stocks[srcKey := m.value.src][dstKey := m.value.dst],
      allocations := m.value.allocs,
      nextAllocationId := m.value.nextId);
    var orders := AutoConfirmLoop(moved, toCheck, OrdersToCheck(w.orders, queue));
    return Ok(ConfirmOutcome(moved.(orders := orders), poi.(status := PoiConfirmed, confirmedAt := Some(now)), m.value.src));
  }

  /** Only a DRAFT item can be confirmed. */
  lemma ConfirmRequiresDraft(w: World, poi: PoiRow, queue: seq<Queued>, now: int, oracle: SourceOracle)
    ensures Confirm(w, poi, queue, now, oracle) == Err(InvalidPurchaseOrderItemStatus(PoiDraft))
        <==> poi.status != PoiDraft
  {
    if poi.status == PoiDraft && SourceKey(poi) in w.stocks
       && MoveAllocations(MoveStart(w, poi), queue, DestinationKey(poi), oracle).Err? {
      MoveFailsOnlyForSources(MoveStart(w, poi), queue, DestinationKey(poi), oracle);
    }
  }

  /** The three validation rules: past them only the source oracle can still fail. */
  lemma ConfirmValidation(w: World, poi: PoiRow, queue: seq<Queued>, now: int, oracle: SourceOracle)
    requires poi.status == PoiDraft && SourceKey(poi) in w.stocks
    ensures var r := Confirm(w, poi, queue, now, oracle);
      var src := w.stocks[SourceKey(poi)];
      (r.Ok? || r.error == InsufficientStock)
      <==> (poi.sourceWarehouse !in w.owned && poi.destinationWarehouse in w.owned
            && poi.quantityOrdered <= src.quantity + src.quantityAllocated)
  {
    if MoveAllocations(MoveStart(w, poi), queue, DestinationKey(poi), oracle).Err? {
      MoveFailsOnlyForSources(MoveStart(w, poi), queue, DestinationKey(poi), oracle);
    }
  }

  /** Physical stock: the destination gains exactly the ordered quantity, the source
      loses it, dropping to 0 when it had fewer free units; their allocated counts
      only change sides; and the item ends CONFIRMED at `now`. */
  lemma ConfirmMovesStock(w: World, poi: PoiRow, queue: seq<Queued>, now: int, oracle: SourceOracle)
    requires Confirm(w, poi, queue, now, oracle).Ok?
    ensures var out := Confirm(w, poi, queue, now, oracle).value;
      var src := w.stocks[SourceKey(poi)];
      var dst := DestinationStock(w, poi);
      var q := poi.quantityOrdered;
      SourceKey(poi) in out.world.stocks && DestinationKey(poi) in out.world.stocks
      && out.world.stocks[DestinationKey(poi)].quantity == dst.quantity + q
      && out.world.stocks[SourceKey(poi)].quantity == (if q <= src.quantity then src.quantity - q else 0)
      && out.world.stocks[SourceKey(poi)].quantityAllocated + out.world.stocks[DestinationKey(poi)].quantityAllocated
         == src.quantityAllocated + dst.quantityAllocated
      && out.source == out.world.stocks[SourceKey(poi)]
      && out.poi == poi.(status := PoiConfirmed, confirmedAt := Some(now))
      && (forall k :: k in w.stocks && k != SourceKey(poi) && k != DestinationKey(poi) ==>
            k in out.world.stocks && out.world.stocks[k] == w.stocks[k])
  {
    var start := MoveStart(w, poi);
    MoveConserves(start, queue, DestinationKey(poi), oracle);
    assert SourceKey(poi) != DestinationKey(poi);
  }

  /** Confirmation never over-allocates an owned destination that was covered before. */
  lemma ConfirmKeepsDestinationCovered(w: World, poi: PoiRow, queue: seq<Queued>, now: int, oracle: SourceOracle)
    requires Confirm(w, poi, queue, now, oracle).Ok?
    requires DestinationStock(w, poi).quantityAllocated <= DestinationStock(w, poi).quantity
    ensures var out := Confirm(w, poi, queue, now, oracle).value;
      DestinationKey(poi) in out.world.stocks
      && out.world.stocks[DestinationKey(poi)].quantityAllocated <= out.world.stocks[DestinationKey(poi)].quantity
  {
    var start := MoveStart(w, poi);
    MoveKeepsDestinationCovered(start, queue, DestinationKey(poi), oracle);
  }

  /** The FIFO queue of the source stock is still loaded once the delivery is moved. */
  lemma FifoQueueLoaded(w: World, poi: PoiRow, queue: seq<Queued>)
    requires SourceKey(poi) in w.stocks
    requires FifoQueue(w, SourceKey(poi), queue)
    ensures QueueLoaded(MoveStart(w, poi), queue)
  {
  }

  /** A successful confirmation's allocations are the loop's. */
  lemma ConfirmIsMove(w: World, poi: PoiRow, queue: seq<Queued>, now: int, oracle: SourceOracle)
    requires Confirm(w, poi, queue, now, oracle).Ok?
    ensures SourceKey(poi) in w.stocks
    ensures MoveAllocations(MoveStart(w, poi), queue, DestinationKey(poi), oracle).Ok?
    ensures var out := Confirm(w, poi, queue, now, oracle).value;
      var m := MoveAllocations(MoveStart(w, poi), queue, DestinationKey(poi), oracle).value;
      out.world.allocations == m.allocs && out.world.nextAllocationId == m.nextId
  {
  }

  /** FIFO over the confirmation: with k the number of leading allocations (by line
      creation time) that fit into the room after the delivery, those k
      are re-homed whole, at most one allocation is split (creating one new allocation),
      and every later one stays at the source unchanged. */
  lemma ConfirmFifo(w: World, poi: PoiRow, queue: seq<Queued>, now: int, oracle: SourceOracle)
    requires FifoQueue(w, SourceKey(poi), queue)
    requires Confirm(w, poi, queue, now, oracle).Ok?
    ensures var out := Confirm(w, poi, queue, now, oracle).value;
      var k := WholeCount(Room(MoveStart(w, poi).dst), queue);
      (forall i :: 0 <= i < k ==>
         queue[i].id in out.world.allocations
         && out.world.allocations[queue[i].id].stock == DestinationKey(poi)
         && out.world.allocations[queue[i].id].quantity == queue[i].alloc.quantity)
      && (forall i :: k < i < |queue| ==>
         queue[i].id in out.world.allocations && out.world.allocations[queue[i].id] == queue[i].alloc)
      && out.world.nextAllocationId == w.nextAllocationId + (if k < |queue| then 1 else 0)
    /** The room is the destination's free units plus the delivered quantity. */
    ensures SourceKey(poi) in w.stocks
      && Room(MoveStart(w, poi).dst) == Room(DestinationStock(w, poi)) + poi.quantityOrdered
  {
    var start := MoveStart(w, poi);
    ConfirmIsMove(w, poi, queue, now, oracle);
    FifoQueueLoaded(w, poi, queue);
    MoveLeadingWhole(start, queue, DestinationKey(poi), oracle);
    MoveTailUntouched(start, queue, DestinationKey(poi), oracle);
  }

  /** Auto-confirmation, both directions: an order changes status only from
      UNCONFIRMED to UNFULFILLED, only if it had an allocation at the source and its
      inventory is ready afterwards; and every such order does change. */
  lemma ConfirmAutoConfirms(w: World, poi: PoiRow, queue: seq<Queued>, now: int, oracle: SourceOracle, o: int)
    requires Confirm(w, poi, queue, now, oracle).Ok?
    requires o in w.orders
    ensures var out := Confirm(w, poi, queue, now, oracle).value;
      o in out.world.orders
      && (out.world.orders[o] != w.orders[o] <==>
          (w.orders[o] == Unconfirmed
           && (exists i :: 0 <= i < |queue| && queue[i].alloc.order == o)
           && InventoryReady(out.world, o)))
      && (out.world.orders[o] != w.orders[o] ==> out.world.orders[o] == Unfulfilled)
  {
    var out := Confirm(w, poi, queue, now, oracle).value;
    if w.orders[o] == Unconfirmed && (exists i :: 0 <= i < |queue| && queue[i].alloc.order == o) {
      var i :| 0 <= i < |queue| && queue[i].alloc.order == o;
      assert o in OrdersToCheck(w.orders, queue);
    }
  }

  datatype ReceiveError =
    | ReceiveInvalidStatus(expected: PoiStatus)
    | QuantityReceivedHasNoSetter

  /** `receive_purchase_order_item` as written: past the status check it assigns
      `quantity_received`, a read-only property summing receipt lines (models.py
      159-169), which raises AttributeError inside the transaction. */
  function ReceiveAsWritten(poi: PoiRow, actualQuantity: int): (r: Result<PoiRow, ReceiveError>)
    ensures poi.status != PoiConfirmed ==> r == Err(ReceiveInvalidStatus(PoiConfirmed))
  {
    if poi.status != PoiConfirmed then Err(ReceiveInvalidStatus(PoiConfirmed))
    else Err(QuantityReceivedHasNoSetter)
  }

  /** No item is ever received as written: a CONFIRMED one fails at the assignment. */
  lemma ReceiveAsWrittenNeverSucceeds(poi: PoiRow, actualQuantity: int)
    requires poi.status == PoiConfirmed
    ensures ReceiveAsWritten(poi, actualQuantity) == Err(QuantityReceivedHasNoSetter)
  {
  }

  /** The evident intent: a CONFIRMED item is RECEIVED and its received quantity is
      `actual_quantity`, recorded as its receipt line. A shortage is not handled. */
  function ReceivePurchaseOrderItem(poi: PoiRow, actualQuantity: int): (r: Result<PoiRow, ReceiveError>)
    ensures r.Err? <==> poi.status != PoiConfirmed
    ensures r.Err? ==> r.error == ReceiveInvalidStatus(PoiConfirmed)
    ensures r.Ok? ==> r.value.status == PoiReceived && SumInts(r.value.receiptLines) == actualQuantity
    ensures r.Ok? ==> r.value.(status := poi.status, receiptLines := poi.receiptLines) == poi
  {
    if poi.status != PoiConfirmed then Err(ReceiveInvalidStatus(PoiConfirmed))
    else Ok(poi.(status := PoiReceived, receiptLines := [actualQuantity]))
  }

  /** The lifecycle is one-way: a received item can be neither confirmed nor received again. */
  lemma ReceivedIsFinal(w: World, poi: PoiRow, actualQuantity: int, queue: seq<Queued>, now: int, oracle: SourceOracle, again: int)
    requires ReceivePurchaseOrderItem(poi, actualQuantity).Ok?
    ensures var p := ReceivePurchaseOrderItem(poi, actualQuantity).value;
      Confirm(w, p, queue, now, oracle).Err? && ReceivePurchaseOrderItem(p, again).Err?
  {
  }
}
