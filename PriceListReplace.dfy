/** saleor/product/tasks.py, `replace_price_list_task`: the ACTIVE list of a warehouse hands
    over to a newly processed one in one transaction. Products only the old list links lose
    their stock down to what is allocated; products both lists link keep their variants,
    with the sizes the new list dropped released and every size it lists set to its
    quantity; products only the new list links are activated as by
    `activate_price_list_task`. */
module PriceListReplace {
  import opened Wrappers
  import opened Statuses
  import opened WarehouseRecords
  import opened PriceListTasks

  /** The size names of a `sizes_and_qty`. */
  function Names(sizes: seq<(string, int)>): set<string> {
    set x | x in sizes :: x.0
  }

  /** The item a `{product_id: item}` dictionary keeps for `p`: the last valid item linked
      to it. */
  function LastFor(items: seq<Item>, p: int): (r: Option<Item>)
    ensures r.Some? ==> r.value in items && r.value.isValid && r.value.productId == Some(p)
  {
    if items == [] then None
    else
      var d := items[|items| - 1];
      if d.isValid && d.productId == Some(p) then Some(d) else LastFor(items[..|items| - 1], p)
  }

  /** The dictionary has an entry for exactly the products some valid item links to. */
  lemma {:induction false} LastForIff(items: seq<Item>, p: int)
    ensures LastFor(items, p).Some? <==> p in LinkedProducts(items)
  {
    if items != [] {
      var init := items[..|items| - 1];
      var d := items[|items| - 1];
      LastForIff(init, p);
      assert items == init + [d];
      if p in LinkedProducts(items) && !(d.isValid && d.productId == Some(p)) {
        var it :| it in items && it.isValid && it.productId.Some? && it.productId.value == p;
        assert it in init;
      }
      if p in LinkedProducts(init) {
        var it :| it in init && it.isValid && it.productId.Some? && it.productId.value == p;
        assert it in items;
      }
      if d.isValid && d.productId == Some(p) {
        assert d in items;
      }
    }
  }

  /** Item `i` is the one the dictionary keeps for its product: no later valid item names it. */
  ghost predicate Winner(items: seq<Item>, i: int)
    requires 0 <= i < |items|
  {
    items[i].isValid && items[i].productId.Some?
    && forall j :: i < j < |items| && items[j].isValid ==> items[j].productId != items[i].productId
  }

  function IsWinner(items: seq<Item>, i: int): (b: bool)
    requires 0 <= i < |items|
    ensures b <==> Winner(items, i)
  {
    items[i].isValid && items[i].productId.Some?
    && forall j :: i < j < |items| && items[j].isValid ==> items[j].productId != items[i].productId
  }

  /** One item per linked product drives the replacement: the kept item is a winner, and no
      two winners share a product. */
  lemma {:induction false} WinnerIsLast(items: seq<Item>, p: int)
    requires p in LinkedProducts(items)
    ensures exists i :: 0 <= i < |items| && Winner(items, i) && LastFor(items, p) == Some(items[i])
  {
    var init := items[..|items| - 1];
    var n := |items| - 1;
    if items[n].isValid && items[n].productId == Some(p) {
      assert Winner(items, n);
    } else {
      var it :| it in items && it.isValid && it.productId.Some? && it.productId.value == p;
      assert it in init by { assert items == init + [items[n]]; }
      assert p in LinkedProducts(init);
      WinnerIsLast(init, p);
      var i :| 0 <= i < |init| && Winner(init, i) && LastFor(init, p) == Some(init[i]);
      assert init[i] == items[i];
      assert Winner(items, i);
    }
  }

  lemma WinnersDistinct(items: seq<Item>, i: int, j: int)
    requires 0 <= i < j < |items| && Winner(items, i) && Winner(items, j)
    ensures items[i].productId != items[j].productId
  {
  }

  // A product both lists carry

  function ReleaseSizes(stocks: map<Slot, Stock>, p: int, removed: set<string>, wh: int): map<Slot, Stock> {
    map k | k in stocks :: if k.product == p && k.size in removed && k.warehouse == wh then Released(stocks[k]) else stocks[k]
  }

  /** One size of a kept product. An existing variant's stock row in the warehouse becomes
      the larger of its allocations and the sheet quantity; a missing variant is created with
      a row of the sheet quantity. For an existing variant without a row in this warehouse
      the task as written updates no row, so no stock appears (`createMissing` false); with
      `createMissing` the row is created with the sheet quantity, as the activation does. */
  function KeepSize(v: World, slot: Slot, qty: int, createMissing: bool): World {
    if (slot.product, slot.size) in v.variants then
      if slot in v.stocks then v.(stocks := v.stocks[slot := v.stocks[slot].(quantity := Max(v.stocks[slot].quantityAllocated, qty))])
      else if createMissing then v.(stocks := v.stocks[slot := Stock(qty, 0)])
      else v
    else v.(variants := v.variants + {(slot.product, slot.size)}, stocks := v.stocks[slot := Stock(qty, 0)])
  }

  function KeepSizes(w: World, p: int, wh: int, sizes: seq<(string, int)>, createMissing: bool): World {
    if sizes == [] then w
    else
      var (size, qty) := sizes[|sizes| - 1];
      KeepSize(KeepSizes(w, p, wh, sizes[..|sizes| - 1], createMissing), Slot(p, size, wh), qty, createMissing)
  }

  /** The loop body of `for product_id in both`. */
  function KeepProduct(w: World, p: int, oldItem: Item, newItem: Item, wh: int, createMissing: bool): World {
    var removed := Names(oldItem.sizes) - Names(newItem.sizes);
    KeepSizes(w.(stocks := ReleaseSizes(w.stocks, p, removed, wh)), p, wh, newItem.sizes, createMissing)
  }

  function KeepAsWritten(w: World, p: int, oldItem: Item, newItem: Item, wh: int): World {
    KeepProduct(w, p, oldItem, newItem, wh, false)
  }

  function Keep(w: World, p: int, oldItem: Item, newItem: Item, wh: int): World {
    KeepProduct(w, p, oldItem, newItem, wh, true)
  }

  /** Keeping sizes touches only the product's rows in the warehouse, never removes a row
      or a variant, and keeps the next product id. */
  lemma {:induction false} KeepSizesFrame(w: World, p: int, wh: int, sizes: seq<(string, int)>, createMissing: bool)
    ensures var r := KeepSizes(w, p, wh, sizes, createMissing);
      && r.nextProduct == w.nextProduct
      && w.stocks.Keys <= r.stocks.Keys
      && w.variants <= r.variants
      && (forall x :: x in r.variants && x !in w.variants ==> x.0 == p && x.1 in Names(sizes))
      && (forall k :: k in r.stocks && (k.product != p || k.warehouse != wh || k.size !in Names(sizes))
            ==> k in w.stocks && r.stocks[k] == w.stocks[k])
  {
    if sizes != [] {
      var init := sizes[..|sizes| - 1];
      KeepSizesFrame(w, p, wh, init, createMissing);
      assert sizes == init + [sizes[|sizes| - 1]];
      assert Names(sizes) == Names(init) + {sizes[|sizes| - 1].0};
    }
  }

  /** With distinct size names and the row creation in place, every size the new list
      carries ends up with a row: an existing variant's existing row holds the larger of its
      allocations and the sheet quantity, any other row is the sheet quantity with nothing
      allocated. */
  lemma {:induction false} KeepSizesAt(w: World, p: int, wh: int, sizes: seq<(string, int)>, i: int)
    requires DistinctSizes(sizes) && 0 <= i < |sizes|
    ensures var r := KeepSizes(w, p, wh, sizes, true);
      var slot := Slot(p, sizes[i].0, wh);
      && (p, sizes[i].0) in r.variants
      && slot in r.stocks
      && r.stocks[slot] ==
           (if (p, sizes[i].0) in w.variants && slot in w.stocks
            then w.stocks[slot].(quantity := Max(w.stocks[slot].quantityAllocated, sizes[i].1))
            else Stock(sizes[i].1, 0))
  {
    var init := sizes[..|sizes| - 1];
    var n := |sizes| - 1;
    assert DistinctSizes(init) by {
      forall a, b | 0 <= a < b < |init| ensures init[a].0 != init[b].0 {
        assert init[a] == sizes[a] && init[b] == sizes[b];
      }
    }
    var v := KeepSizes(w, p, wh, init, true);
    var last := Slot(p, sizes[n].0, wh);
    assert KeepSizes(w, p, wh, sizes, true) == KeepSize(v, last, sizes[n].1, true);
    if i == n {
      KeepSizesFrame(w, p, wh, init, true);
      assert sizes[n].0 !in Names(init);
      KeepSizeFresh(w, v, last, sizes[n].1);
    } else {
      KeepSizesAt(w, p, wh, init, i);
      assert init[i] == sizes[i];
      assert sizes[i].0 != sizes[n].0;
      KeepSizeOther(v, last, sizes[n].1, Slot(p, sizes[i].0, wh));
    }
  }

  /** A size the loop has not met yet: its row comes out as the final row of the lemma above. */
  lemma KeepSizeFresh(w: World, v: World, slot: Slot, qty: int)
    requires (slot.product, slot.size) in v.variants <==> (slot.product, slot.size) in w.variants
    requires slot in v.stocks <==> slot in w.stocks
    requires slot in w.stocks ==> v.stocks[slot] == w.stocks[slot]
    ensures var r := KeepSize(v, slot, qty, true);
      && (slot.product, slot.size) in r.variants
      && slot in r.stocks
      && r.stocks[slot] ==
           (if (slot.product, slot.size) in w.variants && slot in w.stocks
            then w.stocks[slot].(quantity := Max(w.stocks[slot].quantityAllocated, qty))
            else Stock(qty, 0))
  {
  }

  lemma KeepSizeOther(v: World, slot: Slot, qty: int, other: Slot)
    requires other != slot && (other.product, other.size) != (slot.product, slot.size)
    ensures var r := KeepSize(v, slot, qty, true);
      && ((other.product, other.size) in r.variants <==> (other.product, other.size) in v.variants)
      && (other in r.stocks <==> other in v.stocks)
      && (other in v.stocks ==> r.stocks[other] == v.stocks[other])
  {
  }

  /** What keeping a product does to its rows in the warehouse: sizes the new list dropped
      keep only their allocations, and each size it lists is set to the sheet quantity
      (never below what is allocated for an existing row). */
  lemma KeepEffect(w: World, p: int, oldItem: Item, newItem: Item, wh: int, size: string)
    requires DistinctSizes(newItem.sizes)
    ensures var r := Keep(w, p, oldItem, newItem, wh);
      var slot := Slot(p, size, wh);
      && w.stocks.Keys <= r.stocks.Keys
      && (size in Names(oldItem.sizes) && size !in Names(newItem.sizes) && slot in w.stocks
          ==> r.stocks[slot] == Released(w.stocks[slot]))
      && (size !in Names(oldItem.sizes) && size !in Names(newItem.sizes) && slot in w.stocks
          ==> r.stocks[slot] == w.stocks[slot])
      && (forall i :: 0 <= i < |newItem.sizes| && newItem.sizes[i].0 == size ==>
            && slot in r.stocks
            && r.stocks[slot].quantity >= newItem.sizes[i].1
            && (r.stocks[slot].quantity == newItem.sizes[i].1
                || r.stocks[slot].quantity == r.stocks[slot].quantityAllocated))
  {
    var removed := Names(oldItem.sizes) - Names(newItem.sizes);
    var w1 := w.(stocks := ReleaseSizes(w.stocks, p, removed, wh));
    KeepSizesFrame(w1, p, wh, newItem.sizes, true);
    forall i | 0 <= i < |newItem.sizes| && newItem.sizes[i].0 == size {
      KeepSizesAt(w1, p, wh, newItem.sizes, i);
    }
  }

  /** As written, a kept product whose size already has a variant, but no stock row in this
      warehouse, gets no stock for it: the update matches no row. */
  lemma MissingRowNotCreatedAsWritten(w: World, p: int, oldItem: Item, newItem: Item, wh: int, size: string, qty: int)
    requires newItem.sizes == [(size, qty)] && (p, size) in w.variants && Slot(p, size, wh) !in w.stocks
    ensures Slot(p, size, wh) !in KeepAsWritten(w, p, oldItem, newItem, wh).stocks
  {
    assert newItem.sizes[..0] == [];
    var removed := Names(oldItem.sizes) - Names(newItem.sizes);
    var w1 := w.(stocks := ReleaseSizes(w.stocks, p, removed, wh));
    assert Slot(p, size, wh) !in w1.stocks;
    assert KeepAsWritten(w, p, oldItem, newItem, wh) == KeepSizes(w1, p, wh, newItem.sizes, false);
    assert KeepSizes(w1, p, wh, newItem.sizes[..0], false) == w1;
  }

  /** With the row created, the same size gets the sheet quantity. */
  lemma MissingRowCreated(w: World, p: int, oldItem: Item, newItem: Item, wh: int, size: string, qty: int)
    requires newItem.sizes == [(size, qty)] && (p, size) in w.variants && Slot(p, size, wh) !in w.stocks
    ensures var r := Keep(w, p, oldItem, newItem, wh);
      Slot(p, size, wh) in r.stocks && r.stocks[Slot(p, size, wh)] == Stock(qty, 0)
  {
    assert newItem.sizes[..0] == [];
    var removed := Names(oldItem.sizes) - Names(newItem.sizes);
    var w1 := w.(stocks := ReleaseSizes(w.stocks, p, removed, wh));
    assert Slot(p, size, wh) !in w1.stocks;
    assert Keep(w, p, oldItem, newItem, wh) == KeepSizes(w1, p, wh, newItem.sizes, true);
    assert KeepSizes(w1, p, wh, newItem.sizes[..0], true) == w1;
  }

  // The whole replacement

  /** The loop over `both` after the first `n` new items: each winner whose product the old
      list also links is kept, against the old list's item for it. */
  function KeepAll(w: World, oldItems: seq<Item>, newItems: seq<Item>, n: nat, wh: int, createMissing: bool): World
    requires n <= |newItems|
  {
    if n == 0 then w
    else
      var v := KeepAll(w, oldItems, newItems, n - 1, wh, createMissing);
      var d := newItems[n - 1];
      if IsWinner(newItems, n - 1) && LastFor(oldItems, d.productId.value).Some?
      then KeepProduct(v, d.productId.value, LastFor(oldItems, d.productId.value).value, d, wh, createMissing)
      else v
  }

  /** The loop over `new_only`: each winner whose product the old list does not link is
      activated as a linked item. */
  function ActivateNew(w: World, oldItems: seq<Item>, newItems: seq<Item>, n: nat, wh: int): World
    requires n <= |newItems|
  {
    if n == 0 then w
    else
      var v := ActivateNew(w, oldItems, newItems, n - 1, wh);
      var d := newItems[n - 1];
      if IsWinner(newItems, n - 1) && LastFor(oldItems, d.productId.value).None?
      then AddSizes(v, d.productId.value, wh, d.sizes, true)
      else v
  }

  /** `replace_price_list_task(prev, next)`: the two lists afterwards and the database. Set
      iteration is taken in the order of the new list's items (each step touches only its
      own product's rows). */
  function ReplaceWith(prev: PriceList, next: PriceList, w: World, lookup: Lookup, now: int, createMissing: bool):
    Result<(PriceList, PriceList, World), TaskError>
  {
    if prev.warehouse != next.warehouse then Err(DifferentWarehouses)
    else if next.completedAt.None? then Err(NotProcessed)
    else if prev.status == Inactive && next.status == Active then Ok((prev, next, w))
    else
      var wh := prev.warehouse;
      var items := seq(|next.items|, i requires 0 <= i < |next.items| => Resolve(next.items[i], lookup));
      var oldOnly := LinkedProducts(prev.items) - LinkedProducts(items);
      var w1 := w.(stocks := Release(w.stocks, oldOnly, wh));
      var w2 := KeepAll(w1, prev.items, items, |items|, wh, createMissing);
      var w3 := ActivateNew(w2, prev.items, items, |items|, wh);
      Ok((prev.(status := Inactive, deactivatedAt := Some(now), replacedBy := Some(next.id)),
          next.(status := Active, activatedAt := Some(now), items := items),
          w3))
  }

  function ReplaceAsWritten(prev: PriceList, next: PriceList, w: World, lookup: Lookup, now: int):
    Result<(PriceList, PriceList, World), TaskError> {
    ReplaceWith(prev, next, w, lookup, now, false)
  }

  function Replace(prev: PriceList, next: PriceList, w: World, lookup: Lookup, now: int):
    Result<(PriceList, PriceList, World), TaskError> {
    ReplaceWith(prev, next, w, lookup, now, true)
  }

  /** The replacement fails exactly on lists of different warehouses or an unprocessed new
      list; an INACTIVE old list with an ACTIVE new one is a replacement already done; any
      other replacement deactivates the old list, pointing it at the new one, activates the
      new one, and saves the links the lookup made. */
  lemma ReplaceOutcome(prev: PriceList, next: PriceList, w: World, lookup: Lookup, now: int)
    ensures var r := Replace(prev, next, w, lookup, now);
      && (r.Err? <==> prev.warehouse != next.warehouse || next.completedAt.None?)
      && (r.Err? ==> r.error == (if prev.warehouse != next.warehouse then DifferentWarehouses else NotProcessed))
      && (r.Ok? && prev.status == Inactive && next.status == Active ==> r.value == (prev, next, w))
      && (r.Ok? && !(prev.status == Inactive && next.status == Active) ==> (
            && r.value.0 == prev.(status := Inactive, deactivatedAt := Some(now), replacedBy := Some(next.id))
            && r.value.1.status == Active && r.value.1.activatedAt == Some(now)
            && |r.value.1.items| == |next.items|
            && (forall i :: 0 <= i < |next.items| ==> r.value.1.items[i] == Resolve(next.items[i], lookup))))
  {
  }

  lemma {:induction false} KeepAllFrame(w: World, oldItems: seq<Item>, newItems: seq<Item>, n: nat, wh: int, createMissing: bool)
    requires n <= |newItems|
    ensures var r := KeepAll(w, oldItems, newItems, n, wh, createMissing);
      && w.stocks.Keys <= r.stocks.Keys
      && (forall k :: k in r.stocks && (k.warehouse != wh || k.product !in LinkedProducts(newItems))
            ==> k in w.stocks && r.stocks[k] == w.stocks[k])
  {
    if n > 0 {
      KeepAllFrame(w, oldItems, newItems, n - 1, wh, createMissing);
      var v := KeepAll(w, oldItems, newItems, n - 1, wh, createMissing);
      var d := newItems[n - 1];
      if IsWinner(newItems, n - 1) && LastFor(oldItems, d.productId.value).Some? {
        var p := d.productId.value;
        assert d in newItems;
        assert p in LinkedProducts(newItems);
        var o := LastFor(oldItems, p).value;
        var v1 := v.(stocks := ReleaseSizes(v.stocks, p, Names(o.sizes) - Names(d.sizes), wh));
        KeepSizesFrame(v1, p, wh, d.sizes, createMissing);
      }
    }
  }

  lemma {:induction false} ActivateNewFrame(w: World, oldItems: seq<Item>, newItems: seq<Item>, n: nat, wh: int)
    requires n <= |newItems|
    ensures var r := ActivateNew(w, oldItems, newItems, n, wh);
      && w.stocks.Keys <= r.stocks.Keys
      && (forall k :: k in r.stocks && (k.warehouse != wh || k.product !in LinkedProducts(newItems))
            ==> k in w.stocks && r.stocks[k] == w.stocks[k])
  {
    if n > 0 {
      ActivateNewFrame(w, oldItems, newItems, n - 1, wh);
      var v := ActivateNew(w, oldItems, newItems, n - 1, wh);
      var d := newItems[n - 1];
      if IsWinner(newItems, n - 1) && LastFor(oldItems, d.productId.value).None? {
        assert d in newItems;
        AddSizesFrame(v, d.productId.value, wh, d.sizes, true);
      }
    }
  }

  /** After a replacement, stock of another warehouse is untouched, and in the list's
      warehouse a product only the old list linked keeps only its allocations. */
  lemma ReplaceStock(prev: PriceList, next: PriceList, w: World, lookup: Lookup, now: int, k: Slot)
    requires prev.warehouse == next.warehouse && next.completedAt.Some?
    requires !(prev.status == Inactive && next.status == Active)
    requires k in w.stocks
    ensures var r := Replace(prev, next, w, lookup, now);
      && r.Ok?
      && k in r.value.2.stocks
      && (k.warehouse != prev.warehouse ==> r.value.2.stocks[k] == w.stocks[k])
      && (k.warehouse == prev.warehouse
          && k.product in LinkedProducts(prev.items)
          && (forall i :: 0 <= i < |next.items| && next.items[i].isValid
                ==> Resolve(next.items[i], lookup).productId != Some(k.product))
          ==> r.value.2.stocks[k] == Released(w.stocks[k]))
  {
    var wh := prev.warehouse;
    var items := seq(|next.items|, i requires 0 <= i < |next.items| => Resolve(next.items[i], lookup));
    var oldOnly := LinkedProducts(prev.items) - LinkedProducts(items);
    var w1 := w.(stocks := Release(w.stocks, oldOnly, wh));
    var w2 := KeepAll(w1, prev.items, items, |items|, wh, true);
    KeepAllFrame(w1, prev.items, items, |items|, wh, true);
    ActivateNewFrame(w2, prev.items, items, |items|, wh);
  }

  // The task's loops

  /** The loop over one kept product's sizes. */
  method KeepSizesLoop(w: World, p: int, wh: int, sizes: seq<(string, int)>) returns (r: World)
    ensures r == KeepSizes(w, p, wh, sizes, true)
  {
    r := w;
    for i := 0 to |sizes|
      invariant r == KeepSizes(w, p, wh, sizes[..i], true)
    {
      assert sizes[..i + 1][..i] == sizes[..i];
      var (size, qty) := sizes[i];
      var slot := Slot(p, size, wh);
      if (p, size) in r.variants {
        if slot in r.stocks {
          r := r.(stocks := r.stocks[slot := r.stocks[slot].(quantity := Max(r.stocks[slot].quantityAllocated, qty))]);
        } else {
          r := r.(stocks := r.stocks[slot := Stock(qty, 0)]);
        }
      } else {
        r := r.(variants := r.variants + {(p, size)}, stocks := r.stocks[slot := Stock(qty, 0)]);
      }
    }
    assert sizes[..|sizes|] == sizes;
  }

  /** `replace_price_list_task` with its loops over the kept and the new products. */
  method ReplacePriceList(prev: PriceList, next: PriceList, w: World, lookup: Lookup, now: int)
    returns (r: Result<(PriceList, PriceList, World), TaskError>)
    ensures r == Replace(prev, next, w, lookup, now)
  {
    if prev.warehouse != next.warehouse {
      return Err(DifferentWarehouses);
    }
    if next.completedAt.None? {
      return Err(NotProcessed);
    }
    if prev.status == Inactive && next.status == Active {
      return Ok((prev, next, w));
    }
    var wh := prev.warehouse;
    var items := seq(|next.items|, i requires 0 <= i < |next.items| => Resolve(next.items[i], lookup));
    var oldOnly := LinkedProducts(prev.items) - LinkedProducts(items);
    var w1 := w.(stocks := Release(w.stocks, oldOnly, wh));
    var v := w1;
    for n := 0 to |items|
      invariant v == KeepAll(w1, prev.items, items, n, wh, true)
    {
      var d := items[n];
      if IsWinner(items, n) {
        var o := LastFor(prev.items, d.productId.value);
        if o.Some? {
          var removed := Names(o.value.sizes) - Names(d.sizes);
          v := v.(stocks := ReleaseSizes(v.stocks, d.productId.value, removed, wh));
          v := KeepSizesLoop(v, d.productId.value, wh, d.sizes);
        }
      }
    }
    var w2 := v;
    for n := 0 to |items|
      invariant v == ActivateNew(w2, prev.items, items, n, wh)
    {
      var d := items[n];
      if IsWinner(items, n) && LastFor(prev.items, d.productId.value).None? {
        var _, _, v' := ActivateItemLoop(v, d, wh, {});
        v := v';
      }
    }
    return Ok((prev.(status := Inactive, deactivatedAt := Some(now), replacedBy := Some(next.id)),
               next.(status := Active, activatedAt := Some(now), items := items),
               v));
  }
}
