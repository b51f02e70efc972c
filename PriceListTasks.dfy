/** saleor/product/tasks.py: the life of a supplier price list. Processing reads the sheet
    into items and links each valid item to the product with its (code, brand); activation
    turns the items into stock of the list's warehouse, creating products and variants
    where needed; deactivation takes that stock back down to what is allocated. The
    database is a value: the variants of each product (by size name), the stock rows of
    each (product, size, warehouse), and the next product id. Channel listings, attributes
    and media the activation also creates are not part of this model. */
module PriceListTasks {
  import opened Wrappers
  import opened Statuses
  import opened WarehouseRecords

  /** A `PriceListItem`: its link to a product, if any, and its sizes with quantities in
      the order of its `sizes_and_qty` dictionary. */
  datatype Item = Item(productId: Option<int>, isValid: bool, productCode: string, brand: string,
                       category: string, sizes: seq<(string, int)>)

  datatype PriceList = PriceList(
    id: int, warehouse: int, status: PriceListStatus,
    completedAt: Option<int>, failedAt: Option<int>, activatedAt: Option<int>,
    deactivatedAt: Option<int>, replacedBy: Option<int>, items: seq<Item>)

  /** The stock row of the variant named `size` of `product` in `warehouse`. */
  datatype Slot = Slot(product: int, size: string, warehouse: int)

  datatype World = World(variants: set<(int, string)>, stocks: map<Slot, Stock>, nextProduct: int)

  datatype TaskError = NotProcessed | OwnedWarehouse | DifferentWarehouses

  /** `get_products_by_code_and_brand`: (code, brand) to product id, or `None` when it
      raises `MissingDatabaseSetup`, which the tasks skip. */
  type Lookup = Option<map<(string, string), int>>

  function Found(lookup: Lookup, item: Item): Option<int> {
    if lookup.Some? && (item.productCode, item.brand) in lookup.value
    then Some(lookup.value[(item.productCode, item.brand)]) else None
  }

  /** A valid unlinked item linked through the lookup, as activation and replacement do
      before they start. */
  function Resolve(d: Item, lookup: Lookup): (r: Item)
    ensures r.productId.Some? ==> r.productId == d.productId || r.productId == Found(lookup, d)
    ensures (r.productId != d.productId) <==> d.isValid && d.productId.None? && Found(lookup, d).Some?
    ensures r.(productId := d.productId) == d
  {
    if d.isValid && d.productId.None? && Found(lookup, d).Some? then d.(productId := Found(lookup, d)) else d
  }

  /** `Greatest(0, quantity_allocated)`: the stock kept for what is allocated. */
  function Released(s: Stock): (r: Stock)
    ensures r.quantityAllocated == s.quantityAllocated
    ensures r.quantity >= 0 && r.quantity >= s.quantityAllocated
    ensures s.quantityAllocated >= 0 ==> r.quantity == s.quantityAllocated
  {
    s.(quantity := Max(0, s.quantityAllocated))
  }

  // Processing

  /** The batch link after processing: every valid item whose (code, brand) names a
      product is linked to it. */
  function Link(items: seq<Item>, lookup: Lookup): (r: seq<Item>)
    ensures |r| == |items|
    ensures forall i :: 0 <= i < |items| ==>
      r[i] == (if items[i].isValid && Found(lookup, items[i]).Some? then items[i].(productId := Found(lookup, items[i])) else items[i])
  {
    seq(|items|, i requires 0 <= i < |items| =>
      if items[i].isValid && Found(lookup, items[i]).Some? then items[i].(productId := Found(lookup, items[i])) else items[i])
  }

  /** `process_price_list_task` as written. `parsed` is the rows of the sheet, or `None`
      when reading or parsing raised; the second component says whether the task
      succeeded (on failure it re-raises). A failure stamps `processing_failed_at` and
      leaves `processing_completed_at` as it was. */
  function ProcessAsWritten(pl: PriceList, parsed: Option<seq<Item>>, lookup: Lookup, now: int): (PriceList, bool) {
    if parsed.None? then (pl.(failedAt := Some(now)), false)
    else (pl.(items := Link(pl.items + parsed.value, lookup), completedAt := Some(now), failedAt := None), true)
  }

  /** `process_price_list_task` with a failure also clearing `processing_completed_at`, so
      that a list whose last processing failed counts as unprocessed. */
  function Process(pl: PriceList, parsed: Option<seq<Item>>, lookup: Lookup, now: int): (r: (PriceList, bool))
    ensures r.1 <==> parsed.Some?
    ensures r.1 ==> r.0.completedAt == Some(now) && r.0.failedAt.None?
    ensures !r.1 ==> r.0.failedAt == Some(now) && r.0.completedAt.None? && r.0.items == pl.items
    ensures r.0.status == pl.status && r.0.warehouse == pl.warehouse && r.0.id == pl.id
  {
    if parsed.None? then (pl.(failedAt := Some(now), completedAt := None), false)
    else (pl.(items := Link(pl.items + parsed.value, lookup), completedAt := Some(now), failedAt := None), true)
  }

  // Activating one item

  /** The variants and stock rows one item's sizes give a product: each size becomes a
      variant; with `increment` an existing stock row grows by the quantity, otherwise
      (and for a missing row) the row is created with it. */
  function AddSizes(w: World, p: int, wh: int, sizes: seq<(string, int)>, increment: bool): World {
    if sizes == [] then w
    else
      var v := AddSizes(w, p, wh, sizes[..|sizes| - 1], increment);
      var (size, qty) := sizes[|sizes| - 1];
      AddSize(v, Slot(p, size, wh), qty, increment)
  }

  function AddSize(v: World, slot: Slot, qty: int, increment: bool): World {
    v.(variants := v.variants + {(slot.product, slot.size)},
       stocks := if increment && slot in v.stocks
                 then v.stocks[slot := v.stocks[slot].(quantity := v.stocks[slot].quantity + qty)]
                 else v.stocks[slot := Stock(qty, 0)])
  }

  /** `_activate_item`: an unlinked item becomes a new product, if its category has both a
      product type and a category (`known`), with each size's stock created; a linked item
      adds each size's quantity to the product's stock. The result says whether the item
      was activated, together with the item (linked to a new product) and the database. */
  function ActivateItem(w: World, item: Item, wh: int, known: set<string>): (bool, Item, World) {
    if item.productId.None? then
      if item.category !in known then (false, item, w)
      else
        var p := w.nextProduct;
        (true, item.(productId := Some(p)), AddSizes(w.(nextProduct := p + 1), p, wh, item.sizes, false))
    else (true, item, AddSizes(w, item.productId.value, wh, item.sizes, true))
  }

  ghost predicate DistinctSizes(sizes: seq<(string, int)>) {
    forall i, j :: 0 <= i < j < |sizes| ==> sizes[i].0 != sizes[j].0
  }

  ghost predicate Named(sizes: seq<(string, int)>, size: string) {
    exists i :: 0 <= i < |sizes| && sizes[i].0 == size
  }

  /** Adding sizes touches only the product's rows in the warehouse, never removes a row
      and keeps the next product id. */
  lemma {:induction false} AddSizesFrame(w: World, p: int, wh: int, sizes: seq<(string, int)>, increment: bool)
    ensures var r := AddSizes(w, p, wh, sizes, increment);
      && r.nextProduct == w.nextProduct
      && w.stocks.Keys <= r.stocks.Keys
      && w.variants <= r.variants
      && (forall k :: k in r.stocks && (k.product != p || k.warehouse != wh) ==> k in w.stocks && r.stocks[k] == w.stocks[k])
      && (forall k :: k in w.stocks && (k.product != p || k.warehouse != wh) ==> r.stocks[k] == w.stocks[k])
      && (forall k :: k in r.stocks && k.product == p && k.warehouse == wh && !Named(sizes, k.size)
            ==> k in w.stocks && r.stocks[k] == w.stocks[k])
  {
    if sizes != [] {
      AddSizesFrame(w, p, wh, sizes[..|sizes| - 1], increment);
    }
  }

  /** With distinct size names, each size's row ends up at the sheet quantity added to the
      old one (`increment` and a row that existed) or at the sheet quantity, and its
      allocations are kept or start at 0 alike. */
  lemma {:induction false} AddSizesAt(w: World, p: int, wh: int, sizes: seq<(string, int)>, increment: bool, i: int)
    requires DistinctSizes(sizes) && 0 <= i < |sizes|
    ensures var r := AddSizes(w, p, wh, sizes, increment);
      var slot := Slot(p, sizes[i].0, wh);
      && (p, sizes[i].0) in r.variants
      && slot in r.stocks
      && r.stocks[slot] ==
           (if increment && slot in w.stocks
            then w.stocks[slot].(quantity := w.stocks[slot].quantity + sizes[i].1)
            else Stock(sizes[i].1, 0))
  {
    var init := sizes[..|sizes| - 1];
    var n := |sizes| - 1;
    assert DistinctSizes(init) by {
      forall a, b | 0 <= a < b < |init| ensures init[a].0 != init[b].0 {
        assert init[a] == sizes[a] && init[b] == sizes[b];
      }
    }
    if i == n {
      AddSizesFrame(w, p, wh, init, increment);
      assert !Named(init, sizes[n].0);
    } else {
      AddSizesAt(w, p, wh, init, increment, i);
      assert init[i] == sizes[i];
      assert sizes[i].0 != sizes[n].0;
    }
  }

  lemma AddSizesEffect(w: World, p: int, wh: int, sizes: seq<(string, int)>, increment: bool)
    requires DistinctSizes(sizes)
    ensures var r := AddSizes(w, p, wh, sizes, increment);
      forall i :: 0 <= i < |sizes| ==> (
        var slot := Slot(p, sizes[i].0, wh);
        && (p, sizes[i].0) in r.variants
        && slot in r.stocks
        && r.stocks[slot] ==
             (if increment && slot in w.stocks
              then w.stocks[slot].(quantity := w.stocks[slot].quantity + sizes[i].1)
              else Stock(sizes[i].1, 0)))
  {
    forall i | 0 <= i < |sizes| {
      AddSizesAt(w, p, wh, sizes, increment, i);
    }
  }

  /** An unlinked item whose category is not set up changes nothing and is not activated. */
  lemma UnknownCategoryChangesNothing(w: World, item: Item, wh: int, known: set<string>)
    requires item.productId.None? && item.category !in known
    ensures ActivateItem(w, item, wh, known) == (false, item, w)
  {
  }

  /** A linked item adds each sheet quantity to an existing row of its product in the
      warehouse, or creates the row with it; nothing else in the database changes. */
  lemma LinkedItemAddsStock(w: World, item: Item, wh: int, known: set<string>)
    requires item.productId.Some? && DistinctSizes(item.sizes)
    ensures var (ok, stored, r) := ActivateItem(w, item, wh, known);
      && ok && stored == item
      && (forall i :: 0 <= i < |item.sizes| ==>
            var slot := Slot(item.productId.value, item.sizes[i].0, wh);
            slot in r.stocks
            && r.stocks[slot].quantity == (if slot in w.stocks then w.stocks[slot].quantity else 0) + item.sizes[i].1
            && r.stocks[slot].quantityAllocated == (if slot in w.stocks then w.stocks[slot].quantityAllocated else 0))
      && w.stocks.Keys <= r.stocks.Keys
      && (forall k :: k in w.stocks && (k.product != item.productId.value || k.warehouse != wh) ==> r.stocks[k] == w.stocks[k])
  {
    AddSizesEffect(w, item.productId.value, wh, item.sizes, true);
    AddSizesFrame(w, item.productId.value, wh, item.sizes, true);
  }

  /** `_activate_item` with its loops over the sizes. */
  method ActivateItemLoop(w: World, item: Item, wh: int, known: set<string>) returns (ok: bool, stored: Item, r: World)
    ensures (ok, stored, r) == ActivateItem(w, item, wh, known)
  {
    var p: int;
    var increment: bool;
    var start: World;
    if item.productId.None? {
      if item.category !in known {
        return false, item, w;
      }
      p := w.nextProduct;
      start := w.(nextProduct := p + 1);
      stored := item.(productId := Some(p));
      increment := false;
    } else {
      p := item.productId.value;
      start := w;
      stored := item;
      increment := true;
    }
    r := start;
    for i := 0 to |item.sizes|
      invariant r == AddSizes(start, p, wh, item.sizes[..i], increment)
    {
      assert item.sizes[..i + 1][..i] == item.sizes[..i];
      var (size, qty) := item.sizes[i];
      var slot := Slot(p, size, wh);
      var stocks := r.stocks;
      if increment && slot in stocks {
        stocks := stocks[slot := stocks[slot].(quantity := stocks[slot].quantity + qty)];
      } else {
        stocks := stocks[slot := Stock(qty, 0)];
      }
      r := r.(variants := r.variants + {(p, size)}, stocks := stocks);
    }
    assert item.sizes[..|item.sizes|] == item.sizes;
    ok := true;
  }

  // Activating a list

  /** Another ACTIVE list of the same warehouse, the first in table order. */
  function FirstActiveOther(lists: seq<PriceList>, pl: PriceList): (r: Option<int>)
    ensures r.Some? <==> exists i :: (0 <= i < |lists| && lists[i].status == Active
      && lists[i].warehouse == pl.warehouse && lists[i].id != pl.id)
  {
    if lists == [] then None
    else if lists[0].status == Active && lists[0].warehouse == pl.warehouse && lists[0].id != pl.id
    then Some(lists[0].id)
    else
      assert forall i :: 1 <= i < |lists| ==> lists[1..][i - 1] == lists[i];
      FirstActiveOther(lists[1..], pl)
  }

  /** One item of the activation loop: a valid unlinked item is first linked through the
      lookup, then activated. What is stored for the item is the activated item when
      `persistResolved` holds; otherwise, as the task writes it, only a product id the
      activation itself changed is saved, and a link made by the lookup is lost. */
  function ActivateStep(w: World, d: Item, wh: int, known: set<string>, lookup: Lookup, persistResolved: bool): (Item, World) {
    if !d.isValid then (d, w)
    else
      var r := Resolve(d, lookup);
      var (_, a, v) := ActivateItem(w, r, wh, known);
      (if persistResolved || a.productId != r.productId then a else d, v)
  }

  function ActivateAll(w: World, items: seq<Item>, wh: int, known: set<string>, lookup: Lookup, persistResolved: bool):
    (r: (seq<Item>, World))
    ensures |r.0| == |items|
  {
    if items == [] then ([], w)
    else
      var (stored, v) := ActivateAll(w, items[..|items| - 1], wh, known, lookup, persistResolved);
      var (s, v') := ActivateStep(v, items[|items| - 1], wh, known, lookup, persistResolved);
      (stored + [s], v')
  }

  datatype Activation = AlreadyActive | DelegatedToReplace(oldId: int) | Activated

  /** `activate_price_list_task`. `others` is the table of price lists, `owned` whether the
      list's warehouse is owned (an `assert` in the task), `known` the categories with a
      product type and a category. Another ACTIVE list of the warehouse hands the work to
      `replace_price_list_task(other, this)` and changes nothing here. */
  function ActivateWith(pl: PriceList, others: seq<PriceList>, owned: bool, w: World, lookup: Lookup,
                        known: set<string>, now: int, persistResolved: bool): Result<(Activation, PriceList, World), TaskError>
  {
    if pl.status == Active then Ok((AlreadyActive, pl, w))
    else if pl.completedAt.None? then Err(NotProcessed)
    else if owned then Err(OwnedWarehouse)
    else
      var other := FirstActiveOther(others, pl);
      if other.Some? then Ok((DelegatedToReplace(other.value), pl, w))
      else
        var (items, v) := ActivateAll(w, pl.items, pl.warehouse, known, lookup, persistResolved);
        Ok((Activated, pl.(status := Active, activatedAt := Some(now), items := items), v))
  }

  function ActivateAsWritten(pl: PriceList, others: seq<PriceList>, owned: bool, w: World, lookup: Lookup,
                             known: set<string>, now: int): Result<(Activation, PriceList, World), TaskError> {
    ActivateWith(pl, others, owned, w, lookup, known, now, false)
  }

  /** The activation with a link made by the lookup saved like one made by the activation. */
  function Activate(pl: PriceList, others: seq<PriceList>, owned: bool, w: World, lookup: Lookup,
                    known: set<string>, now: int): Result<(Activation, PriceList, World), TaskError> {
    ActivateWith(pl, others, owned, w, lookup, known, now, true)
  }

  /** Activation fails exactly on an INACTIVE list that is unprocessed or whose warehouse is
      owned; an ACTIVE list, and a list delegated to a replace, are left as they are; a
      direct activation makes the list ACTIVE and stamps it. */
  lemma ActivateOutcome(pl: PriceList, others: seq<PriceList>, owned: bool, w: World, lookup: Lookup,
                        known: set<string>, now: int)
    ensures var r := Activate(pl, others, owned, w, lookup, known, now);
      && (r.Err? <==> pl.status == Inactive && (pl.completedAt.None? || owned))
      && (r.Err? && pl.completedAt.None? ==> r.error == NotProcessed)
      && (pl.status == Active ==> r == Ok((AlreadyActive, pl, w)))
      && (r.Ok? && r.value.0.DelegatedToReplace? ==> (r.value.1 == pl && r.value.2 == w
            && exists i :: (0 <= i < |others| && others[i].id == r.value.0.oldId && others[i].status == Active
                 && others[i].warehouse == pl.warehouse && others[i].id != pl.id)))
      && (r.Ok? && r.value.0.Activated? ==> (r.value.1.status == Active && r.value.1.activatedAt == Some(now)
            && r.value.1.id == pl.id && r.value.1.warehouse == pl.warehouse))
  {
    if pl.status == Inactive && pl.completedAt.Some? && !owned && FirstActiveOther(others, pl).Some? {
      FirstActiveOtherIsActive(others, pl);
    }
  }

  lemma {:induction false} FirstActiveOtherIsActive(lists: seq<PriceList>, pl: PriceList)
    requires FirstActiveOther(lists, pl).Some?
    ensures exists i :: (0 <= i < |lists| && lists[i].id == FirstActiveOther(lists, pl).value
      && lists[i].status == Active && lists[i].warehouse == pl.warehouse && lists[i].id != pl.id)
  {
    if !(lists[0].status == Active && lists[0].warehouse == pl.warehouse && lists[0].id != pl.id) {
      FirstActiveOtherIsActive(lists[1..], pl);
      var i :| 0 <= i < |lists[1..]| && lists[1..][i].id == FirstActiveOther(lists[1..], pl).value
        && lists[1..][i].status == Active && lists[1..][i].warehouse == pl.warehouse && lists[1..][i].id != pl.id;
      assert lists[i + 1] == lists[1..][i];
    }
  }

  /** `activate_price_list_task` with its loop over the items. */
  method ActivatePriceList(pl: PriceList, others: seq<PriceList>, owned: bool, w: World, lookup: Lookup,
                           known: set<string>, now: int) returns (r: Result<(Activation, PriceList, World), TaskError>)
    ensures r == Activate(pl, others, owned, w, lookup, known, now)
  {
    if pl.status == Active {
      return Ok((AlreadyActive, pl, w));
    }
    if pl.completedAt.None? {
      return Err(NotProcessed);
    }
    if owned {
      return Err(OwnedWarehouse);
    }
    var other := FirstActiveOther(others, pl);
    if other.Some? {
      return Ok((DelegatedToReplace(other.value), pl, w));
    }
    var stored: seq<Item> := [];
    var v := w;
    for i := 0 to |pl.items|
      invariant (stored, v) == ActivateAll(w, pl.items[..i], pl.warehouse, known, lookup, true)
    {
      assert pl.items[..i + 1][..i] == pl.items[..i];
      var d := pl.items[i];
      if !d.isValid {
        stored := stored + [d];
      } else {
        var item := Resolve(d, lookup);
        var _, activated, v' := ActivateItemLoop(v, item, pl.warehouse, known);
        stored := stored + [activated];
        v := v';
      }
    }
    assert pl.items[..|pl.items|] == pl.items;
    return Ok((Activated, pl.(status := Active, activatedAt := Some(now), items := stored), v));
  }

  // Deactivation

  /** The products of the valid, linked items. */
  function LinkedProducts(items: seq<Item>): set<int> {
    set i | i in items && i.isValid && i.productId.Some? :: i.productId.value
  }

  function Release(stocks: map<Slot, Stock>, ps: set<int>, wh: int): map<Slot, Stock> {
    map k | k in stocks :: if k.product in ps && k.warehouse == wh then Released(stocks[k]) else stocks[k]
  }

  /** `deactivate_price_list_task`: an INACTIVE list is left alone; otherwise every stock
      row in the list's warehouse of a product a valid item links to drops to what is
      allocated, and the list becomes INACTIVE. */
  function Deactivate(pl: PriceList, w: World, now: int): (PriceList, World) {
    if pl.status == Inactive then (pl, w)
    else (pl.(status := Inactive, deactivatedAt := Some(now)),
          w.(stocks := Release(w.stocks, LinkedProducts(pl.items), pl.warehouse)))
  }

  /** What deactivation does to each stock row: a row of a linked product in the warehouse
      keeps only its allocated units (none below 0), every other row is untouched, and no
      row appears or disappears. */
  lemma DeactivateEffect(pl: PriceList, w: World, now: int, k: Slot)
    requires pl.status == Active
    ensures var (pl', w') := Deactivate(pl, w, now);
      && pl'.status == Inactive && pl'.deactivatedAt == Some(now)
      && w'.stocks.Keys == w.stocks.Keys && w'.variants == w.variants
      && (k in w.stocks && k.warehouse == pl.warehouse
          && (exists i :: 0 <= i < |pl.items| && pl.items[i].isValid && pl.items[i].productId == Some(k.product))
          ==> w'.stocks[k] == Released(w.stocks[k]))
      && (k in w.stocks && (k.warehouse != pl.warehouse
          || forall i :: 0 <= i < |pl.items| && pl.items[i].isValid ==> pl.items[i].productId != Some(k.product))
          ==> w'.stocks[k] == w.stocks[k])
  {
    var ps := LinkedProducts(pl.items);
    if exists i :: 0 <= i < |pl.items| && pl.items[i].isValid && pl.items[i].productId == Some(k.product) {
      var i :| 0 <= i < |pl.items| && pl.items[i].isValid && pl.items[i].productId == Some(k.product);
      assert pl.items[i] in pl.items;
      assert k.product in ps;
    }
    if k.product in ps {
      var it :| it in pl.items && it.isValid && it.productId.Some? && it.productId.value == k.product;
      var i :| 0 <= i < |pl.items| && pl.items[i] == it;
    }
  }

  /** Deactivating twice is deactivating once. */
  lemma DeactivateIdempotent(pl: PriceList, w: World, now: int, later: int)
    ensures var (pl', w') := Deactivate(pl, w, now); Deactivate(pl', w', later) == (pl', w')
  {
  }

  // Findings

  /** As written, a list that was processed once and whose reprocessing then fails still
      passes the activation's processing guard. */
  lemma StaleCompletionAsWritten(pl: PriceList, lookup: Lookup, now: int, others: seq<PriceList>, w: World,
                                 known: set<string>)
    requires pl.completedAt.Some? && pl.status == Inactive
    ensures var (failed, ok) := ProcessAsWritten(pl, None, lookup, now);
      !ok && failed.failedAt == Some(now) && ActivateWith(failed, others, false, w, lookup, known, now, true) != Err(NotProcessed)
  {
  }

  /** With the failure clearing the completion stamp, a list whose last processing failed
      cannot be activated. */
  lemma FailedProcessingBlocksActivation(pl: PriceList, lookup: Lookup, now: int, others: seq<PriceList>,
                                         owned: bool, w: World, known: set<string>)
    requires pl.status == Inactive
    ensures Activate(Process(pl, None, lookup, now).0, others, owned, w, lookup, known, now) == Err(NotProcessed)
  {
  }

  /** As written, an item the activation links through the lookup gets its stock, but its
      link is not saved: deactivating the list afterwards does not see that product. */
  lemma ResolvedLinkLostAsWritten(w: World, d: Item, wh: int, known: set<string>, lookup: Lookup)
    requires d.isValid && d.productId.None? && Found(lookup, d).Some?
    ensures var (stored, v) := ActivateStep(w, d, wh, known, lookup, false);
      && stored.productId.None?
      && v == AddSizes(w, Found(lookup, d).value, wh, d.sizes, true)
      && LinkedProducts([stored]) == {}
  {
    var (stored, v) := ActivateStep(w, d, wh, known, lookup, false);
    assert stored == d;
    if x :| x in LinkedProducts([stored]) {
      assert false;
    }
  }

  /** Saving the link, the product whose stock the activation added is one deactivation
      releases. */
  lemma ResolvedLinkKept(w: World, d: Item, wh: int, known: set<string>, lookup: Lookup)
    requires d.isValid && d.productId.None? && Found(lookup, d).Some?
    ensures var (stored, v) := ActivateStep(w, d, wh, known, lookup, true);
      && stored.productId == Found(lookup, d)
      && v == AddSizes(w, Found(lookup, d).value, wh, d.sizes, true)
      && Found(lookup, d).value in LinkedProducts([stored])
  {
    var (stored, v) := ActivateStep(w, d, wh, known, lookup, true);
    assert stored in [stored];
  }
}
