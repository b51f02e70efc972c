/** saleor/graphql/inventory/mutations/purchase_order_delete.py: a purchase order may be
    deleted only while all its items are DRAFT; the delete then removes the order and,
    by the item's foreign key cascade, its items. */
module PurchaseOrderDelete {
  import opened Wrappers
  import opened Statuses

  /** One purchase-order item row: its order and its status. */
  datatype ItemRow = ItemRow(purchaseOrder: int, status: PoiStatus)

  /** The two tables the delete touches. */
  datatype Tables = Tables(purchaseOrders: set<int>, items: map<int, ItemRow>)

  /** The error codes of the mutation's validation errors. */
  datatype ErrorCode = NotFound | Invalid

  /** One validation error: field, code and, for the guard, the statuses it found. */
  datatype DeleteError = DeleteError(field: string, code: ErrorCode, statuses: set<PoiStatus>)

  function ItemsOf(t: Tables, po: int): (r: set<int>)
    ensures forall i :: i in r <==> i in t.items && t.items[i].purchaseOrder == po
  {
    set i | i in t.items && t.items[i].purchaseOrder == po
  }

  /** The statuses of the non-draft items of a purchase order (the set the message joins). */
  function NonDraftStatuses(t: Tables, po: int): (r: set<PoiStatus>)
    ensures forall s :: s in r <==>
      (s != PoiDraft && exists i :: i in t.items && t.items[i].purchaseOrder == po && t.items[i].status == s)
  {
    set i | i in t.items && t.items[i].purchaseOrder == po && t.items[i].status != PoiDraft :: t.items[i].status
  }

  /** The tables after the delete: the order and its items are gone. */
  function Removed(t: Tables, po: int): Tables {
    Tables(t.purchaseOrders - {po}, map i | i in t.items && t.items[i].purchaseOrder != po :: t.items[i])
  }

  /** The mutation: `get_instance` (an unknown id is an error), the guard, the delete. */
  function Delete(t: Tables, po: int): Result<Tables, DeleteError> {
    if po !in t.purchaseOrders then Err(DeleteError("id", NotFound, {}))
    else
      var statuses := NonDraftStatuses(t, po);
      if statuses != {} then Err(DeleteError("id", Invalid, statuses))
      else Ok(Removed(t, po))
  }

  /** Deletion is rejected exactly when some item of the order is not DRAFT; the error is
      on `id` with code INVALID and names exactly the non-draft statuses. */
  lemma DeleteRejectsNonDraft(t: Tables, po: int, i: int)
    requires po in t.purchaseOrders
    requires i in t.items && t.items[i].purchaseOrder == po && t.items[i].status != PoiDraft
    ensures var r := Delete(t, po);
      r.Err? && r.error.field == "id" && r.error.code == Invalid
      && t.items[i].status in r.error.statuses
      && PoiDraft !in r.error.statuses
  {
    assert t.items[i].status in NonDraftStatuses(t, po);
  }

  /** An all-DRAFT order is deleted together with its items, and nothing else changes. */
  lemma DeleteAllDraft(t: Tables, po: int)
    requires po in t.purchaseOrders
    requires forall i :: i in ItemsOf(t, po) ==> t.items[i].status == PoiDraft
    ensures Delete(t, po).Ok?
    ensures var t' := Delete(t, po).value;
      && po !in t'.purchaseOrders
      && (forall o :: o != po ==> (o in t'.purchaseOrders <==> o in t.purchaseOrders))
      && ItemsOf(t', po) == {}
      && (forall i :: i in t.items && t.items[i].purchaseOrder != po ==> i in t'.items && t'.items[i] == t.items[i])
      && (forall i :: i in t'.items ==> i in t.items)
  {
  }

  /** On rejection the order is preserved: the mutation returns no new tables. */
  lemma DeleteSucceedsIff(t: Tables, po: int)
    ensures Delete(t, po).Ok? <==>
      po in t.purchaseOrders && forall i :: i in ItemsOf(t, po) ==> t.items[i].status == PoiDraft
  {
    if po in t.purchaseOrders && exists i :: i in ItemsOf(t, po) && t.items[i].status != PoiDraft {
      var i :| i in ItemsOf(t, po) && t.items[i].status != PoiDraft;
      DeleteRejectsNonDraft(t, po, i);
    }
    if po in t.purchaseOrders && forall i :: i in ItemsOf(t, po) ==> t.items[i].status == PoiDraft {
      DeleteAllDraft(t, po);
    }
  }
}
