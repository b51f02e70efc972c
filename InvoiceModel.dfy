/** saleor/invoice/models.py: the Invoice row, its `url` property and `update_invoice`,
    and the two table constraints that matter here: one invoice per (fulfillment, type)
    when a fulfillment is set, and a unique Xero invoice id. */
module InvoiceModel {
  import opened Wrappers
  import opened Statuses

  /** The Invoice columns the core reads and writes. */
  datatype InvoiceRow = InvoiceRow(
    order: Option<int>,
    fulfillment: Option<int>,
    xeroInvoiceId: Option<string>,
    invoiceType: InvoiceType,
    number: Option<string>,
    created: Option<int>)

  /** The `type` column's default. */
  function TypeOrDefault(t: Option<InvoiceType>): (r: InvoiceType)
    ensures t.None? ==> r == Final
    ensures t.Some? ==> r == t.value
  {
    if t.Some? then t.value else Final
  }

  datatype IntegrityError = DuplicateFulfillmentType | DuplicateXeroInvoiceId

  /** `unique_invoice_per_fulfillment_type` (rows without a fulfillment never clash). */
  predicate SameFulfillmentAndType(a: InvoiceRow, b: InvoiceRow) {
    a.fulfillment.Some? && a.fulfillment == b.fulfillment && a.invoiceType == b.invoiceType
  }

  /** The unique `xero_invoice_id` column (NULLs never clash). */
  predicate SameXeroId(a: InvoiceRow, b: InvoiceRow) {
    a.xeroInvoiceId.Some? && a.xeroInvoiceId == b.xeroInvoiceId
  }

  predicate Consistent(table: seq<InvoiceRow>) {
    forall i, j :: 0 <= i < j < |table| ==>
      !SameFulfillmentAndType(table[i], table[j]) && !SameXeroId(table[i], table[j])
  }

  /** The constraint check of an INSERT. */
  function Insert(table: seq<InvoiceRow>, row: InvoiceRow): (r: Result<seq<InvoiceRow>, IntegrityError>)
    ensures r.Ok? <==> forall i :: 0 <= i < |table| ==>
      !SameFulfillmentAndType(table[i], row) && !SameXeroId(table[i], row)
    ensures r.Ok? ==> r.value == table + [row]
  {
    if exists i :: 0 <= i < |table| && SameFulfillmentAndType(table[i], row) then Err(DuplicateFulfillmentType)
    else if exists i :: 0 <= i < |table| && SameXeroId(table[i], row) then Err(DuplicateXeroInvoiceId)
    else Ok(table + [row])
  }

  /** The constraints hold after every successful insert. */
  lemma InsertKeepsConsistent(table: seq<InvoiceRow>, row: InvoiceRow)
    requires Consistent(table)
    requires Insert(table, row).Ok?
    ensures Consistent(Insert(table, row).value)
  {
    var t := Insert(table, row).value;
    forall i, j | 0 <= i < j < |t|
      ensures !SameFulfillmentAndType(t[i], t[j]) && !SameXeroId(t[i], t[j])
    {
      if j == |table| {
        assert t[i] == table[i] && t[j] == row;
      } else {
        assert t[i] == table[i] && t[j] == table[j];
      }
    }
  }

  /** In a consistent table a fulfillment has at most one invoice of each type. */
  lemma AtMostOnePerFulfillmentType(table: seq<InvoiceRow>, i: int, j: int)
    requires Consistent(table)
    requires 0 <= i < |table| && 0 <= j < |table|
    requires table[i].fulfillment.Some? && table[i].fulfillment == table[j].fulfillment
    requires table[i].invoiceType == table[j].invoiceType
    ensures i == j
  {
    if i < j {
      assert SameFulfillmentAndType(table[i], table[j]);
    } else if j < i {
      assert SameFulfillmentAndType(table[j], table[i]);
    }
  }

  /** An invoice saved without a type is FINAL, so it is refused for a fulfillment that
      already has a FINAL invoice. */
  lemma UntypedInvoiceIsFinal(table: seq<InvoiceRow>, row: InvoiceRow, k: int)
    requires 0 <= k < |table| && table[k].fulfillment.Some? && table[k].invoiceType == Final
    requires row.fulfillment == table[k].fulfillment && row.invoiceType == TypeOrDefault(None)
    ensures Insert(table, row) == Err(DuplicateFulfillmentType)
  {
    assert SameFulfillmentAndType(table[k], row);
  }

  /** What the `url` property yields: the route serving the stored file, or the
      external URL. */
  datatype InvoiceUrl = ServedFile(invoiceId: int) | ExternalUrl(url: Option<string>)

  /** An Invoice object: the fields `url` and `update_invoice` touch. */
  class Invoice {
    const pk: int
    var number: Option<string>
    var externalUrl: Option<string>
    var hasFile: bool

    constructor (pk: int, number: Option<string>, externalUrl: Option<string>, hasFile: bool)
      ensures this.pk == pk && this.number == number
      ensures this.externalUrl == externalUrl && this.hasFile == hasFile
    {
      this.pk := pk;
      this.number := number;
      this.externalUrl := externalUrl;
      this.hasFile := hasFile;
    }

    /** The `url` getter: the external URL when there is no stored file. */
    function Url(): (r: InvoiceUrl)
      reads this
      ensures !hasFile ==> r == ExternalUrl(externalUrl)
      ensures hasFile ==> r == ServedFile(pk)
    {
      if hasFile then ServedFile(pk) else ExternalUrl(externalUrl)
    }

    /** The `url` setter writes `external_url` only. */
    method SetUrl(value: Option<string>)
      modifies this
      ensures externalUrl == value
      ensures number == old(number) && hasFile == old(hasFile)
    {
      externalUrl := value;
    }

    /** `update_invoice`: a field given as None keeps its value. */
    method UpdateInvoice(newNumber: Option<string>, newUrl: Option<string>)
      modifies this
      ensures number == (if newNumber.Some? then newNumber else old(number))
      ensures externalUrl == (if newUrl.Some? then newUrl else old(externalUrl))
      ensures hasFile == old(hasFile)
    {
      if newNumber.Some? {
        number := newNumber;
      }
      if newUrl.Some? {
        externalUrl := newUrl;
      }
    }
  }

  /** Setting the url of an invoice without a file makes the getter return it. */
  method SetThenGet(inv: Invoice, value: Option<string>) returns (r: InvoiceUrl)
    requires !inv.hasFile
    modifies inv
    ensures r == ExternalUrl(value)
  {
    inv.SetUrl(value);
    r := inv.Url();
  }
}
