/** saleor/graphql/invoice/mutations/invoice_create_final.py: a Xero final invoice is
    linked to a fulfillment by creating a FINAL Invoice row. The channel permission check
    comes first, then the id must be non-blank and not yet used (after stripping). */
module InvoiceCreateFinal {
  import opened Wrappers
  import opened Statuses
  import opened Text
  import opened InvoiceModel

  /** The fulfillment the GraphQL id resolves to: its key and its order's key. */
  datatype FulfillmentRef = FulfillmentRef(id: int, order: int)

  datatype CreateFinalError =
    | FulfillmentNotFound
    | PermissionDenied
    | XeroInvoiceIdRequired
    | XeroInvoiceIdNotUnique
    | Integrity(e: IntegrityError)

  /** `clean_input`: a blank id is REQUIRED, an id (stripped) already on an invoice is UNIQUE. */
  function CleanInput(invoices: seq<InvoiceRow>, xeroInvoiceId: string): (r: Option<CreateFinalError>)
    ensures r == Some(XeroInvoiceIdRequired) <==> IsBlank(xeroInvoiceId)
    ensures r == Some(XeroInvoiceIdNotUnique) <==>
      !IsBlank(xeroInvoiceId) && exists i :: 0 <= i < |invoices| && invoices[i].xeroInvoiceId == Some(Strip(xeroInvoiceId))
    ensures r.Some? ==> r == Some(XeroInvoiceIdRequired) || r == Some(XeroInvoiceIdNotUnique)
  {
    StripEmptyIffBlank(xeroInvoiceId);
    if xeroInvoiceId == [] || Strip(xeroInvoiceId) == [] then Some(XeroInvoiceIdRequired)
    else if exists i :: 0 <= i < |invoices| && invoices[i].xeroInvoiceId == Some(Strip(xeroInvoiceId)) then Some(XeroInvoiceIdNotUnique)
    else None
  }

  /** The row `perform_mutation` creates. */
  function FinalRow(f: FulfillmentRef, xeroInvoiceId: string, number: Option<string>): InvoiceRow {
    InvoiceRow(Some(f.order), Some(f.id), Some(Strip(xeroInvoiceId)), Final, number, None)
  }

  /** The mutation over the invoice table. `permitted` is the outcome of the channel
      permission check on the fulfillment's order. */
  function CreateFinal(invoices: seq<InvoiceRow>, f: Option<FulfillmentRef>, permitted: bool,
                       xeroInvoiceId: string, number: Option<string>)
    : Result<seq<InvoiceRow>, CreateFinalError>
  {
    if f.None? then Err(FulfillmentNotFound)
    else if !permitted then Err(PermissionDenied)
    else
      var bad := CleanInput(invoices, xeroInvoiceId);
      if bad.Some? then Err(bad.value)
      else match Insert(invoices, FinalRow(f.value, xeroInvoiceId, number))
        case Ok(t) => Ok(t)
        case Err(e) => Err(Integrity(e))
  }

  /** The permission check precedes validation: without permission a blank or duplicate
      id is never reported. */
  lemma PermissionCheckedFirst(invoices: seq<InvoiceRow>, f: FulfillmentRef, xeroInvoiceId: string, number: Option<string>)
    ensures CreateFinal(invoices, Some(f), false, xeroInvoiceId, number) == Err(PermissionDenied)
  {
  }

  /** A blank id is rejected with REQUIRED and a used (stripped) id with UNIQUE. */
  lemma CreateFinalRejects(invoices: seq<InvoiceRow>, f: FulfillmentRef, xeroInvoiceId: string, number: Option<string>)
    ensures IsBlank(xeroInvoiceId) ==> CreateFinal(invoices, Some(f), true, xeroInvoiceId, number) == Err(XeroInvoiceIdRequired)
    ensures !IsBlank(xeroInvoiceId) && (exists i :: 0 <= i < |invoices| && invoices[i].xeroInvoiceId == Some(Strip(xeroInvoiceId))) ==>
      CreateFinal(invoices, Some(f), true, xeroInvoiceId, number) == Err(XeroInvoiceIdNotUnique)
  {
  }

  /** After validation the Xero id constraint cannot fail; the only integrity error left is
      a second FINAL invoice for the same fulfillment. On success the table grows by one
      FINAL row on the fulfillment's order carrying the stripped id. */
  lemma CreateFinalOutcome(invoices: seq<InvoiceRow>, f: FulfillmentRef, xeroInvoiceId: string, number: Option<string>)
    requires !IsBlank(xeroInvoiceId)
    requires forall i :: 0 <= i < |invoices| ==> invoices[i].xeroInvoiceId != Some(Strip(xeroInvoiceId))
    ensures var r := CreateFinal(invoices, Some(f), true, xeroInvoiceId, number);
      && r != Err(Integrity(DuplicateXeroInvoiceId))
      && (r.Err? <==> exists i :: 0 <= i < |invoices| && invoices[i].fulfillment == Some(f.id) && invoices[i].invoiceType == Final)
      && (r.Ok? ==> r.value == invoices + [InvoiceRow(Some(f.order), Some(f.id), Some(Strip(xeroInvoiceId)), Final, number, None)])
  {
    var row := FinalRow(f, xeroInvoiceId, number);
    assert CleanInput(invoices, xeroInvoiceId) == None;
    if exists i :: 0 <= i < |invoices| && invoices[i].fulfillment == Some(f.id) && invoices[i].invoiceType == Final {
      var i :| 0 <= i < |invoices| && invoices[i].fulfillment == Some(f.id) && invoices[i].invoiceType == Final;
      assert SameFulfillmentAndType(invoices[i], row);
    }
  }

  /** A proforma and a final invoice can both exist for one fulfillment. */
  lemma ProformaDoesNotBlockFinal(p: InvoiceRow, f: FulfillmentRef, xeroInvoiceId: string, number: Option<string>)
    requires p.fulfillment == Some(f.id) && p.invoiceType == Proforma && p.xeroInvoiceId.None?
    requires !IsBlank(xeroInvoiceId)
    ensures CreateFinal([p], Some(f), true, xeroInvoiceId, number).Ok?
  {
    CreateFinalOutcome([p], f, xeroInvoiceId, number);
  }
}
