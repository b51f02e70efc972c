/** saleor/media_views.py: the two views that hand out stored files, export files and
    invoices, only to their owner or to staff. The records are looked up by primary key in
    a map; a user is identified by its primary key. */
module MediaViews {
  import opened Wrappers

  datatype Requester = Anonymous | Authenticated(id: int, isStaff: bool)

  datatype ExportFile = ExportFile(user: Option<int>, hasContent: bool)

  datatype OrderRef = OrderRef(user: Option<int>)

  datatype Invoice = Invoice(order: Option<OrderRef>, hasFile: bool)

  datatype HttpMethod = Get | Head | Post | Put | Patch | Delete | Options

  datatype Response =
    | MethodNotAllowed
    | NotFound(message: string)
    | Unauthorized
    | Forbidden
    | Attachment(contentType: string)

  const CsvType := "text/csv"
  const PdfType := "application/pdf"

  /** The owner, or any staff member, may read a file. */
  predicate MayRead(r: Requester, owner: Option<int>) {
    r.Authenticated? && ((owner.Some? && owner.value == r.id) || r.isStaff)
  }

  /** The decision both views share: the record must exist before anything else is
      checked, then the requester must be signed in, then be the owner or staff, and only
      then is a missing file reported. */
  function Serve(m: HttpMethod, found: bool, owner: Option<int>, hasFile: bool, r: Requester, contentType: string): Response {
    if m != Get && m != Head then MethodNotAllowed
    else if !found then NotFound("")
    else if !r.Authenticated? then Unauthorized
    else if !MayRead(r, owner) then Forbidden
    else if !hasFile then NotFound("File not available")
    else Attachment(contentType)
  }

  /** Each response of the export view, exactly when it is given. */
  function ServeExportFile(m: HttpMethod, files: map<int, ExportFile>, fileId: int, r: Requester): (resp: Response)
    ensures (resp == MethodNotAllowed <==> m != Get && m != Head)
    ensures (resp == NotFound("Export file not found") <==> (m == Get || m == Head) && fileId !in files)
    ensures (resp == Unauthorized <==> (m == Get || m == Head) && fileId in files && r.Anonymous?)
    ensures (resp == Forbidden <==> (m == Get || m == Head) && fileId in files && r.Authenticated? && !MayRead(r, files[fileId].user))
    ensures (resp == NotFound("File not available") <==> (m == Get || m == Head) && fileId in files && MayRead(r, files[fileId].user) && !files[fileId].hasContent)
    ensures (resp.Attachment? <==> (m == Get || m == Head) && fileId in files && MayRead(r, files[fileId].user) && files[fileId].hasContent)
    ensures (resp.Attachment? ==> resp.contentType == CsvType)
  {
    var d := Serve(m, fileId in files, if fileId in files then files[fileId].user else None,
                      fileId in files && files[fileId].hasContent, r, CsvType);
    if d == NotFound("") then NotFound("Export file not found") else d
  }

  /** The owner of an invoice is the user of its order; an invoice without an order, or
      whose order has no user, belongs to nobody. */
  function InvoiceOwner(i: Invoice): Option<int> {
    if i.order.Some? then i.order.value.user else None
  }

  /** Each response of the invoice view, exactly when it is given. */
  function ServeInvoice(m: HttpMethod, invoices: map<int, Invoice>, invoiceId: int, r: Requester): (resp: Response)
    ensures (resp == MethodNotAllowed <==> m != Get && m != Head)
    ensures (resp == NotFound("Invoice not found") <==> (m == Get || m == Head) && invoiceId !in invoices)
    ensures (resp == Unauthorized <==> (m == Get || m == Head) && invoiceId in invoices && r.Anonymous?)
    ensures (resp == Forbidden <==> (m == Get || m == Head) && invoiceId in invoices && r.Authenticated? && !MayRead(r, InvoiceOwner(invoices[invoiceId])))
    ensures (resp == NotFound("File not available") <==> (m == Get || m == Head) && invoiceId in invoices && MayRead(r, InvoiceOwner(invoices[invoiceId])) && !invoices[invoiceId].hasFile)
    ensures (resp.Attachment? <==> (m == Get || m == Head) && invoiceId in invoices && MayRead(r, InvoiceOwner(invoices[invoiceId])) && invoices[invoiceId].hasFile)
    ensures (resp.Attachment? ==> resp.contentType == PdfType)
  {
    var d := Serve(m, invoiceId in invoices, if invoiceId in invoices then InvoiceOwner(invoices[invoiceId]) else None,
                      invoiceId in invoices && invoices[invoiceId].hasFile, r, PdfType);
    if d == NotFound("") then NotFound("Invoice not found") else d
  }

  /** A file with no owner is served to staff only; an anonymous requester is never
      served, whoever owns the record. */
  lemma OwnerlessIsStaffOnly(m: HttpMethod, files: map<int, ExportFile>, fileId: int, r: Requester)
    requires fileId in files && files[fileId].user.None?
    ensures ServeExportFile(m, files, fileId, r).Attachment? ==> r.Authenticated? && r.isStaff
    ensures r.Anonymous? ==> !ServeExportFile(m, files, fileId, r).Attachment?
  {
  }

  /** The invoice view decides as the export view would for a file owned by the
      invoice's order's user, differing only in the not-found text and the content type. */
  lemma InvoiceLikeExport(m: HttpMethod, invoices: map<int, Invoice>, invoiceId: int, r: Requester)
    requires invoiceId in invoices
    ensures var i := invoices[invoiceId];
      var e := ServeExportFile(m, map[invoiceId := ExportFile(InvoiceOwner(i), i.hasFile)], invoiceId, r);
      var v := ServeInvoice(m, invoices, invoiceId, r);
      (e.Attachment? <==> v.Attachment?) && (!e.Attachment? ==> e == v)
  {
  }
}
