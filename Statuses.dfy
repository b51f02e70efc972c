/** The enumerations the core works with, one datatype per enum of the repository.
    Only the members the modelled code distinguishes are essential; the rest keep
    the status spaces complete. */
module Statuses {
  /** saleor/inventory/__init__.py */
  datatype PoiStatus = PoiDraft | PoiConfirmed | PoiReceived | PoiCancelled

  /** The order statuses the core reads or writes (the enum file is not part of this model). */
  datatype OrderStatus =
    | Draft | Unconfirmed | Unfulfilled | PartiallyFulfilled | Fulfilled
    | PartiallyReturned | Returned | Canceled | Expired

  /** Fulfillment statuses used by the approval workflow. */
  datatype FulfillmentStatus =
    | WaitingForApproval | FulfillmentFulfilled | FulfillmentCanceled | Refunded
    | Replaced | RefundedAndReturned | FulfillmentReturned

  datatype PickStatus = NotStarted | InProgress | Completed

  /** saleor/shipping/__init__.py ShipmentType */
  datatype ShipmentType = Inbound | Outbound

  /** saleor/invoice/__init__.py InvoiceType; FINAL is the default. */
  datatype InvoiceType = Final | Proforma

  /** saleor/product/__init__.py PriceListStatus */
  datatype PriceListStatus = Active | Inactive
}
