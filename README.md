# A verified model of an inventory, fulfillment and price-list backend

This project models, in Dafny, the business core of a Saleor-based wholesale shop. The shop buys stock from suppliers through purchase orders. It moves that stock into its own warehouses and fulfills customer orders against it. It takes deposits and proforma payments, and it keeps supplier price lists and product sheets in sync with the catalogue.

The database rows the code reads through the ORM are immutable values here: stock rows, allocations and their sources, purchase-order items, fulfillments, shipments, invoices, payments and price-list items. An operation that changes the database returns the new rows, or an `Err` standing for the exception or validation error the code raises. Where the source works step by step, with loops over items, running counters or accumulated error lists, the model is a `method` with loop invariants. Each such method is proved equal to a specification function, and the properties the code promises are proved as lemmas about that function. A few stateful pieces are classes with `modifies` frames: the rate limiter's cache, the VIES answer cache and the proforma invoice store.

The modelled parts are:

- **Purchase orders and stock movement.**
  - Creating, confirming and deleting purchase orders.
  - Confirming one item: stock moves from the supplier warehouse to an owned one, and waiting allocations are re-homed first in first out.
  - Receiving an item.
  - Inbound shipments under the Incoterms 2020 cost rule.
  - The purchase-order-item arithmetic: available quantity, received quantity, adjusted unit price and the financial impact of an adjustment.
- **Orders and fulfillments.**
  - The deposit threshold and the remaining deposit.
  - Cancellation.
  - The inventory-ready and missing-inventory filters, received and fulfillable quantities, and received inventory.
  - The auto-transition gate and fulfillment numbering.
  - Outbound shipments, linking a fulfillment to a shipment, departure and the proforma-paid transition.
  - The `create_missing_fulfillments` command.
- **Deposits and invoices.**
  - The proforma deposit allocator.
  - Deposit settings, the threshold override and prepayment replacement.
  - Recording Xero payments.
  - Final invoices and the Invoice row's `url`.
- **Prices and taxes.**
  - Shipping cost replacement.
  - The order-line price override.
  - Flat-rate tax selection with the export override.
  - VAT exemption, and VAT number normalisation with its validation cache.
- **Packs.**
  - Hamilton (largest remainder) apportionment of a pack across variants.
  - The minimum-order-quantity rule, both in the mutation and in its preview resolver.
- **Sheets and price lists.**
  - The price-list field parsers.
  - The `size[qty]` notation, in both the parser and the export formatter.
  - Product ingestion: configuration round trip, guards, deduplication and merging, slugs, stock and price writes, and the GraphQL error mapping.
  - The price-list life cycle: process, activate, deactivate and replace.
  - The `update_availabilities` and `merge_products` commands.
- **Utilities.**
  - The sliding-window rate limiter and client address.
  - The contact form.
  - The access decision of the media views.

Money is `real` where the source divides `Decimal` amounts, and `int` elsewhere. Strings are `seq<char>`; only the ASCII part of Python's case, whitespace, letter and digit tables is modelled, so `str.isalpha`, `str.isdigit` and the regular expression class `\D` stand for their ASCII cases. The modules follow the source files one to one, plus the shared record modules `WarehouseRecords`, `Shipments`, `Statuses`, `Addresses`, `Wrappers`, `Sums`, `Text`, `UrlParse`, `Grouping` and `IngestionData`.

## Model

| member | source | states |
|---|---|---|
| StockManagement.MoveConserves | saleor/inventory/stock_management.py:104-151 | every unit taken off the source's allocated count is added to the destination's; physical quantities are not changed by the allocation loop |
| StockManagement.MoveKeepsDestinationCovered | saleor/inventory/stock_management.py:104-141 | the allocation loop never allocates more at the destination than it holds |
| StockManagement.MoveFrame | saleor/inventory/stock_management.py:104-151 | allocations outside the FIFO queue are left unchanged |
| StockManagement.SplitRemainderPositive | saleor/inventory/stock_management.py:121-148 | a split allocation always keeps a positive remainder, so the delete branch is never taken |
| StockManagement.MoveLeadingWhole | saleor/inventory/stock_management.py:104-120 | the leading allocations that fit move whole to the destination with their quantity |
| StockManagement.MoveTailUntouched | saleor/inventory/stock_management.py:121-151 | allocations after the split one are not touched, since the loop stops at the first split |
| StockManagement.MoveSplitFillsDestination | saleor/inventory/stock_management.py:121-148 | the split allocation keeps the units that did not fit, and a new destination allocation takes `min(room, quantity)` |
| StockManagement.MoveAllFit | saleor/inventory/stock_management.py:104-120 | when every allocation fits, all of their units are moved |
| StockManagement.MoveFailsOnlyForSources | saleor/inventory/stock_management.py:111-116 | the allocation loop fails only when `allocate_sources` raises InsufficientStock (also lines 133-137) |
| StockManagement.CollectOrdersToCheck | saleor/inventory/stock_management.py:78-82 | the collected orders are exactly the UNCONFIRMED orders of the queued allocations, each once |
| StockManagement.MoveAllocationsLoop | saleor/inventory/stock_management.py:104-151 | the loop, with its early exit at the first split, computes the specification function of the move |
| StockManagement.AutoConfirmLoop | saleor/inventory/stock_management.py:157-160 | re-checking each collected order gives the statuses of the specification function |
| StockManagement.ConfirmPurchaseOrderItem | saleor/inventory/stock_management.py:14-162 | the imperative confirmation equals the specification function `Confirm` |
| StockManagement.ConfirmRequiresDraft | saleor/inventory/stock_management.py:32-35 | an item that is not DRAFT is refused with InvalidPurchaseOrderItemStatus |
| StockManagement.ConfirmValidation | saleor/inventory/stock_management.py:56-65 | an owned source, a non-owned destination or too little stock at the source is refused; past these only the source oracle can fail |
| StockManagement.ConfirmMovesStock | saleor/inventory/stock_management.py:87-95 | the destination gains exactly the ordered quantity; the source loses it, or drops to 0 when it had fewer free units |
| StockManagement.ConfirmKeepsDestinationCovered | saleor/inventory/stock_management.py:87-141 | a confirmation never over-allocates an owned destination that was covered before |
| StockManagement.ConfirmFifo | saleor/inventory/stock_management.py:104-151 | in creation order, the leading allocations that fit move whole, later ones are untouched, and at most one new allocation is created (also lines 68-72); the room is the destination's free units plus the delivered quantity (helpers ConfirmIsMove and FifoQueueLoaded) |
| StockManagement.ConfirmAutoConfirms | saleor/inventory/stock_management.py:78-82 | an order changes status only from UNCONFIRMED to UNFULFILLED, exactly when it had an allocation at the source and `can_confirm_order` holds afterwards, with `can_confirm_order` read as `ready_to_fulfill_with_inventory` (StockManagement.CanConfirmOrder) (also lines 157-160) |
| StockManagement.ReceiveAsWritten | saleor/inventory/stock_management.py:184-191 | the code as written: past the status check the assignment to the read-only `quantity_received` raises |
| StockManagement.ReceiveAsWrittenNeverSucceeds | saleor/inventory/stock_management.py:189 | no item is ever received by the code as written |
| StockManagement.ReceivePurchaseOrderItem | saleor/inventory/stock_management.py:184-191 | With the corrected rule of finding 1 (the code as written is modelled apart): a CONFIRMED item becomes RECEIVED with the actual quantity recorded; any other status is refused |
| StockManagement.ReceivedIsFinal | saleor/inventory/stock_management.py:32-35 | a received item can be neither confirmed nor received again (also lines 184-187) |
| InventoryModels.AvailableQuantity | saleor/inventory/models.py:131-157 | never negative, and either 0 or ordered plus processed adjustments minus allocated minus fulfilled, never below that |
| InventoryModels.FilteredSumIsProcessedSum | saleor/inventory/models.py:149-154 | summing the changes of the processed adjustments is the processed sum the formula uses |
| InventoryModels.AnnotationAgrees | saleor/inventory/models.py:80-97 | the annotated value (`AnnotatedAvailable`) and the fallback property agree on every item (also lines 143-157) |
| InventoryModels.UnprocessedIgnored | saleor/inventory/models.py:149-154 | recording an adjustment that is not yet processed leaves the available quantity unchanged (also lines 138-140) |
| InventoryModels.QuantityReceived | saleor/inventory/models.py:159-169 | the sum over receipt lines, 0 when there are none |
| InventoryModels.UnitPriceZeroWhenNothingOrdered | saleor/inventory/models.py:183-184 | with nothing ordered the unit price (`UnitPriceAmount`) is 0 |
| InventoryModels.SupplierCreditKeepsUnitPrice | saleor/inventory/models.py:186-207 | when every processed adjustment is credited by the supplier, the unit price (`UnitPriceAmount`) stays total/ordered |
| InventoryModels.AbsorbedLossSpreadsCost | saleor/inventory/models.py:195-209 | in `UnitPriceAmount`, non-payable losses spread the same cost over the adjusted quantity; with no units left the base price is returned |
| InventoryModels.FinancialImpact | saleor/inventory/models.py:345-358 | the change priced at total/ordered, 0 when nothing was ordered |
| InventoryModels.FinancialImpactIndependent | saleor/inventory/models.py:352-358 | the impact depends on the item only through its total and its ordered quantity, not on other adjustments |
| InventoryModels.Save | saleor/inventory/models.py:250-271 | saving fails exactly when a linked shipment is not INBOUND, and otherwise keeps the item as it is |
| OrderModels.DepositCaptures | saleor/order/models.py:488-498 | the captured amounts of the active Xero deposit payments, at most one per payment |
| OrderModels.ThresholdMonotone | saleor/order/models.py:488-507 | recording a further non-negative deposit payment never un-meets the deposit threshold (`DepositThresholdMet`) |
| OrderModels.RemainingDeposit | saleor/order/models.py:509-518 | 0 when nothing is paid, otherwise paid minus everything credited to fulfillments, with no clamping |
| OrderModels.RemainingNegativeOnlyWhenOverCredited | saleor/order/models.py:509-518 | the remaining deposit is negative exactly when more was credited than paid |
| OrderModels.Blocking | saleor/order/models.py:597-607 | the fulfillment statuses outside canceled/refunded/replaced/returned, in order |
| OrderModels.CanCancelAppend | saleor/order/models.py:591-607 | a further fulfillment keeps an order cancellable exactly when its status allows cancelling (canceled, refunded, replaced or returned), so one open fulfillment blocks `can_cancel` |
| OrderModels.NextFulfillmentOrder | saleor/order/models.py:976-982 | one more than the largest existing fulfillment number, 1 when there is none |
| OrderModels.SaveFulfillment | saleor/order/models.py:958-987 | a new fulfillment is numbered; saving fails exactly when a linked shipment is not OUTBOUND |
| OrderModels.NewFulfillmentNumberFresh | saleor/order/models.py:976-982 | a newly saved fulfillment never reuses a number of its order |
| OrderModels.OwnedOnlyMembers | saleor/order/models.py:1021 | the owned filter keeps exactly the allocations whose warehouse is owned |
| OrderModels.CheckAllocation | saleor/order/models.py:1023-1041 | one allocation passes iff its sources add up to its quantity and every source item has an arrived shipment |
| OrderModels.HasInventoryReceived | saleor/order/models.py:1004-1043 | the loops with their early returns compute the specification predicate `InventoryReceived` |
| OrderModels.CheckLineAllocations | saleor/order/models.py:1020-1041 | the inner loop over one order line's owned allocations: when it passes, every owned allocation seen so far has been received and the owned flag says whether there is one; when it fails, it names an owned allocation that has not been received |
| OrderModels.NotReceivedWitness | saleor/order/models.py:1030-1041 | one owned allocation that is not received makes the answer false |
| OrderModels.NothingOwnedNotReceived | saleor/order/models.py:1016-1043 | with no owned-warehouse allocation the inventory never counts as received |
| WarehouseQueries.FilterOrdersWithInventoryReady | saleor/warehouse/queries.py:8-80 | keeps exactly the orders that have an allocation and no violating allocation; their order is not stated |
| WarehouseQueries.GetOrdersMissingInventory | saleor/warehouse/queries.py:83-137 | keeps exactly the orders with a violating allocation; their order is not stated |
| WarehouseQueries.ReadyAndMissingDisjoint | saleor/warehouse/queries.py:83-137 | no order is selected by both filters (also lines 72-80) |
| WarehouseQueries.ReadyOrMissingIffAllocated | saleor/warehouse/queries.py:65-80 | an order is selected by one of the two filters iff it has an allocation, so they are inverses only on allocated orders (also line 93) |
| WarehouseQueries.NoAdjustmentsBlocksReadinessAsWritten | saleor/warehouse/queries.py:54-59 | as written, an item with no adjustments at all matches the "unprocessed adjustment" test, so its order is never ready |
| WarehouseQueries.ReceivedWithoutAdjustmentsIsReady | saleor/warehouse/queries.py:36-80 | with the intended test, an owned, fully sourced allocation whose items are received and have no adjustments makes its order ready (also lines 9-16) |
| WarehouseQueries.ReadyImpliesReadyToFulfill | saleor/warehouse/queries.py:36-80 | the ready filter implies the order model's `ready_to_fulfill_with_inventory` (`ReadyToFulfillWithInventory`) for an UNCONFIRMED order (also saleor/order/models.py:100-139) |
| StockUtils.GetReceivedQuantityForOrderLine | saleor/warehouse/stock_utils.py:7-28 | the accumulating loop computes `ReceivedQuantity`, the received quantity of the line's allocations, restricted to the warehouse when one is given |
| StockUtils.ReceivedNotCapped | saleor/warehouse/stock_utils.py:20-26 | an allocation with one source counts that item's whole receipt total `t`, whatever `t` is, so a receipt beyond the allocated quantity is not capped at it |
| StockUtils.WarehouseFilterRestricts | saleor/warehouse/stock_utils.py:16-17 | restricting to a warehouse drops the allocations held elsewhere |
| StockUtils.ReceivedNonNegative | saleor/warehouse/stock_utils.py:19-28 | with non-negative receipt totals the received quantity is non-negative |
| StockUtils.FulfillableQuantity | saleor/warehouse/stock_utils.py:31-45 | never negative, and either 0 or min(received, ordered) minus what was fulfilled |
| StockUtils.FulfillableBounded | saleor/warehouse/stock_utils.py:45 | nothing is fulfillable beyond what was received or ordered, net of what was fulfilled |
| Shipments.ParseIncoTerm | saleor/shipping/__init__.py:21-46 | a string parses to an Incoterm only when it is that Incoterm's code |
| Shipments.ParseIncoTermCode | saleor/shipping/__init__.py:21-46 | every one of the eleven codes parses back to its Incoterm |
| Receiving.FirstIneligible | saleor/shipping/receiving.py:66-76 | the position of the first item that is not CONFIRMED or is already on a shipment, `|items|` when there is none |
| Receiving.CostProblemAsWritten | saleor/shipping/receiving.py:78-90 | the code as written: it accepts exactly what the intended rule accepts plus a negative cost under a seller-pays Incoterm; EXW with a non-zero cost and a seller-pays term with cost 0 are refused with their own errors |
| Receiving.CostProblem | saleor/shipping/receiving.py:78-90 | With the corrected rule of finding 3 (the code as written is modelled apart): no cost problem exactly when the cost fits the Incoterm: 0 for EXW, positive for the seller-pays terms, anything when no term or cost is given |
| Receiving.NegativeCostAcceptedAsWritten | saleor/shipping/receiving.py:86-90 | the code as written accepts a cost of -5 under FOB, which the intended rule refuses |
| Receiving.CostRulesAgreeOnNonNegative | saleor/shipping/receiving.py:78-90 | for non-negative costs the code as written and the intended rule agree |
| Receiving.Assigned | saleor/shipping/receiving.py:110-112 | every item, in order, is put on the new shipment |
| Receiving.AssignedEvents | saleor/shipping/receiving.py:114-120 | one audit event per item, naming the item and the shipment, in the items' order |
| Receiving.ValidateItems | saleor/shipping/receiving.py:66-76 | the validation loop reports the first bad item with its reason, or nothing |
| Receiving.LinkItems | saleor/shipping/receiving.py:109-120 | the linking loop puts every item on the shipment and logs its event |
| Receiving.CreateInboundShipment | saleor/shipping/receiving.py:26-122 | With the corrected rule of finding 3 (the code as written is modelled apart): the imperative `create_shipment` equals the specification function `CreateShipment` |
| Receiving.CreateShipmentSucceedsIff | saleor/shipping/receiving.py:66-90 | With the corrected rule of finding 3 (the code as written is modelled apart): a shipment is created exactly when every item is confirmed and unshipped and the cost fits the Incoterm |
| Receiving.CreateShipmentReportsFirstBadItem | saleor/shipping/receiving.py:66-90 | item errors come before cost errors, and the first bad item is the one reported |
| Receiving.CreateShipmentOutcome | saleor/shipping/receiving.py:92-122 | a created shipment is INBOUND, not departed and keeps the requested fields and cost; every item is on it, still CONFIRMED, with one event each |
| Receiving.CreatedShipmentCostFitsIncoTerm | saleor/shipping/receiving.py:78-90 | With the corrected rule of finding 3 (the code as written is modelled apart): a created shipment's cost obeys the Incoterm rule |
| Receiving.ItemsShipOnce | saleor/shipping/receiving.py:73-76 | items put on a shipment cannot be put on a second one (also lines 110-112) |
| OutboundShipment.Ids | saleor/graphql/shipping/mutations/outbound_shipment_create.py:65-68 | the fulfillment ids, one per fulfillment, in order |
| OutboundShipment.Selected | saleor/graphql/shipping/mutations/outbound_shipment_create.py:70-74 | the table rows whose id was asked for, and all of them |
| OutboundShipment.SelectedDistinct | saleor/graphql/shipping/mutations/outbound_shipment_create.py:70-74 | a selection from a key-ordered table never lists a fulfillment twice |
| OutboundShipment.SelectedCountIff | saleor/graphql/shipping/mutations/outbound_shipment_create.py:70-77 | the count check passes iff the requested ids are distinct and all exist |
| OutboundShipment.FirstUnlinkable | saleor/graphql/shipping/mutations/outbound_shipment_create.py:121-132 | the position of the first fulfillment that is not WAITING_FOR_APPROVAL or is already linked; all before it are linkable |
| OutboundShipment.SingleDestinationIff | saleor/graphql/shipping/mutations/outbound_shipment_create.py:134-148 | at most one destination key exactly when all fulfillments with an address share it |
| OutboundShipment.LinkedToShipment | saleor/graphql/shipping/mutations/outbound_shipment_create.py:104-108 | every fulfillment is put on the new shipment with the request's tracking URL, nothing else changed |
| OutboundShipment.CheckLinkable | saleor/graphql/shipping/mutations/outbound_shipment_create.py:121-132 | the status loop reports the first unlinkable fulfillment's problem, or nothing |
| OutboundShipment.CollectDestinations | saleor/graphql/shipping/mutations/outbound_shipment_create.py:135-143 | the destinations loop collects the destination keys of the fulfillments with an address |
| OutboundShipment.LinkFulfillments | saleor/graphql/shipping/mutations/outbound_shipment_create.py:104-108 | the linking loop computes `LinkedToShipment` |
| OutboundShipment.OutboundShipmentCreate | saleor/graphql/shipping/mutations/outbound_shipment_create.py:57-110 | the imperative mutation equals the specification function `CreateOutbound` |
| OutboundShipment.CreateOutboundRequires | saleor/graphql/shipping/mutations/outbound_shipment_create.py:70-148 | a shipment is created only for a non-empty list of distinct existing ids whose fulfillments wait for approval unlinked and share one destination |
| OutboundShipment.RepeatedIdNotFound | saleor/graphql/shipping/mutations/outbound_shipment_create.py:76-77 | a repeated id is reported as "Some fulfillments not found" though every fulfillment exists |
| OutboundShipment.CreateOutboundOutcome | saleor/graphql/shipping/mutations/outbound_shipment_create.py:82-110 | an OUTBOUND, not departed shipment from the first fulfillment's warehouse to its order's address, with every selected fulfillment on it (also lines 151-169) |
| OutboundShipment.DestinationCheckIgnoresCountry | saleor/graphql/shipping/mutations/outbound_shipment_create.py:138-142 | the destination check compares street, city and postal code only, not the country |
| OutboundShipment.AddresslessFulfillmentMayJoin | saleor/graphql/shipping/mutations/outbound_shipment_create.py:86-91 | only the first fulfillment needs an address; the others may have none (also line 137) |
| ShipmentDeparted.MarkDepartedSpec | saleor/graphql/shipping/mutations/shipment_mark_departed.py:44-66 | `MarkDeparted` succeeds exactly for an outbound shipment not yet departed, records the given time or the clock, and changes nothing else |
| ShipmentDeparted.DepartsOnce | saleor/graphql/shipping/mutations/shipment_mark_departed.py:54-58 | a second call always fails, reporting the first departure time |
| ShipmentDeparted.InboundShipmentsDoNotDepart | saleor/graphql/shipping/mutations/shipment_mark_departed.py:47-52 | inbound shipments from `create_shipment` are never marked departed (also saleor/shipping/receiving.py:92-107) |
| ShipmentDeparted.OutboundShipmentsCanDepart | saleor/graphql/shipping/mutations/shipment_mark_departed.py:47-64 | a freshly created outbound shipment can always be marked departed (also saleor/graphql/shipping/mutations/outbound_shipment_create.py:93-102) |
| FulfillmentLink.AddressesMatchSymmetric | saleor/graphql/shipping/mutations/fulfillment_link_to_shipment.py:148-160 | address matching is symmetric |
| FulfillmentLink.AddressesMatchPresence | saleor/graphql/shipping/mutations/fulfillment_link_to_shipment.py:151-152 | a missing address matches nothing, not even another missing one; a present address matches itself |
| FulfillmentLink.MatchImpliesSameDestinationKey | saleor/graphql/shipping/mutations/fulfillment_link_to_shipment.py:155-160 | matching addresses agree on the outbound destination key, but not conversely, since that key leaves out the country (also saleor/graphql/shipping/mutations/outbound_shipment_create.py:138-142) |
| FulfillmentLink.LinkSucceedsIff | saleor/graphql/shipping/mutations/fulfillment_link_to_shipment.py:47-146 | the link succeeds exactly when both rows exist, the shipment is outbound and not departed, the fulfillment waits for approval unlinked, the destinations match and a known source matches |
| FulfillmentLink.LinkChangesOnlyTracking | saleor/graphql/shipping/mutations/fulfillment_link_to_shipment.py:74-76 | nothing but the tracking URL changes before the hand-off, and it becomes the shipment's when that is set |
| FulfillmentLink.DepartedShipmentRejectsLinks | saleor/graphql/shipping/mutations/fulfillment_link_to_shipment.py:110-115 | a departed shipment takes no more fulfillments |
| FulfillmentLink.ShippedFulfillmentsRejectLinks | saleor/graphql/shipping/mutations/fulfillment_link_to_shipment.py:103-108 | fulfillments put on an outbound shipment cannot be linked to another one |
| OutboundShipment.CreateOutboundOk | saleor/graphql/shipping/mutations/outbound_shipment_create.py:70-148 | a created shipment means every requested fulfillment was found, all are linkable, they share one destination and the first has a warehouse line and an order address; the outcome is that shipment with all of them linked |
| PurchaseOrderCreate.ItemErrorsEmptyIff | saleor/graphql/inventory/mutations/purchase_order_create.py:108-191 | With the corrected rule of finding 4 (the code as written is modelled apart): an item has no error exactly when it is valid: an existing variant, positive quantity and unit price, a 3-letter alphabetic currency and a known country |
| PurchaseOrderCreate.Keyed | saleor/graphql/inventory/mutations/purchase_order_create.py:193-196 | each error of an item is written under `items[idx].field`, one entry per error |
| PurchaseOrderCreate.PerItemErrors | saleor/graphql/inventory/mutations/purchase_order_create.py:108-191 | the checks of every item, in order |
| PurchaseOrderCreate.CleanedItems | saleor/graphql/inventory/mutations/purchase_order_create.py:197-201 | one cleaned item per input item once no item has errors, with the currency and country upper-cased |
| PurchaseOrderCreate.NewRows | saleor/graphql/inventory/mutations/purchase_order_create.py:224-239 | one new item row per cleaned item, in order |
| PurchaseOrderCreate.KeyedAllEmptyIff | saleor/graphql/inventory/mutations/purchase_order_create.py:193-198 | the flattened dictionary is empty iff every item's error list is |
| PurchaseOrderCreate.NoItemErrorsAllValid | saleor/graphql/inventory/mutations/purchase_order_create.py:193-204 | With the corrected rule of finding 4 (the code as written is modelled apart): when no item error was written, every item is valid |
| PurchaseOrderCreate.MissingVariantCrashesAsWritten | saleor/graphql/inventory/mutations/purchase_order_create.py:231-233 | an item whose variant id is false (the model's missing variant stands for an empty `variantId`, the only false value the required GraphQL field lets through), otherwise valid, passes validation and makes the code as written fail with a KeyError in `save` (also lines 113-114) |
| PurchaseOrderCreate.MissingVariantReported | saleor/graphql/inventory/mutations/purchase_order_create.py:113-127 | the corrected check reports such an item as `items[i].variant_id` REQUIRED |
| PurchaseOrderCreate.KeyedAllListed | saleor/graphql/inventory/mutations/purchase_order_create.py:193-196 | every error of item `i` appears under `items[i].field` |
| PurchaseOrderCreate.ItemKeyInjective | saleor/graphql/inventory/mutations/purchase_order_create.py:196 | item keys name their item and field, so no two errors share a key |
| PurchaseOrderCreate.ItemFieldsDistinct | saleor/graphql/inventory/mutations/purchase_order_create.py:112-191 | the five checks of one item name five different fields |
| PurchaseOrderCreate.KeyedAllShape | saleor/graphql/inventory/mutations/purchase_order_create.py:193-196 | every entry carries the key of an item before `|es|` |
| PurchaseOrderCreate.KeyedAllDistinct | saleor/graphql/inventory/mutations/purchase_order_create.py:193-196 | distinct fields within each item give distinct keys overall |
| PurchaseOrderCreate.ItemsErrorsDistinct | saleor/graphql/inventory/mutations/purchase_order_create.py:108-198 | the item errors never repeat a key, so the dictionary keeps each of them |
| PurchaseOrderCreate.InputErrorsDistinct | saleor/graphql/inventory/mutations/purchase_order_create.py:44-204 | the warehouse keys, `items` and the item keys never collide in the error dictionary |
| PurchaseOrderCreate.TopErrorsShape | saleor/graphql/inventory/mutations/purchase_order_create.py:46-96 | the warehouse entries have distinct keys, neither `items` nor shaped like an item key |
| PurchaseOrderCreate.ValidateItems | saleor/graphql/inventory/mutations/purchase_order_create.py:106-201 | With the corrected rule of finding 4 (the code as written is modelled apart): the validation loop computes the flattened item errors and the cleaned items |
| PurchaseOrderCreate.FlattenItemErrors | saleor/graphql/inventory/mutations/purchase_order_create.py:193-196 | the inner loop writes one item's errors under its keys |
| PurchaseOrderCreate.SaveItems | saleor/graphql/inventory/mutations/purchase_order_create.py:224-239 | the loop of `save` creates the item rows of `NewRows` |
| PurchaseOrderCreate.CleanInput | saleor/graphql/inventory/mutations/purchase_order_create.py:40-206 | With the corrected rule of finding 4 (the code as written is modelled apart): `clean_input` collects the warehouse errors, then `items` REQUIRED or the item errors, as `InputErrorsWith` lists them |
| PurchaseOrderCreate.CreateOfValid | saleor/graphql/inventory/mutations/purchase_order_create.py:204-239 | With the corrected rule of finding 4 (the code as written is modelled apart): once validation finds nothing, both warehouses and every item's variant, quantity and price are present, and the order is created with one row per cleaned item |
| PurchaseOrderCreate.InputErrorsEmptyIff | saleor/graphql/inventory/mutations/purchase_order_create.py:46-106 | With the corrected rule of finding 4 (the code as written is modelled apart): the error dictionary is empty exactly when the source is an existing supplier warehouse, the destination an existing owned one, and there are items without item errors |
| PurchaseOrderCreate.ItemsErrorsEmptyIff | saleor/graphql/inventory/mutations/purchase_order_create.py:108-198 | With the corrected rule of finding 4 (the code as written is modelled apart): the items raise no error exactly when each is valid |
| PurchaseOrderCreate.AsWrittenPasses | saleor/graphql/inventory/mutations/purchase_order_create.py:113-198 | with the checks as written, items that each pass and valid warehouses leave no error, and every item has a quantity and a price |
| PurchaseOrderCreate.PurchaseOrderCreateMutation | saleor/graphql/inventory/mutations/purchase_order_create.py:39-246 | With the corrected rule of finding 4 (the code as written is modelled apart): the imperative validation and save equal the specification function `Create` |
| PurchaseOrderCreate.CreateSucceedsIff | saleor/graphql/inventory/mutations/purchase_order_create.py:46-206 | created exactly when the source is an existing supplier warehouse, the destination an existing owned one, and there is at least one item, all valid |
| PurchaseOrderCreate.CreateOutcome | saleor/graphql/inventory/mutations/purchase_order_create.py:209-239 | one DRAFT row per item, in order, with its variant and quantity, a positive total of unit price times quantity, and upper-cased currency and country |
| PurchaseOrderConfirm.NonDraftStatuses | saleor/graphql/inventory/mutations/purchase_order_confirm.py:70-76 | exactly the statuses other than DRAFT that some item has |
| PurchaseOrderConfirm.CollectNonDraft | saleor/graphql/inventory/mutations/purchase_order_confirm.py:70-76 | the guard comprehension collects `NonDraftStatuses` |
| PurchaseOrderConfirm.ConfirmItems | saleor/graphql/inventory/mutations/purchase_order_confirm.py:88-90 | the confirmation loop equals `ConfirmAll`, each item on the stock the earlier ones left |
| PurchaseOrderConfirm.PurchaseOrderConfirmMutation | saleor/graphql/inventory/mutations/purchase_order_confirm.py:47-123 | the imperative mutation equals the specification function `ConfirmPurchaseOrder` |
| PurchaseOrderConfirm.NonDraftRejectsConfirm | saleor/graphql/inventory/mutations/purchase_order_confirm.py:69-84 | any non-draft item rejects the confirm before anything is confirmed, naming exactly the statuses found |
| PurchaseOrderConfirm.NonDraftEmptyIff | saleor/graphql/inventory/mutations/purchase_order_confirm.py:70-75 | the guard passes exactly when every item is DRAFT |
| PurchaseOrderConfirm.ConfirmSucceedsIff | saleor/graphql/inventory/mutations/purchase_order_confirm.py:54-111 | success exactly when the order exists, every item is DRAFT and every item's confirmation succeeds |
| PurchaseOrderConfirm.ConfirmOutcomeItems | saleor/graphql/inventory/mutations/purchase_order_confirm.py:88-97 | every item is confirmed at `now` in order, the rest of each row kept, and one event is logged for the purchase order |
| PurchaseOrderConfirm.FirstFailureAborts | saleor/graphql/inventory/mutations/purchase_order_confirm.py:87-111 | a failing item aborts the whole confirmation with the first failing item's error, and no partial result escapes |
| PurchaseOrderConfirm.ValidationErrorsOnlyForValueErrors | saleor/graphql/inventory/mutations/purchase_order_confirm.py:102-111 | only the ValueErrors of the item confirmation become a validation error; other exceptions propagate |
| PurchaseOrderDelete.ItemsOf | saleor/graphql/inventory/mutations/purchase_order_delete.py:42-46 | exactly the items of the purchase order |
| PurchaseOrderDelete.NonDraftStatuses | saleor/graphql/inventory/mutations/purchase_order_delete.py:42-48 | exactly the statuses other than DRAFT that an item of the order has |
| PurchaseOrderDelete.DeleteRejectsNonDraft | saleor/graphql/inventory/mutations/purchase_order_delete.py:41-58 | rejected exactly when some item is not DRAFT, with an INVALID error on `id` naming exactly the non-draft statuses |
| PurchaseOrderDelete.DeleteAllDraft | saleor/graphql/inventory/mutations/purchase_order_delete.py:60-61 | an all-DRAFT order is deleted with its items, and nothing else changes |
| PurchaseOrderDelete.DeleteSucceedsIff | saleor/graphql/inventory/mutations/purchase_order_delete.py:37-61 | deletion succeeds iff the order exists and all its items are DRAFT |
| CreateMissingFulfillments.Candidates | saleor/order/management/commands/create_missing_fulfillments.py:36-42 | an order is a candidate exactly when it is in the input, UNFULFILLED and without fulfillments (`IsCandidate`) |
| CreateMissingFulfillments.FirstSeen | saleor/order/management/commands/create_missing_fulfillments.py:88-91 | the warehouses of the allocations, each once, in first-seen order |
| CreateMissingFulfillments.LinesAt | saleor/order/management/commands/create_missing_fulfillments.py:95-104 | the lines of one warehouse's allocations, with their allocated quantities, in allocation order |
| CreateMissingFulfillments.Grouped | saleor/order/management/commands/create_missing_fulfillments.py:88-104 | one group per warehouse in first-seen order, holding that warehouse's lines in allocation order |
| CreateMissingFulfillments.GroupByWarehouse | saleor/order/management/commands/create_missing_fulfillments.py:88-104 | the two grouping loops compute `Grouped` |
| CreateMissingFulfillments.HandleCommand | saleor/order/management/commands/create_missing_fulfillments.py:27-147 | the imperative command equals the specification function `Handle` |
| CreateMissingFulfillments.Passing | saleor/order/management/commands/create_missing_fulfillments.py:56-65 | the number of candidates that pass `can_confirm_order`, at most their count |
| CreateMissingFulfillments.DryRunCounts | saleor/order/management/commands/create_missing_fulfillments.py:56-71 | a dry run creates nothing, counts one per passing order and skips the rest |
| CreateMissingFulfillments.StepShape | saleor/order/management/commands/create_missing_fulfillments.py:56-132 | one real-run step either skips the order without a call or makes one call, only for a passing order with allocations |
| CreateMissingFulfillments.Succeeded | saleor/order/management/commands/create_missing_fulfillments.py:110-122 | the calls that succeeded and the fulfillments they report |
| CreateMissingFulfillments.RealRunCounts | saleor/order/management/commands/create_missing_fulfillments.py:53-132 | every candidate is skipped or handled exactly once, and `created` is the number of fulfillments the successful calls report |
| CreateMissingFulfillments.RealRunRequests | saleor/order/management/commands/create_missing_fulfillments.py:73-120 | every call is for a candidate that `can_confirm_order` accepts, with its allocations grouped by warehouse |
| CreateMissingFulfillments.ValueErrorSkipsOrder | saleor/order/management/commands/create_missing_fulfillments.py:128-132 | a ValueError skips that order only; later orders are processed as if it had created nothing |
| CreateMissingFulfillments.GroupsPartitionAllocations | saleor/order/management/commands/create_missing_fulfillments.py:88-104 | no warehouse has two groups, and every allocation's line is in the group of its own warehouse |
| CreateMissingFulfillments.StatusBoundCheckSkipsAll | saleor/order/management/commands/create_missing_fulfillments.py:36-65 | if `can_confirm_order` only holds for UNCONFIRMED orders, a real run over UNFULFILLED candidates creates nothing (also saleor/order/models.py:100-139) |
| CreateMissingFulfillments.NothingPasses | saleor/order/management/commands/create_missing_fulfillments.py:56-65 | when `can_confirm_order` accepts no candidate, every one is skipped and nothing is requested |
| PurchaseOrderCreate.CreateOk | saleor/graphql/inventory/mutations/purchase_order_create.py:46-239 | a created order has both warehouses and only valid, complete items, and holds one new row per cleaned item |
| PurchaseOrderConfirm.ConfirmAllItems | saleor/graphql/inventory/mutations/purchase_order_confirm.py:88-97 | a successful confirmation returns every item, in order, marked CONFIRMED at `now` |
| Proforma.LineAmounts | saleor/order/proforma.py:51-54 | one amount per line, its gross unit price times its quantity |
| Proforma.CalculateFulfillmentTotal | saleor/order/proforma.py:40-56 | the accumulator loop computes `FulfillmentTotal`, the sum of the line amounts |
| Proforma.FulfillmentTotalNonNegative | saleor/order/proforma.py:50-56 | a fulfillment of non-negative prices and quantities is worth at least 0 |
| Proforma.DepositAllocation | saleor/order/proforma.py:7-37 | 0 without a required deposit, without payments or for a zero total; otherwise the smaller of the unallocated deposit (never below 0) and the fulfillment's proportional share |
| Proforma.CreditWithinRemaining | saleor/order/proforma.py:29-35 | the credit of a fulfillment of non-negative value on an order of positive total is never negative and never more than the deposit still unallocated |
| Proforma.WorkedExample | saleor/order/proforma.py:29-37 | 100 paid on a total of 300 with 40 already credited gives a fulfillment of 100 the proportional share 100/3 |
| Proforma.StepWithinPaid | saleor/order/proforma.py:29-37 | one more credited fulfillment keeps the credited total within the paid deposit (also lines 77-78) |
| Proforma.SuccessiveCreditsWithinPaid | saleor/order/proforma.py:7-37 | successive proformas on one order never credit more than was paid in total (also lines 59-78) |
| Proforma.ProformaStore.constructor | saleor/order/proforma.py:59-96 | a store holding the order and the invoice table, with no writes yet |
| Proforma.ProformaStore.GenerateProformaInvoice | saleor/order/proforma.py:59-96 | the credit is stored on the fulfillment first; the PROFORMA invoice and its REQUESTED event follow, unless the (fulfillment, type) constraint refuses the invoice, in which case the stored credit stays |
| ProformaPaid.MarkPaidSucceedsIff | saleor/graphql/order/mutations/fulfillment_mark_proforma_paid.py:46-64 | marking succeeds exactly for a fulfillment with a proforma not yet paid; a missing proforma is reported before the paid flag |
| ProformaPaid.MarkPaidWrites | saleor/graphql/order/mutations/fulfillment_mark_proforma_paid.py:66-81 | the flag is set, the time is the given one or the clock, nothing else is written, and auto-approval receives the updated row |
| ProformaPaid.MarkedOnce | saleor/graphql/order/mutations/fulfillment_mark_proforma_paid.py:56-64 | marking the fulfillment this mutation saved fails |
| ProformaPaid.MarkingOpensProformaGate | saleor/graphql/order/mutations/fulfillment_mark_proforma_paid.py:68-79 | before marking the proforma gate blocks `CanAutoTransitionToFulfilled` whatever else holds (`UnpaidProformaBlocks`); after marking it depends on the other conditions only (also saleor/order/models.py:1084-1085) |
| InvoiceCreateFinal.CleanInput | saleor/graphql/invoice/mutations/invoice_create_final.py:41-60 | a blank id is REQUIRED, a stripped id already on an invoice is UNIQUE, and nothing else is reported |
| InvoiceCreateFinal.PermissionCheckedFirst | saleor/graphql/invoice/mutations/invoice_create_final.py:78-79 | without permission a blank or duplicate id is never reported |
| InvoiceCreateFinal.CreateFinalRejects | saleor/graphql/invoice/mutations/invoice_create_final.py:41-60 | a blank id is rejected with REQUIRED and a used stripped id with UNIQUE |
| InvoiceCreateFinal.CreateFinalOutcome | saleor/graphql/invoice/mutations/invoice_create_final.py:79-88 | past validation the Xero id constraint cannot fail; the only integrity error left is a second FINAL invoice for the fulfillment; on success one FINAL row is appended (also saleor/invoice/models.py:83-89) |
| InvoiceCreateFinal.ProformaDoesNotBlockFinal | saleor/invoice/models.py:83-89 | a proforma and a final invoice can both exist for one fulfillment |
| InvoiceModel.UntypedInvoiceIsFinal | saleor/invoice/models.py:49-51 | an invoice saved without a type defaults to FINAL (`TypeOrDefault`), so it is refused for a fulfillment that already has a FINAL invoice (also lines 83-89) |
| InvoiceModel.Insert | saleor/invoice/models.py:83-89 | an insert succeeds iff no row has the same fulfillment and type or the same Xero id, and then appends the row (also lines 46-48) |
| InvoiceModel.InsertKeepsConsistent | saleor/invoice/models.py:83-89 | the constraints hold after every successful insert (also lines 46-48) |
| InvoiceModel.AtMostOnePerFulfillmentType | saleor/invoice/models.py:83-89 | in a consistent table a fulfillment has at most one invoice of each type |
| InvoiceModel.Invoice.constructor | saleor/invoice/models.py:25-55 | an invoice with the given number, external URL and file flag |
| InvoiceModel.Invoice.Url | saleor/invoice/models.py:59-65 | the served-file URL when a file is stored, otherwise the external URL |
| InvoiceModel.Invoice.SetUrl | saleor/invoice/models.py:67-69 | the setter writes the external URL only |
| InvoiceModel.Invoice.UpdateInvoice | saleor/invoice/models.py:71-75 | a field given as None keeps its value; the other is replaced |
| InvoiceModel.SetThenGet | saleor/invoice/models.py:59-69 | setting the URL of an invoice without a file makes the getter return it |
| OrderAddXeroPayment.CleanInput | saleor/graphql/order/mutations/order_add_xero_payment.py:51-94 | no error iff the id is not blank, the amount positive, the stripped id unused on the order, and a deposit only on an order that requires one |
| OrderAddXeroPayment.AddPaymentRejects | saleor/graphql/order/mutations/order_add_xero_payment.py:51-94 | each check reports its error, the earlier ones first |
| OrderAddXeroPayment.AddPaymentRecord | saleor/graphql/order/mutations/order_add_xero_payment.py:117-128 | exactly one fully charged Xero payment is appended with total and captured equal to the amount and the stripped reference; nothing else changes but `deposit_paid_at` |
| OrderAddXeroPayment.ThresholdIgnoresPaidAt | saleor/order/models.py:500-507 | the threshold does not read `deposit_paid_at` |
| OrderAddXeroPayment.AddPaymentStamp | saleor/graphql/order/mutations/order_add_xero_payment.py:130-132 | `deposit_paid_at` changes exactly for a deposit meeting the threshold, this payment counted, on an order not yet stamped, and then holds the given time or the clock |
| OrderAddXeroPayment.PaidAtKept | saleor/graphql/order/mutations/order_add_xero_payment.py:130 | an existing `deposit_paid_at` is never overwritten |
| OrderAddXeroPayment.DepositPaidGrows | saleor/graphql/order/mutations/order_add_xero_payment.py:113-128 | a deposit payment raises the deposit paid by its amount; any other payment leaves it unchanged (also saleor/order/models.py:488-498) |
| OrderAddXeroPayment.AddKeepsReferencesDistinct | saleor/graphql/order/mutations/order_add_xero_payment.py:74-84 | payments added by this mutation never repeat a reference on one order |
| OrderSetDepositRequired.SetDepositRequiredMutation | saleor/graphql/order/mutations/order_set_deposit_required.py:50-60 | the permission check, the percentage check and the assignments compute `SetDepositRequired` |
| OrderSetDepositRequired.PercentageGuardIff | saleor/graphql/order/mutations/order_set_deposit_required.py:37-48 | with a required deposit and a given percentage the call succeeds exactly for a percentage in [0, 100]; otherwise the percentage is not checked |
| OrderSetDepositRequired.SetDepositOutcome | saleor/graphql/order/mutations/order_set_deposit_required.py:58-60 | the flag becomes the input, the percentage the input when required and None otherwise; no other column changes and both columns are saved |
| OrderSetDepositRequired.NotRequiredMeetsThreshold | saleor/graphql/order/mutations/order_set_deposit_required.py:58-59 | switching the deposit off always succeeds and makes the threshold met (also saleor/order/models.py:500-503) |
| OrderSetDepositRequired.RequiredWithoutPercentageNeverMet | saleor/graphql/order/mutations/order_set_deposit_required.py:58-59 | a required deposit set with no percentage, or with 0, is accepted and can never be met by payments (also line 39; saleor/order/models.py:504-505) |
| OrderOverrideDepositThreshold.OverrideDepositThresholdMutation | saleor/graphql/order/mutations/order_override_deposit_threshold.py:32-48 | the guard and the assignments, growing the saved field list, compute `OverrideDepositThreshold` |
| OrderOverrideDepositThreshold.OverrideAcceptedIff | saleor/graphql/order/mutations/order_override_deposit_threshold.py:37-41 | the call is refused exactly when switching the override on for an order that requires no deposit |
| OrderOverrideDepositThreshold.OverrideOutcome | saleor/graphql/order/mutations/order_override_deposit_threshold.py:43-48 | the override flag is the input; `deposit_paid_at` changes exactly when overriding an unstamped order, then to the clock, is never overwritten, and is saved exactly when it changes; nothing else changes |
| OrderOverrideDepositThreshold.OverrideIdempotent | saleor/graphql/order/mutations/order_override_deposit_threshold.py:43-48 | overriding twice leaves the first stamp and saves only the override flag |
| XeroPrepayment.RecordIfPaid | saleor/graphql/order/mutations/order_replace_deposit_prepayment.py:116-138 | one payment from `record_external_payment` is appended exactly when the accounting system reports the prepayment paid and no payment carries its reference; otherwise the order is unchanged (also saleor/graphql/order/mutations/fulfillment_replace_prepayment.py:72-96) |
| XeroPrepayment.RecordKeepsReferencesDistinct | saleor/graphql/order/mutations/order_replace_deposit_prepayment.py:121-124 | with a `record_external_payment` that stores the given reference, payment references on an order stay distinct (also saleor/graphql/order/mutations/fulfillment_replace_prepayment.py:77-80) |
| XeroPrepayment.RecordOnce | saleor/graphql/order/mutations/order_replace_deposit_prepayment.py:118-124 | after a "paid" answer a payment with the reference exists, and repeating the step adds nothing, whatever the second answer |
| OrderReplaceDepositPrepayment.Guard | saleor/graphql/order/mutations/order_replace_deposit_prepayment.py:73-95 | no error exactly for an order requiring a deposit, not stamped paid, with no percentage or one in [0, 100] |
| OrderReplaceDepositPrepayment.ReplaceDepositPrepaymentMutation | saleor/graphql/order/mutations/order_replace_deposit_prepayment.py:56-138 | the guards, the assignments growing the saved field list and the recording step compute `ReplaceDepositPrepayment` |
| OrderReplaceDepositPrepayment.ReplaceDepositAcceptedIff | saleor/graphql/order/mutations/order_replace_deposit_prepayment.py:73-95 | accepted exactly when `Guard` passes; no required deposit is reported first, an already stamped deposit second |
| OrderReplaceDepositPrepayment.ReplaceDepositOutcome | saleor/graphql/order/mutations/order_replace_deposit_prepayment.py:97-138 | the new id is stored; the percentage and each bank column change, and are saved, exactly when given; a payment is appended exactly when the answer is "paid" and the reference is new; the stamp, the flag, the fulfillments and the total are unchanged |
| FulfillmentReplacePrepayment.ReplacePrepaymentAcceptedIff | saleor/graphql/order/mutations/fulfillment_replace_prepayment.py:54-67 | accepted exactly when the fulfillment has a non-empty prepayment id that no payment of the order carries |
| FulfillmentReplacePrepayment.ReplacePrepaymentOutcome | saleor/graphql/order/mutations/fulfillment_replace_prepayment.py:69-96 | only this fulfillment's prepayment id changes, to the new one; a payment is appended exactly when the answer is "paid" and the reference is new; earlier payments are kept |
| FulfillmentReplacePrepayment.ReplaceKeepsReferencesDistinct | saleor/graphql/order/mutations/fulfillment_replace_prepayment.py:77-80 | payment references on the order stay distinct |
| FulfillmentReplacePrepayment.PaidPrepaymentCannotBeReplaced | saleor/graphql/order/mutations/fulfillment_replace_prepayment.py:74-96 | once the new prepayment is recorded as paid, a further replacement is refused as already paid (also lines 60-67) |
| OrderUpdateShippingCost.LineClasses | saleor/graphql/order/mutations/order_update_shipping_cost.py:168-172 | exactly the tax classes set on some line |
| OrderUpdateShippingCost.MissingRates | saleor/graphql/order/mutations/order_update_shipping_cost.py:173-180 | exactly the line tax classes with no rate for the order country |
| OrderUpdateShippingCost.AssignAmounts | saleor/graphql/order/mutations/order_update_shipping_cost.py:227-258 | the assignments compute `AmountsApplied`: the shipping amounts, rate and Xero code, and the four totals with the old shipping swapped for the new |
| OrderUpdateShippingCost.UpdateShippingCostMutation | saleor/graphql/order/mutations/order_update_shipping_cost.py:128-307 | the guards, the tax class and Incoterm resolution, the assignments and the saved field list compute `UpdateShippingCost` |
| OrderUpdateShippingCost.ShippingCostGuards | saleor/graphql/order/mutations/order_update_shipping_cost.py:142-164 | an order with nothing to ship is refused, and so is a given Incoterm outside the eleven codes |
| OrderUpdateShippingCost.DdpNeedsEveryLineRate | saleor/graphql/order/mutations/order_update_shipping_cost.py:166-190 | if one line's tax class has no rate for the country, DDP is refused with a count of at least one missing class |
| OrderUpdateShippingCost.ExportClassOverrides | saleor/graphql/order/mutations/order_update_shipping_cost.py:205-218 | a zero-rated export class replaces any given class, for the rate and for the stored shipping tax class (also lines 286-288) |
| OrderUpdateShippingCost.ShippingAmounts | saleor/graphql/order/mutations/order_update_shipping_cost.py:220-243 | the net is the input; the gross is the quantized net plus VAT at the resolved rate, or the quantized net with no tax country or no rate; a missing shipping method becomes the manual one (also lines 260-264) |
| OrderUpdateShippingCost.TotalsSwapShipping | saleor/graphql/order/mutations/order_update_shipping_cost.py:233-258 | each of the four totals moves by exactly the new shipping amount minus the old one, then is quantized |
| OrderUpdateShippingCost.RepeatReplaces | saleor/graphql/order/mutations/order_update_shipping_cost.py:233-258 | when the totals are already quantized, repeating the same call leaves the order as it is: the shipping amount replaces and does not accumulate |
| OrderLineUpdate.UpdateLineMutation | saleor/graphql/order/mutations/order_line_update.py:46-259 | the checks of `clean_input` and the branches of `save`, assigning the columns step by step, compute `UpdateLine` |
| OrderLineUpdate.LineUpdateGuards | saleor/graphql/order/mutations/order_line_update.py:52-82 | a legacy price off a draft order is refused first; a quantity of 0 or less, a gift line, and a gross price without a net one are each refused; a clean input has a positive quantity on a non-gift line (also lines 119-141) |
| OrderLineUpdate.NetAndGrossOverride | saleor/graphql/order/mutations/order_line_update.py:176-205 | with net and gross given the unit prices are their quantized values, the totals are unit price times the new quantity, and no price refresh follows |
| OrderLineUpdate.NetOnly | saleor/graphql/order/mutations/order_line_update.py:158-174 | a net price alone sets the net, base and undiscounted prices to the quantized net, keeps the gross and the totals, and triggers a refresh |
| OrderLineUpdate.LegacyPrice | saleor/graphql/order/mutations/order_line_update.py:207-231 | a legacy price sets net, gross and base to the quantized price, without a refresh |
| OrderLineUpdate.NoPriceInput | saleor/graphql/order/mutations/order_line_update.py:232-245 | without a price only the quantity changes, no line price column is saved, and a refresh is triggered exactly when the line has no custom net/gross pair |
| OrderLineUpdate.OverrideIsFinal | saleor/graphql/order/mutations/order_line_update.py:236-245 | after an override with different net and gross, a later update without a price neither refreshes nor changes the prices (also line 191) |
| OrderLineUpdate.LegacyPriceIsRecalculatedLater | saleor/graphql/order/mutations/order_line_update.py:236-245 | a legacy price leaves net equal to gross, so the next update without a price triggers a refresh (also lines 219-221) |
| OrderUpdateShippingCost.ApplyShippingCost | saleor/graphql/order/mutations/order_update_shipping_cost.py:200-307 | the step-by-step assignments give the order `Updated` describes and the column list `UpdateFields` describes |
| OrderUpdateShippingCost.Finish | saleor/graphql/order/mutations/order_update_shipping_cost.py:260-270 | the manual method is set only when the order has none; the export or given class becomes the shipping tax class; the result reports whether the class was set (also lines 286-293) |
| OrderUpdateShippingCost.UpdatedColumns | saleor/graphql/order/mutations/order_update_shipping_cost.py:272-305 | the list grows exactly as `UpdateFields` states: the amount columns, then the tax class, method and Incoterm groups under their conditions |
| OrderUpdateShippingCost.ChangesAreSaved | saleor/graphql/order/mutations/order_update_shipping_cost.py:259-307 | every order field the update changes is among the saved columns; the draft flag and the lines are untouched |
| OrderUpdateShippingCost.UpdatedChanges | saleor/graphql/order/mutations/order_update_shipping_cost.py:260-270 | the tax class changes only with an export or given class, the method and its name only when the order had none, the Incoterm only when one is given (also lines 200-202, 286-293) |
| OrderUpdateShippingCost.SavedColumns | saleor/graphql/order/mutations/order_update_shipping_cost.py:272-305 | the tax-class columns are saved exactly when an export or given class applies, the method columns exactly when the order had no method, `inco_term` exactly when one is given; the totals and the refresh flag always |
| TaxOrder.FindRate | saleor/tax/calculations/order.py:55-59 | None exactly when no row matches the country and class; otherwise the rate of the first matching row (also lines 211-214) |
| TaxOrder.Restored | saleor/tax/calculations/order.py:175-178 | line by line, a stale export class on a line with a variant is replaced by its product's class |
| TaxOrder.TaxedLines | saleor/tax/calculations/order.py:200-246 | every line taxed in order, or the error of the first line that fails, all earlier lines succeeding |
| TaxOrder.UpdateTaxesForOrderLines | saleor/tax/calculations/order.py:157-248 | the lines are changed in place: on success they become the taxed restored lines; on failure the lines before the failing one are taxed, the failing one carries the export class only, and the later ones are only restored |
| TaxOrder.RestoreStaleClasses | saleor/tax/calculations/order.py:175-178 | the lines become `Restored` of the lines as they were: a stale export class on a line with a variant is replaced by its product's class |
| TaxOrder.PriceLine | saleor/tax/calculations/order.py:228-246 | for a line with a variant whose rate was found, the repriced line is the one `TaxedLine` gives |
| TaxOrder.FirstErrorAt | saleor/tax/calculations/order.py:200-219 | when every line before line k succeeds and line k fails, the whole run fails with line k's error |
| TaxOrder.SetOrderTotals | saleor/tax/calculations/order.py:106-140 | the summing loop computes `OrderTotals` |
| TaxOrder.UpdateOrderPricesWithFlatRates | saleor/tax/calculations/order.py:28-103 | the lines change in place and the order is taxed as `FlatRates` describes, failing with its error exactly when it fails |
| TaxOrder.TaxCountryChoice | saleor/tax/calculations/order.py:34-45 | export mode uses the channel's country and skips the stale-class check; otherwise the order's tax country and the configured export class are used |
| TaxOrder.StaleClassesReplaced | saleor/tax/calculations/order.py:44-53 | outside export mode a stale export class on the shipping becomes the shipping method's class (None without one), and on each line with a variant its product's class; nothing else on a line changes (also lines 175-178) |
| TaxOrder.ExportThenDomesticRestores | saleor/tax/calculations/order.py:175-178 | a line taxed in export mode carries the export class, and a following domestic run puts its product's class back (also lines 205-206) |
| TaxOrder.LineFailsIff | saleor/tax/calculations/order.py:200-219 | a line fails exactly when it has a variant and a rate class for which no row has the country, and the error names that class and country |
| TaxOrder.LineWithoutVariantUntouched | saleor/tax/calculations/order.py:201-203 | a line without a variant is neither restored nor taxed (also lines 176-177) |
| TaxOrder.ExportModeLine | saleor/tax/calculations/order.py:205-220 | in export mode a taxed line carries the export class and stores the normalized rate of the export class for the country (also line 246) |
| TaxOrder.RemovedClassRate | saleor/tax/calculations/order.py:221-226 | a line without a class uses the denormalized stored rate when its class name and rate are kept, otherwise the default rate (also line 208) |
| TaxOrder.DefaultRateRow | saleor/tax/calculations/order.py:55-62 | the default rate is the rate of the country's class-less row |
| TaxOrder.FlatRatesLineFailure | saleor/tax/calculations/order.py:65-77 | a domestic calculation fails with a tax data error exactly when some restored line fails |
| TaxOrder.ExportModeShipping | saleor/tax/calculations/order.py:80-91 | in export mode the shipping carries the export class |
| TaxOrder.TotalsCases | saleor/tax/calculations/order.py:112-140 | a base total of 0 or less sets all three totals to it; otherwise the subtotal is the quantized sum of the line totals and the total adds the shipping; nothing else changes |
| TaxOrder.SumTotalsConcat | saleor/tax/calculations/order.py:124-128 | the line sum is additive over concatenation |
| VatUtils.ShouldApplyVatExemption | saleor/account/vat_utils.py:7-22 | exempt exactly when there is a billing address whose metadata holds a `vat_number` that is not blank |
| VatUtils.OnlyVatNumberMatters | saleor/account/vat_utils.py:18-22 | two addresses that agree on the `vat_number` entry get the same answer |
| VatUtils.ExemptionCases | saleor/account/vat_utils.py:15-22 | no address, no key, an empty or all-space number give no exemption; a number with a non-space character gives it |
| VatValidation.NormalizeVatNumber | saleor/account/vat_validation.py:21-31 | the result holds no space and no lower-case letter |
| VatValidation.NormalizedEnds | saleor/account/vat_validation.py:31 | a normalized number neither starts nor ends with whitespace |
| VatValidation.NormalizeIdempotent | saleor/account/vat_validation.py:21-31 | normalizing twice is normalizing once |
| VatValidation.CacheKeyInjective | saleor/account/vat_validation.py:34-36 | for country codes of equal length, equal cache keys mean equal number and country |
| VatValidation.ViesNumber | saleor/account/vat_validation.py:111-114 | the country prefix is removed when the number starts with it, and otherwise the number is sent as given |
| VatValidation.VatCache.constructor | saleor/account/vat_validation.py:39-67 | an empty cache (also line 6) |
| VatValidation.VatCache.Validate | saleor/account/vat_validation.py:70-170 | the call returns the outcome of `ValidateVatVies` on the old cache, sends its request, and leaves its cache |
| VatValidation.CacheHitSendsNothing | saleor/account/vat_validation.py:103-109 | a cached result is returned as it is, with no request and no cache change |
| VatValidation.MissSendsPrefixStripped | saleor/account/vat_validation.py:111-131 | on a miss one request is sent, for the country and the number without its country prefix |
| VatValidation.MissCaching | saleor/account/vat_validation.py:127-170 | a successful answer is cached under the key of the number as given, for 86400 seconds when valid and 3600 when not, missing fields defaulting to false and ""; a failed request caches nothing and its error is raised |
| VatValidation.SecondCallIsCached | saleor/account/vat_validation.py:103-109 | after a successful call the same question is answered from the cache with no request and the same result (also lines 143-145) |
| PackUtils.InStock | saleor/checkout/pack_utils.py:39-49 | only variants with positive availability, each with its availability, in strictly increasing variant order |
| PackUtils.InStockCovers | saleor/checkout/pack_utils.py:39-49 | every variant with positive availability is in the list |
| PackUtils.IntPart | saleor/checkout/pack_utils.py:61-62 | `int(n / d)` truncates toward zero: the floor for a non-negative quota and the ceiling for a negative one |
| PackUtils.SortDesc | saleor/checkout/pack_utils.py:70 | the positions ordered by descending remainder, ties in variant order, as a stable reverse sort gives |
| PackUtils.Positive | saleor/checkout/pack_utils.py:75 | only pairs with a positive quantity, each one of the computed allocations |
| PackUtils.CollectStock | saleor/checkout/pack_utils.py:36-49 | the stock loop computes `InStock` and its total |
| PackUtils.Quotas | saleor/checkout/pack_utils.py:56-67 | the quota loop computes each variant's integer part, remainder and their running sum |
| PackUtils.Increment | saleor/checkout/pack_utils.py:72-73 | the increment loop gives one more unit to each of the first `remaining` variants by remainder |
| PackUtils.KeepPositive | saleor/checkout/pack_utils.py:75 | the closing comprehension computes `Positive` |
| PackUtils.GetPackForProduct | saleor/checkout/pack_utils.py:10-75 | the loops in order compute `PackFor`, the allocation whose properties `PackProperties` proves |
| PackProperties.Leftover | saleor/checkout/pack_utils.py:69 | the units left after the integer parts number fewer than the variants |
| PackProperties.IntPartRemainder | saleor/checkout/pack_utils.py:62-63 | the remainder of a non-negative quota lies in [0, 1), scaled by the total stock |
| PackProperties.IncrAt | saleor/checkout/pack_utils.py:72-73 | a variant listed once in the slice gets exactly one more unit, any other none |
| PackProperties.PositiveKeeps | saleor/checkout/pack_utils.py:75 | every positive allocation is returned |
| PackProperties.PositiveOrdered | saleor/checkout/pack_utils.py:75 | keeping only the positive allocations keeps the stocked variants' increasing order |
| PackProperties.Quotas | saleor/checkout/pack_utils.py:54-67 | for a pack size that is not negative the actual size lies in [0, stock], each integer part is not negative and each remainder lies in [0, 1) |
| PackProperties.Remaining | saleor/checkout/pack_utils.py:69-72 | the units left over are not negative, fewer than the variants, equal to the sum of the remainders, and all handed out by the slice |
| PackProperties.AllocationShape | saleor/checkout/pack_utils.py:72-73 | each variant gets its integer part, plus one exactly when it is among the first `remaining` by remainder (also line 65) |
| PackProperties.AllocatedTotal | saleor/checkout/pack_utils.py:54-73 | before the filter the allocations are not negative and add up to the pack size, or to all the stock when that is less |
| PackProperties.PackTotal | saleor/checkout/pack_utils.py:54-75 | the pack returned holds the pack size, or all that is available when that is less (also lines 18-19) |
| PackProperties.LargestRemainders | saleor/checkout/pack_utils.py:70-73 | a variant served an extra unit has a remainder at least that of one not served, and on a tie comes first |
| PackProperties.FloorOrCeiling | saleor/checkout/pack_utils.py:62-73 | every variant gets the integer part of its quota or one unit more (also line 27) |
| PackProperties.WithinStock | saleor/checkout/pack_utils.py:18-19 | no variant gets more than its stock, and a pack at least as large as the stock takes all of it (also line 54) |
| PackProperties.PackEntries | saleor/checkout/pack_utils.py:39-49 | only variants with stock are returned, each with a positive quantity no larger than its stock, each variant once and in strictly increasing variant order (`VariantsIncrease`, through PositiveOrdered and PackOrdered) (also line 75) |
| PackProperties.QuotaServed | saleor/checkout/pack_utils.py:62-75 | a variant whose quota has a positive integer part is in the pack |
| PackProperties.NothingAvailable | saleor/checkout/pack_utils.py:31-33 | no variants, or none with stock, give an empty pack (also lines 51-52) |
| PackProperties.FairPack | saleor/checkout/pack_utils.py:10-75 | a pack size that is not positive asks for nothing; otherwise the allocation as written |
| PackProperties.FairPackTotal | saleor/checkout/pack_utils.py:18-19 | for every pack size the total handed out is the pack size clamped to [0, stock] (also line 54) |
| PackProperties.FairPackEntries | saleor/checkout/pack_utils.py:39-49 | for every pack size only variants with stock, never more than their stock (also line 75) |
| PackExamples.DocExample | saleor/checkout/pack_utils.py:21-22 | the docstring's worked example: 5 smalls, 10 mediums and 40 larges with a pack of 10 give 1, 2 and 7 |
| PackExamples.NegativePackAllocatesAsWritten | saleor/checkout/pack_utils.py:54-75 | as written a pack size of -1 over two variants of 5 units each hands out one unit |
| CheckoutAddPack.ValidatePackSize | saleor/graphql/checkout/mutations/checkout_add_pack.py:74-85 | a pack size is accepted exactly when positive, and refused as invalid otherwise |
| CheckoutAddPack.EffectiveMinimum | saleor/graphql/checkout/mutations/checkout_add_pack.py:119-135 | the effective minimum is the MOQ or all the stock; the order is flagged as leaving too little exactly when the MOQ is in stock and the order would leave a positive amount below it |
| CheckoutAddPack.ValidateMinimumOrderQuantityLoop | saleor/graphql/checkout/mutations/checkout_add_pack.py:87-157 | the stock loop and the checks compute `ValidateMinimumOrderQuantity` |
| CheckoutAddPack.MinimumCheckFailsIff | saleor/graphql/checkout/mutations/checkout_add_pack.py:137-157 | the minimum order quantity check fails exactly below the effective minimum, with the positive shortfall, on `pack_size` with INSUFFICIENT_STOCK, and says "cannot leave less" exactly when the order would leave too little |
| CheckoutAddPack.AcceptedIff | saleor/graphql/checkout/mutations/checkout_add_pack.py:119-137 | with an MOQ that is not negative an order passes exactly when it takes all the stock, or reaches the MOQ and leaves at least the MOQ |
| CheckoutAddPack.AllAvailablePasses | saleor/graphql/checkout/mutations/checkout_add_pack.py:119-137 | an order of exactly all the stock always passes |
| CheckoutAddPack.NoMinimumNoCheck | saleor/graphql/checkout/mutations/checkout_add_pack.py:98-99 | without an MOQ there is no check |
| CheckoutAddPack.CurrentQuantityCountsProduct | saleor/graphql/checkout/mutations/checkout_add_pack.py:198-202 | a line of another product adds nothing to the current quantity, a line of this product its quantity |
| CheckoutAddPack.SumCurrentQuantity | saleor/graphql/checkout/mutations/checkout_add_pack.py:198-202 | the loop computes the quantity of the product's lines already in the checkout |
| CheckoutAddPack.MoqOf | saleor/graphql/checkout/mutations/checkout_add_pack.py:209-223 | there is an MOQ exactly when the attribute exists, is assigned to the product type and the product has a value, and then it is that value |
| CheckoutAddPack.CountryCode | saleor/graphql/checkout/mutations/checkout_add_pack.py:226-230 | the shipping address's country, or the channel's default country without one |
| CheckoutAddPack.PackLines | saleor/graphql/checkout/mutations/checkout_add_pack.py:243-262 | one line per allocated variant, in order, with its quantity, `quantity_to_update`, no line id or custom price, and the pack metadata |
| CheckoutAddPack.BuildPackLines | saleor/graphql/checkout/mutations/checkout_add_pack.py:244-262 | the loop computes `PackLines` |
| CheckoutAddPack.PackLinesCarryPack | saleor/graphql/checkout/mutations/checkout_add_pack.py:247-262 | the lines' quantities are the allocation's, and each line carries the pack id and the pack size |
| CheckoutAddPack.AddPack | saleor/graphql/checkout/mutations/checkout_add_pack.py:171 | a pack size that is not positive is refused before anything else |
| CheckoutAddPack.SumPackQuantity | saleor/graphql/checkout/mutations/checkout_add_pack.py:203 | the loop adds up the pack's quantities |
| CheckoutAddPack.PerformMutation | saleor/graphql/checkout/mutations/checkout_add_pack.py:159-262 | the mutation's steps compute `AddPack` |
| CheckoutAddPack.AddPackErrors | saleor/graphql/checkout/mutations/checkout_add_pack.py:171-192 | an invalid size exactly for a size that is not positive; no variants exactly for a positive size with an empty allocation; an MOQ error only after both passed (also lines 233-240) |
| CheckoutAddPack.AddPackLines | saleor/graphql/checkout/mutations/checkout_add_pack.py:159-262 | accepted lines come from a positive size, hold the pack size or all the stock when that is less, and number one per allocated variant |
| PackAllocationPreview.Verdict | saleor/graphql/checkout/resolvers.py:136-203 | without an MOQ the pack may be added with no minimum; otherwise the shortfall is not negative, `can_add` holds exactly when it is 0, and a message is given exactly when it does not |
| PackAllocationPreview.CheckoutQuantity | saleor/graphql/checkout/resolvers.py:120-133 | 0 without a checkout, otherwise the quantity of the checkout's lines of the product |
| PackAllocationPreview.Preview | saleor/graphql/checkout/resolvers.py:87-205 | With the corrected rule of finding 5 (the code as written is modelled apart): the total is the checkout quantity plus the pack quantity, which is the sum of the allocation |
| PackAllocationPreview.ResolveGetPackAllocation | saleor/graphql/checkout/resolvers.py:87-205 | With the corrected rule of finding 5 (the code as written is modelled apart): the resolver's loops compute `Preview` |
| PackAllocationPreview.PreviewOf | saleor/graphql/checkout/resolvers.py:118-205 | the preview of a given allocation reports that allocation, its summed quantity, and a total of checkout quantity plus pack quantity |
| PackAllocationPreview.PreviewFor | saleor/graphql/checkout/resolvers.py:118-205 | the quantity, checkout-line and stock loops, then the verdict, compute `PreviewOf` for the allocation |
| PackAllocationPreview.PreviewCurrentQuantity | saleor/graphql/checkout/resolvers.py:121-133 | the loop computes `CheckoutQuantity` |
| PackAllocationPreview.PreviewPack | saleor/graphql/checkout/resolvers.py:117 | With the corrected rule of finding 5 (the code as written is modelled apart): the allocation of `FairPack` |
| PackAllocationPreview.VerdictFor | saleor/graphql/checkout/resolvers.py:142-203 | the verdict for the total stock of all variants |
| PackAllocationPreview.SumAvailable | saleor/graphql/checkout/resolvers.py:160-171 | the stock loop adds up every variant's availability |
| PackAllocationPreview.VerdictOf | saleor/graphql/checkout/resolvers.py:173-201 | the steps compute the verdict for a known MOQ |
| PackAllocationPreview.PreviewAgreesWithCheck | saleor/graphql/checkout/resolvers.py:173-201 | the preview allows the pack exactly when the mutation's check passes, with the same shortfall, the same "cannot leave less" case and the same effective minimum (also saleor/graphql/checkout/mutations/checkout_add_pack.py:119-157) |
| PackAllocationPreview.NoMinimumPreview | saleor/graphql/checkout/resolvers.py:136-156 | without an MOQ the preview allows the pack with no minimum, no shortfall and no message |
| PackAllocationPreview.PreviewExamples | saleor/graphql/checkout/resolvers.py:173-201 | the verdicts the repository's tests expect (saleor/graphql/checkout/tests/test_get_pack_allocation.py:418-604), plus one shortfall case: 11 in stock with an MOQ of 10 and 10 ordered must take all 11; from 38, 28 passes and 29 must take all 38; from 100 with an MOQ of 20, 10 ordered must add 10 |
| PackAllocationPreview.PreviewCounts | saleor/graphql/checkout/resolvers.py:117-133 | With the corrected rule of finding 5 (the code as written is modelled apart): the checkout's lines of the product count; a pack size that is not positive previews an empty pack; otherwise the pack is the mutation's allocation |
| PackUtils.Apportion | saleor/checkout/pack_utils.py:51-73 | the pack is capped at the total stock; each variant gets its truncated share, the shares' remainders are ranked in descending order, and the leftover units go one each to the first-ranked variants |
| PriceListParsing.OptionalStr | saleor/product/price_list_parsing.py:71-72 | an empty cell gives the empty text, any other its text trimmed |
| PriceListParsing.RequiredStr | saleor/product/price_list_parsing.py:64-68 | the trimmed text, with one "required" error exactly when it is empty |
| PriceListParsing.ProductCode | saleor/product/price_list_parsing.py:75-80 | the lower-cased trimmed code; "required" when empty, and a spaces error when it holds a space |
| PriceListParsing.Brand | saleor/product/price_list_parsing.py:83-85 | the lower-cased trimmed brand, "required" when empty |
| PriceListParsing.Category | saleor/product/price_list_parsing.py:88-99 | the trimmed category, with one error exactly when it is not empty, categories are given and it is not among them |
| PriceListParsing.Decimal | saleor/product/price_list_parsing.py:102-111 | nothing and no error for an empty cell; the number when the text parses to a finite one; otherwise nothing and a "cannot parse" error |
| PriceListParsing.Price | saleor/product/price_list_parsing.py:114-118 | the parsed value, kept even when negative, with a "must not be negative" error added then |
| PriceListParsing.RequiredPrice | saleor/product/price_list_parsing.py:121-125 | "required" exactly when there is no value and no other error |
| PriceListParsing.WeightKg | saleor/product/price_list_parsing.py:128-137 | a negative weight and a weight over 1000 kg are errors, with the value kept |
| PriceListParsing.ImageUrl | saleor/product/price_list_parsing.py:140-169 | the trimmed URL; the checks of the code where `urlparse` returns, and an invalid-URL error where it raises |
| PriceListParsing.DigitsOf | saleor/product/price_list_parsing.py:183 | only digits, at most as many characters as the input |
| PriceListParsing.HsCode | saleor/product/price_list_parsing.py:172-189 | an empty cell is accepted empty; 6, 8 or 10 digits after dropping separators give the digits; any other count keeps the trimmed text with one error naming the count |
| PriceListParsing.ZipDict | saleor/product/price_list_parsing.py:198 | the keys are exactly the sizes |
| PriceListParsing.Sizes | saleor/product/price_list_parsing.py:192-200 | "required" for an empty cell, the parser's error when the notation does not parse, and no error exactly when the cell is not empty and parses |
| PriceListParsing.ParseRow | saleor/product/price_list_parsing.py:208-246 | With the corrected rule of finding 6 (the code as written is modelled apart): the row keeps its index, currency and trimmed description |
| PriceListParsing.ParseRowCollecting | saleor/product/price_list_parsing.py:208-246 | With the corrected rule of finding 6 (the code as written is modelled apart): the parsers called in turn, each appending its errors, compute `ParseRow` |
| PriceListParsing.RowValidIff | saleor/product/price_list_parsing.py:236-245 | a row is valid exactly when no field reported an error |
| PriceListParsing.RowCollectsAll | saleor/product/price_list_parsing.py:219-234 | every error of every field is in the row's list, and the row is then not valid |
| PriceListParsing.RowErrorOrder | saleor/product/price_list_parsing.py:222-234 | the product code's errors come first and the HS code's last, in the order of the parsers |
| PriceListParsing.UnbalancedHostEscapes | saleor/product/price_list_parsing.py:156 | an http URL whose host opens a square bracket it never closes makes the parser as written raise instead of giving a field error, and the corrected one reports an invalid URL |
| PriceListParsing.ProductCodeValidIff | saleor/product/price_list_parsing.py:75-80 | the code is accepted exactly when the trimmed cell is not empty and holds no space |
| PriceListParsing.PriceValidIff | saleor/product/price_list_parsing.py:114-118 | a price is accepted exactly when the cell is empty or holds a number that is not negative |
| PriceListParsing.RequiredPriceValidIff | saleor/product/price_list_parsing.py:121-125 | a required price is accepted exactly when the cell holds a number that is not negative; a negative one keeps its value with one error |
| PriceListParsing.WeightValidIff | saleor/product/price_list_parsing.py:128-137 | a weight is accepted exactly when the cell is empty or holds a number from 0 to 1000, both included |
| PriceListParsing.HsCodeIdempotent | saleor/product/price_list_parsing.py:172-189 | parsing an accepted HS code again gives the same code |
| PriceListParsing.ZipDictLast | saleor/product/price_list_parsing.py:198 | each size maps to the quantity of its last occurrence |
| UrlParse.FindFrom | saleor/product/price_list_parsing.py:156 | the first index at or after the start holding the character, or -1 when there is none |
| UrlParse.RFind | saleor/product/price_list_parsing.py:162 | the last index holding the character, or -1 |
| UrlParse.Extension | saleor/product/price_list_parsing.py:162 | the extension is empty or starts with a dot |
| UrlParse.UnbalancedHostRaises | saleor/product/price_list_parsing.py:156 | `urlparse` raises for an http URL whose host opens a square bracket that is never closed; the bracketed-host check added in Python 3.11.4 is not modelled |
| SizeQty.SizeRun | saleor/product/ingestion.py:338 | the longest prefix of size characters: it ends at the end of the text or before a character outside the size group |
| SizeQty.MatchPrefix | saleor/product/ingestion.py:338 | a match at the front consumes at least one character and no more than the text |
| SizeQty.ParseSizesAndQty | saleor/product/ingestion.py:314-356 | nothing for an empty text; an error exactly when a non-empty text holds no match; otherwise as many sizes as quantities |
| SizeQty.ParseSizesAndQtyLoop | saleor/product/ingestion.py:349-356 | the loop over the matches computes `ParseSizesAndQty` |
| SizeQty.MatchEntry | saleor/product/ingestion.py:337-339 | an entry written `size[qty]`, with or without whitespace before the bracket, is matched whole at the front |
| SizeQty.UnbracketedWordIgnored | saleor/product/ingestion.py:319 | a word with no bracket after it contributes nothing (also line 339) |
| SizeQty.MatchesOfEntries | saleor/product/ingestion.py:319-320 | entries joined by a separator are found back, all of them and in order (also line 339) |
| SizeQty.ParseEntries | saleor/product/ingestion.py:349-356 | the parser reads back the sizes and quantities the notation writes, whatever the separator (also lines 319-320) |
| SizeQty.ParseSpacedEntry | saleor/product/ingestion.py:337-338 | whitespace between a size and its bracket is allowed (also line 320) |
| SizeQty.WordsOnlyRejected | saleor/product/ingestion.py:341-347 | two words without a bracketed quantity are rejected with the text |
| PriceListParsing.ImageUrlAsWritten | saleor/product/price_list_parsing.py:140-169 | as written, whenever the URL check returns rather than raising, the stored value is the trimmed URL |
| IngestionConfig.ConfigToDict | saleor/product/ingestion.py:2563-2565 | the stored form holds exactly the configuration's fields, with the column mapping nested under one key |
| IngestionConfig.MappingFromDict | saleor/product/ingestion.py:209-223 | a stored mapping is refused exactly when it has a key that is not a mapping field (the TypeError of an unexpected keyword), or, in this model only, a value that is neither text nor null; an empty one gives every default column name (also line 2572) |
| IngestionConfig.ConfigFromDict | saleor/product/ingestion.py:261-276 | a configuration read back has no column mapping exactly when the stored one is absent or false in Python's sense (null, empty text, 0, false or an empty dict), and reading succeeds only when the three warehouse fields are present (also lines 2568-2573) |
| IngestionConfig.ReadMapping | saleor/product/ingestion.py:2571-2572 | the popped column mapping gives no mapping exactly when it is false in Python's sense (null, empty text, 0, false or an empty dict, `Falsy`); a true value that is not a dict is refused, as `**` cannot unpack it |
| IngestionConfig.ReadArguments | saleor/product/ingestion.py:261-276 | the constructor call succeeds only with the three warehouse fields present, and keeps the column mapping it is given; refusing a value of the wrong kind is the model's own (also line 2573) |
| IngestionConfig.StoredArgumentsReadBack | saleor/product/ingestion.py:2563-2565 | the stored fields other than the column mapping pass every check of the constructor call and rebuild the stored configuration (also line 2573) |
| IngestionConfig.MappingRoundTrip | saleor/product/ingestion.py:209-223 | any column mapping stored and read back is the same mapping (also lines 2565, 2572) |
| IngestionConfig.ConfigRoundTrip | saleor/product/ingestion.py:2563-2573 | any configuration stored and read back is the same configuration |
| IngestionConfig.ConfigDefaults | saleor/product/ingestion.py:264-276 | a stored form with only the warehouse fields reads back with every default value, and an empty stored mapping reads back as no mapping (also lines 2571-2573) |
| IngestionConfig.WarehouseFieldsRequired | saleor/product/ingestion.py:261-263 | a stored form that lacks the warehouse name, address or country does not read back (also line 2573) |
| IngestionChecks.MappedColumns | saleor/product/ingestion.py:659-669 | the nine (field, column) pairs the validation inspects |
| IngestionChecks.Missing | saleor/product/ingestion.py:670-671 | the reported pairs are no more than the inspected ones |
| IngestionChecks.MissingIff | saleor/product/ingestion.py:670-671 | a pair is reported exactly when its field is mapped to a column the sheet lacks |
| IngestionChecks.ColumnMappingIff | saleor/product/ingestion.py:642-680 | `ValidateColumnMapping` passes exactly when every column it names is in the sheet, and the sheet-integrity error lists each missing one |
| IngestionChecks.ValidateColumnMappingLoop | saleor/product/ingestion.py:655-680 | the loop over the nine pairs gives the same verdict as the validation function |
| IngestionChecks.ValidateWarehouse | saleor/product/ingestion.py:519-539 | ingestion is refused exactly when the warehouse is owned, with a sheet-integrity error naming it |
| IngestionChecks.SeparateByWarehouse | saleor/product/ingestion.py:1255-1296 | the matched products split into those with stock in the warehouse and those without, each product landing in exactly one part |
| IngestionChecks.StockUpdateModeIff | saleor/product/ingestion.py:1299-1330 | the stock-mode decision is asked for exactly when some matched product has stock in the warehouse and no mode is set, naming the warehouse and counting at least one and at most all matched products |
| IngestionChecks.CheckMinimumOrderQuantity | saleor/product/ingestion.py:1333-1347 | the minimum-order decision is asked for, with the product count, exactly when no quantity is configured |
| IngestionChecks.CheckPriceInterpretation | saleor/product/ingestion.py:1350-1362 | the price confirmation is asked for exactly when the products are for the shop and the price meaning is unconfirmed |
| IngestionChecks.DecisionsAnswered | saleor/product/ingestion.py:1325 | once a decision is answered in the configuration, its check passes whatever the sheet (also lines 1346, 1361) |
| Grouping.Filter | saleor/product/ingestion.py:938-941 | a key's group holds only elements with that key, and no more elements than the input |
| Grouping.Repeated | saleor/product/ingestion.py:944-946 | the repeated keys are exactly the grouped keys with more than one element (also lines 994-996) |
| Grouping.GroupByShape | saleor/product/ingestion.py:938-941 | the grouping lists each key once, in the dictionary and in the key order alike, and each key's group is exactly its elements in input order (also lines 989-992) |
| Grouping.FilterEmpty | saleor/product/ingestion.py:938-941 | a key has no group exactly when no element has that key |
| Grouping.FilterTwice | saleor/product/ingestion.py:944-946 | a key's group has more than one element exactly when two elements share that key |
| Grouping.RepeatedIff | saleor/product/ingestion.py:944-948 | some key repeats exactly when two elements share a key (also lines 994-998) |
| Grouping.GroupLoop | saleor/product/ingestion.py:938-941 | the append loop builds the same key order and groups as the grouping function (also lines 989-992) |
| IngestionDedup.Zip | saleor/product/ingestion.py:1027 | pairs each size with its quantity, as many pairs as the shorter of the two lists |
| IngestionDedup.HighestPrice | saleor/product/ingestion.py:1022 | the index of the first row of highest price, a missing price counting as 0 |
| IngestionDedup.ResolveAll | saleor/product/ingestion.py:960-986 | one product for each key of the grouping |
| IngestionDedup.DuplicatesRaiseIff | saleor/product/ingestion.py:937-955 | the duplicate-products error is raised exactly when some (brand, code) repeats and the configuration asks for errors |
| IngestionDedup.DeduplicateValue | saleor/product/ingestion.py:957-986 | a successful run returns each group resolved, in the order the keys first appear (also line 1012) |
| IngestionDedup.DeduplicatedKeys | saleor/product/ingestion.py:910-1012 | after a successful run every (brand, code) of the sheet appears exactly once, and no other |
| IngestionDedup.DeduplicatedNames | saleor/product/ingestion.py:988-1010 | after a successful run no two products share a slug |
| IngestionDedup.IdenticalKeepsFirst | saleor/product/ingestion.py:969-975 | rows with identical sizes and quantities are kept once, as the first of them |
| IngestionDedup.MergeSizes | saleor/product/ingestion.py:1024-1036 | a merged product lists each size once, exactly the sizes of its rows, each with the sum of that size's quantities |
| IngestionDedup.MergeKeepsHighest | saleor/product/ingestion.py:1021-1051 | a merged product takes every field except sizes and quantities from the first row of highest price |
| IngestionDedup.MergeProducts | saleor/product/ingestion.py:1015-1060 | the loops over rows and pairs build the merged product the merge function specifies |
| IngestionDedup.ResolveGroups | saleor/product/ingestion.py:956-985 | the loop over the groups in key order keeps, for each, the product `ResolveAll` names: the single one, the first when all agree on sizes and quantities, or the merge |
| IngestionDedup.DeduplicateProducts | saleor/product/ingestion.py:910-1012 | the loops of the deduplication give the result the deduplication function specifies, errors included |
| IngestionWrites.AttemptInjective | saleor/product/ingestion.py:1652-1656 | different attempts give different slugs |
| IngestionWrites.UniqueSlug | saleor/product/ingestion.py:1652-1657 | the slug chosen is the first attempt not in use, after at most as many attempts as slugs in use |
| IngestionWrites.UpdateStock | saleor/product/ingestion.py:2019-2049 | a new stock row gets the sheet quantity; an existing one is set to it in replace mode and increased by it otherwise |
| IngestionWrites.ReplaceIdempotent | saleor/product/ingestion.py:2045-2046 | replacing twice with the same quantity is replacing once |
| IngestionWrites.AddTwice | saleor/product/ingestion.py:2047-2048 | adding two sheets in turn adds their sum |
| IngestionWrites.ApplyAllKeeps | saleor/product/ingestion.py:2192-2242 | a priced listing never gets cheaper, no listing disappears, existing discounted prices are kept, and unlisted channels are untouched |
| IngestionWrites.ApplyAllCovers | saleor/product/ingestion.py:2192-2231 | every listed channel ends priced at least at the converted price, and a created listing also has a discounted price (also lines 1963-1976) |
| IngestionWrites.UpdateListingsOutcome | saleor/product/ingestion.py:2192-2242 | the update fails exactly when the price is missing and there is a channel, and otherwise never lowers a price and prices every listed channel (also lines 1956-1961) |
| IngestionWrites.UpdateListingPrices | saleor/product/ingestion.py:2192-2242 | the loop over channels gives the result the update function specifies |
| IngestMutation.ValidateInput | saleor/graphql/product/mutations/product_ingestion/product_ingestion_ingest.py:198-222 | input passes exactly when the minimum order quantity is absent or at least 1 and the country code has two characters, the quantity reported first |
| IngestMutation.BuildConfig | saleor/graphql/product/mutations/product_ingestion/product_ingestion_ingest.py:245-276 | the configuration carries the upper-cased country, the given column mapping, quantity and confirmation |
| IngestMutation.Catch | saleor/graphql/product/mutations/product_ingestion/product_ingestion_ingest.py:299-378 | an exception is handled exactly when some clause's class matches it |
| IngestMutation.CatchAt | saleor/graphql/product/mutations/product_ingestion/product_ingestion_ingest.py:299-378 | the clause that runs is the first one whose class matches |
| IngestMutation.SpecificHandlersUnreachableAsWritten | saleor/graphql/product/mutations/product_ingestion/product_ingestion_ingest.py:299-368 | as written, every sheet-integrity error comes out as the generic sheet-integrity code on input, although a later clause matches it too |
| IngestMutation.UnparseableSizesAsWritten | saleor/graphql/product/mutations/product_ingestion/product_ingestion_ingest.py:299-318 | as written, an unparseable sizes column never gets its own code on the column mapping |
| IngestMutation.HandlersDistinguish | saleor/graphql/product/mutations/product_ingestion/product_ingestion_ingest.py:299-378 | with the specific clauses first, every exception is handled, each ingestion error gets its own code, and pending decisions and other exceptions get the generic code on input |
| IngestMutation.Perform | saleor/graphql/product/mutations/product_ingestion/product_ingestion_ingest.py:224-378 | With the corrected rule of finding 7 (the code as written is modelled apart): invalid input and a missing file are reported before the run, and success returns exactly what the run returned |
| IngestMutation.PerformReportsRaised | saleor/graphql/product/mutations/product_ingestion/product_ingestion_ingest.py:278-378 | With the corrected rule of finding 7 (the code as written is modelled apart): a failed run always gives a field error carrying the code of what was raised |
| IngestMutation.AcceptedCountryUpper | saleor/graphql/product/mutations/product_ingestion/product_ingestion_ingest.py:213-214 | an accepted country code reaches the configuration upper-cased with two characters (also line 263) |
| PriceListTasks.Resolve | saleor/product/tasks.py:615-623 | an unlinked valid item whose code and brand name a product is linked to it; every other item, and every other field, is unchanged |
| PriceListTasks.Released | saleor/product/tasks.py:683-686 | a released stock row keeps its allocations, and its quantity becomes the allocated units, never below 0 |
| PriceListTasks.Link | saleor/product/tasks.py:414-429 | each valid item whose code and brand name a product is linked to it after processing, the rest keep their link |
| PriceListTasks.Process | saleor/product/tasks.py:348-446 | With the corrected rule of finding 8 (the code as written is modelled apart): processing succeeds exactly when the sheet parses, stamping completion and clearing the failure; a failure stamps the failure, clears the completion and keeps the items; status and warehouse never change |
| PriceListTasks.AddSizesFrame | saleor/product/tasks.py:538-563 | adding sizes touches only the product's rows in the list's warehouse and rows of sizes it lists, and never removes a row or variant |
| PriceListTasks.AddSizesEffect | saleor/product/tasks.py:538-563 | each listed size ends with a variant and a row holding the sheet quantity added to the old one when incrementing an existing row, or the sheet quantity with no allocations |
| PriceListTasks.UnknownCategoryChangesNothing | saleor/product/tasks.py:520-530 | an unlinked item whose category has no product type or category is skipped and changes nothing |
| PriceListTasks.LinkedItemAddsStock | saleor/product/tasks.py:548-563 | a linked item adds each sheet quantity to its product's row in the warehouse, creating it when absent, and leaves other products' and warehouses' stock alone |
| PriceListTasks.ActivateItemLoop | saleor/product/tasks.py:498-572 | the loops over sizes give what the item activation function specifies |
| PriceListTasks.FirstActiveOther | saleor/product/tasks.py:601-608 | another list is found exactly when some other list of the same warehouse is active |
| PriceListTasks.ActivateOutcome | saleor/product/tasks.py:577-653 | activation fails exactly on an inactive list that is unprocessed or whose warehouse is owned; an active list is left as it is; a delegation names another active list of the same warehouse; an activated list is active and stamped |
| PriceListTasks.ActivatePriceList | saleor/product/tasks.py:577-653 | With the corrected rule of finding 10 (the code as written is modelled apart): the loop over items gives what the activation function specifies |
| PriceListTasks.DeactivateEffect | saleor/product/tasks.py:658-691 | deactivation marks the list inactive, releases the rows of its linked products in its warehouse and leaves every other row untouched |
| PriceListTasks.DeactivateIdempotent | saleor/product/tasks.py:674-675 | deactivating twice is deactivating once |
| PriceListTasks.StaleCompletionAsWritten | saleor/product/tasks.py:437-446 | `ProcessAsWritten`, the code as written: a list processed once whose reprocessing fails still passes the activation's processing guard (also lines 594-595) |
| PriceListTasks.FailedProcessingBlocksActivation | saleor/product/tasks.py:443-446 | with a failure clearing the completion stamp, a list whose last processing failed cannot be activated (also lines 594-595) |
| PriceListTasks.ResolvedLinkLostAsWritten | saleor/product/tasks.py:615-648 | as written, an item linked through the lookup during activation gets its stock but its link is not saved, so deactivation does not release that product (also lines 677-681) |
| PriceListTasks.ResolvedLinkKept | saleor/product/tasks.py:615-648 | when the looked-up link is saved, the product whose stock activation added is one deactivation releases (also lines 677-681) |
| PriceListReplace.LastFor | saleor/product/tasks.py:773-778 | the item a product-keyed dictionary keeps is a valid item of the list linked to that product |
| PriceListReplace.LastForIff | saleor/product/tasks.py:766-778 | the dictionary has an entry for exactly the products some valid item links to |
| PriceListReplace.WinnerIsLast | saleor/product/tasks.py:773-778 | the item kept for a linked product is the last valid item linked to it (also lines 791-793) |
| PriceListReplace.WinnersDistinct | saleor/product/tasks.py:773-778 | no two kept items share a product |
| PriceListReplace.KeepSizesFrame | saleor/product/tasks.py:808-830 | keeping sizes touches only the product's rows in the warehouse for the sizes it lists, adds only that product's variants, and removes nothing |
| PriceListReplace.KeepSizesAt | saleor/product/tasks.py:808-830 | With the corrected rule of finding 9 (the code as written is modelled apart): each size the new list carries ends with a row: an existing row of an existing variant holds the larger of its allocations and the sheet quantity, any other the sheet quantity with nothing allocated |
| PriceListReplace.KeepEffect | saleor/product/tasks.py:791-830 | With the corrected rule of finding 9 (the code as written is modelled apart): sizes the new list dropped keep only their allocations, sizes neither list names are untouched, and each listed size holds at least the sheet quantity, exactly it unless the allocations are larger |
| PriceListReplace.MissingRowNotCreatedAsWritten | saleor/product/tasks.py:808-816 | as written, a kept product's size that has a variant but no row in this warehouse gets no stock, since the update matches no row |
| PriceListReplace.MissingRowCreated | saleor/product/tasks.py:808-830 | with the missing row created, that size gets the sheet quantity and nothing allocated |
| PriceListReplace.ReplaceOutcome | saleor/product/tasks.py:696-860 | replacement fails exactly on lists of different warehouses or an unprocessed new list; an inactive old list with an active new one is left as it is; otherwise the old list is deactivated pointing at the new one, the new one is activated and its looked-up links are saved |
| PriceListReplace.ReplaceStock | saleor/product/tasks.py:791-849 | stock of another warehouse is untouched, and in the list's warehouse a product only the old list linked keeps only its allocations (also lines 766-790) |
| PriceListReplace.KeepSizesLoop | saleor/product/tasks.py:808-830 | With the corrected rule of finding 9 (the code as written is modelled apart): the loop over one kept product's sizes gives what the keep function specifies |
| PriceListReplace.ReplacePriceList | saleor/product/tasks.py:696-860 | With the corrected rule of finding 9 (the code as written is modelled apart): the loops of the replacement give what the replacement function specifies |
| PriceListCreate.Fields | saleor/graphql/product/mutations/price_list/price_list_create.py:33-50 | the eleven column-map fields, each named once (also lines 141-146) |
| PriceListCreate.StoredIsInverted | saleor/graphql/product/mutations/price_list/price_list_create.py:141-146 | each stored key is the text of a column index some field names, carrying that field, and every such index is stored |
| PriceListCreate.ColumnMapRoundTrip | saleor/graphql/product/mutations/price_list/price_list_create.py:141-146 | the column map processing reads back is the index-to-field map the input describes (also saleor/product/tasks.py:364) |
| PriceListCreate.InvertedIff | saleor/graphql/product/mutations/price_list/price_list_create.py:142-146 | an index is in the map exactly when some field names it, and it carries the last field in declaration order that does |
| PriceListCreate.SharedIndexKeepsOne | saleor/graphql/product/mutations/price_list/price_list_create.py:142-146 | when two fields name the same index, only the later one survives in the configuration |
| PriceListCreate.SharedIndex | saleor/graphql/product/mutations/price_list/price_list_create.py:142-146 | an earlier field that shares its index with a later one is lost from the map |
| PriceListCreate.CreateOutcome | saleor/graphql/product/mutations/price_list/price_list_create.py:110-162 | a list is created exactly for a known warehouse and an uploaded Excel file; a missing file and a non-Excel name are reported apart; the created list is queued with the input's sheet, header row and column map |
| PriceListCreate.ExcelNameIgnoresCase | saleor/graphql/product/mutations/price_list/price_list_create.py:131 | the Excel check passes a name exactly when it passes its lower-cased form |
| PriceListCreate.DefaultsStored | saleor/graphql/product/mutations/price_list/price_list_create.py:65-72 | left unset, the sheet is "Sheet1", the header row is 0 and the Drive link is empty (also lines 151-154) |
| UpdateAvailabilities.ProcessRowOutcome | saleor/product/management/commands/update_availabilities.py:186-225 | a row is kept exactly when its code and brand are not blank and its sizes cell holds an entry, carrying the stripped code, the stripped title-cased brand and the parsed sizes; a sizes cell with text but no entry raises |
| UpdateAvailabilities.MatchRows | saleor/product/management/commands/update_availabilities.py:227-252 | matched rows are exactly those the lookup knows, each distinct row once with its product; the rest are unmatched; every row lands in one part |
| UpdateAvailabilities.Pairs | saleor/product/management/commands/update_availabilities.py:435 | pairs each size with its quantity, as many as the shorter list |
| UpdateAvailabilities.ApplySizesCounts | saleor/product/management/commands/update_availabilities.py:435-471 | every size is counted once, as applied or skipped; some size is applied exactly when one has a variant, and skipped exactly when one lacks it |
| UpdateAvailabilities.ApplySizesFrame | saleor/product/management/commands/update_availabilities.py:435-460 | only the stock of the listed sizes' variants changes, and no stock row disappears |
| UpdateAvailabilities.ApplySizesAt | saleor/product/management/commands/update_availabilities.py:438-460 | each listed size with a variant ends with the sheet quantity, overwriting rather than adding, its allocations kept or 0 for a new row |
| UpdateAvailabilities.ApplySizesIdempotent | saleor/product/management/commands/update_availabilities.py:444-447 | applying the same row twice leaves the stock as applying it once |
| UpdateAvailabilities.UpdateAllSummary | saleor/product/management/commands/update_availabilities.py:414-480 | the summary counts each size once as updated or skipped, and a product as updated exactly when one of its sizes was applied |
| UpdateAvailabilities.ApplySizesLoop | saleor/product/management/commands/update_availabilities.py:435-471 | the loop over one product's sizes gives what the size function specifies |
| UpdateAvailabilities.UpdateStock | saleor/product/management/commands/update_availabilities.py:414-480 | the loops over products and sizes give what the update function specifies; each product adds its own sizes' counts (`UpdateAllStep`) |
| MergeProducts.CheckMerge | saleor/product/management/commands/merge_products.py:58-74 | a single merge proceeds exactly when source and target differ and both exist, reporting the same-product case first, then a missing source, then a missing target |
| MergeProducts.GroupedIff | saleor/product/management/commands/merge_products.py:161-197 | two products share a duplicate group exactly when both have a non-blank code and brand and these agree lower-cased |
| MergeProducts.FindDuplicateGroups | saleor/product/management/commands/merge_products.py:161-197 | the loop over products builds exactly the groups of more than one product sharing a lower-cased code and brand |
| MergeProducts.BigGroups | saleor/product/management/commands/merge_products.py:197 | keeps exactly the groups of more than one product, unchanged |
| MergeProducts.GroupsOfAll | saleor/product/management/commands/merge_products.py:187-197 | grouping over every product with a code or brand and keeping the large groups gives the duplicate groups |
| MergeProducts.MinPk | saleor/product/management/commands/merge_products.py:159 | the candidate of lowest pk |
| MergeProducts.Allocated | saleor/product/management/commands/merge_products.py:152-157 | exactly the candidates with allocations |
| MergeProducts.PickTargetSpec | saleor/product/management/commands/merge_products.py:145-159 | the target is in the group, has allocations whenever any candidate does, no lower-pk candidate has any, and without allocations it is the lowest pk |
| MergeProducts.LastById | saleor/product/management/commands/merge_products.py:264 | a target with the same attribute value ids when there is one, the last such in target order (also line 276) |
| MergeProducts.LastBySlug | saleor/product/management/commands/merge_products.py:265-267 | a target with the same lower-cased slugs when there is one (also line 276) |
| MergeProducts.MatchVariantSpec | saleor/product/management/commands/merge_products.py:255-282 | a source variant matches by identical value ids when possible, else by identical lower-cased slugs, and is unmatched exactly when neither exists |
| MergeProducts.MatchVariants | saleor/product/management/commands/merge_products.py:269-282 | every source variant is matched or unmatched, matched ones with their match, unmatched ones exactly those with none |
| MergeProducts.MergeStocksSpec | saleor/product/management/commands/merge_products.py:314-343 | the variant merge refuses exactly when a shared warehouse's source row has allocations; otherwise each warehouse of either variant ends with the sum of both rows' quantities and allocations |
| MergeProducts.MoveMissingSpec | saleor/product/management/commands/merge_products.py:345-374 | nothing the target has is replaced, rows for keys it lacks move over, and every key of either side is present (also lines 215-239, 407-433) |
| MergeProducts.MoveMissingIdempotent | saleor/product/management/commands/merge_products.py:407-433 | merging the same source again changes nothing (also lines 215-239) |
| MergeProducts.RemapSpec | saleor/product/management/commands/merge_products.py:296-312 | every reference to the source variant points at the target, and every other reference is unchanged |
| MergeProducts.SwapMemberSpec | saleor/product/management/commands/merge_products.py:447-467 | every link to the source product becomes a link to the target, and no other link changes |
| VariantCompression.ValueText | saleor/csv/utils/variant_compression.py:76 | a size value's text is its name, else its slug, else its value field |
| VariantCompression.SizesFor | saleor/csv/utils/variant_compression.py:56-77 | sizes are recorded only for exported variants |
| VariantCompression.SizesForDomain | saleor/csv/utils/variant_compression.py:58-77 | a variant gets a size for a slug exactly when some assignment of that slug to it has a value |
| VariantCompression.SizesForLast | saleor/csv/utils/variant_compression.py:70-77 | the size a variant keeps is the one from its last assignment that has a value |
| VariantCompression.VariantSizesSpec | saleor/csv/utils/variant_compression.py:52-81 | `VariantSizes`, the sizes used, are those of the first slug, in the fixed try order, that gives any |
| VariantCompression.VariantSizesNone | saleor/csv/utils/variant_compression.py:52-81 | when no slug gives a size, no variant has one |
| VariantCompression.Label | saleor/csv/utils/variant_compression.py:110-114 | a variant's label is never empty: its size when it has one, else its SKU when it has one |
| VariantCompression.Quantity | saleor/csv/utils/variant_compression.py:86-101 | a variant's quantity, summed over the selected warehouses, is not negative when no stock row is (also line 117) |
| VariantCompression.QuantityWithoutStock | saleor/csv/utils/variant_compression.py:99-101 | a variant without a stock row in the selected warehouses has quantity 0 (also line 117) |
| VariantCompression.QuantityIgnores | saleor/csv/utils/variant_compression.py:86-97 | a stock row adds to a variant's quantity exactly when it is that variant's and its warehouse is selected, or all are |
| VariantCompression.LexLeqTotal | saleor/csv/utils/variant_compression.py:129 | the string order compares any two sizes |
| VariantCompression.LexLeqTrans | saleor/csv/utils/variant_compression.py:129 | the string order is transitive |
| VariantCompression.KeyLeqTotal | saleor/csv/utils/variant_compression.py:126-129 | the sort key order compares any two keys |
| VariantCompression.KeyLeqTrans | saleor/csv/utils/variant_compression.py:126-129 | the sort key order is transitive |
| VariantCompression.Insert | saleor/csv/utils/variant_compression.py:126-129 | insertion adds exactly the one entry |
| VariantCompression.InsertSorted | saleor/csv/utils/variant_compression.py:126-129 | inserting into a sorted list keeps it sorted |
| VariantCompression.SortKeyed | saleor/csv/utils/variant_compression.py:126-129 | sorting permutes the entries |
| VariantCompression.SortKeyedSorted | saleor/csv/utils/variant_compression.py:126-129 | the sorted list is in key order |
| VariantCompression.Keys | saleor/csv/utils/variant_compression.py:124-129 | the keys are all numeric when every size reads as a number, and all textual otherwise |
| VariantCompression.SortEntriesPermutes | saleor/csv/utils/variant_compression.py:122-129 | `SortEntries`, sorting a product's entries, keeps exactly its entries |
| VariantCompression.SortEntriesNumeric | saleor/csv/utils/variant_compression.py:124-126 | when every size reads as a number, the entries come out in numeric order |
| VariantCompression.SortEntriesText | saleor/csv/utils/variant_compression.py:127-129 | when some size is not a number, the entries come out in string order |
| VariantCompression.InsertUnkeyed | saleor/csv/utils/variant_compression.py:126-129 | dropping the keys after an insertion adds exactly the inserted entry |
| VariantCompression.SortUnkeyed | saleor/csv/utils/variant_compression.py:126-129 | dropping the keys after sorting gives the same entries |
| VariantCompression.AsNat | saleor/csv/utils/variant_compression.py:132 | the entries with their quantities as natural numbers, in order |
| VariantCompression.FormatRoundTrip | saleor/csv/utils/variant_compression.py:132 | a cell of sizes the supplier-sheet notation can hold, with quantities not negative, parses back as exactly those sizes and quantities (also saleor/product/ingestion.py:314-356) |
| VariantCompression.VariantsOf | saleor/csv/utils/variant_compression.py:38-42 | exactly the variants of the exported products |
| VariantCompression.ProductColumn | saleor/csv/utils/variant_compression.py:106-107 | each variant's product, in order |
| VariantCompression.EntriesOfCount | saleor/csv/utils/variant_compression.py:104-119 | a product gets one entry per variant |
| VariantCompression.EntriesOfMembers | saleor/csv/utils/variant_compression.py:104-119 | a product's entries are exactly its variants' labels with their quantities |
| VariantCompression.FormatAll | saleor/csv/utils/variant_compression.py:121-133 | every grouped product gets a cell, its entries sorted then formatted |
| VariantCompression.CompressedKeys | saleor/csv/utils/variant_compression.py:104-133 | a product gets a cell exactly when it is exported and has a variant, so no products or no variants gives no cells (also lines 29-48) |
| VariantCompression.CompressedCell | saleor/csv/utils/variant_compression.py:104-133 | a product's cell holds each of its variants once, in sorted order, and reads back as them when they fit the notation |
| VariantCompression.SizesForLoop | saleor/csv/utils/variant_compression.py:57-77 | the assignment loop for one slug gives what the size function specifies |
| VariantCompression.FindSizes | saleor/csv/utils/variant_compression.py:56-81 | the loop over slugs gives what the slug-order function specifies |
| VariantCompression.EntriesOfAppend | saleor/csv/utils/variant_compression.py:104-119 | one more variant appends its entry to its own product's list only |
| VariantCompression.EntriesOfAbsent | saleor/csv/utils/variant_compression.py:104-119 | a product without variants has no entries |
| VariantCompression.GroupedStep | saleor/csv/utils/variant_compression.py:104-119 | grouping one more variant appends to its product's list and leaves the others |
| VariantCompression.CompressVariantsData | saleor/csv/utils/variant_compression.py:11-135 | the loops give the cells the compression function specifies |
| WarehouseRecords.TotalSourced | saleor/warehouse/queries.py:38 | the summed source quantity is null exactly when the allocation has no sources (also line 110; saleor/order/models.py:130) |
| RateLimit.CacheKey | saleor/core/utils/rate_limit.py:49-51 | every key starts with the limiter's prefix under the rate-limit namespace |
| RateLimit.CacheKeyInjective | saleor/core/utils/rate_limit.py:49-51 | different identifiers under one limiter never share a key |
| RateLimit.Trunc | saleor/core/utils/rate_limit.py:82 | integer conversion truncates toward zero |
| RateLimit.Recent | saleor/core/utils/rate_limit.py:74-76 | the kept timestamps are exactly those younger than the window |
| RateLimit.Oldest | saleor/core/utils/rate_limit.py:81 | the smallest kept timestamp |
| RateLimit.Decide | saleor/core/utils/rate_limit.py:65-99 | a request is allowed exactly when no wait is reported, and only an allowed request stores timestamps |
| RateLimit.DecideSpec | saleor/core/utils/rate_limit.py:68-99 | a request is refused exactly when the window already holds the maximum and at least one request, with a wait of at least one second; an acceptance stores the recent timestamps and the new one, never more than the maximum |
| RateLimit.RetryAfterBounded | saleor/core/utils/rate_limit.py:81-82 | without timestamps in the future the wait is at most the window plus one second |
| RateLimit.Run | saleor/core/utils/rate_limit.py:53-99 | one verdict per request of a sequence |
| RateLimit.BurstVerdicts | saleor/core/utils/rate_limit.py:53-99 | within one window, starting from nothing, the first maximum-many requests are allowed and every later one refused |
| RateLimit.Cache.constructor | saleor/core/utils/rate_limit.py:6 | an empty cache |
| RateLimit.RateLimiter.constructor | saleor/core/utils/rate_limit.py:28-47 | a limiter with the given prefix, maximum and window |
| RateLimit.RateLimiter.IsAllowed | saleor/core/utils/rate_limit.py:53-99 | a failing cache lets the request through and changes nothing; otherwise the verdict and wait are the window decision on the stored entry, which an acceptance overwrites |
| RateLimit.RateLimiter.CheckOrRaise | saleor/core/utils/rate_limit.py:101-123 | the error is raised exactly when the cache works and the request is refused, carrying the wait and the caller's message or the default one (`DefaultMessage`) |
| RateLimit.ContactFormLimits | saleor/core/utils/rate_limit.py:151-165 | the contact-form limiter allows 5 requests per 3600 seconds unless the settings say otherwise |
| RateLimit.FirstField | saleor/core/utils/rate_limit.py:142 | the text before the first separator |
| RateLimit.ClientIp | saleor/core/utils/rate_limit.py:126-147 | the first forwarded address, stripped, when the proxy header is set, otherwise the remote address, otherwise "unknown" |
| RateLimit.ForwardedAddressShape | saleor/core/utils/rate_limit.py:139-142 | a forwarded client address holds no comma and no surrounding whitespace |
| ContactForm.RequiredErrors | saleor/graphql/shop/mutations/contact_form_submit.py:67-76 | one required error for each required field that is missing, null or empty, and no other |
| ContactForm.LengthErrors | saleor/graphql/shop/mutations/contact_form_submit.py:87-96 | one length error for each field over its limit, and no other |
| ContactForm.CheckRequired | saleor/graphql/shop/mutations/contact_form_submit.py:67-76 | the loop over required fields gives exactly the required errors |
| ContactForm.CheckLengths | saleor/graphql/shop/mutations/contact_form_submit.py:87-96 | the loop over the limits gives exactly the length errors |
| ContactForm.ValidateInput | saleor/graphql/shop/mutations/contact_form_submit.py:44-98 | With the corrected rule of finding 11 (the code as written is modelled apart): the method collects exactly the errors the validation specifies, in the order of the checks |
| ContactForm.BusinessNameLabel | saleor/graphql/shop/mutations/contact_form_submit.py:74 | a field's label replaces underscores with spaces and title-cases the words |
| ContactForm.RequiredDistinct | saleor/graphql/shop/mutations/contact_form_submit.py:63-96 | a required error is never mistaken for an email, short-enquiry or length error |
| ContactForm.LengthDistinct | saleor/graphql/shop/mutations/contact_form_submit.py:63-96 | a length error is never mistaken for an email or short-enquiry error |
| ContactForm.ValidateSound | saleor/graphql/shop/mutations/contact_form_submit.py:44-98 | every reported error names a problem the input has |
| ContactForm.ValidateComplete | saleor/graphql/shop/mutations/contact_form_submit.py:44-98 | every problem the input has is reported |
| ContactForm.ValidateClean | saleor/graphql/shop/mutations/contact_form_submit.py:44-98 | an input passes exactly when its email is accepted, every required field is filled, the enquiry has at least 10 characters and no field exceeds its limit |
| ContactForm.LengthLimitBoundary | saleor/graphql/shop/mutations/contact_form_submit.py:87-96 | a limit's error is reported exactly when the field is longer than the limit (also lines 50-57) |
| ContactForm.NullEnquiryCrashesAsWritten | saleor/graphql/shop/mutations/contact_form_submit.py:79-80 | `ValidateAsWritten`, the code as written: an enquiry sent as null makes the length check raise a type error |
| ContactForm.NullEnquiryReported | saleor/graphql/shop/mutations/contact_form_submit.py:68-85 | counting a null enquiry as empty, validation does not crash and reports the enquiry as required and too short |
| ContactForm.ValidateAgrees | saleor/graphql/shop/mutations/contact_form_submit.py:44-98 | on every input without a null enquiry, the corrected validation gives what the code as written gives |
| ContactForm.PayloadOf | saleor/graphql/shop/mutations/contact_form_submit.py:132-142 | phone and order number default to "N/A" when not sent, and are passed on as sent otherwise |
| ContactForm.SubmitSpec | saleor/graphql/shop/mutations/contact_form_submit.py:101-151 | With the corrected rule of finding 11 (the code as written is modelled apart): a rate-limited request reports only the wait and notifies nobody; otherwise staff are notified exactly when the input is clean, with its payload, and the errors are reported otherwise |
| ContactForm.SubmitUnderLimiter | saleor/graphql/shop/mutations/contact_form_submit.py:106-125 | With the corrected rule of finding 11 (the code as written is modelled apart): with the contact-form limiter, a submission is refused with the wait when the window is full, and otherwise succeeds exactly when the input is clean (also saleor/core/utils/rate_limit.py:151-165) |
| MediaViews.ServeExportFile | saleor/media_views.py:16-49 | each response of the export view, exactly when given: a wrong method, a missing file, an anonymous requester, a requester neither owner nor staff, a file without content, otherwise a CSV attachment; the decision is the shared `Serve` |
| MediaViews.ServeInvoice | saleor/media_views.py:52-87 | each response of the invoice view, exactly when given, the owner being the order's user, otherwise a PDF attachment; the decision is the shared `Serve` |
| MediaViews.OwnerlessIsStaffOnly | saleor/media_views.py:27-36 | a file without an owner is served to staff only, and an anonymous requester is never served |
| MediaViews.InvoiceLikeExport | saleor/media_views.py:16-87 | the invoice view decides as the export view would for a file owned by the order's user, differing only in the not-found text and the content type |

## Left out

- The Django ORM, `transaction.atomic`, `select_for_update` and row locks: rows are values and an `Err` leaves the caller's rows as they were, so concurrency and locking are not modelled.
- Celery scheduling (`.delay`) and the promotion and discount batch tasks of saleor/product/tasks.py:45-343, which are outside the modelled core.
- Webhooks, plugin-manager calls (`notify`, `call_event`), and every Xero call: whether Xero reports a prepayment paid is a parameter.
- Network access is not modelled:
  - the exchange rates and the float `convert_price` of ingestion (the conversion is a parameter);
  - image download in `create_product_media`;
  - the VIES request (its answer is a parameter);
  - address forms.
- File and spreadsheet I/O is not modelled: pandas reading, `parse_sheet`'s DataFrame slicing, `process_excel_row`'s float parsing, file storage, CSV export and image embedding. Rows come in as cells.
- Media file streaming, the read replica database and the absolute invoice URI. The media views' model decides the response only.
- E-mail sending. The contact form's model stops at the notification payload.
- Interactive command prompts and output: the `ingest_products` retry loop, the `update_availabilities` prompts, dry-run previews and printed summaries. The answers are parameters.
- Thin GraphQL wrappers whose logic lives in code that is not part of this model: receipts, picks, and the price-list activate, deactivate, replace and delete mutations. GraphQL types, schemas, resolvers other than the pack preview, and permission plumbing are also left out.
- These collaborators are parameters, with only the contracts the modelled code relies on:
  - `allocate_sources`, `order.actions`, and `can_confirm_order` in CreateMissingFulfillments;
  - `quantize_price`, `calculate_flat_rate_tax`, `get_zero_rated_export_tax_class`, `get_available_quantity`;
  - `slugify`, Django's `validate_email`, and `Decimal(str(x))` parsing;
  - `get_products_by_code_and_brand`, `get_size_to_variant_map`, `try_auto_approve_fulfillment`, `record_external_payment`, `create_fulfillments`.
- The audit-event rows (saleor/inventory/events.py) are not modelled beyond their number and subject.
- The stored ingestion configuration is a dictionary keyed by the field a key names, or by `Other(text)` for any other text. Decoding the stored JSON's text keys into fields is not modelled.
- The receipt and adjustment functions (`start_receipt`, `complete_receipt`, `process_adjustment`, …) are not in saleor/inventory/stock_management.py, so they are not modelled.
- `get_products_data_compressed` (saleor/csv/utils/variant_compression.py:138-238) queries the database and streams rows, so it is not modelled. Only `compress_variants_data` is modelled.
- VariantCompression.CompressVariantsData: `float(size)`, the numeric sort key of a size, is a parameter `number` returning a real; NaN and infinities are not modelled, and the sort is an insertion sort that keeps equal keys in input order; that it is stable is not proved.
- RateLimit.RateLimiter.IsAllowed: timestamps are reals, not floats; the clock and a cache failure are parameters; the cache entry's timeout and the log line are not modelled.
- UpdateAvailabilities.UpdateStock: the warehouse selection, prompts, dry-run preview and `CommandError` wrapping are not modelled.
- MergeProducts.SwapMemberSpec: the transaction, the dry-run rollback, the `CommandError` texts and the final deletion of the source product are not modelled.
- ContactForm.SubmitSpec: the site settings lookup, the plugin manager and the notification itself are not modelled. GraphQL `null` is `None` in the input map.
- PriceListTasks.Activate: the channel listings, attributes and product media that activation also creates are not modelled.
- IngestionConfig.MappingFromDict: `SpreadsheetColumnMapping` is an attrs class without validators, so Python stores a column of any kind as given. The model's typed record holds only text or `None`, so it refuses any other kind (`WrongColumnKinds`). `ingest_config_to_dict` never writes such a value, so the round trip is unaffected.
- IngestionConfig.ReadArguments: `IngestConfig` has no validators either, so Python carries a field of the wrong kind as given. The typed record forces the model to refuse it (`WrongKinds`). As with the mapping, a stored form written by `ingest_config_to_dict` never holds such a value.
- PurchaseOrderCreate.CleanInput: takes the warehouse and variant ids as already decoded, so the failure of `from_global_id_or_error` on a malformed global id is not modelled (saleor/graphql/inventory/mutations/purchase_order_create.py:50, 75 and 116). For a variant id that failure surfaces as an UnboundLocalError when no earlier item has reached the local `from ....product.models import ProductVariant` at line 119, because the handler `except ProductVariant.DoesNotExist` at line 123 then names an unbound local.
- The members below follow the corrected rule of a finding (see "## Findings"), not the code as written. The as-written half is modelled separately by the member named in each line:
- StockManagement.ReceivePurchaseOrderItem: records the receipt as finding 1 intends; as written, StockManagement.ReceiveAsWritten.
- Receiving.CostProblem: the corrected cost rule of finding 3 (a seller-pays Incoterm needs a positive cost); as written, Receiving.CostProblemAsWritten.
- Receiving.CreateInboundShipment: uses the corrected cost rule of finding 3 (a seller-pays Incoterm needs a positive cost); the code as written is Receiving.CostProblemAsWritten.
- Receiving.CreateShipmentSucceedsIff: states the corrected cost rule of finding 3; as written, Receiving.NegativeCostAcceptedAsWritten.
- Receiving.CreatedShipmentCostFitsIncoTerm: holds for the corrected cost rule of finding 3 only; as written, Receiving.NegativeCostAcceptedAsWritten.
- PurchaseOrderCreate.ItemErrorsEmptyIff: reports a missing variant as a field error, per the correction of finding 4; as written, PurchaseOrderCreate.ItemErrorsAsWritten.
- PurchaseOrderCreate.NoItemErrorsAllValid: uses the corrected item check of finding 4; as written, PurchaseOrderCreate.ItemErrorsAsWritten.
- PurchaseOrderCreate.ValidateItems: uses the corrected item check of finding 4; as written, PurchaseOrderCreate.ItemErrorsAsWritten.
- PurchaseOrderCreate.CleanInput: uses the corrected item check of finding 4; as written, PurchaseOrderCreate.CreateAsWritten.
- PurchaseOrderCreate.CreateOfValid: uses the corrected item check of finding 4; as written, PurchaseOrderCreate.CreateAsWritten.
- PurchaseOrderCreate.InputErrorsEmptyIff: uses the corrected item check of finding 4; as written, PurchaseOrderCreate.CreateAsWritten.
- PurchaseOrderCreate.ItemsErrorsEmptyIff: uses the corrected item check of finding 4; as written, PurchaseOrderCreate.ItemErrorsAsWritten.
- PurchaseOrderCreate.PurchaseOrderCreateMutation: uses the corrected item check of finding 4, so a missing variant is an error and not a KeyError; as written, PurchaseOrderCreate.MissingVariantCrashesAsWritten.
- PackAllocationPreview.Preview: uses the corrected pack rule of finding 5 (a pack size that is not positive allocates nothing); as written, PackExamples.NegativePackAllocatesAsWritten.
- PackAllocationPreview.ResolveGetPackAllocation: uses the corrected pack rule of finding 5; as written, PackExamples.NegativePackAllocatesAsWritten.
- PackAllocationPreview.PreviewPack: uses the corrected pack rule of finding 5; as written, PackExamples.NegativePackAllocatesAsWritten.
- PackAllocationPreview.PreviewCounts: uses the corrected pack rule of finding 5; as written, PackExamples.NegativePackAllocatesAsWritten.
- PriceListParsing.ParseRow: uses the corrected image URL check of finding 6, where an unbalanced bracket is a field error; as written, PriceListParsing.ImageUrlAsWritten.
- PriceListParsing.ParseRowCollecting: uses the corrected image URL check of finding 6; as written, PriceListParsing.ImageUrlAsWritten.
- IngestMutation.Perform: uses the corrected handler order of finding 7, where each `SheetIntegrityError` subclass gets its own code; as written, IngestMutation.UnparseableSizesAsWritten.
- IngestMutation.PerformReportsRaised: states the corrected handler order of finding 7; as written, IngestMutation.SpecificHandlersUnreachableAsWritten.
- PriceListTasks.Process: clears `processing_completed_at` on failure, per the correction of finding 8; as written, PriceListTasks.ProcessAsWritten.
- PriceListTasks.ActivatePriceList: saves the link made by the code lookup, per the correction of finding 10; as written, PriceListTasks.ActivateAsWritten.
- PriceListReplace.KeepSizesAt: creates the missing stock row, per the correction of finding 9; as written, PriceListReplace.KeepAsWritten.
- PriceListReplace.KeepEffect: states the corrected stock update of finding 9; as written, PriceListReplace.MissingRowNotCreatedAsWritten.
- PriceListReplace.KeepSizesLoop: uses the corrected stock update of finding 9; as written, PriceListReplace.KeepAsWritten.
- PriceListReplace.ReplacePriceList: uses the corrected stock update of finding 9; as written, PriceListReplace.ReplaceAsWritten.
- ContactForm.ValidateInput: reports a null enquiry as required and too short, per the correction of finding 11; as written, ContactForm.ValidateAsWritten.
- ContactForm.SubmitSpec: uses the corrected validation of finding 11; as written, ContactForm.ValidateAsWritten.
- ContactForm.SubmitUnderLimiter: uses the corrected validation of finding 11; as written, ContactForm.NullEnquiryCrashesAsWritten.
- OrderLineUpdate.UpdateLineMutation: the line's new quantity is checked against a given `stockAvailable`. The rest of `change_order_line_quantity` (its allocation changes and events), `invalidate_order_prices`, `recalculate_order_weight` and `fetch_order_prices_if_expired` are not modelled: they are order-wide price, weight and stock services in code that is not part of this model.
- OrderModels.IsFullyPicked: `is_fully_picked` is modelled, but no modelled operation reads it, so nothing is proved about it beyond its definition.
- PackUtils.Apportion: the float quotas `pack_size * (stock / total_stock)` are exact reals, so float rounding in the quota and its fractional part is not modelled.
- CheckoutAddPack.PerformMutation: the MOQ attribute's value comes in as an integer, so a ValueError from `int(value.name)` on a non-numeric value is not modelled; neither are the errors of `get_checkout` (an unknown or inaccessible checkout), nor the not-found error of the product lookup `get_node_or_error` at saleor/graphql/checkout/mutations/checkout_add_pack.py:177-179 (an unknown product id or one of another type), because the request carries the product's data already looked up.
- StockManagement.CanConfirmOrder: `can_confirm_order` is defined in saleor/warehouse/management.py, which is not part of this model. StockManagement reads it as `ready_to_fulfill_with_inventory` (saleor/order/models.py:100-139): the order is UNCONFIRMED, has at least one allocation, and none is non-owned or not fully sourced. saleor/warehouse/tests/test_order_confirmation.py:14-395 expects exactly that behaviour. ConfirmAutoConfirms states its outcome under this reading.
- VatValidation.VatCache: each entry records its timeout, but expiry is the cache backend's, so an entry is never dropped in the model.
- UrlParse.UrlParse: Python 3.11.4 and later also refuse a bracketed host that is not a valid IPv6 or IPvFuture address. That check is not modelled, so such a URL passes where the code would raise ValueError.
- PriceListParsing.DigitsOf: keeps the ASCII digits only, while Python's `\D` also treats other Unicode decimal digits as digits.

## Code followed over tests

The model follows the code wherever the repository's tests expect something else:

- saleor/inventory/tests/test_stock_management.py:809-987 expects only allocations linked to the purchase order to move. saleor/inventory/stock_management.py:68-151 moves every allocation waiting at the supplier warehouse, and so does `StockManagement.ConfirmPurchaseOrderItem`.
- saleor/product/tests/test_price_list.py:887-905 expects direct activation while another list is active. saleor/product/tasks.py:601-611 hands over to the replace task, and so does `PriceListTasks.ActivatePriceList`.
- saleor/product/tests/test_price_list.py:431-445 expects `processing_completed_at` to be cleared on failure. saleor/product/tasks.py:443-446 does not clear it; this is finding 8.
- saleor/order/tests/test_deposit_logic.py:172-178 ignores the `proforma_invoice_paid` condition. The model keeps the condition, as at saleor/order/models.py:1084-1085.
- saleor/product/tests/test_price_list.py:448-455 expects a second processing to replace the items. saleor/product/tasks.py:390-410 adds the parsed rows with `bulk_create` and deletes nothing, so PriceListTasks.Process appends them.
- saleor/product/tests/test_price_list.py:562-578 expects a ValueError for an owned warehouse. saleor/product/tasks.py:596-598 uses `assert`, which PriceListTasks.ActivateWith models as the error `OwnedWarehouse`.
- saleor/product/tests/test_price_list.py:581-592 and 614-633 expect a ValueError when a category has no product type. saleor/product/tasks.py:522-530 skips such an item, and so does PriceListTasks.ActivateStep.
- saleor/product/tests/test_price_list.py:595-611 expects `MissingDatabaseSetup` to escape activation. saleor/product/tasks.py:617-625 catches it, and PriceListTasks.Found treats it as a lookup that finds nothing.
- saleor/graphql/checkout/tests/test_get_pack_allocation.py:605-734 passes an `orderId` and expects the order's allowed warehouses to limit the preview. `resolve_get_pack_allocation` (saleor/graphql/checkout/resolvers.py:87-95) takes no order argument, and PackAllocationPreview.ResolveGetPackAllocation has none.
- saleor/graphql/order/tests/mutations/test_order_deposit_mutations.py:63-78 expects a bank-account rule that saleor/graphql/order/mutations/order_set_deposit_required.py does not have, and the model has none.

## Findings

| source | as written | input that shows it | evidently intended | confidence | as-written member | corrected member |
|---|---|---|---|---|---|---|
| saleor/inventory/stock_management.py:189 | assigns `quantity_received`, a read-only property summing receipt lines, so receiving raises AttributeError | any CONFIRMED item | a CONFIRMED item becomes RECEIVED with the actual quantity recorded | not executed | StockManagement.ReceiveAsWrittenNeverSucceeds | StockManagement.ReceivePurchaseOrderItem |
| saleor/warehouse/queries.py:54-59 | the "unprocessed adjustment" test over a LEFT OUTER JOIN also matches an item with no adjustments at all | an owned, fully sourced allocation whose received item has no adjustments | only an existing, unprocessed adjustment blocks readiness | not executed | WarehouseQueries.NoAdjustmentsBlocksReadinessAsWritten | WarehouseQueries.ReceivedWithoutAdjustmentsIsReady |
| saleor/shipping/receiving.py:86-90 | a seller-pays Incoterm refuses only a cost of exactly 0, so a negative cost passes | incoterm FOB with cost -5 | a seller-pays Incoterm needs a positive cost | not executed | Receiving.NegativeCostAcceptedAsWritten | Receiving.CostProblem |
| saleor/graphql/inventory/mutations/purchase_order_create.py:113-114, 231-233 | an item whose variant id is false skips the variant check and then fails with KeyError in `save` | one otherwise valid item sent with a false variant id (`variantId: ""`; the field is required by saleor/graphql/inventory/types.py:157, so an absent id never arrives) | a missing variant is reported as a field error | not executed | PurchaseOrderCreate.MissingVariantCrashesAsWritten | PurchaseOrderCreate.MissingVariantReported |
| saleor/checkout/pack_utils.py:54-75 | a negative pack size truncates quotas toward zero and still hands out units | pack size -1 over two variants of 5 units each gives one unit | a pack size that is not positive allocates nothing | not executed | PackExamples.NegativePackAllocatesAsWritten | PackProperties.FairPack |
| saleor/product/price_list_parsing.py:156 | `urlparse` raises ValueError on an unbalanced IPv6 bracket, and nothing in `parse_row` turns it into a field error; the processing task (saleor/product/tasks.py:443-446) records the failure and re-raises, so the whole price list fails | `http://[x` | an invalid-URL field error like the other URL problems | not executed | PriceListParsing.UnbalancedHostEscapes | PriceListParsing.ImageUrl |
| saleor/graphql/product/mutations/product_ingestion/product_ingestion_ingest.py:299-368 | the `except SheetIntegrityError` clause comes before its subclasses' clauses, so they never run | a sheet whose sizes cannot be parsed gets SHEET_INTEGRITY_ERROR, not SIZE_QTY_UNPARSEABLE | subclasses first, each with its own code | not executed | IngestMutation.UnparseableSizesAsWritten | IngestMutation.HandlersDistinguish |
| saleor/product/tasks.py:437-446 | a failed reprocessing sets `processing_failed_at` but leaves an earlier `processing_completed_at` | a list processed once whose file then goes missing | a failed processing blocks activation | not executed | PriceListTasks.StaleCompletionAsWritten | PriceListTasks.FailedProcessingBlocksActivation |
| saleor/product/tasks.py:808-816 | a kept product's listed size with a variant but no stock row in the warehouse is updated with `filter().update()`, which matches nothing | a size that has a variant but no stock row in this warehouse | the stock row is created with the listed quantity | not executed | PriceListReplace.MissingRowNotCreatedAsWritten | PriceListReplace.MissingRowCreated |
| saleor/product/tasks.py:615-648 | an item linked through the code lookup during activation gets stock, but its `product_id` is not saved | an unlinked item whose (code, brand) matches an existing product | the link is saved, so deactivation releases that product | not executed | PriceListTasks.ResolvedLinkLostAsWritten | PriceListTasks.ResolvedLinkKept |
| saleor/graphql/shop/mutations/contact_form_submit.py:79-80 | `len(None)` when the enquiry is sent as null | an input with `enquiry: null` | a null enquiry is reported as required and too short | not executed | ContactForm.NullEnquiryCrashesAsWritten | ContactForm.NullEnquiryReported |
