/** saleor/product/ingestion.py: a product read from a price sheet (`ProductData`) and
    the exceptions the ingestion raises. `SheetIntegrityError` and its subclasses say the
    sheet is wrong; `InteractiveDecisionRequired` and its subclasses ask for a decision
    the command can prompt for and retry with. */
module IngestionData {
  import opened Wrappers

  datatype ProductData = ProductData(
    productCode: string, description: string, category: string,
    sizes: seq<string>, qty: seq<int>, brand: string,
    rrp: Option<real>, price: Option<real>, currency: string,
    weightKg: Option<real>, imageUrl: Option<string>)

  /** Duplicates are judged by (brand, product code). */
  function Key(p: ProductData): (string, string) {
    (p.brand, p.productCode)
  }

  /** `p.price or 0`, the key `_merge_products` ranks rows by. */
  function PriceKey(p: ProductData): real {
    if p.price.Some? then p.price.value else 0.0
  }

  datatype IngestError =
      // SheetIntegrityError itself: columns of the mapping missing from the sheet
    | MissingColumns(missing: seq<(string, string)>)
    | SizeQtyUnparseable(text: string)
    | CurrencyIncompatible(code: string)
    | DuplicateProducts(keys: seq<(string, string)>)
    | MissingDatabaseSetup
    | DuplicateProductNames(slugs: seq<string>)
    | MissingRequiredFields
    | OwnedWarehouseIngestion(warehouseName: string)
      // InteractiveDecisionRequired and its subclasses
    | StockUpdateModeRequired(productsInWarehouse: nat, warehouseName: string)
    | MinimumOrderQuantityRequired(productCount: nat)
    | PriceInterpretationConfirmationRequired
    | ColumnMappingRequired
      // ValueError: a listing without a price
    | PriceRequired
  {
    /** `isinstance(e, SheetIntegrityError)`. */
    predicate IsSheetIntegrityError() {
      MissingColumns? || SizeQtyUnparseable? || CurrencyIncompatible? || DuplicateProducts?
      || MissingDatabaseSetup? || DuplicateProductNames? || MissingRequiredFields?
      || OwnedWarehouseIngestion?
    }

    /** `isinstance(e, InteractiveDecisionRequired)`. */
    predicate IsDecisionRequired() {
      StockUpdateModeRequired? || MinimumOrderQuantityRequired?
      || PriceInterpretationConfirmationRequired? || ColumnMappingRequired?
    }
  }
}
