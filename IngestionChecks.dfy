/** saleor/product/ingestion.py: the guards an ingestion passes before it writes anything.
    The column mapping must name columns the sheet has, the target warehouse must not be
    one the company owns, and three decisions (how to update existing stock, the minimum
    order quantity, the meaning of the price column) must have been taken in the
    configuration; a missing decision raises an `InteractiveDecisionRequired` the command
    can prompt for, after which it retries with the answer filled in. */
module IngestionChecks {
  import opened Wrappers
  import opened IngestionConfig
  import opened IngestionData

  // Column mapping

  /** The (field, column) pairs `_validate_column_mapping` inspects, in its order. */
  function MappedColumns(m: ColumnMapping): (r: seq<(string, Option<string>)>)
    ensures |r| == 9
  {
    [("code", m.code), ("brand", m.brand), ("description", m.description),
     ("category", m.category), ("sizes", m.sizes), ("rrp", m.rrp), ("price", m.price),
     ("weight", m.weight), ("image", m.image)]
  }

  /** The mapped pairs whose column the sheet lacks, in order; unmapped fields are skipped. */
  function Missing(fields: seq<(string, Option<string>)>, available: set<string>): (r: seq<(string, string)>)
    ensures |r| <= |fields|
  {
    if fields == [] then []
    else
      var (field, column) := fields[|fields| - 1];
      Missing(fields[..|fields| - 1], available)
        + (if column.Some? && column.value !in available then [(field, column.value)] else [])
  }

  /** `_validate_column_mapping`. */
  function ValidateColumnMapping(available: set<string>, m: ColumnMapping): Result<(), IngestError> {
    var missing := Missing(MappedColumns(m), available);
    if missing != [] then Err(MissingColumns(missing)) else Ok(())
  }

  /** A pair is reported exactly when its field is mapped to a column the sheet lacks. */
  lemma {:induction false} MissingIff(fields: seq<(string, Option<string>)>, available: set<string>, field: string, column: string)
    ensures (field, column) in Missing(fields, available)
      <==> (field, Some(column)) in fields && column !in available
  {
    if fields != [] {
      var init := fields[..|fields| - 1];
      MissingIff(init, available, field, column);
      assert fields == init + [fields[|fields| - 1]];
      assert (field, Some(column)) in fields
        <==> (field, Some(column)) in init || fields[|fields| - 1] == (field, Some(column));
    }
  }

  /** The mapping passes exactly when every column it names is in the sheet, and the error
      lists each missing one. */
  lemma ColumnMappingIff(available: set<string>, m: ColumnMapping)
    ensures ValidateColumnMapping(available, m).Ok?
      <==> forall i :: 0 <= i < 9 && MappedColumns(m)[i].1.Some? ==> MappedColumns(m)[i].1.value in available
    ensures ValidateColumnMapping(available, m).Err? ==>
      forall field, column ::
        (field, column) in ValidateColumnMapping(available, m).error.missing
        <==> (field, Some(column)) in MappedColumns(m) && column !in available
  {
    var fields := MappedColumns(m);
    forall field, column
      ensures (field, column) in Missing(fields, available)
        <==> (field, Some(column)) in fields && column !in available
    {
      MissingIff(fields, available, field, column);
    }
    if Missing(fields, available) != [] {
      var (field, column) := Missing(fields, available)[0];
      assert (field, column) in Missing(fields, available);
      var i :| 0 <= i < 9 && fields[i] == (field, Some(column));
    }
  }

  /** The loop of `_validate_column_mapping`. */
  method ValidateColumnMappingLoop(available: set<string>, m: ColumnMapping) returns (r: Result<(), IngestError>)
    ensures r == ValidateColumnMapping(available, m)
  {
    var fields := MappedColumns(m);
    var missing: seq<(string, string)> := [];
    for i := 0 to |fields|
      invariant missing == Missing(fields[..i], available)
    {
      assert fields[..i + 1][..i] == fields[..i];
      var (field, column) := fields[i];
      if column.Some? && column.value !in available {
        missing := missing + [(field, column.value)];
      }
    }
    assert fields[..|fields|] == fields;
    if missing != [] {
      return Err(MissingColumns(missing));
    }
    return Ok(());
  }

  // Warehouse

  /** `validate_warehouse_for_ingestion`: owned warehouses track units and take stock only
      through purchase orders. */
  function ValidateWarehouse(name: string, isOwned: bool): (r: Result<(), IngestError>)
    ensures r.Err? <==> isOwned
    ensures r.Err? ==> r.error == OwnedWarehouseIngestion(name) && r.error.IsSheetIntegrityError()
  {
    if isOwned then Err(OwnedWarehouseIngestion(name)) else Ok(())
  }

  // Decisions

  /** An existing product matched by a sheet row, and whether any of its variants has
      stock in the target warehouse (a database query, here an input). */
  datatype Existing = Existing(data: ProductData, hasStockInWarehouse: bool)

  /** `separate_existing_products_by_warehouse`. */
  function SeparateByWarehouse(existing: seq<Existing>): (r: (seq<Existing>, seq<Existing>))
    ensures |r.0| + |r.1| == |existing|
    ensures forall e :: e in r.0 <==> e in existing && e.hasStockInWarehouse
    ensures forall e :: e in r.1 <==> e in existing && !e.hasStockInWarehouse
  {
    if existing == [] then ([], [])
    else
      var s := SeparateByWarehouse(existing[..|existing| - 1]);
      var e := existing[|existing| - 1];
      assert existing == existing[..|existing| - 1] + [e];
      if e.hasStockInWarehouse then (s.0 + [e], s.1) else (s.0, s.1 + [e])
  }

  /** `check_stock_update_mode_and_raise`. */
  function CheckStockUpdateMode(existing: seq<Existing>, warehouseName: string, config: IngestConfig):
    Result<(), IngestError>
  {
    if existing == [] then Ok(())
    else
      var (inWarehouse, _) := SeparateByWarehouse(existing);
      if inWarehouse != [] && config.stockUpdateMode.None? then
        Err(StockUpdateModeRequired(|inWarehouse|, warehouseName))
      else Ok(())
  }

  /** `check_minimum_order_quantity_and_raise`. */
  function CheckMinimumOrderQuantity(productCount: nat, config: IngestConfig): (r: Result<(), IngestError>)
    ensures r.Err? <==> config.minimumOrderQuantity.None?
    ensures r.Err? ==> r.error == MinimumOrderQuantityRequired(productCount) && r.error.IsDecisionRequired()
  {
    if config.minimumOrderQuantity.None? then Err(MinimumOrderQuantityRequired(productCount)) else Ok(())
  }

  /** `check_price_interpretation_and_raise`: only products for the shop need the price
      column confirmed as the sale price excluding VAT. */
  function CheckPriceInterpretation(config: IngestConfig): (r: Result<(), IngestError>)
    ensures r.Err? <==> !config.notForWeb && !config.confirmPriceInterpretation
    ensures r.Err? ==> r.error == PriceInterpretationConfirmationRequired && r.error.IsDecisionRequired()
  {
    if !config.notForWeb && !config.confirmPriceInterpretation then Err(PriceInterpretationConfirmationRequired)
    else Ok(())
  }

  /** The stock decision is asked for exactly when some matched product already has stock
      in the warehouse and no mode is set, and it counts those products. */
  lemma StockUpdateModeIff(existing: seq<Existing>, warehouseName: string, config: IngestConfig)
    ensures var r := CheckStockUpdateMode(existing, warehouseName, config);
      && (r.Err? <==> (exists e :: e in existing && e.hasStockInWarehouse) && config.stockUpdateMode.None?)
      && (r.Err? ==> (r.error.IsDecisionRequired() && r.error.warehouseName == warehouseName
                      && 0 < r.error.productsInWarehouse <= |existing|))
  {
    var s := SeparateByWarehouse(existing);
    if exists e :: e in existing && e.hasStockInWarehouse {
      var e :| e in existing && e.hasStockInWarehouse;
      assert e in s.0;
    }
    if s.0 != [] {
      assert s.0[0] in s.0;
    }
  }

  /** Answering a decision in the configuration makes its check pass, whatever the sheet:
      the retry after a prompt goes through. */
  lemma DecisionsAnswered(existing: seq<Existing>, warehouseName: string, productCount: nat,
                          config: IngestConfig, mode: string, moq: int)
    ensures CheckStockUpdateMode(existing, warehouseName, config.(stockUpdateMode := Some(mode))).Ok?
    ensures CheckMinimumOrderQuantity(productCount, config.(minimumOrderQuantity := Some(moq))).Ok?
    ensures CheckPriceInterpretation(config.(confirmPriceInterpretation := true)).Ok?
  {
  }
}
