/** saleor/graphql/product/mutations/product_ingestion/product_ingestion_ingest.py: the
    `productIngestionIngest` mutation. It checks the input, looks the uploaded file up,
    builds an `IngestConfig`, runs the ingestion and turns what the ingestion raises into a
    field error with a code. The file cache and the ingestion itself are parameters: the
    cache as a map from file id to path, the run as the value it returns or raises. */
module IngestMutation {
  import opened Wrappers
  import opened Text
  import opened IngestionConfig
  import opened IngestionData

  datatype ErrorCode =
    | INVALID | FILE_NOT_FOUND | SHEET_INTEGRITY_ERROR | SIZE_QTY_UNPARSEABLE
    | CURRENCY_INCOMPATIBLE | DUPLICATE_PRODUCTS | DUPLICATE_PRODUCT_NAMES
    | MISSING_DATABASE_SETUP | MISSING_REQUIRED_FIELDS | GRAPHQL_ERROR

  /** A `ValidationError` keyed by the input field it is about. */
  datatype FieldError = FieldError(field: string, code: ErrorCode)

  /** The arguments after GraphQL has applied the declared defaults ("Sheet1", row 0, and
      `false` for the three flags); an optional argument left out is `None`. */
  datatype IngestInput = IngestInput(
    fileId: string, warehouseName: string, warehouseAddress: string, warehouseCountry: string,
    sheetName: string, headerRow: int, columnMapping: ColumnMapping, notForWeb: bool,
    defaultCurrency: Option<string>, dryRun: bool, errorOnDuplicatesInSheet: bool,
    stockUpdateMode: Option<string>, minimumOrderQuantity: Option<int>,
    confirmPriceInterpretation: bool)

  /** `validate_input`: the minimum order quantity, when given, is at least 1, and the
      country code has two characters. The quantity is checked first. */
  function ValidateInput(input: IngestInput): (r: Result<(), FieldError>)
    ensures r.Ok? <==> (input.minimumOrderQuantity.None? || input.minimumOrderQuantity.value >= 1)
                       && |input.warehouseCountry| == 2
    ensures r.Err? ==> r.error.code == INVALID
    ensures r.Err? && input.minimumOrderQuantity.Some? && input.minimumOrderQuantity.value < 1
            ==> r.error.field == "minimum_order_quantity"
    ensures r.Err? && r.error.field == "warehouse_country" ==> |input.warehouseCountry| != 2
  {
    var moq := input.minimumOrderQuantity;
    if moq.Some? && moq.value < 1 then Err(FieldError("minimum_order_quantity", INVALID))
    else if |input.warehouseCountry| != 2 then Err(FieldError("warehouse_country", INVALID))
    else Ok(())
  }

  /** The `IngestConfig` the mutation builds: the country upper-cased. */
  function BuildConfig(input: IngestInput): (c: IngestConfig)
    ensures c.warehouseCountry == Upper(input.warehouseCountry)
    ensures c.columnMapping == Some(input.columnMapping)
    ensures c.minimumOrderQuantity == input.minimumOrderQuantity
    ensures c.confirmPriceInterpretation == input.confirmPriceInterpretation
  {
    IngestConfig(input.warehouseName, input.warehouseAddress, Upper(input.warehouseCountry),
      input.sheetName, input.headerRow, Some(input.columnMapping), input.notForWeb,
      input.defaultCurrency, input.dryRun, input.errorOnDuplicatesInSheet, input.stockUpdateMode,
      input.minimumOrderQuantity, input.confirmPriceInterpretation)
  }

  // What the ingestion raises, and the handlers that catch it

  /** An exception out of `ingest_products_from_excel`: one of the ingestion's own, or
      anything else (a database error, a bad file). */
  datatype Raised = Ingest(e: IngestError) | Other

  /** The exception classes the `except` clauses name. */
  datatype ExceptionClass =
    | SheetIntegrityErrorClass | SizeQtyUnparseableClass | CurrencyIncompatibleClass
    | DuplicateProductsClass | DuplicateProductNamesClass | MissingDatabaseSetupClass
    | MissingRequiredFieldsClass | ExceptionBase

  /** `isinstance(raised, cls)`: every subclass of `SheetIntegrityError` is an instance of
      it, and everything is an `Exception`. */
  predicate IsInstance(raised: Raised, cls: ExceptionClass) {
    match cls
    case SheetIntegrityErrorClass => raised.Ingest? && raised.e.IsSheetIntegrityError()
    case SizeQtyUnparseableClass => raised.Ingest? && raised.e.SizeQtyUnparseable?
    case CurrencyIncompatibleClass => raised.Ingest? && raised.e.CurrencyIncompatible?
    case DuplicateProductsClass => raised.Ingest? && raised.e.DuplicateProducts?
    case DuplicateProductNamesClass => raised.Ingest? && raised.e.DuplicateProductNames?
    case MissingDatabaseSetupClass => raised.Ingest? && raised.e.MissingDatabaseSetup?
    case MissingRequiredFieldsClass => raised.Ingest? && raised.e.MissingRequiredFields?
    case ExceptionBase => true
  }

  datatype Handler = Handler(cls: ExceptionClass, field: string, code: ErrorCode)

  /** The first handler whose class the exception is an instance of. */
  function Catch(handlers: seq<Handler>, raised: Raised): (r: Option<FieldError>)
    ensures r.Some? <==> exists i :: 0 <= i < |handlers| && IsInstance(raised, handlers[i].cls)
  {
    if handlers == [] then None
    else if IsInstance(raised, handlers[0].cls) then Some(FieldError(handlers[0].field, handlers[0].code))
    else
      var r := Catch(handlers[1..], raised);
      assert forall i :: 1 <= i < |handlers| ==> handlers[1..][i - 1] == handlers[i];
      r
  }

  /** The handler that runs is the first one that matches. */
  lemma {:induction false} CatchAt(handlers: seq<Handler>, raised: Raised, i: nat)
    requires i < |handlers| && IsInstance(raised, handlers[i].cls)
    requires forall j :: 0 <= j < i ==> !IsInstance(raised, handlers[j].cls)
    ensures Catch(handlers, raised) == Some(FieldError(handlers[i].field, handlers[i].code))
  {
    if i > 0 {
      assert !IsInstance(raised, handlers[0].cls);
      CatchAt(handlers[1..], raised, i - 1);
    }
  }

  const SpecificHandlers: seq<Handler> := [
    Handler(SizeQtyUnparseableClass, "column_mapping", SIZE_QTY_UNPARSEABLE),
    Handler(CurrencyIncompatibleClass, "input", CURRENCY_INCOMPATIBLE),
    Handler(DuplicateProductsClass, "error_on_duplicates_in_sheet", DUPLICATE_PRODUCTS),
    Handler(DuplicateProductNamesClass, "input", DUPLICATE_PRODUCT_NAMES),
    Handler(MissingDatabaseSetupClass, "input", MISSING_DATABASE_SETUP),
    Handler(MissingRequiredFieldsClass, "column_mapping", MISSING_REQUIRED_FIELDS)]

  const BaseHandler: Handler := Handler(SheetIntegrityErrorClass, "input", SHEET_INTEGRITY_ERROR)

  const FallbackHandler: Handler := Handler(ExceptionBase, "input", GRAPHQL_ERROR)

  /** The `except` clauses in the order the mutation writes them: the base class first. */
  const HandlersAsWritten: seq<Handler> := [BaseHandler] + SpecificHandlers + [FallbackHandler]

  /** The order the specific clauses need to be reachable: subclasses before their base. */
  const Handlers: seq<Handler> := SpecificHandlers + [BaseHandler, FallbackHandler]

  /** As written, every sheet integrity error, whatever its kind, comes out as
      SHEET_INTEGRITY_ERROR on "input"; the six specific clauses never run. */
  lemma SpecificHandlersUnreachableAsWritten(e: IngestError)
    requires e.IsSheetIntegrityError()
    ensures Catch(HandlersAsWritten, Ingest(e)) == Some(FieldError("input", SHEET_INTEGRITY_ERROR))
    ensures forall i :: 1 <= i <= |SpecificHandlers| && IsInstance(Ingest(e), HandlersAsWritten[i].cls)
              ==> IsInstance(Ingest(e), HandlersAsWritten[0].cls)
  {
  }

  /** The input that shows it: a sheet whose sizes cannot be parsed. */
  lemma UnparseableSizesAsWritten(text: string)
    ensures Catch(HandlersAsWritten, Ingest(SizeQtyUnparseable(text))) != Some(FieldError("column_mapping", SIZE_QTY_UNPARSEABLE))
  {
    SpecificHandlersUnreachableAsWritten(SizeQtyUnparseable(text));
  }

  /** The error code of each specific kind, and of the rest. */
  function CodeOf(e: IngestError): ErrorCode {
    match e
    case SizeQtyUnparseable(_) => SIZE_QTY_UNPARSEABLE
    case CurrencyIncompatible(_) => CURRENCY_INCOMPATIBLE
    case DuplicateProducts(_) => DUPLICATE_PRODUCTS
    case DuplicateProductNames(_) => DUPLICATE_PRODUCT_NAMES
    case MissingDatabaseSetup => MISSING_DATABASE_SETUP
    case MissingRequiredFields => MISSING_REQUIRED_FIELDS
    case MissingColumns(_) => SHEET_INTEGRITY_ERROR
    case OwnedWarehouseIngestion(_) => SHEET_INTEGRITY_ERROR
    case _ => GRAPHQL_ERROR
  }

  /** With the specific clauses first, each exception gets its own code: the sheet
      integrity errors without a class of their own get SHEET_INTEGRITY_ERROR, and a
      pending decision, a missing price or any other exception GRAPHQL_ERROR on "input". */
  lemma {:induction false} HandlersDistinguish(raised: Raised)
    ensures Catch(Handlers, raised).Some?
    ensures raised.Other? ==> Catch(Handlers, raised) == Some(FieldError("input", GRAPHQL_ERROR))
    ensures raised.Ingest? ==> Catch(Handlers, raised).value.code == CodeOf(raised.e)
    ensures raised.Ingest? && !raised.e.IsSheetIntegrityError() ==>
      Catch(Handlers, raised) == Some(FieldError("input", GRAPHQL_ERROR))
  {
    if raised.Other? {
      CatchAt(Handlers, raised, 7);
    } else {
      match raised.e
      case SizeQtyUnparseable(_) => CatchAt(Handlers, raised, 0);
      case CurrencyIncompatible(_) => CatchAt(Handlers, raised, 1);
      case DuplicateProducts(_) => CatchAt(Handlers, raised, 2);
      case DuplicateProductNames(_) => CatchAt(Handlers, raised, 3);
      case MissingDatabaseSetup => CatchAt(Handlers, raised, 4);
      case MissingRequiredFields => CatchAt(Handlers, raised, 5);
      case MissingColumns(_) => CatchAt(Handlers, raised, 6);
      case OwnedWarehouseIngestion(_) => CatchAt(Handlers, raised, 6);
      case StockUpdateModeRequired(_, _) => CatchAt(Handlers, raised, 7);
      case MinimumOrderQuantityRequired(_) => CatchAt(Handlers, raised, 7);
      case PriceInterpretationConfirmationRequired => CatchAt(Handlers, raised, 7);
      case ColumnMappingRequired => CatchAt(Handlers, raised, 7);
      case PriceRequired => CatchAt(Handlers, raised, 7);
    }
  }

  // The mutation

  /** The counts the mutation returns on success. */
  datatype IngestionResult = IngestionResult(
    created: nat, updated: nat, skipped: nat, variantsCreated: nat, variantsUpdated: nat,
    warehouseName: string)

  /** `perform_mutation`: input checks, then the file, then the run. `files` is the upload
      cache; `run` gives what the ingestion returns or raises for the config and path. */
  function Perform(input: IngestInput, files: map<string, string>,
                   run: (IngestConfig, string) -> Result<IngestionResult, Raised>): (r: Result<IngestionResult, FieldError>)
    ensures ValidateInput(input).Err? ==> r == Err(ValidateInput(input).error)
    ensures ValidateInput(input).Ok? && input.fileId !in files ==> r == Err(FieldError("file_id", FILE_NOT_FOUND))
    ensures r.Ok? ==> (ValidateInput(input).Ok? && input.fileId in files
                       && run(BuildConfig(input), files[input.fileId]) == Ok(r.value))
  {
    var valid := ValidateInput(input);
    if valid.Err? then Err(valid.error)
    else if input.fileId !in files then Err(FieldError("file_id", FILE_NOT_FOUND))
    else
      var outcome := run(BuildConfig(input), files[input.fileId]);
      if outcome.Ok? then Ok(outcome.value)
      else
        HandlersDistinguish(outcome.error);
        Err(Catch(Handlers, outcome.error).value)
  }

  /** A run that fails always gives a field error carrying the code of what it raised. */
  lemma PerformReportsRaised(input: IngestInput, files: map<string, string>,
                             run: (IngestConfig, string) -> Result<IngestionResult, Raised>)
    requires ValidateInput(input).Ok? && input.fileId in files
    requires run(BuildConfig(input), files[input.fileId]).Err?
    ensures var raised := run(BuildConfig(input), files[input.fileId]).error;
      && Perform(input, files, run).Err?
      && (raised.Ingest? ==> Perform(input, files, run).error.code == CodeOf(raised.e))
      && (raised.Other? ==> Perform(input, files, run).error == FieldError("input", GRAPHQL_ERROR))
  {
    HandlersDistinguish(run(BuildConfig(input), files[input.fileId]).error);
  }

  /** An accepted country code reaches the configuration as two upper-case letters' worth
      of characters. */
  lemma AcceptedCountryUpper(input: IngestInput)
    requires ValidateInput(input).Ok?
    ensures |BuildConfig(input).warehouseCountry| == 2
    ensures BuildConfig(input).warehouseCountry == Upper(input.warehouseCountry)
  {
  }
}
