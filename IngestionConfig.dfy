/** saleor/product/ingestion.py: the settings of a product ingestion (`IngestConfig` and
    its `SpreadsheetColumnMapping`), their defaults, and the dictionary form they are
    stored in (`ingest_config_to_dict` / `ingest_config_from_dict`). The stored form is a
    JSON-like value; `attrs.asdict` writes every field, and the reader fills absent
    optional fields with the class defaults. */
module IngestionConfig {
  import opened Wrappers

  /** The spreadsheet column holding each field; `None` skips an optional column. */
  datatype ColumnMapping = ColumnMapping(
    code: Option<string>, brand: Option<string>, description: Option<string>,
    category: Option<string>, sizes: Option<string>, rrp: Option<string>,
    price: Option<string>, weight: Option<string>, image: Option<string>)

  /** The defaults of `SpreadsheetColumnMapping`. */
  const DefaultColumnMapping: ColumnMapping := ColumnMapping(
    Some("Code"), Some("Brand"), Some("Description"), Some("Category"), Some("Sizes"),
    Some("RRP"), Some("Price"), Some("Weight"), Some("Image"))

  datatype IngestConfig = IngestConfig(
    warehouseName: string, warehouseAddress: string, warehouseCountry: string,
    sheetName: string, headerRow: int, columnMapping: Option<ColumnMapping>,
    notForWeb: bool, defaultCurrency: Option<string>, dryRun: bool,
    errorOnDuplicatesInSheet: bool, stockUpdateMode: Option<string>,
    minimumOrderQuantity: Option<int>, confirmPriceInterpretation: bool)

  /** `IngestConfig(name, address, country)`: every other field at its default. */
  function NewConfig(name: string, address: string, country: string): IngestConfig {
    IngestConfig(name, address, country, "Sheet1", 0, None, false, None, false, false, None, None, false)
  }

  /** The fields of `IngestConfig`, as keys of the stored form. */
  datatype ConfigField =
    | WarehouseName | WarehouseAddress | WarehouseCountry | SheetName | HeaderRow
    | ColumnMappingField | NotForWeb | DefaultCurrency | DryRun | ErrorOnDuplicatesInSheet
    | StockUpdateMode | MinimumOrderQuantity | ConfirmPriceInterpretation

  /** The fields of `SpreadsheetColumnMapping`, as keys of its stored form. */
  datatype MappingField = CodeColumn | BrandColumn | DescriptionColumn | CategoryColumn
    | SizesColumn | RrpColumn | PriceColumn | WeightColumn | ImageColumn

  /** A key of a stored dictionary: the name of one of the class's fields, or any other
      text. A key is read as `Field(f)` exactly when its text is `f`'s attribute name
      (`ConfigFieldName`, `MappingFieldName`); `Other` keys name no field. */
  datatype Key<F> = Field(field: F) | Other(name: string)

  function ConfigFieldName(f: ConfigField): string {
    match f
    case WarehouseName => "warehouse_name"
    case WarehouseAddress => "warehouse_address"
    case WarehouseCountry => "warehouse_country"
    case SheetName => "sheet_name"
    case HeaderRow => "header_row"
    case ColumnMappingField => "column_mapping"
    case NotForWeb => "not_for_web"
    case DefaultCurrency => "default_currency"
    case DryRun => "dry_run"
    case ErrorOnDuplicatesInSheet => "error_on_duplicates_in_sheet"
    case StockUpdateMode => "stock_update_mode"
    case MinimumOrderQuantity => "minimum_order_quantity"
    case ConfirmPriceInterpretation => "confirm_price_interpretation"
  }

  function MappingFieldName(f: MappingField): string {
    match f
    case CodeColumn => "code"
    case BrandColumn => "brand"
    case DescriptionColumn => "description"
    case CategoryColumn => "category"
    case SizesColumn => "sizes"
    case RrpColumn => "rrp"
    case PriceColumn => "price"
    case WeightColumn => "weight"
    case ImageColumn => "image"
  }

  /** A JSON-serialisable value; the only nested dictionary of the stored form is the
      column mapping. */
  datatype Value = Str(s: string) | Int(i: int) | Bool(b: bool) | Null | Dict(d: map<Key<MappingField>, Value>)

  type StoredConfig = map<Key<ConfigField>, Value>
  type StoredMapping = map<Key<MappingField>, Value>

  function OptStr(v: Option<string>): Value {
    if v.Some? then Str(v.value) else Null
  }

  function OptInt(v: Option<int>): Value {
    if v.Some? then Int(v.value) else Null
  }

  /** The value `attrs.asdict` writes for one column of a mapping. */
  function ColumnValue(m: ColumnMapping, f: MappingField): Option<string> {
    match f
    case CodeColumn => m.code
    case BrandColumn => m.brand
    case DescriptionColumn => m.description
    case CategoryColumn => m.category
    case SizesColumn => m.sizes
    case RrpColumn => m.rrp
    case PriceColumn => m.price
    case WeightColumn => m.weight
    case ImageColumn => m.image
  }

  /** `attrs.asdict` of a column mapping: every column, under its own name. */
  function MappingToDict(m: ColumnMapping): (d: StoredMapping)
    ensures d.Keys == MappingKeys
  {
    map k | k in MappingKeys :: OptStr(ColumnValue(m, k.field))
  }

  /** The value `attrs.asdict` writes for one field of a configuration, the column mapping
      nested as a dict. */
  function FieldValue(c: IngestConfig, f: ConfigField): Value {
    match f
    case WarehouseName => Str(c.warehouseName)
    case WarehouseAddress => Str(c.warehouseAddress)
    case WarehouseCountry => Str(c.warehouseCountry)
    case SheetName => Str(c.sheetName)
    case HeaderRow => Int(c.headerRow)
    case ColumnMappingField =>
      if c.columnMapping.Some? then Dict(MappingToDict(c.columnMapping.value)) else Null
    case NotForWeb => Bool(c.notForWeb)
    case DefaultCurrency => OptStr(c.defaultCurrency)
    case DryRun => Bool(c.dryRun)
    case ErrorOnDuplicatesInSheet => Bool(c.errorOnDuplicatesInSheet)
    case StockUpdateMode => OptStr(c.stockUpdateMode)
    case MinimumOrderQuantity => OptInt(c.minimumOrderQuantity)
    case ConfirmPriceInterpretation => Bool(c.confirmPriceInterpretation)
  }

  /** `ingest_config_to_dict`: `attrs.asdict`, every field under its own name. */
  function ConfigToDict(c: IngestConfig): (d: StoredConfig)
    ensures d.Keys == ConfigKeys + {Field(ColumnMappingField)}
  {
    map k | k in ConfigKeys + {Field(ColumnMappingField)} :: FieldValue(c, k.field)
  }

  /** Why the stored form does not rebuild a configuration: the keyword arguments the
      constructor does not take, the required ones missing, or (in this model only) values
      of the wrong kind, of the configuration or of its column mapping. */
  datatype ConfigError =
    | UnexpectedArguments(keys: set<Key<ConfigField>>)
    | MissingArguments(keys: set<Key<ConfigField>>)
    | WrongKinds(keys: set<Key<ConfigField>>)
    | UnexpectedColumns(columns: set<Key<MappingField>>)
    | WrongColumnKinds(columns: set<Key<MappingField>>)
    | MappingNotADict

  const MappingKeys: set<Key<MappingField>> :=
    {Field(CodeColumn), Field(BrandColumn), Field(DescriptionColumn), Field(CategoryColumn),
     Field(SizesColumn), Field(RrpColumn), Field(PriceColumn), Field(WeightColumn), Field(ImageColumn)}

  const RequiredKeys: set<Key<ConfigField>> :=
    {Field(WarehouseName), Field(WarehouseAddress), Field(WarehouseCountry)}

  /** The keyword arguments of `IngestConfig` other than `column_mapping`. */
  const ConfigKeys: set<Key<ConfigField>> := RequiredKeys + {Field(SheetName), Field(HeaderRow),
    Field(NotForWeb), Field(DefaultCurrency), Field(DryRun), Field(ErrorOnDuplicatesInSheet),
    Field(StockUpdateMode), Field(MinimumOrderQuantity), Field(ConfirmPriceInterpretation)}

  predicate IsStr(v: Value) { v.Str? }
  predicate IsOptStr(v: Value) { v.Str? || v.Null? }
  predicate IsInt(v: Value) { v.Int? }
  predicate IsOptInt(v: Value) { v.Int? || v.Null? }
  predicate IsBool(v: Value) { v.Bool? }

  /** The kind of value each configuration field holds (a key naming no field is refused
      as unexpected before its kind matters). */
  predicate KindOk(key: Key<ConfigField>, v: Value) {
    match key
    case Other(_) => true
    case Field(f) =>
      match f
      case WarehouseName | WarehouseAddress | WarehouseCountry | SheetName => IsStr(v)
      case HeaderRow => IsInt(v)
      case MinimumOrderQuantity => IsOptInt(v)
      case DefaultCurrency | StockUpdateMode => IsOptStr(v)
      case _ => IsBool(v)
  }

  function GetOptStr<F(==)>(d: map<Key<F>, Value>, f: F, default: Option<string>): Option<string> {
    var key := Field(f);
    if key in d && d[key].Str? then Some(d[key].s) else if key in d then None else default
  }

  function GetStr(d: StoredConfig, f: ConfigField, default: string): string {
    var key := Field(f);
    if key in d && d[key].Str? then d[key].s else default
  }

  function GetInt(d: StoredConfig, f: ConfigField, default: int): int {
    var key := Field(f);
    if key in d && d[key].Int? then d[key].i else default
  }

  function GetOptInt(d: StoredConfig, f: ConfigField, default: Option<int>): Option<int> {
    var key := Field(f);
    if key in d && d[key].Int? then Some(d[key].i) else if key in d then None else default
  }

  function GetBool(d: StoredConfig, f: ConfigField, default: bool): bool {
    var key := Field(f);
    if key in d && d[key].Bool? then d[key].b else default
  }

  /** `SpreadsheetColumnMapping(**data)`: absent columns take their defaults. */
  function MappingFromDict(d: StoredMapping): (r: Result<ColumnMapping, ConfigError>)
    ensures r.Err? <==> !(d.Keys <= MappingKeys) || exists k :: k in d && !IsOptStr(d[k])
    ensures d == map[] ==> r == Ok(DefaultColumnMapping)
  {
    var unexpected := d.Keys - MappingKeys;
    var wrong := set k | k in d.Keys && !IsOptStr(d[k]);
    assert forall k :: k in d && !IsOptStr(d[k]) ==> k in wrong;
    if unexpected != {} then Err(UnexpectedColumns(unexpected))
    else if wrong != {} then Err(WrongColumnKinds(wrong))
    else
      var m := DefaultColumnMapping;
      Ok(ColumnMapping(
        GetOptStr(d, CodeColumn, m.code), GetOptStr(d, BrandColumn, m.brand),
        GetOptStr(d, DescriptionColumn, m.description), GetOptStr(d, CategoryColumn, m.category),
        GetOptStr(d, SizesColumn, m.sizes), GetOptStr(d, RrpColumn, m.rrp),
        GetOptStr(d, PriceColumn, m.price), GetOptStr(d, WeightColumn, m.weight),
        GetOptStr(d, ImageColumn, m.image)))
  }

  /** `ingest_config_from_dict`: the column mapping is popped and rebuilt, and the rest
      are passed to the constructor as keyword arguments. */
  function ConfigFromDict(data: StoredConfig): (r: Result<IngestConfig, ConfigError>)
    ensures r.Ok? ==> (r.value.columnMapping.None? <==>
      Field(ColumnMappingField) !in data || Falsy(data[Field(ColumnMappingField)]))
    ensures r.Ok? ==> RequiredKeys <= data.Keys
  {
    var key := Field(ColumnMappingField);
    var mapping := ReadMapping(if key in data then data[key] else Null);
    if mapping.Err? then Err(mapping.error)
    else
      ReadArguments(data - {key}, mapping.value)
  }

  /** Python's truth test on a stored value: `None`, `""`, `0`, `False` and `{}` are false. */
  predicate Falsy(v: Value) {
    v == Null || v == Str("") || v == Int(0) || v == Bool(false) || v == Dict(map[])
  }

  /** The popped column mapping (`... if mapping_data else None`): `None` when it is false,
      rebuilt when it is a non-empty dict, and refused when it is any other true value,
      which `**` cannot unpack. */
  function ReadMapping(v: Value): (r: Result<Option<ColumnMapping>, ConfigError>)
    ensures r.Ok? ==> (r.value.None? <==> Falsy(v))
    ensures Falsy(v) ==> r == Ok(None)
    ensures r == Err(MappingNotADict) <==> !Falsy(v) && !v.Dict?
  {
    if Falsy(v) then Ok(None)
    else if v.Dict? then
      var m := MappingFromDict(v.d);
      if m.Err? then Err(m.error) else Ok(Some(m.value))
    else Err(MappingNotADict)
  }

  /** `IngestConfig(column_mapping=mapping, **d)`: unexpected keyword arguments are refused
      first, then missing required ones; absent optional ones take their defaults. */
  function ReadArguments(d: StoredConfig, mapping: Option<ColumnMapping>): (r: Result<IngestConfig, ConfigError>)
    ensures r.Ok? ==> RequiredKeys <= d.Keys && r.value.columnMapping == mapping
  {
    var unexpected := d.Keys - ConfigKeys;
    var missing := RequiredKeys - d.Keys;
    var wrong := set k | k in d.Keys && !KindOk(k, d[k]);
    if unexpected != {} then Err(UnexpectedArguments(unexpected))
    else if missing != {} then Err(MissingArguments(missing))
    else if wrong != {} then Err(WrongKinds(wrong))
    else Ok(Build(d, mapping))
  }

  /** The constructor call, on fields whose kinds have been checked. */
  function Build(d: StoredConfig, mapping: Option<ColumnMapping>): IngestConfig {
    IngestConfig(
      GetStr(d, WarehouseName, ""), GetStr(d, WarehouseAddress, ""),
      GetStr(d, WarehouseCountry, ""), GetStr(d, SheetName, "Sheet1"),
      GetInt(d, HeaderRow, 0), mapping, GetBool(d, NotForWeb, false),
      GetOptStr(d, DefaultCurrency, None), GetBool(d, DryRun, false),
      GetBool(d, ErrorOnDuplicatesInSheet, false),
      GetOptStr(d, StockUpdateMode, None),
      GetOptInt(d, MinimumOrderQuantity, None),
      GetBool(d, ConfirmPriceInterpretation, false))
  }

  lemma MappingRoundTrip(m: ColumnMapping)
    ensures MappingFromDict(MappingToDict(m)) == Ok(m)
  {
    var d := MappingToDict(m);
    assert forall k :: k in d ==> IsOptStr(d[k]);
    assert (set k | k in d.Keys && !IsOptStr(d[k])) == {};
  }

  lemma StoredFieldsWellKinded(c: IngestConfig)
    ensures var d := ConfigToDict(c) - {Field(ColumnMappingField)};
      d.Keys == ConfigKeys && (set k | k in d.Keys && !KindOk(k, d[k])) == {}
  {
    var d := ConfigToDict(c) - {Field(ColumnMappingField)};
    assert d.Keys == ConfigKeys;
    forall k | k in d ensures KindOk(k, d[k]) {
      assert k in ConfigKeys && d[k] == FieldValue(c, k.field);
      FieldValueKind(c, k.field);
    }
  }

  /** Every stored field other than the mapping holds a value of its own kind. */
  lemma FieldValueKind(c: IngestConfig, f: ConfigField)
    requires f != ColumnMappingField
    ensures KindOk(Field(f), FieldValue(c, f))
  {
  }

  lemma StoredMappingReadBack(c: IngestConfig)
    ensures var v := ConfigToDict(c)[Field(ColumnMappingField)];
      if c.columnMapping.None? then v == Null
      else v.Dict? && v != Dict(map[]) && MappingFromDict(v.d) == Ok(c.columnMapping.value)
    ensures ReadMapping(ConfigToDict(c)[Field(ColumnMappingField)]) == Ok(c.columnMapping)
  {
    if c.columnMapping.Some? {
      MappingRoundTrip(c.columnMapping.value);
      assert Field(CodeColumn) in MappingToDict(c.columnMapping.value);
    }
  }

  lemma BuildStored(c: IngestConfig)
    ensures Build(ConfigToDict(c) - {Field(ColumnMappingField)}, c.columnMapping) == c
  {
    var d := ConfigToDict(c) - {Field(ColumnMappingField)};
    forall f | f != ColumnMappingField ensures Field(f) in d && d[Field(f)] == FieldValue(c, f) {
      assert Field(f) in ConfigKeys;
    }
    BuildFrom(c, d);
  }

  /** Any dictionary holding each field's stored value rebuilds the configuration. */
  lemma BuildFrom(c: IngestConfig, d: StoredConfig)
    requires forall f :: f != ColumnMappingField ==> Field(f) in d && d[Field(f)] == FieldValue(c, f)
    ensures Build(d, c.columnMapping) == c
  {
    BuildWarehouse(c, d);
    BuildFlags(c, d);
    BuildOptions(c, d);
  }

  /** The warehouse, sheet and header fields read back. */
  lemma BuildWarehouse(c: IngestConfig, d: StoredConfig)
    requires forall f :: f != ColumnMappingField ==> Field(f) in d && d[Field(f)] == FieldValue(c, f)
    ensures Build(d, c.columnMapping).warehouseName == c.warehouseName
    ensures Build(d, c.columnMapping).warehouseAddress == c.warehouseAddress
    ensures Build(d, c.columnMapping).warehouseCountry == c.warehouseCountry
    ensures Build(d, c.columnMapping).sheetName == c.sheetName
    ensures Build(d, c.columnMapping).headerRow == c.headerRow
  {
    assert d[Field(WarehouseName)] == FieldValue(c, WarehouseName);
    assert d[Field(WarehouseAddress)] == FieldValue(c, WarehouseAddress);
    assert d[Field(WarehouseCountry)] == FieldValue(c, WarehouseCountry);
    assert d[Field(SheetName)] == FieldValue(c, SheetName);
    assert d[Field(HeaderRow)] == FieldValue(c, HeaderRow);
  }

  /** The boolean flags read back. */
  lemma BuildFlags(c: IngestConfig, d: StoredConfig)
    requires forall f :: f != ColumnMappingField ==> Field(f) in d && d[Field(f)] == FieldValue(c, f)
    ensures Build(d, c.columnMapping).notForWeb == c.notForWeb
    ensures Build(d, c.columnMapping).dryRun == c.dryRun
    ensures Build(d, c.columnMapping).errorOnDuplicatesInSheet == c.errorOnDuplicatesInSheet
    ensures Build(d, c.columnMapping).confirmPriceInterpretation == c.confirmPriceInterpretation
  {
    assert d[Field(NotForWeb)] == FieldValue(c, NotForWeb);
    BoolReadBack(d, NotForWeb, c.notForWeb);
    assert d[Field(DryRun)] == FieldValue(c, DryRun);
    BoolReadBack(d, DryRun, c.dryRun);
    assert d[Field(ErrorOnDuplicatesInSheet)] == FieldValue(c, ErrorOnDuplicatesInSheet);
    BoolReadBack(d, ErrorOnDuplicatesInSheet, c.errorOnDuplicatesInSheet);
    assert d[Field(ConfirmPriceInterpretation)] == FieldValue(c, ConfirmPriceInterpretation);
    BoolReadBack(d, ConfirmPriceInterpretation, c.confirmPriceInterpretation);
  }

  /** The optional settings read back. */
  lemma BuildOptions(c: IngestConfig, d: StoredConfig)
    requires forall f :: f != ColumnMappingField ==> Field(f) in d && d[Field(f)] == FieldValue(c, f)
    ensures Build(d, c.columnMapping).defaultCurrency == c.defaultCurrency
    ensures Build(d, c.columnMapping).stockUpdateMode == c.stockUpdateMode
    ensures Build(d, c.columnMapping).minimumOrderQuantity == c.minimumOrderQuantity
  {
    assert d[Field(DefaultCurrency)] == FieldValue(c, DefaultCurrency);
    OptStrReadBack(d, DefaultCurrency, c.defaultCurrency);
    assert d[Field(StockUpdateMode)] == FieldValue(c, StockUpdateMode);
    OptStrReadBack(d, StockUpdateMode, c.stockUpdateMode);
    assert d[Field(MinimumOrderQuantity)] == FieldValue(c, MinimumOrderQuantity);
    OptIntReadBack(d, MinimumOrderQuantity, c.minimumOrderQuantity);
  }

  /** A stored flag reads back as itself. */
  lemma BoolReadBack(d: StoredConfig, f: ConfigField, v: bool)
    requires Field(f) in d && d[Field(f)] == Bool(v)
    ensures GetBool(d, f, false) == v
  {
  }

  /** A stored optional text reads back as itself, whatever the default. */
  lemma OptStrReadBack(d: StoredConfig, f: ConfigField, v: Option<string>)
    requires Field(f) in d && d[Field(f)] == OptStr(v)
    ensures GetOptStr(d, f, None) == v
  {
  }

  /** A stored optional number reads back as itself, whatever the default. */
  lemma OptIntReadBack(d: StoredConfig, f: ConfigField, v: Option<int>)
    requires Field(f) in d && d[Field(f)] == OptInt(v)
    ensures GetOptInt(d, f, None) == v
  {
  }



  /** The stored fields other than the column mapping pass every check of the
      constructor call and rebuild the stored configuration. */
  lemma StoredArgumentsReadBack(c: IngestConfig)
    ensures ReadArguments(ConfigToDict(c) - {Field(ColumnMappingField)}, c.columnMapping) == Ok(c)
  {
    BuildStored(c);
    StoredFieldsWellKinded(c);
    var d := ConfigToDict(c) - {Field(ColumnMappingField)};
    assert RequiredKeys <= ConfigKeys;
    assert d.Keys - ConfigKeys == {} && RequiredKeys - d.Keys == {};
  }

  /** A stored configuration reads back as the configuration that was stored. */
  lemma ConfigRoundTrip(c: IngestConfig)
    ensures ConfigFromDict(ConfigToDict(c)) == Ok(c)
  {
    StoredMappingReadBack(c);
    StoredArgumentsReadBack(c);
  }

  /** A configuration stored with only the warehouse reads back with every default, and a
      false column mapping (null, empty text, 0, false or an empty dict) reads back as no
      mapping at all. */
  lemma ConfigDefaults(name: string, address: string, country: string, mapping: Value)
    requires Falsy(mapping)
    ensures ConfigFromDict(map[Field(WarehouseName) := Str(name), Field(WarehouseAddress) := Str(address),
      Field(WarehouseCountry) := Str(country), Field(ColumnMappingField) := mapping])
      == Ok(NewConfig(name, address, country))
  {
    var d := map[Field(WarehouseName) := Str(name), Field(WarehouseAddress) := Str(address),
      Field(WarehouseCountry) := Str(country)];
    var data := d[Field(ColumnMappingField) := mapping];
    assert data - {Field(ColumnMappingField)} == d;
    assert d.Keys == RequiredKeys;
    assert (set k | k in d.Keys && !KindOk(k, d[k])) == {};
  }

  /** The three warehouse fields have no default: a stored form without one of them does
      not read back. */
  lemma WarehouseFieldsRequired(data: StoredConfig, key: Key<ConfigField>)
    requires key in RequiredKeys && key !in data
    ensures ConfigFromDict(data).Err?
  {
  }
}
