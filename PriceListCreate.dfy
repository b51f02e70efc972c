/** saleor/graphql/product/mutations/price_list/price_list_create.py: the `priceListCreate`
    mutation checks the uploaded file, turns the column map input (field to column index)
    into the stored configuration (column index, as text, to field) and creates the list,
    queued for processing. `process_price_list_task` (saleor/product/tasks.py) reads the
    column map back with integer keys. */
module PriceListCreate {
  import opened Wrappers
  import opened Text

  /** `PriceListColumnMapInput`: a column index per field, each optional. */
  datatype ColumnMapInput = ColumnMapInput(
    productCode: Option<int>, brand: Option<int>, description: Option<int>, category: Option<int>,
    sizes: Option<int>, rrp: Option<int>, sellPrice: Option<int>, weightKg: Option<int>,
    imageUrl: Option<int>, buyPrice: Option<int>, hsCode: Option<int>)

  /** The input's `items()`, in declaration order. */
  function Fields(m: ColumnMapInput): (r: seq<(string, Option<int>)>)
    ensures |r| == 11
    ensures forall i, j :: 0 <= i < j < |r| ==> r[i].0 != r[j].0
  {
    [("product_code", m.productCode), ("brand", m.brand), ("description", m.description),
     ("category", m.category), ("sizes", m.sizes), ("rrp", m.rrp), ("sell_price", m.sellPrice),
     ("weight_kg", m.weightKg), ("image_url", m.imageUrl), ("buy_price", m.buyPrice),
     ("hs_code", m.hsCode)]
  }

  /** `{str(idx): field for field, idx in items if idx is not None}`: a later field
      overwrites an earlier one at the same index. */
  function Stored(fields: seq<(string, Option<int>)>): map<string, string> {
    if fields == [] then map[]
    else
      var (field, idx) := fields[|fields| - 1];
      var m := Stored(fields[..|fields| - 1]);
      if idx.Some? then m[IntToStr(idx.value) := field] else m
  }

  /** The meaning of the input: the field that owns each index. */
  function Inverted(fields: seq<(string, Option<int>)>): map<int, string> {
    if fields == [] then map[]
    else
      var (field, idx) := fields[|fields| - 1];
      var m := Inverted(fields[..|fields| - 1]);
      if idx.Some? then m[idx.value := field] else m
  }

  /** `{int(k): v for k, v in config["column_map"].items()}`, over keys in the form `str`
      writes. */
  function ReadBack(stored: map<string, string>): map<int, string> {
    map k | k in stored && ParseInt(k).Some? && IntToStr(ParseInt(k).value) == k :: ParseInt(k).value := stored[k]
  }

  /** Each stored key is the text of an index some field owns, carrying that field. */
  lemma {:induction false} StoredIsInverted(fields: seq<(string, Option<int>)>)
    ensures forall i :: i in Inverted(fields) <==> IntToStr(i) in Stored(fields)
    ensures forall i :: i in Inverted(fields) ==> Stored(fields)[IntToStr(i)] == Inverted(fields)[i]
    ensures forall k :: k in Stored(fields) ==> exists i :: i in Inverted(fields) && k == IntToStr(i)
  {
    if fields != [] {
      var init := fields[..|fields| - 1];
      StoredIsInverted(init);
      var (field, idx) := fields[|fields| - 1];
      if idx.Some? {
        forall i ensures IntToStr(i) == IntToStr(idx.value) <==> i == idx.value {
          if IntToStr(i) == IntToStr(idx.value) {
            ParseIntOfIntToStr(i);
            ParseIntOfIntToStr(idx.value);
          }
        }
      }
    }
  }

  /** The column map the processing task reads back is the one the input meant. */
  lemma ColumnMapRoundTrip(fields: seq<(string, Option<int>)>)
    ensures ReadBack(Stored(fields)) == Inverted(fields)
  {
    StoredIsInverted(fields);
    var stored := Stored(fields);
    forall i | i in Inverted(fields) ensures i in ReadBack(stored) && ReadBack(stored)[i] == Inverted(fields)[i] {
      ParseIntOfIntToStr(i);
      ReadBackAt(stored, IntToStr(i));
    }
    forall i | i in ReadBack(stored) ensures i in Inverted(fields) {
      ReadBackKey(stored, i);
      var j :| j in Inverted(fields) && IntToStr(i) == IntToStr(j);
      ParseIntOfIntToStr(i);
      ParseIntOfIntToStr(j);
    }
  }

  lemma ReadBackAt(stored: map<string, string>, k: string)
    requires k in stored && ParseInt(k).Some? && IntToStr(ParseInt(k).value) == k
    ensures ParseInt(k).value in ReadBack(stored) && ReadBack(stored)[ParseInt(k).value] == stored[k]
  {
  }

  lemma ReadBackKey(stored: map<string, string>, i: int)
    requires i in ReadBack(stored)
    ensures IntToStr(i) in stored && ReadBack(stored)[i] == stored[IntToStr(i)]
  {
  }

  /** An index is in the map exactly when some field names it, and it goes to the last
      field in declaration order that does. */
  lemma {:induction false} InvertedIff(fields: seq<(string, Option<int>)>, i: int)
    ensures i in Inverted(fields) <==> exists j :: 0 <= j < |fields| && fields[j].1 == Some(i)
    ensures i in Inverted(fields) ==> exists j :: (0 <= j < |fields| && fields[j].1 == Some(i)
      && Inverted(fields)[i] == fields[j].0
      && forall l :: j < l < |fields| ==> fields[l].1 != Some(i))
  {
    if fields != [] {
      var init := fields[..|fields| - 1];
      var n := |fields| - 1;
      InvertedIff(init, i);
      if fields[n].1 != Some(i) {
        if exists j :: 0 <= j < |fields| && fields[j].1 == Some(i) {
          var j :| 0 <= j < |fields| && fields[j].1 == Some(i);
          assert init[j] == fields[j];
        }
        if i in Inverted(init) {
          var j :| 0 <= j < |init| && init[j].1 == Some(i) && Inverted(init)[i] == init[j].0
            && forall l :: j < l < |init| ==> init[l].1 != Some(i);
          assert fields[j] == init[j];
          assert forall l :: j < l < |fields| ==> fields[l].1 != Some(i) by {
            forall l | j < l < |fields| ensures fields[l].1 != Some(i) {
              if l < n { assert fields[l] == init[l]; }
            }
          }
        }
      }
    }
  }

  /** Two fields given the same index: only the later one survives in the configuration. */
  lemma SharedIndexKeepsOne(m: ColumnMapInput, a: int, b: int)
    requires 0 <= a < b < 11 && Fields(m)[a].1.Some? && Fields(m)[a].1 == Fields(m)[b].1
    ensures var r := ReadBack(Stored(Fields(m)));
      && Fields(m)[a].1.value in r
      && r[Fields(m)[a].1.value] != Fields(m)[a].0
      && Fields(m)[a].0 !in r.Values
  {
    ColumnMapRoundTrip(Fields(m));
    SharedIndex(Fields(m), a, b);
  }

  lemma SharedIndex(f: seq<(string, Option<int>)>, a: int, b: int)
    requires forall i, j :: 0 <= i < j < |f| ==> f[i].0 != f[j].0
    requires 0 <= a < b < |f| && f[a].1.Some? && f[a].1 == f[b].1
    ensures var r := Inverted(f);
      f[a].1.value in r && f[a].0 !in r.Values
  {
    var i := f[a].1.value;
    InvertedIff(f, i);
    var r := Inverted(f);
    var j :| 0 <= j < |f| && f[j].1 == Some(i) && r[i] == f[j].0 && forall l :: j < l < |f| ==> f[l].1 != Some(i);
    assert j >= b;
    forall x | x in r ensures r[x] != f[a].0 {
      InvertedIff(f, x);
      var y :| 0 <= y < |f| && f[y].1 == Some(x) && r[x] == f[y].0 && forall l :: y < l < |f| ==> f[l].1 != Some(x);
      assert y != a by { assert a < b < |f| && f[b].1 == f[a].1; }
      assert f[y].0 != f[a].0;
    }
    assert f[a].0 !in r.Values;
  }

  // The mutation

  /** The uploaded file: its name, or `None` when no file came with the request. */
  type Upload = Option<string>

  /** `PriceListCreateInput` with graphene's defaults applied. */
  datatype CreateInput = CreateInput(
    warehouseId: string, file: Upload, sheetName: string, headerRow: int, columnMap: ColumnMapInput,
    defaultCurrency: string, googleDriveUrl: Option<string>)

  function WithDefaults(warehouseId: string, file: Upload, columnMap: ColumnMapInput, defaultCurrency: string,
                        sheetName: Option<string>, headerRow: Option<int>, googleDriveUrl: Option<string>): CreateInput {
    CreateInput(warehouseId, file,
                if sheetName.Some? then sheetName.value else "Sheet1",
                if headerRow.Some? then headerRow.value else 0,
                columnMap, defaultCurrency, googleDriveUrl)
  }

  datatype Config = Config(sheetName: string, headerRow: int, columnMap: map<string, string>, defaultCurrency: string)

  /** A created `PriceList` row, which `price_list.process()` queues for processing. */
  datatype Created = Created(warehouse: int, fileName: string, googleDriveUrl: string, config: Config, queued: bool)

  datatype CreateError = WarehouseNotFound | FileRequired | FileNotExcel

  /** `name.lower().endswith((".xlsx", ".xls"))`. */
  predicate IsExcelName(name: string) {
    HasSuffix(Lower(name), ".xlsx") || HasSuffix(Lower(name), ".xls")
  }

  /** `PriceListCreate.perform_mutation`. `warehouse` is the node the id resolves to. */
  function Create(inp: CreateInput, warehouse: Option<int>): Result<Created, CreateError> {
    if warehouse.None? then Err(WarehouseNotFound)
    else if inp.file.None? then Err(FileRequired)
    else if !IsExcelName(inp.file.value) then Err(FileNotExcel)
    else
      var driveUrl := if inp.googleDriveUrl.Some? then inp.googleDriveUrl.value else "";
      Ok(Created(warehouse.value, inp.file.value, driveUrl,
                 Config(inp.sheetName, inp.headerRow, Stored(Fields(inp.columnMap)), inp.defaultCurrency), true))
  }

  /** The mutation creates a list exactly for a known warehouse and an uploaded Excel file,
      whatever the case of its suffix; the created list is queued and its configuration
      reads back as the input's column map. */
  lemma CreateOutcome(inp: CreateInput, warehouse: Option<int>)
    ensures var r := Create(inp, warehouse);
      && (r.Ok? <==> warehouse.Some? && inp.file.Some? && IsExcelName(inp.file.value))
      && (r.Err? && warehouse.Some? && inp.file.None? ==> r.error == FileRequired)
      && (r.Err? && warehouse.Some? && inp.file.Some? ==> r.error == FileNotExcel)
      && (r.Ok? ==> (r.value.queued && r.value.warehouse == warehouse.value
            && ReadBack(r.value.config.columnMap) == Inverted(Fields(inp.columnMap))
            && r.value.config.sheetName == inp.sheetName && r.value.config.headerRow == inp.headerRow
            && (inp.googleDriveUrl.None? ==> r.value.googleDriveUrl == "")))
  {
    ColumnMapRoundTrip(Fields(inp.columnMap));
  }

  /** The Excel check ignores case: a name passes exactly when its lower-cased form does. */
  lemma ExcelNameIgnoresCase(name: string)
    ensures IsExcelName(name) <==> IsExcelName(Lower(name))
  {
    LowerIdempotent(name);
  }

  /** Left unset, the sheet is "Sheet1" and the header is row 0. */
  lemma DefaultsStored(warehouseId: string, file: string, columnMap: ColumnMapInput, currency: string, warehouse: int)
    requires IsExcelName(file)
    ensures var r := Create(WithDefaults(warehouseId, Some(file), columnMap, currency, None, None, None), Some(warehouse));
      r.Ok? && r.value.config.sheetName == "Sheet1" && r.value.config.headerRow == 0 && r.value.googleDriveUrl == ""
  {
  }
}
