/** saleor/graphql/inventory/mutations/purchase_order_create.py: input validation that
    collects every error into one dictionary keyed by field (item errors as
    `items[i].field`), then the creation of the purchase order and its DRAFT items with
    `total_price = unit_price * quantity` in one transaction. Global ids are already
    decoded; the warehouse, variant and country tables are parameters. */
module PurchaseOrderCreate {
  import opened Wrappers
  import opened Statuses
  import opened Text

  datatype ErrorCode =
    | Required | WarehouseIsOwned | InvalidWarehouse | WarehouseNotOwned
    | InvalidVariant | InvalidQuantity | InvalidPrice | InvalidCurrency | InvalidCountry

  /** One entry of the error dictionary. */
  datatype FieldError = FieldError(field: string, code: ErrorCode)

  /** One item of the input; `variant` is `None` when the id is empty (the GraphQL field is
      required, so an empty `variantId` is the only false id that arrives). */
  datatype ItemInput = ItemInput(
    variant: Option<int>,
    quantity: Option<int>,
    unitPrice: Option<real>,
    currency: string,
    country: string)

  datatype CreateInput = CreateInput(source: Option<int>, destination: Option<int>, items: seq<ItemInput>)

  /** The rows validation looks up: warehouses with their `is_owned` flag, variants, and
      the country codes django-countries knows. */
  datatype Catalogue = Catalogue(warehouses: map<int, bool>, variants: set<int>, countries: set<string>)

  /** A cleaned item. `variant` stays optional because the code can let an item through
      without one (see `CreateAsWritten`). */
  datatype CleanItem = CleanItem(variant: Option<int>, quantity: int, unitPrice: real, currency: string, country: string)

  /** A created PurchaseOrderItem row. */
  datatype NewItem = NewItem(
    variant: int, quantityOrdered: int, totalPrice: real, currency: string, country: string, status: PoiStatus)

  datatype CreatedOrder = CreatedOrder(source: int, destination: int, items: seq<NewItem>)

  datatype CreateError = ValidationFailed(errors: seq<FieldError>) | MissingVariantKey

  // ----- warehouses -----

  function SourceErrors(w: Option<int>, cat: Catalogue): seq<FieldError> {
    if w.None? then [FieldError("source_warehouse_id", Required)]
    else if w.value !in cat.warehouses then [FieldError("source_warehouse_id", InvalidWarehouse)]
    else if cat.warehouses[w.value] then [FieldError("source_warehouse_id", WarehouseIsOwned)]
    else []
  }

  function DestinationErrors(w: Option<int>, cat: Catalogue): seq<FieldError> {
    if w.None? then [FieldError("destination_warehouse_id", Required)]
    else if w.value !in cat.warehouses then [FieldError("destination_warehouse_id", InvalidWarehouse)]
    else if !cat.warehouses[w.value] then [FieldError("destination_warehouse_id", WarehouseNotOwned)]
    else []
  }

  // ----- items -----

  /** `len(currency) == 3 and currency.isalpha()`, over ASCII letters. */
  predicate CurrencyWellFormed(c: string) {
    |c| == 3 && forall i :: 0 <= i < |c| ==> IsAsciiLetter(c[i])
  }

  /** The variant check as written: an absent id raises nothing. */
  function VariantErrorsAsWritten(item: ItemInput, cat: Catalogue): seq<FieldError> {
    if item.variant.Some? && item.variant.value !in cat.variants then [FieldError("variant_id", InvalidVariant)]
    else []
  }

  /** The variant check following the other fields: an absent id is `REQUIRED`. */
  function VariantErrors(item: ItemInput, cat: Catalogue): seq<FieldError> {
    if item.variant.None? then [FieldError("variant_id", Required)]
    else VariantErrorsAsWritten(item, cat)
  }

  function QuantityErrors(item: ItemInput): seq<FieldError> {
    if item.quantity.None? then [FieldError("quantity_ordered", Required)]
    else if item.quantity.value <= 0 then [FieldError("quantity_ordered", InvalidQuantity)]
    else []
  }

  function PriceErrors(item: ItemInput): seq<FieldError> {
    if item.unitPrice.None? then [FieldError("unit_price_amount", Required)]
    else if item.unitPrice.value <= 0.0 then [FieldError("unit_price_amount", InvalidPrice)]
    else []
  }

  function CurrencyErrors(item: ItemInput): seq<FieldError> {
    if item.currency == "" then [FieldError("currency", Required)]
    else if !CurrencyWellFormed(item.currency) then [FieldError("currency", InvalidCurrency)]
    else []
  }

  function CountryErrors(item: ItemInput, cat: Catalogue): seq<FieldError> {
    if item.country == "" then [FieldError("country_of_origin", Required)]
    else if Upper(item.country) !in cat.countries then [FieldError("country_of_origin", InvalidCountry)]
    else []
  }

  /** Quantity, unit price, currency and country checks, in the code's order. */
  function OtherFieldErrors(item: ItemInput, cat: Catalogue): seq<FieldError> {
    QuantityErrors(item) + PriceErrors(item) + CurrencyErrors(item) + CountryErrors(item, cat)
  }

  function ItemErrors(item: ItemInput, cat: Catalogue): seq<FieldError> {
    VariantErrors(item, cat) + OtherFieldErrors(item, cat)
  }

  function ItemErrorsAsWritten(item: ItemInput, cat: Catalogue): seq<FieldError> {
    VariantErrorsAsWritten(item, cat) + OtherFieldErrors(item, cat)
  }

  /** The reference reading of a valid item. */
  predicate ItemValid(item: ItemInput, cat: Catalogue) {
    && item.variant.Some? && item.variant.value in cat.variants
    && item.quantity.Some? && item.quantity.value > 0
    && item.unitPrice.Some? && item.unitPrice.value > 0.0
    && CurrencyWellFormed(item.currency)
    && item.country != "" && Upper(item.country) in cat.countries
  }

  lemma ItemErrorsEmptyIff(item: ItemInput, cat: Catalogue)
    ensures ItemErrors(item, cat) == [] <==> ItemValid(item, cat)
  {
  }

  /** The dictionary key of an item error. */
  function ItemKey(idx: nat, field: string): string {
    "items[" + NatToStr(idx) + "]." + field
  }

  function Keyed(idx: nat, es: seq<FieldError>): (r: seq<FieldError>)
    ensures |r| == |es|
    ensures forall k :: 0 <= k < |es| ==> r[k] == FieldError(ItemKey(idx, es[k].field), es[k].code)
  {
    if es == [] then [] else [FieldError(ItemKey(idx, es[0].field), es[0].code)] + Keyed(idx, es[1..])
  }

  /** The checks of one item, as written or corrected. */
  function ItemCheck(item: ItemInput, cat: Catalogue, asWritten: bool): seq<FieldError> {
    if asWritten then ItemErrorsAsWritten(item, cat) else ItemErrors(item, cat)
  }

  /** The checks of every item, in order. */
  function PerItemErrors(items: seq<ItemInput>, cat: Catalogue, asWritten: bool): (r: seq<seq<FieldError>>)
    ensures |r| == |items|
    ensures forall i :: 0 <= i < |items| ==> r[i] == ItemCheck(items[i], cat, asWritten)
  {
    if items == [] then [] else [ItemCheck(items[0], cat, asWritten)] + PerItemErrors(items[1..], cat, asWritten)
  }

  /** The flattened dictionary entries of per-item error lists, items by index. */
  function KeyedAll(es: seq<seq<FieldError>>): seq<FieldError> {
    if es == [] then [] else KeyedAll(es[..|es| - 1]) + Keyed(|es| - 1, es[|es| - 1])
  }

  function ItemsErrorsWith(items: seq<ItemInput>, cat: Catalogue, asWritten: bool): seq<FieldError> {
    KeyedAll(PerItemErrors(items, cat, asWritten))
  }

  function ItemsErrors(items: seq<ItemInput>, cat: Catalogue): seq<FieldError> {
    ItemsErrorsWith(items, cat, false)
  }

  function Clean(item: ItemInput): CleanItem
    requires item.quantity.Some? && item.unitPrice.Some?
  {
    CleanItem(item.variant, item.quantity.value, item.unitPrice.value, Upper(item.currency), Upper(item.country))
  }

  /** `cleaned_items` once no item has errors. */
  function CleanedItems(items: seq<ItemInput>): (r: seq<CleanItem>)
    requires forall i :: 0 <= i < |items| ==> items[i].quantity.Some? && items[i].unitPrice.Some?
    ensures |r| == |items|
    ensures forall i :: 0 <= i < |items| ==> r[i] == Clean(items[i])
  {
    if items == [] then [] else [Clean(items[0])] + CleanedItems(items[1..])
  }

  function InputErrorsWith(input: CreateInput, cat: Catalogue, asWritten: bool): seq<FieldError> {
    SourceErrors(input.source, cat) + DestinationErrors(input.destination, cat)
    + (if input.items == [] then [FieldError("items", Required)] else ItemsErrorsWith(input.items, cat, asWritten))
  }

  // ----- save -----

  /** The row `save` creates for a cleaned item that has its variant. */
  function NewRow(c: CleanItem): NewItem
    requires c.variant.Some?
  {
    NewItem(c.variant.value, c.quantity, c.unitPrice * c.quantity as real, c.currency, c.country, PoiDraft)
  }

  function NewRows(cs: seq<CleanItem>): (r: seq<NewItem>)
    requires forall i :: 0 <= i < |cs| ==> cs[i].variant.Some?
    ensures |r| == |cs|
    ensures forall i :: 0 <= i < |cs| ==> r[i] == NewRow(cs[i])
  {
    if cs == [] then [] else [NewRow(cs[0])] + NewRows(cs[1..])
  }

  lemma {:induction false} KeyedAllEmptyIff(es: seq<seq<FieldError>>)
    ensures KeyedAll(es) == [] <==> forall i :: 0 <= i < |es| ==> es[i] == []
  {
    if es != [] {
      var init := es[..|es| - 1];
      KeyedAllEmptyIff(init);
      assert forall i :: 0 <= i < |init| ==> init[i] == es[i];
    }
  }

  lemma NoItemErrorsAllValid(items: seq<ItemInput>, cat: Catalogue)
    requires ItemsErrors(items, cat) == []
    ensures forall i :: 0 <= i < |items| ==> ItemValid(items[i], cat)
  {
    KeyedAllEmptyIff(PerItemErrors(items, cat, false));
    forall i | 0 <= i < |items|
      ensures ItemValid(items[i], cat)
    {
      ItemErrorsEmptyIff(items[i], cat);
    }
  }

  /** The mutation: `clean_input`, then `save`. Any error aborts the whole creation. */
  function Create(input: CreateInput, cat: Catalogue): Result<CreatedOrder, CreateError> {
    var errors := InputErrorsWith(input, cat, false);
    if errors != [] then Err(ValidationFailed(errors))
    else
      NoItemErrorsAllValid(input.items, cat);
      var cleaned := CleanedItems(input.items);
      Ok(CreatedOrder(input.source.value, input.destination.value, NewRows(cleaned)))
  }

  // ----- the code as written -----

  /** The mutation as written: an item whose variant id is empty passes validation and
      `save` then fails reading the missing `product_variant` key. */
  function CreateAsWritten(input: CreateInput, cat: Catalogue): Result<CreatedOrder, CreateError> {
    var errors := InputErrorsWith(input, cat, true);
    if errors != [] then Err(ValidationFailed(errors))
    else
      KeyedAllEmptyIff(PerItemErrors(input.items, cat, true));
      var cleaned := CleanedItems(input.items);
      if forall i :: 0 <= i < |cleaned| ==> cleaned[i].variant.Some? then
        Ok(CreatedOrder(input.source.value, input.destination.value, NewRows(cleaned)))
      else Err(MissingVariantKey)
  }

  /** An item with an empty variant id, otherwise valid, makes the code as written fail in
      `save` instead of reporting a validation error. */
  lemma MissingVariantCrashesAsWritten(input: CreateInput, cat: Catalogue, i: nat)
    requires SourceErrors(input.source, cat) == [] && DestinationErrors(input.destination, cat) == []
    requires i < |input.items| && input.items[i].variant.None?
    requires forall j :: 0 <= j < |input.items| ==> ItemErrorsAsWritten(input.items[j], cat) == []
    ensures CreateAsWritten(input, cat) == Err(MissingVariantKey)
  {
    AsWrittenPasses(input, cat);
    var cleaned := CleanedItems(input.items);
    assert cleaned[i].variant.None?;
  }

  /** Without warehouse errors, items whose checks as written all pass leave no error. */
  lemma AsWrittenPasses(input: CreateInput, cat: Catalogue)
    requires SourceErrors(input.source, cat) == [] && DestinationErrors(input.destination, cat) == []
    requires input.items != []
    requires forall j :: 0 <= j < |input.items| ==> ItemErrorsAsWritten(input.items[j], cat) == []
    ensures InputErrorsWith(input, cat, true) == []
    ensures forall j :: 0 <= j < |input.items| ==> input.items[j].quantity.Some? && input.items[j].unitPrice.Some?
  {
    KeyedAllEmptyIff(PerItemErrors(input.items, cat, true));
  }

  /** The corrected check reports such an item as `items[i].variant_id` REQUIRED. */
  lemma MissingVariantReported(input: CreateInput, cat: Catalogue, i: nat)
    requires i < |input.items| && input.items[i].variant.None?
    ensures Create(input, cat).Err? && Create(input, cat).error.ValidationFailed?
    ensures FieldError(ItemKey(i, "variant_id"), Required) in Create(input, cat).error.errors
  {
    var corrected := PerItemErrors(input.items, cat, false);
    assert corrected[i][0] == FieldError("variant_id", Required);
    KeyedAllListed(corrected, i, 0);
    var errors := InputErrorsWith(input, cat, false);
    assert errors == SourceErrors(input.source, cat) + DestinationErrors(input.destination, cat) + KeyedAll(corrected);
  }

  /** Every error of item `i` appears in the dictionary under `items[i].field`. */
  lemma {:induction false} KeyedAllListed(es: seq<seq<FieldError>>, i: nat, k: nat)
    requires i < |es| && k < |es[i]|
    ensures FieldError(ItemKey(i, es[i][k].field), es[i][k].code) in KeyedAll(es)
  {
    var n := |es| - 1;
    var init := es[..n];
    if i == n {
      assert Keyed(n, es[n])[k] == FieldError(ItemKey(i, es[i][k].field), es[i][k].code);
    } else {
      assert init[i] == es[i];
      KeyedAllListed(init, i, k);
    }
  }

  // ----- error keys -----

  /** The index an item key names. */
  function KeyIndex(key: string): nat
    requires |key| >= 6
  {
    var digits := FirstField(key[6..], ']');
    if AllDigits(digits) then StrToNat(digits) else 0
  }

  lemma {:induction false} FirstFieldOfPrefix(p: string, rest: string, c: char)
    requires forall i :: 0 <= i < |p| ==> p[i] != c
    requires |rest| > 0 && rest[0] == c
    ensures FirstField(p + rest, c) == p
  {
    if p != [] {
      assert (p + rest)[1..] == p[1..] + rest;
      FirstFieldOfPrefix(p[1..], rest, c);
    }
  }

  lemma KeyIndexOfItemKey(idx: nat, field: string)
    ensures |ItemKey(idx, field)| >= 6 && KeyIndex(ItemKey(idx, field)) == idx
  {
    var key := ItemKey(idx, field);
    var digits := NatToStr(idx);
    assert key[6..] == digits + ("]." + field);
    forall i | 0 <= i < |digits|
      ensures digits[i] != ']'
    {
      assert IsDigit(digits[i]);
    }
    FirstFieldOfPrefix(digits, "]." + field, ']');
    StrToNatOfNatToStr(idx);
  }

  /** Item keys name their item and field: no two errors share a key. */
  lemma ItemKeyInjective(i: nat, f: string, j: nat, g: string)
    requires ItemKey(i, f) == ItemKey(j, g)
    ensures i == j && f == g
  {
    KeyIndexOfItemKey(i, f);
    KeyIndexOfItemKey(j, g);
    var n := 6 + |NatToStr(i)| + 2;
    assert ItemKey(i, f)[n..] == f;
    assert ItemKey(j, g)[n..] == g;
  }

  predicate FieldsDistinct(es: seq<FieldError>) {
    forall a, b :: 0 <= a < b < |es| ==> es[a].field != es[b].field
  }

  predicate FieldsIn(es: seq<FieldError>, names: set<string>) {
    forall k :: 0 <= k < |es| ==> es[k].field in names
  }

  lemma DistinctConcat(a: seq<FieldError>, b: seq<FieldError>)
    requires FieldsDistinct(a) && FieldsDistinct(b)
    requires forall x, y :: 0 <= x < |a| && 0 <= y < |b| ==> a[x].field != b[y].field
    ensures FieldsDistinct(a + b)
  {
    var ab := a + b;
    forall x, y | 0 <= x < y < |ab|
      ensures ab[x].field != ab[y].field
    {
      if y < |a| {
        assert ab[x] == a[x] && ab[y] == a[y];
      } else if x >= |a| {
        assert ab[x] == b[x - |a|] && ab[y] == b[y - |a|];
      } else {
        assert ab[x] == a[x] && ab[y] == b[y - |a|];
      }
    }
  }

  /** The five checks of one item name five different fields. */
  lemma ItemFieldsDistinct(item: ItemInput, cat: Catalogue)
    ensures FieldsDistinct(ItemErrors(item, cat))
  {
    var v := VariantErrors(item, cat);
    var q := QuantityErrors(item);
    var p := PriceErrors(item);
    var c := CurrencyErrors(item);
    var k := CountryErrors(item, cat);
    assert FieldsIn(v, {"variant_id"});
    DistinctConcat(v, q);
    assert FieldsIn(v + q, {"variant_id", "quantity_ordered"});
    DistinctConcat(v + q, p);
    assert FieldsIn(v + q + p, {"variant_id", "quantity_ordered", "unit_price_amount"});
    DistinctConcat(v + q + p, c);
    assert FieldsIn(v + q + p + c, {"variant_id", "quantity_ordered", "unit_price_amount", "currency"});
    DistinctConcat(v + q + p + c, k);
    assert ItemErrors(item, cat) == v + (q + p + c + k);
    assert v + (q + p + c + k) == v + q + p + c + k;
  }

  lemma KeyedDistinct(idx: nat, es: seq<FieldError>)
    requires FieldsDistinct(es)
    ensures FieldsDistinct(Keyed(idx, es))
  {
    var r := Keyed(idx, es);
    forall a, b | 0 <= a < b < |r|
      ensures r[a].field != r[b].field
    {
      if r[a].field == r[b].field {
        ItemKeyInjective(idx, es[a].field, idx, es[b].field);
      }
    }
  }

  /** The shape of an item key: `[` right after `items`. */
  predicate ItemKeyShape(f: string) {
    |f| >= 6 && f[5] == '['
  }

  /** Every entry carries the key of an item before `|es|`. */
  lemma {:induction false} KeyedAllShape(es: seq<seq<FieldError>>)
    ensures forall k :: 0 <= k < |KeyedAll(es)| ==>
      ItemKeyShape(KeyedAll(es)[k].field) && KeyIndex(KeyedAll(es)[k].field) < |es|
  {
    if es != [] {
      var n := |es| - 1;
      var init := es[..n];
      KeyedAllShape(init);
      var front := KeyedAll(init);
      var last := Keyed(n, es[n]);
      var all := front + last;
      assert KeyedAll(es) == all;
      forall k | 0 <= k < |all|
        ensures ItemKeyShape(all[k].field) && KeyIndex(all[k].field) < |es|
      {
        if k < |front| {
          assert all[k] == front[k];
        } else {
          assert all[k] == last[k - |front|];
          KeyIndexOfItemKey(n, es[n][k - |front|].field);
        }
      }
    }
  }

  /** Distinct fields within each item give distinct keys overall. */
  lemma {:induction false} KeyedAllDistinct(es: seq<seq<FieldError>>)
    requires forall i :: 0 <= i < |es| ==> FieldsDistinct(es[i])
    ensures FieldsDistinct(KeyedAll(es))
  {
    if es != [] {
      var n := |es| - 1;
      var init := es[..n];
      var front := KeyedAll(init);
      var last := Keyed(n, es[n]);
      assert forall i :: 0 <= i < |init| ==> init[i] == es[i];
      KeyedAllDistinct(init);
      KeyedAllShape(init);
      KeyedDistinct(n, es[n]);
      forall x, y | 0 <= x < |front| && 0 <= y < |last|
        ensures front[x].field != last[y].field
      {
        KeyIndexOfItemKey(n, es[n][y].field);
      }
      DistinctConcat(front, last);
    }
  }

  /** The item errors never repeat a key, so the dictionary keeps each of them. */
  lemma ItemsErrorsDistinct(items: seq<ItemInput>, cat: Catalogue)
    ensures FieldsDistinct(ItemsErrors(items, cat))
  {
    var es := PerItemErrors(items, cat, false);
    forall i | 0 <= i < |es|
      ensures FieldsDistinct(es[i])
    {
      ItemFieldsDistinct(items[i], cat);
    }
    KeyedAllDistinct(es);
  }

  /** The whole error dictionary: the warehouse keys, `items` and the item keys never
      collide. */
  lemma InputErrorsDistinct(input: CreateInput, cat: Catalogue)
    ensures FieldsDistinct(InputErrorsWith(input, cat, false))
  {
    var top := SourceErrors(input.source, cat) + DestinationErrors(input.destination, cat);
    var rest := if input.items == [] then [FieldError("items", Required)] else ItemsErrors(input.items, cat);
    TopErrorsShape(input, cat);
    if input.items != [] {
      ItemsErrorsDistinct(input.items, cat);
      KeyedAllShape(PerItemErrors(input.items, cat, false));
      assert forall y :: 0 <= y < |rest| ==> ItemKeyShape(rest[y].field);
    }
    forall x, y | 0 <= x < |top| && 0 <= y < |rest|
      ensures top[x].field != rest[y].field
    {
      assert !ItemKeyShape(top[x].field);
    }
    DistinctConcat(top, rest);
    assert InputErrorsWith(input, cat, false) == top + rest;
  }

  /** The warehouse entries: distinct keys, neither `items` nor shaped like an item key. */
  lemma TopErrorsShape(input: CreateInput, cat: Catalogue)
    ensures var top := SourceErrors(input.source, cat) + DestinationErrors(input.destination, cat);
      FieldsDistinct(top)
      && forall x :: 0 <= x < |top| ==> !ItemKeyShape(top[x].field) && top[x].field != "items"
  {
    var src := SourceErrors(input.source, cat);
    var dst := DestinationErrors(input.destination, cat);
    assert FieldsIn(src, {"source_warehouse_id"});
    assert FieldsIn(dst, {"destination_warehouse_id"});
    assert "source_warehouse_id"[5] == 'e' && "destination_warehouse_id"[5] == 'n';
    DistinctConcat(src, dst);
  }

  // ----- loops -----

  /** The validation loop over the items. */
  method ValidateItems(items: seq<ItemInput>, cat: Catalogue) returns (errors: seq<FieldError>)
    ensures errors == ItemsErrors(items, cat)
  {
    ghost var per := PerItemErrors(items, cat, false);
    errors := [];
    var idx := 0;
    while idx < |items|
      invariant 0 <= idx <= |items|
      invariant errors == KeyedAll(per[..idx])
    {
      var itemErrors := ItemErrors(items[idx], cat);
      var keyed := FlattenItemErrors(idx, itemErrors);
      assert per[..idx + 1][..idx] == per[..idx];
      errors := errors + keyed;
      idx := idx + 1;
    }
    assert per[..idx] == per;
  }

  /** The inner loop writing one item's errors under `items[idx].field`. */
  method FlattenItemErrors(idx: nat, itemErrors: seq<FieldError>) returns (keyed: seq<FieldError>)
    ensures keyed == Keyed(idx, itemErrors)
  {
    keyed := [];
    var k := 0;
    while k < |itemErrors|
      invariant 0 <= k <= |itemErrors|
      invariant keyed == Keyed(idx, itemErrors[..k])
    {
      KeyedAppend(idx, itemErrors[..k], itemErrors[k]);
      keyed := keyed + [FieldError(ItemKey(idx, itemErrors[k].field), itemErrors[k].code)];
      assert itemErrors[..k + 1] == itemErrors[..k] + [itemErrors[k]];
      k := k + 1;
    }
    assert itemErrors[..k] == itemErrors;
  }

  lemma KeyedAppend(idx: nat, es: seq<FieldError>, e: FieldError)
    ensures Keyed(idx, es + [e]) == Keyed(idx, es) + [FieldError(ItemKey(idx, e.field), e.code)]
  {
    var l := Keyed(idx, es + [e]);
    var r := Keyed(idx, es) + [FieldError(ItemKey(idx, e.field), e.code)];
    assert |l| == |r|;
    forall k | 0 <= k < |l|
      ensures l[k] == r[k]
    {
      if k < |es| {
        assert (es + [e])[k] == es[k];
      }
    }
  }

  /** The loop of `save` creating the item rows. */
  method SaveItems(cleaned: seq<CleanItem>) returns (rows: seq<NewItem>)
    requires forall i :: 0 <= i < |cleaned| ==> cleaned[i].variant.Some?
    ensures rows == NewRows(cleaned)
  {
    rows := [];
    var i := 0;
    while i < |cleaned|
      invariant 0 <= i <= |cleaned|
      invariant |rows| == i
      invariant forall j :: 0 <= j < i ==> rows[j] == NewRow(cleaned[j])
    {
      var c := cleaned[i];
      rows := rows + [NewItem(c.variant.value, c.quantity, c.unitPrice * c.quantity as real, c.currency, c.country, PoiDraft)];
      i := i + 1;
    }
    var spec := NewRows(cleaned);
    assert forall j :: 0 <= j < |cleaned| ==> spec[j] == rows[j];
  }

  /** `clean_input`: the warehouse checks, then the items. */
  method CleanInput(input: CreateInput, cat: Catalogue) returns (errors: seq<FieldError>)
    ensures errors == InputErrorsWith(input, cat, false)
  {
    errors := SourceErrors(input.source, cat) + DestinationErrors(input.destination, cat);
    if input.items == [] {
      errors := errors + [FieldError("items", Required)];
    } else {
      var itemErrors := ValidateItems(input.items, cat);
      errors := errors + itemErrors;
    }
  }

  method PurchaseOrderCreateMutation(input: CreateInput, cat: Catalogue) returns (r: Result<CreatedOrder, CreateError>)
    ensures r == Create(input, cat)
  {
    var errors := CleanInput(input, cat);
    if errors != [] {
      return Err(ValidationFailed(errors));
    }
    CreateOfValid(input, cat);
    var cleaned := CleanedItems(input.items);
    var rows := SaveItems(cleaned);
    return Ok(CreatedOrder(input.source.value, input.destination.value, rows));
  }

  /** What `Create` gives once validation has found nothing. */
  lemma CreateOfValid(input: CreateInput, cat: Catalogue)
    requires InputErrorsWith(input, cat, false) == []
    ensures input.source.Some? && input.destination.Some?
    ensures forall i :: 0 <= i < |input.items| ==>
      input.items[i].variant.Some? && input.items[i].quantity.Some? && input.items[i].unitPrice.Some?
    ensures Create(input, cat) ==
      Ok(CreatedOrder(input.source.value, input.destination.value, NewRows(CleanedItems(input.items))))
  {
    InputErrorsEmptyIff(input, cat);
    NoItemErrorsAllValid(input.items, cat);
  }

  // ----- properties -----

  /** A purchase order is created exactly when the source is an existing supplier
      warehouse, the destination an existing owned one, and there is at least one item,
      every one of them valid. */
  lemma CreateSucceedsIff(input: CreateInput, cat: Catalogue)
    ensures Create(input, cat).Ok? <==>
      && input.source.Some? && input.source.value in cat.warehouses && !cat.warehouses[input.source.value]
      && input.destination.Some? && input.destination.value in cat.warehouses && cat.warehouses[input.destination.value]
      && input.items != []
      && forall i :: 0 <= i < |input.items| ==> ItemValid(input.items[i], cat)
  {
    assert Create(input, cat).Ok? <==> InputErrorsWith(input, cat, false) == [];
    InputErrorsEmptyIff(input, cat);
    ItemsErrorsEmptyIff(input.items, cat);
  }

  lemma InputErrorsEmptyIff(input: CreateInput, cat: Catalogue)
    ensures InputErrorsWith(input, cat, false) == [] <==>
      && input.source.Some? && input.source.value in cat.warehouses && !cat.warehouses[input.source.value]
      && input.destination.Some? && input.destination.value in cat.warehouses && cat.warehouses[input.destination.value]
      && input.items != [] && ItemsErrors(input.items, cat) == []
  {
  }

  /** The items raise no error exactly when every one of them is valid. */
  lemma ItemsErrorsEmptyIff(items: seq<ItemInput>, cat: Catalogue)
    ensures ItemsErrors(items, cat) == [] <==> forall i :: 0 <= i < |items| ==> ItemValid(items[i], cat)
  {
    KeyedAllEmptyIff(PerItemErrors(items, cat, false));
    forall i | 0 <= i < |items|
      ensures ItemCheck(items[i], cat, false) == [] <==> ItemValid(items[i], cat)
    {
      ItemErrorsEmptyIff(items[i], cat);
    }
  }

  /** The shape of a successful call, unfolded once. */
  lemma CreateOk(input: CreateInput, cat: Catalogue)
    requires Create(input, cat).Ok?
    ensures input.source.Some? && input.destination.Some?
    ensures forall i :: 0 <= i < |input.items| ==> ItemValid(input.items[i], cat)
    ensures forall i :: 0 <= i < |input.items| ==>
      input.items[i].variant.Some? && input.items[i].quantity.Some? && input.items[i].unitPrice.Some?
    ensures Create(input, cat).value ==
      CreatedOrder(input.source.value, input.destination.value, NewRows(CleanedItems(input.items)))
  {
    CreateSucceedsIff(input, cat);
  }

  /** One DRAFT row per item, in order, with its variant and quantity, a positive total
      of unit price times quantity, and upper-cased currency and country. */
  lemma CreateOutcome(input: CreateInput, cat: Catalogue)
    requires Create(input, cat).Ok?
    ensures var o := Create(input, cat).value;
      && o.source == input.source.value && o.destination == input.destination.value
      && |o.items| == |input.items|
      && forall i :: 0 <= i < |input.items| ==> RowRecords(input.items[i], o.items[i], cat)
  {
    CreateOk(input, cat);
    var rows := Create(input, cat).value.items;
    forall i | 0 <= i < |input.items|
      ensures RowRecords(input.items[i], rows[i], cat)
    {
      RowOfValidItem(input.items[i], cat);
    }
  }

  /** A saved row records its item: a draft for the requested variant and quantity, the
      total is unit price times quantity and positive, currency and country upper-cased. */
  predicate RowRecords(item: ItemInput, row: NewItem, cat: Catalogue) {
    && item.unitPrice.Some? && item.quantity.Some?
    && row.status == PoiDraft
    && Some(row.variant) == item.variant
    && Some(row.quantityOrdered) == item.quantity
    && row.totalPrice == item.unitPrice.value * item.quantity.value as real
    && row.totalPrice > 0.0
    && row.currency == Upper(item.currency) && |row.currency| == 3
    && row.country == Upper(item.country) && row.country in cat.countries
  }

  lemma RowOfValidItem(item: ItemInput, cat: Catalogue)
    requires ItemValid(item, cat)
    ensures RowRecords(item, NewRow(Clean(item)), cat)
  {
    PositiveProduct(item.unitPrice.value, item.quantity.value as real);
  }

  lemma PositiveProduct(a: real, b: real)
    requires a > 0.0 && b > 0.0
    ensures a * b > 0.0
  {
  }
}
