/** saleor/graphql/order/mutations/order_update_shipping_cost.py: staff set the net shipping
    cost of an editable order; the gross follows from the VAT rate of the shipping tax
    class, and the order totals swap the old shipping amounts for the new ones. */
module OrderUpdateShippingCost {
  import opened Wrappers
  import opened Shipments

  /** What the mutation reads of one order line. */
  datatype LineTax = LineTax(shippingRequired: bool, taxClass: Option<int>)

  /** The order columns the mutation reads and writes. */
  datatype ShippingOrder = ShippingOrder(
    isDraft: bool,
    lines: seq<LineTax>,
    shippingNet: real,
    shippingGross: real,
    baseShipping: real,
    undiscountedBaseShipping: real,
    shippingTaxRate: real,
    shippingXeroTaxCode: Option<string>,
    totalNet: real,
    totalGross: real,
    undiscountedTotalNet: real,
    undiscountedTotalGross: real,
    shippingMethod: Option<int>,
    shippingMethodName: Option<string>,
    shippingTaxClass: Option<int>,
    incoTerm: Option<IncoTerm>,
    shouldRefreshPrices: bool)

  /** The order columns named in `update_fields`. */
  datatype Column =
    | ShippingPriceNetAmount | ShippingPriceGrossAmount | BaseShippingPriceAmount
    | UndiscountedBaseShippingPriceAmount | ShippingTaxRate | ShippingXeroTaxCode
    | TotalNetAmount | TotalGrossAmount | UndiscountedTotalNetAmount | UndiscountedTotalGrossAmount
    | ShouldRefreshPrices | UpdatedAt
    | ShippingTaxClass | ShippingTaxClassName | ShippingTaxClassMetadata | ShippingTaxClassPrivateMetadata
    | ShippingMethod | ShippingMethodName | IncoTermColumn

  /** A TaxClassCountryRate row as resolved for the order. */
  datatype CountryRate = CountryRate(rate: real, xeroTaxCode: Option<string>)

  /** The collaborators in saleor/tax/utils.py, saleor/order/utils.py and
      saleor/core/prices.py, which are not part of this model, as their results. */
  datatype TaxEnv = TaxEnv(
    country: string,                           // get_order_country
    countryRates: set<(int, string)>,          // the (tax class, country) pairs with a rate row
    taxClasses: set<int>,                      // tax classes an id can resolve to
    exportClassFor: Option<IncoTerm> -> Result<Option<int>, string>,  // get_zero_rated_export_tax_class
    taxCountry: Option<string>,                // get_tax_country_for_order
    rateFor: Option<int> -> Option<CountryRate>,  // resolve_tax_class_country_rate
    quantize: real -> real,                    // quantize_price in the order currency
    normalizeRate: real -> real,               // normalize_tax_rate_for_db
    manualMethod: int)                         // _get_or_create_manual_shipping_method

  /** The inputs. Empty strings and absent values are alike falsy. */
  datatype ShippingInput = ShippingInput(net: real, taxClass: Option<int>, incoTerm: Option<string>)

  datatype ShippingCostError =
    | PermissionDenied
    | NotEditable                     // validate_order
    | ShippingNotApplicable           // order, SHIPPING_METHOD_NOT_APPLICABLE
    | InvalidIncoTerm                 // inco_term, INVALID
    | DdpRatesMissing(count: nat)     // inco_term, TAX_ERROR
    | TaxClassNotFound                // tax_class
    | ExportClassError(message: string)  // inco_term, INVALID

  /** `is_shipping_required`. */
  predicate ShippingRequired(o: ShippingOrder) {
    exists i :: 0 <= i < |o.lines| && o.lines[i].shippingRequired
  }

  /** The tax classes set on the lines. */
  function LineClasses(lines: seq<LineTax>): (r: set<int>)
    ensures forall c :: c in r <==> exists i :: 0 <= i < |lines| && lines[i].taxClass == Some(c)
  {
    set i | 0 <= i < |lines| && lines[i].taxClass.Some? :: lines[i].taxClass.value
  }

  /** The line tax classes without a rate for the country (the `missing` set of the DDP check). */
  function MissingRates(lines: seq<LineTax>, country: string, rates: set<(int, string)>): (r: set<int>)
    ensures forall c :: c in r <==> c in LineClasses(lines) && (c, country) !in rates
  {
    set c | c in LineClasses(lines) && (c, country) !in rates
  }

  /** The Incoterm input, when it is given (truthy). */
  predicate IncoTermGiven(input: ShippingInput) {
    input.incoTerm.Some? && input.incoTerm.value != ""
  }

  /** The validation of `perform_mutation` up to the export tax class. */
  function Validate(o: ShippingOrder, permitted: bool, editable: bool, input: ShippingInput, env: TaxEnv)
    : Option<ShippingCostError>
  {
    if !permitted then Some(PermissionDenied)
    else if !editable then Some(NotEditable)
    else if !ShippingRequired(o) then Some(ShippingNotApplicable)
    else if IncoTermGiven(input) && ParseIncoTerm(input.incoTerm.value).None? then Some(InvalidIncoTerm)
    else if IncoTermGiven(input) && ParseIncoTerm(input.incoTerm.value) == Some(DDP)
            && MissingRates(o.lines, env.country, env.countryRates) != {} then
      Some(DdpRatesMissing(|MissingRates(o.lines, env.country, env.countryRates)|))
    else if input.taxClass.Some? && input.taxClass.value !in env.taxClasses then Some(TaxClassNotFound)
    else
      var term := if IncoTermGiven(input) then ParseIncoTerm(input.incoTerm.value) else o.incoTerm;
      if env.exportClassFor(term).Err? then Some(ExportClassError(env.exportClassFor(term).error))
      else None
  }

  /** The Incoterm in effect once the input is applied. */
  function EffectiveTerm(o: ShippingOrder, input: ShippingInput): Option<IncoTerm> {
    if IncoTermGiven(input) then ParseIncoTerm(input.incoTerm.value) else o.incoTerm
  }

  /** The tax class the rate is looked up for: the export class when there is one,
      otherwise the given class, otherwise the order's shipping tax class. */
  function RateClass(o: ShippingOrder, input: ShippingInput, env: TaxEnv): Option<int>
    requires env.exportClassFor(EffectiveTerm(o, input)).Ok?
  {
    var exportClass := env.exportClassFor(EffectiveTerm(o, input)).value;
    if exportClass.Some? then exportClass
    else if input.taxClass.Some? then input.taxClass
    else o.shippingTaxClass
  }

  function ShippingRate(o: ShippingOrder, input: ShippingInput, env: TaxEnv): Option<CountryRate>
    requires env.exportClassFor(EffectiveTerm(o, input)).Ok?
  {
    if env.taxCountry.None? then None else env.rateFor(RateClass(o, input, env))
  }

  function RateOf(rate: Option<CountryRate>): real {
    if rate.Some? then rate.value.rate else 0.0
  }

  /** A net amount plus VAT at a percentage rate. */
  function WithVat(net: real, rate: real): real {
    net * (1.0 + rate / 100.0)
  }

  /** The gross shipping price: the net plus VAT at the rate (0 without one), quantized. */
  function GrossOf(net: real, rate: Option<CountryRate>, env: TaxEnv): real {
    env.quantize(WithVat(net, RateOf(rate)))
  }

  /** The amounts written: the shipping prices, the rate and its Xero code, and each total
      with the old shipping amount dropped and the new one added. */
  function AmountsApplied(o: ShippingOrder, net: real, rate: Option<CountryRate>, env: TaxEnv): ShippingOrder {
    var gross := GrossOf(net, rate, env);
    var q := env.quantize;
    o.(shippingNet := net, shippingGross := gross, baseShipping := net, undiscountedBaseShipping := net,
       shippingTaxRate := env.normalizeRate(RateOf(rate)),
       shippingXeroTaxCode := if rate.Some? then rate.value.xeroTaxCode else None,
       totalNet := q(o.totalNet - o.shippingNet + net),
       totalGross := q(o.totalGross - o.shippingGross + gross),
       undiscountedTotalNet := q(o.undiscountedTotalNet - o.shippingNet + net),
       undiscountedTotalGross := q(o.undiscountedTotalGross - o.shippingGross + gross))
  }

  /** The order after the save. */
  function Updated(o: ShippingOrder, input: ShippingInput, env: TaxEnv): ShippingOrder
    requires env.exportClassFor(EffectiveTerm(o, input)).Ok?
  {
    var exportClass := env.exportClassFor(EffectiveTerm(o, input)).value;
    var a := AmountsApplied(o.(incoTerm := EffectiveTerm(o, input)), input.net, ShippingRate(o, input, env), env);
    Finished(a, input, env, exportClass)
  }

  /** After the amounts: the manual method when the order has none, the refresh flag,
      and the export class or the given class as the shipping tax class. */
  function Finished(a: ShippingOrder, input: ShippingInput, env: TaxEnv, exportClass: Option<int>): ShippingOrder {
    a.(shippingMethod := if a.shippingMethod.None? then Some(env.manualMethod) else a.shippingMethod,
       shippingMethodName := if a.shippingMethod.None? then Some("Manual Shipping Cost") else a.shippingMethodName,
       shippingTaxClass := if exportClass.Some? then exportClass else if input.taxClass.Some? then input.taxClass else a.shippingTaxClass,
       shouldRefreshPrices := IncoTermGiven(input))
  }

  /** The `update_fields` list. */
  /** The columns always saved. */
  const AmountColumns: seq<Column> := [ShippingPriceNetAmount, ShippingPriceGrossAmount, BaseShippingPriceAmount,
                                      UndiscountedBaseShippingPriceAmount, ShippingTaxRate, ShippingXeroTaxCode,
                                      TotalNetAmount, TotalGrossAmount, UndiscountedTotalNetAmount,
                                      UndiscountedTotalGrossAmount, ShouldRefreshPrices, UpdatedAt]

  /** The columns saved when the shipping tax class changes. */
  const TaxClassColumns: seq<Column> := [ShippingTaxClass, ShippingTaxClassName, ShippingTaxClassMetadata,
                                         ShippingTaxClassPrivateMetadata]

  /** The columns saved when the manual shipping method is set. */
  const MethodColumns: seq<Column> := [ShippingMethod, ShippingMethodName]

  function UpdateFields(o: ShippingOrder, input: ShippingInput, env: TaxEnv): seq<Column>
    requires env.exportClassFor(EffectiveTerm(o, input)).Ok?
  {
    var exportClass := env.exportClassFor(EffectiveTerm(o, input)).value;
    AmountColumns
    + (if exportClass.Some? || input.taxClass.Some? then TaxClassColumns else [])
    + (if o.shippingMethod.None? then MethodColumns else [])
    + (if IncoTermGiven(input) then [IncoTermColumn] else [])
  }

  /** The save loses nothing: a field the update changes is in `update_fields`, and the
      draft flag and the lines are untouched. */
  lemma ChangesAreSaved(o: ShippingOrder, input: ShippingInput, env: TaxEnv)
    requires env.exportClassFor(EffectiveTerm(o, input)).Ok?
    ensures Updated(o, input, env).isDraft == o.isDraft && Updated(o, input, env).lines == o.lines
    ensures Updated(o, input, env).shippingTaxClass != o.shippingTaxClass ==> ShippingTaxClass in UpdateFields(o, input, env)
    ensures Updated(o, input, env).shippingMethod != o.shippingMethod ==> ShippingMethod in UpdateFields(o, input, env)
    ensures Updated(o, input, env).shippingMethodName != o.shippingMethodName ==> ShippingMethodName in UpdateFields(o, input, env)
    ensures Updated(o, input, env).incoTerm != o.incoTerm ==> IncoTermColumn in UpdateFields(o, input, env)
    ensures Updated(o, input, env).shouldRefreshPrices != o.shouldRefreshPrices ==> ShouldRefreshPrices in UpdateFields(o, input, env)
    ensures Updated(o, input, env).totalGross != o.totalGross ==> TotalGrossAmount in UpdateFields(o, input, env)
  {
    UpdatedChanges(o, input, env);
    SavedColumns(o, input, env);
  }

  /** What the update changes besides the amounts, and when. */
  lemma UpdatedChanges(o: ShippingOrder, input: ShippingInput, env: TaxEnv)
    requires env.exportClassFor(EffectiveTerm(o, input)).Ok?
    ensures Updated(o, input, env).isDraft == o.isDraft && Updated(o, input, env).lines == o.lines
    ensures Updated(o, input, env).shippingTaxClass != o.shippingTaxClass ==>
      env.exportClassFor(EffectiveTerm(o, input)).value.Some? || input.taxClass.Some?
    ensures Updated(o, input, env).shippingMethod != o.shippingMethod ==> o.shippingMethod.None?
    ensures Updated(o, input, env).shippingMethodName != o.shippingMethodName ==> o.shippingMethod.None?
    ensures Updated(o, input, env).incoTerm != o.incoTerm ==> IncoTermGiven(input)
  {
  }

  /** The optional columns are saved exactly when their condition holds; the amounts,
      totals and refresh flag always are. */
  lemma SavedColumns(o: ShippingOrder, input: ShippingInput, env: TaxEnv)
    requires env.exportClassFor(EffectiveTerm(o, input)).Ok?
    ensures TotalGrossAmount in UpdateFields(o, input, env) && ShouldRefreshPrices in UpdateFields(o, input, env)
    ensures ShippingTaxClass in UpdateFields(o, input, env)
      <==> env.exportClassFor(EffectiveTerm(o, input)).value.Some? || input.taxClass.Some?
    ensures ShippingMethod in UpdateFields(o, input, env) <==> o.shippingMethod.None?
    ensures ShippingMethodName in UpdateFields(o, input, env) <==> o.shippingMethod.None?
    ensures IncoTermColumn in UpdateFields(o, input, env) <==> IncoTermGiven(input)
  {
    ColumnGroups();
  }

  /** Which group each column named above is in. */
  lemma ColumnGroups()
    ensures TotalGrossAmount in AmountColumns && ShouldRefreshPrices in AmountColumns
    ensures ShippingTaxClass !in AmountColumns && ShippingTaxClass in TaxClassColumns && ShippingTaxClass !in MethodColumns
    ensures ShippingMethod !in AmountColumns && ShippingMethod !in TaxClassColumns && ShippingMethod in MethodColumns
    ensures ShippingMethodName !in AmountColumns && ShippingMethodName !in TaxClassColumns && ShippingMethodName in MethodColumns
    ensures IncoTermColumn !in AmountColumns && IncoTermColumn !in TaxClassColumns && IncoTermColumn !in MethodColumns
  {
    assert AmountColumns[7] == TotalGrossAmount && AmountColumns[10] == ShouldRefreshPrices;
  }



  /** The mutation: the saved order and the columns written. */
  function UpdateShippingCost(o: ShippingOrder, permitted: bool, editable: bool, input: ShippingInput, env: TaxEnv)
    : Result<(ShippingOrder, seq<Column>), ShippingCostError>
  {
    var bad := Validate(o, permitted, editable, input, env);
    if bad.Some? then Err(bad.value)
    else Ok((Updated(o, input, env), UpdateFields(o, input, env)))
  }

  /** The amount assignments of `perform_mutation`, in order. */
  method AssignAmounts(order0: ShippingOrder, net: real, rate: Option<CountryRate>, env: TaxEnv) returns (order: ShippingOrder)
    ensures order == AmountsApplied(order0, net, rate, env)
  {
    order := order0;
    var taxRate := RateOf(rate);
    var gross := GrossOf(net, rate, env);
    var oldNet, oldGross := order.shippingNet, order.shippingGross;
    order := order.(shippingNet := net, shippingGross := gross, baseShipping := net, undiscountedBaseShipping := net);
    order := order.(shippingTaxRate := env.normalizeRate(taxRate));
    order := order.(shippingXeroTaxCode := if rate.Some? then rate.value.xeroTaxCode else None);
    order := order.(totalNet := env.quantize(order.totalNet - oldNet + net));
    order := order.(totalGross := env.quantize(order.totalGross - oldGross + gross));
    order := order.(undiscountedTotalNet := env.quantize(order.undiscountedTotalNet - oldNet + net));
    order := order.(undiscountedTotalGross := env.quantize(order.undiscountedTotalGross - oldGross + gross));
  }

  /** `perform_mutation` step by step: the tax class and Incoterm are resolved, the
      amounts assigned, and `update_fields` extended as optional columns change. */
  method UpdateShippingCostMutation(o: ShippingOrder, permitted: bool, editable: bool, input: ShippingInput, env: TaxEnv)
    returns (r: Result<(ShippingOrder, seq<Column>), ShippingCostError>)
    ensures r == UpdateShippingCost(o, permitted, editable, input, env)
  {
    var bad := Validate(o, permitted, editable, input, env);
    if bad.Some? {
      return Err(bad.value);
    }
    assert env.exportClassFor(EffectiveTerm(o, input)).Ok?;
    var order, updateFields := ApplyShippingCost(o, input, env);
    return Ok((order, updateFields));
  }

  /** The part of `perform_mutation` after validation: the order as saved and the
      columns written. */
  method ApplyShippingCost(o: ShippingOrder, input: ShippingInput, env: TaxEnv)
    returns (order: ShippingOrder, updateFields: seq<Column>)
    requires env.exportClassFor(EffectiveTerm(o, input)).Ok?
    ensures order == Updated(o, input, env)
    ensures updateFields == UpdateFields(o, input, env)
  {
    order := o;
    var taxClass := if input.taxClass.Some? then input.taxClass else o.shippingTaxClass;
    if IncoTermGiven(input) {
      order := order.(incoTerm := ParseIncoTerm(input.incoTerm.value));
    }
    var exportClass := env.exportClassFor(order.incoTerm).value;
    if exportClass.Some? {
      taxClass := exportClass;
    }
    assert order.incoTerm == EffectiveTerm(o, input);
    assert taxClass == RateClass(o, input, env);
    var rate := if env.taxCountry.None? then None else env.rateFor(taxClass);
    assert rate == ShippingRate(o, input, env);
    assert order == o.(incoTerm := EffectiveTerm(o, input));
    order := AssignAmounts(order, input.net, rate, env);
    var needsManualMethod := order.shippingMethod.None?;
    var classChanged;
    order, classChanged := Finish(order, input, env, exportClass, taxClass);
    assert needsManualMethod == o.shippingMethod.None?;
    updateFields := UpdatedColumns(o, input, env, exportClass, classChanged, needsManualMethod);
  }

  /** The manual method, the refresh flag and the effective tax class. */
  method Finish(a: ShippingOrder, input: ShippingInput, env: TaxEnv, exportClass: Option<int>, taxClass: Option<int>)
    returns (order: ShippingOrder, classChanged: bool)
    requires taxClass == if exportClass.Some? then exportClass else if input.taxClass.Some? then input.taxClass else a.shippingTaxClass
    ensures order == Finished(a, input, env, exportClass)
    ensures classChanged == (exportClass.Some? || input.taxClass.Some?)
  {
    order := a;
    if order.shippingMethod.None? {
      order := order.(shippingMethodName := Some("Manual Shipping Cost"), shippingMethod := Some(env.manualMethod));
    }
    order := order.(shouldRefreshPrices := IncoTermGiven(input));
    var effective := if exportClass.Some? then exportClass else if input.taxClass.Some? then taxClass else None;
    if effective.Some? {
      order := order.(shippingTaxClass := effective);
    }
    classChanged := effective.Some?;
  }

  /** `update_fields`: the amount columns, then the tax class, method and Incoterm
      columns when those change. */
  method UpdatedColumns(o: ShippingOrder, input: ShippingInput, env: TaxEnv, exportClass: Option<int>,
                        classChanged: bool, needsManualMethod: bool)
    returns (updateFields: seq<Column>)
    requires env.exportClassFor(EffectiveTerm(o, input)).Ok?
    requires exportClass == env.exportClassFor(EffectiveTerm(o, input)).value
    requires classChanged == (exportClass.Some? || input.taxClass.Some?)
    requires needsManualMethod == o.shippingMethod.None?
    ensures updateFields == UpdateFields(o, input, env)
  {
    updateFields := AmountColumns;
    if classChanged {
      updateFields := updateFields + TaxClassColumns;
    }
    if needsManualMethod {
      updateFields := updateFields + MethodColumns;
    }
    if IncoTermGiven(input) {
      updateFields := updateFields + [IncoTermColumn];
    }
  }


  /** An order with no line needing shipping is refused, and so is a code outside the
      eleven Incoterms. */
  lemma ShippingCostGuards(o: ShippingOrder, input: ShippingInput, env: TaxEnv)
    ensures !ShippingRequired(o) ==> UpdateShippingCost(o, true, true, input, env) == Err(ShippingNotApplicable)
    ensures ShippingRequired(o) && IncoTermGiven(input) && ParseIncoTerm(input.incoTerm.value).None? ==>
      UpdateShippingCost(o, true, true, input, env) == Err(InvalidIncoTerm)
  {
  }

  /** DDP is refused exactly when some line's tax class has no rate for the order country,
      and the error counts those classes. */
  lemma DdpNeedsEveryLineRate(o: ShippingOrder, input: ShippingInput, env: TaxEnv, i: int)
    requires ShippingRequired(o) && input.incoTerm == Some("DDP")
    requires 0 <= i < |o.lines| && o.lines[i].taxClass.Some? && (o.lines[i].taxClass.value, env.country) !in env.countryRates
    ensures UpdateShippingCost(o, true, true, input, env).Err?
    ensures UpdateShippingCost(o, true, true, input, env).error.DdpRatesMissing?
    ensures UpdateShippingCost(o, true, true, input, env).error.count >= 1
  {
    assert o.lines[i].taxClass.value in MissingRates(o.lines, env.country, env.countryRates);
  }

  /** With an exportClass class in effect it replaces any given tax class, both for the rate and
      for the stored shipping tax class. */
  lemma ExportClassOverrides(o: ShippingOrder, input: ShippingInput, env: TaxEnv, c: int)
    requires UpdateShippingCost(o, true, true, input, env).Ok?
    requires env.exportClassFor(EffectiveTerm(o, input)) == Ok(Some(c))
    ensures RateClass(o, input, env) == Some(c)
    ensures UpdateShippingCost(o, true, true, input, env).value.0.shippingTaxClass == Some(c)
  {
  }

  /** The gross is the quantized net plus VAT at the resolved rate, with rate 0 when the
      order has no tax country or the class has no rate; the manual method is assigned only
      to an order without a shipping method. */
  lemma ShippingAmounts(o: ShippingOrder, input: ShippingInput, env: TaxEnv)
    requires UpdateShippingCost(o, true, true, input, env).Ok?
    ensures var o' := UpdateShippingCost(o, true, true, input, env).value.0;
      && o'.shippingNet == input.net
      && (env.taxCountry.None? ==> o'.shippingGross == env.quantize(input.net))
      && (env.taxCountry.Some? && env.rateFor(RateClass(o, input, env)).None? ==>
            o'.shippingGross == env.quantize(input.net))
      && (env.taxCountry.Some? && env.rateFor(RateClass(o, input, env)).Some? ==>
            o'.shippingGross == env.quantize(WithVat(input.net, env.rateFor(RateClass(o, input, env)).value.rate)))
      && (o.shippingMethod.Some? ==> o'.shippingMethod == o.shippingMethod && o'.shippingMethodName == o.shippingMethodName)
      && (o.shippingMethod.None? ==> o'.shippingMethod == Some(env.manualMethod))
  {
    var rate := ShippingRate(o, input, env);
    if rate.None? {
      assert WithVat(input.net, 0.0) == input.net;
    }
  }

  /** The totals carry the difference between the new and the old shipping amounts: before
      quantization each total moves by exactly new minus old. */
  lemma TotalsSwapShipping(o: ShippingOrder, input: ShippingInput, env: TaxEnv)
    requires UpdateShippingCost(o, true, true, input, env).Ok?
    ensures var o' := UpdateShippingCost(o, true, true, input, env).value.0;
      && o'.totalNet == env.quantize(o.totalNet + (o'.shippingNet - o.shippingNet))
      && o'.totalGross == env.quantize(o.totalGross + (o'.shippingGross - o.shippingGross))
      && o'.undiscountedTotalNet == env.quantize(o.undiscountedTotalNet + (o'.shippingNet - o.shippingNet))
      && o'.undiscountedTotalGross == env.quantize(o.undiscountedTotalGross + (o'.shippingGross - o.shippingGross))
  {
  }

  /** A repeated call replaces rather than accumulates: when quantizing leaves the first
      call's totals as they are, calling again with the same input leaves the order as the
      first call made it. */
  lemma RepeatReplaces(o: ShippingOrder, input: ShippingInput, env: TaxEnv)
    requires UpdateShippingCost(o, true, true, input, env).Ok?
    requires var o1 := UpdateShippingCost(o, true, true, input, env).value.0;
      && env.quantize(o1.totalNet) == o1.totalNet
      && env.quantize(o1.totalGross) == o1.totalGross
      && env.quantize(o1.undiscountedTotalNet) == o1.undiscountedTotalNet
      && env.quantize(o1.undiscountedTotalGross) == o1.undiscountedTotalGross
    ensures var o1 := UpdateShippingCost(o, true, true, input, env).value.0;
      && UpdateShippingCost(o1, true, true, input, env).Ok?
      && UpdateShippingCost(o1, true, true, input, env).value.0 == o1
  {
    var o1 := UpdateShippingCost(o, true, true, input, env).value.0;
    assert EffectiveTerm(o1, input) == EffectiveTerm(o, input);
    assert LineClasses(o1.lines) == LineClasses(o.lines);
    assert Validate(o1, true, true, input, env) == None;
    assert RateClass(o1, input, env) == RateClass(o, input, env);
    assert o1.totalNet - o1.shippingNet + input.net == o1.totalNet;
    assert o1.totalGross - o1.shippingGross + o1.shippingGross == o1.totalGross;
  }
}
