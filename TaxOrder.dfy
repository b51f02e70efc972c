/** saleor/tax/calculations/order.py: flat-rate taxes of an order. In export mode (a
    zero-rated export tax class applies) every line with a variant and the shipping take
    the export class and the channel's country; otherwise a stale export class left by an
    earlier run is replaced by the natural one and the order's tax country is used. A
    line whose class has no rate for the country fails the whole calculation. */
module TaxOrder {
  import opened Wrappers

  /** A TaxedMoney amount. */
  datatype Taxed = Taxed(net: real, gross: real)

  function Plus(a: Taxed, b: Taxed): Taxed {
    Taxed(a.net + b.net, a.gross + b.gross)
  }

  /** A TaxedMoney times a quantity. */
  function Scale(t: Taxed, k: int): Taxed {
    Taxed(t.net * k as real, t.gross * k as real)
  }

  /** A TaxClassCountryRate row; `taxClass` None is a country's default rate. */
  datatype RateRow = RateRow(country: string, taxClass: Option<int>, rate: real)

  /** The order-line fields the calculation reads and writes. `taxRate` is the stored
      (normalized) rate. */
  datatype TaxLine = TaxLine(
    hasVariant: bool,
    productTaxClass: Option<int>,
    taxClass: Option<int>,
    taxClassName: Option<string>,
    taxRate: Option<real>,
    quantity: int,
    unitPrice: Taxed,
    undiscountedBaseUnitPrice: real,
    undiscountedUnitPrice: Taxed,
    totalPrice: Taxed,
    undiscountedTotalPrice: Taxed)

  /** The order fields the calculation reads and writes. `shippingMethod` is the shipping
      method, if any, by its tax class. */
  datatype TaxOrderRow = TaxOrderRow(
    channelCountry: string,
    shippingTaxClass: Option<int>,
    shippingMethod: Option<Option<int>>,
    shippingPrice: Taxed,
    undiscountedBaseShippingPrice: real,
    shippingTaxRate: Option<real>,
    total: Taxed,
    undiscountedTotal: Taxed,
    subtotal: Taxed)

  /** The collaborators of saleor/tax/utils.py, saleor/core/prices.py,
      saleor/tax/calculations/__init__.py and saleor/order/base_calculations.py, which are
      not part of this model, and the rate table. */
  datatype FlatRateEnv = FlatRateEnv(
    rates: seq<RateRow>,
    flatRate: (real, real, bool) -> Taxed,         // calculate_flat_rate_tax(price, rate, entered with tax)
    quantize: Taxed -> Taxed,                      // quantize_price in the order currency
    normalize: real -> real,                       // normalize_tax_rate_for_db
    denormalize: real -> real,                     // denormalize_tax_rate_from_db
    taxCountry: string,                            // get_tax_country_for_order
    configuredExportPk: Option<int>,               // get_configured_zero_rated_export_tax_class_pk
    shippingRate: (Option<int>, seq<TaxLine>, real, string, Option<int>) -> Result<real, string>,
                                                   // get_shipping_tax_rate_for_order
    baseOrderTotal: (TaxOrderRow, seq<TaxLine>) -> real)  // base_calculations.base_order_total

  /** The ValueError of a line whose tax class has no rate for the country. */
  datatype TaxError = NoTaxClassCountryRate(taxClass: int, country: string)

  datatype OrderTaxError =
    | ExportClassNotConfigured(message: string)   // raised by get_zero_rated_export_tax_class
    | TaxDataError(e: TaxError)                   // a line's ValueError, re-raised
    | ShippingRateError(message: string)          // raised by get_shipping_tax_rate_for_order

  /** What the line loop is handed. */
  datatype LineTaxCtx = LineTaxCtx(
    country: string,
    defaultRate: real,
    withTax: bool,
    exportClass: Option<int>,
    stalePk: Option<int>,
    env: FlatRateEnv)

  /** The rate of the first row for the country and class (`next(...)` / `.first()`). */
  function FindRate(rates: seq<RateRow>, country: string, cls: Option<int>): (r: Option<real>)
    ensures r.None? <==> forall i :: 0 <= i < |rates| ==> !(rates[i].country == country && rates[i].taxClass == cls)
    ensures r.Some? ==> exists i :: (0 <= i < |rates| && rates[i].country == country && rates[i].taxClass == cls
      && rates[i].rate == r.value
      && forall j :: 0 <= j < i ==> !(rates[j].country == country && rates[j].taxClass == cls))
  {
    if |rates| == 0 then None
    else if rates[0].country == country && rates[0].taxClass == cls then Some(rates[0].rate)
    else
      var r := FindRate(rates[1..], country, cls);
      if r.Some? then
        ghost var i :| 0 <= i < |rates[1..]| && rates[1..][i].country == country && rates[1..][i].taxClass == cls
          && rates[1..][i].rate == r.value
          && forall j :: 0 <= j < i ==> !(rates[1..][j].country == country && rates[1..][j].taxClass == cls);
        assert rates[i + 1] == rates[1..][i];
        assert forall j :: 1 <= j < i + 1 ==> rates[j] == rates[1..][j - 1];
        r
      else
        assert forall i :: 1 <= i < |rates| ==> rates[i] == rates[1..][i - 1];
        r
  }

  /** The country the rates are looked up for (lines 34-38). */
  function TaxCountry(order: TaxOrderRow, exportClass: Option<int>, env: FlatRateEnv): string {
    if exportClass.Some? then order.channelCountry else env.taxCountry
  }

  /** The configured export class, looked for as a stale one only outside export mode. */
  function StalePk(exportClass: Option<int>, env: FlatRateEnv): Option<int> {
    if exportClass.None? then env.configuredExportPk else None
  }

  /** Lines 44-53: a stale export class on the shipping is replaced by the shipping
      method's class, or cleared when there is no shipping method. */
  function RestoredShipping(order: TaxOrderRow, stalePk: Option<int>): TaxOrderRow {
    if Truthy(stalePk) && order.shippingTaxClass == stalePk then
      order.(shippingTaxClass := if order.shippingMethod.Some? then order.shippingMethod.value else None)
    else order
  }

  /** The country's default rate, 0 without one. */
  function DefaultRate(rates: seq<RateRow>, country: string): real {
    var r := FindRate(rates, country, None);
    if r.Some? then r.value else 0.0
  }

  /** Lines 175-178, for one line: a stale export class is replaced by the product's. */
  function RestoredLine(l: TaxLine, c: LineTaxCtx): TaxLine {
    if c.exportClass.None? && Truthy(c.stalePk) && l.hasVariant && l.taxClass == c.stalePk then
      l.(taxClass := l.productTaxClass)
    else l
  }

  function Restored(ls: seq<TaxLine>, c: LineTaxCtx): (r: seq<TaxLine>)
    ensures |r| == |ls| && forall i :: 0 <= i < |ls| ==> r[i] == RestoredLine(ls[i], c)
  {
    seq(|ls|, i requires 0 <= i < |ls| => RestoredLine(ls[i], c))
  }

  /** Line 206: in export mode the line takes the export class. */
  function Exported(l: TaxLine, c: LineTaxCtx): TaxLine {
    if c.exportClass.Some? then l.(taxClass := c.exportClass) else l
  }

  /** The class the line's rate is looked up for. */
  function RateClass(l: TaxLine, c: LineTaxCtx): Option<int> {
    if c.exportClass.Some? then c.exportClass else l.taxClass
  }

  /** Lines 208-226: the class's rate for the country (an error without one), else the
      stored rate of a removed class, else the default rate. */
  function LineRate(l: TaxLine, c: LineTaxCtx): Result<real, TaxError> {
    var cls := RateClass(l, c);
    if Truthy(cls) then
      var r := FindRate(c.env.rates, c.country, cls);
      if r.None? then Err(NoTaxClassCountryRate(cls.value, c.country)) else Ok(r.value)
    else if l.taxClassName.Some? && l.taxRate.Some? then Ok(c.env.denormalize(l.taxRate.value))
    else Ok(c.defaultRate)
  }

  /** Lines 200-246 for one (restored) line. */
  function TaxedLine(l: TaxLine, c: LineTaxCtx): Result<TaxLine, TaxError> {
    if !l.hasVariant then Ok(l)
    else
      var rate := LineRate(l, c);
      if rate.Err? then Err(rate.error)
      else
        var price := if c.withTax then l.unitPrice.gross else l.unitPrice.net;
        var unit := c.env.flatRate(price, rate.value, c.withTax);
        var undiscounted := c.env.flatRate(l.undiscountedBaseUnitPrice, rate.value, c.withTax);
        Ok(Exported(l, c).(
          unitPrice := c.env.quantize(unit),
          undiscountedUnitPrice := c.env.quantize(undiscounted),
          totalPrice := c.env.quantize(Scale(unit, l.quantity)),
          undiscountedTotalPrice := c.env.quantize(Scale(undiscounted, l.quantity)),
          taxRate := Some(c.env.normalize(rate.value))))
  }

  /** The line loop's outcome: every line taxed, or the first line's error. */
  function TaxedLines(ls: seq<TaxLine>, c: LineTaxCtx): (r: Result<seq<TaxLine>, TaxError>)
    ensures r.Ok? <==> forall i :: 0 <= i < |ls| ==> TaxedLine(ls[i], c).Ok?
    ensures r.Ok? ==> |r.value| == |ls| && forall i :: 0 <= i < |ls| ==> r.value[i] == TaxedLine(ls[i], c).value
    ensures r.Err? ==> exists k :: (0 <= k < |ls| && TaxedLine(ls[k], c) == Err(r.error)
      && forall i :: 0 <= i < k ==> TaxedLine(ls[i], c).Ok?)
  {
    if |ls| == 0 then Ok([])
    else
      var init := ls[..|ls| - 1];
      var p := TaxedLines(init, c);
      assert forall i :: 0 <= i < |init| ==> init[i] == ls[i];
      if p.Err? then Err(p.error)
      else
        var last := TaxedLine(ls[|ls| - 1], c);
        if last.Err? then Err(last.error)
        else Ok(p.value + [last.value])
  }

  /** update_taxes_for_order_lines over the caller's lines, changed in place: stale export
      classes are restored first, then each line with a variant is taxed. On an error the
      lines before the failing one are already taxed, the failing one has taken the export
      class, and the rest are only restored. */
  method UpdateTaxesForOrderLines(lines: array<TaxLine>, c: LineTaxCtx) returns (err: Option<TaxError>)
    modifies lines
    ensures var r := Restored(old(lines[..]), c);
      && (err.None? <==> TaxedLines(r, c).Ok?)
      && (err.None? ==> lines[..] == TaxedLines(r, c).value)
      && (err.Some? ==> TaxedLines(r, c) == Err(err.value) && exists k :: StoppedAt(r, lines[..], c, k, err.value))
  {
    RestoreStaleClasses(lines, c);
    ghost var r := lines[..];
    var i := 0;
    while i < lines.Length
      invariant 0 <= i <= lines.Length
      invariant forall j :: 0 <= j < i ==> TaxedLine(r[j], c).Ok? && lines[j] == TaxedLine(r[j], c).value
      invariant forall j :: i <= j < lines.Length ==> lines[j] == r[j]
    {
      var line := lines[i];
      if line.hasVariant {
        var rate := LineRate(line, c);
        if c.exportClass.Some? {
          lines[i] := line.(taxClass := c.exportClass);
        }
        if rate.Err? {
          assert line == r[i] && lines[i] == Exported(r[i], c);
          assert TaxedLine(r[i], c) == Err(rate.error);
          FirstErrorAt(r, c, i);
          assert StoppedAt(r, lines[..], c, i, rate.error);
          return Some(rate.error);
        }
        var taxed := PriceLine(line, rate.value, c);
        lines[i] := taxed;
      }
      i := i + 1;
    }
    TaxedLinesAllOk(r, c);
    assert lines[..] == TaxedLines(r, c).value;
    return None;
  }

  /** The lines after the loop stopped at line `k` with error `e`: the lines before it are
      taxed, it has taken the export class, and the rest are as restored. */
  predicate StoppedAt(r: seq<TaxLine>, now: seq<TaxLine>, c: LineTaxCtx, k: int, e: TaxError) {
    |now| == |r| && 0 <= k < |r| && TaxedLine(r[k], c) == Err(e)
    && (forall i :: 0 <= i < k ==> TaxedLine(r[i], c).Ok? && now[i] == TaxedLine(r[i], c).value)
    && now[k] == Exported(r[k], c)
    && (forall i :: k < i < |r| ==> now[i] == r[i])
  }

  /** Lines 175-178: the stale export class of every line with a variant is replaced by
      its product's class. */
  method RestoreStaleClasses(lines: array<TaxLine>, c: LineTaxCtx)
    modifies lines
    ensures lines[..] == Restored(old(lines[..]), c)
  {
    ghost var orig := lines[..];
    if c.exportClass.None? && Truthy(c.stalePk) {
      var i := 0;
      while i < lines.Length
        invariant 0 <= i <= lines.Length
        invariant forall j :: 0 <= j < i ==> lines[j] == RestoredLine(orig[j], c)
        invariant forall j :: i <= j < lines.Length ==> lines[j] == orig[j]
      {
        if lines[i].hasVariant && lines[i].taxClass == c.stalePk {
          lines[i] := lines[i].(taxClass := lines[i].productTaxClass);
        }
        i := i + 1;
      }
    }
  }

  /** Lines 228-246: the prices and the rate of a line with a variant whose rate was found. */
  method PriceLine(line: TaxLine, rate: real, c: LineTaxCtx) returns (taxed: TaxLine)
    requires line.hasVariant && LineRate(line, c) == Ok(rate)
    ensures TaxedLine(line, c) == Ok(taxed)
  {
    taxed := Exported(line, c);
    var price := if c.withTax then line.unitPrice.gross else line.unitPrice.net;
    var unit := c.env.flatRate(price, rate, c.withTax);
    var undiscounted := c.env.flatRate(line.undiscountedBaseUnitPrice, rate, c.withTax);
    taxed := taxed.(unitPrice := c.env.quantize(unit), undiscountedUnitPrice := c.env.quantize(undiscounted));
    taxed := taxed.(totalPrice := c.env.quantize(Scale(unit, line.quantity)),
                    undiscountedTotalPrice := c.env.quantize(Scale(undiscounted, line.quantity)));
    taxed := taxed.(taxRate := Some(c.env.normalize(rate)));
  }

  /** The first failing line decides the loop's error. */
  lemma FirstErrorAt(ls: seq<TaxLine>, c: LineTaxCtx, k: nat)
    requires k < |ls| && TaxedLine(ls[k], c).Err?
    requires forall i :: 0 <= i < k ==> TaxedLine(ls[i], c).Ok?
    ensures TaxedLines(ls, c) == Err(TaxedLine(ls[k], c).error)
  {
    var r := TaxedLines(ls, c);
    var j :| 0 <= j < |ls| && TaxedLine(ls[j], c) == Err(r.error)
      && forall i :: 0 <= i < j ==> TaxedLine(ls[i], c).Ok?;
    assert !(j < k) && !(k < j);
  }

  /** With no failing line the loop taxes every line. */
  lemma TaxedLinesAllOk(ls: seq<TaxLine>, c: LineTaxCtx)
    requires forall i :: 0 <= i < |ls| ==> TaxedLine(ls[i], c).Ok?
    ensures TaxedLines(ls, c).Ok? && TaxedLines(ls, c).value == seq(|ls|, i requires 0 <= i < |ls| => TaxedLine(ls[i], c).value)
  {
  }

  /** A sum of TaxedMoney amounts picked from the lines. */
  function SumTotals(ls: seq<TaxLine>): Taxed {
    if |ls| == 0 then Taxed(0.0, 0.0) else Plus(SumTotals(ls[..|ls| - 1]), ls[|ls| - 1].totalPrice)
  }

  function SumUndiscountedTotals(ls: seq<TaxLine>): Taxed {
    if |ls| == 0 then Taxed(0.0, 0.0)
    else Plus(SumUndiscountedTotals(ls[..|ls| - 1]), ls[|ls| - 1].undiscountedTotalPrice)
  }

  /** `_set_order_totals` (lines 106-140): with a base total of 0 or less all three totals
      are that base total; otherwise they are the line sums with the shipping added. */
  function OrderTotals(order: TaxOrderRow, ls: seq<TaxLine>, withTax: bool, env: FlatRateEnv): TaxOrderRow {
    var base := env.baseOrderTotal(order, ls);
    if base <= 0.0 then
      var t := env.quantize(Taxed(base, base));
      order.(total := t, undiscountedTotal := t, subtotal := t)
    else
      var rate := if order.shippingTaxRate.Some? then order.shippingTaxRate.value else 0.0;
      var undiscountedShipping := env.flatRate(order.undiscountedBaseShippingPrice, rate * 100.0, withTax);
      order.(total := env.quantize(Plus(SumTotals(ls), order.shippingPrice)),
             undiscountedTotal := env.quantize(Plus(SumUndiscountedTotals(ls), undiscountedShipping)),
             subtotal := env.quantize(SumTotals(ls)))
  }

  /** `_set_order_totals`, summing the lines in a loop. */
  method SetOrderTotals(order: TaxOrderRow, ls: seq<TaxLine>, withTax: bool, env: FlatRateEnv) returns (o: TaxOrderRow)
    ensures o == OrderTotals(order, ls, withTax, env)
  {
    var base := env.baseOrderTotal(order, ls);
    if base <= 0.0 {
      var t := env.quantize(Taxed(base, base));
      return order.(total := t, undiscountedTotal := t, subtotal := t);
    }
    var subtotal := Taxed(0.0, 0.0);
    var undiscountedSubtotal := Taxed(0.0, 0.0);
    var i := 0;
    while i < |ls|
      invariant 0 <= i <= |ls|
      invariant subtotal == SumTotals(ls[..i])
      invariant undiscountedSubtotal == SumUndiscountedTotals(ls[..i])
    {
      assert ls[..i + 1][..i] == ls[..i];
      subtotal := Plus(subtotal, ls[i].totalPrice);
      undiscountedSubtotal := Plus(undiscountedSubtotal, ls[i].undiscountedTotalPrice);
      i := i + 1;
    }
    assert ls[..i] == ls;
    var rate := if order.shippingTaxRate.Some? then order.shippingTaxRate.value else 0.0;
    var undiscountedShipping := env.flatRate(order.undiscountedBaseShippingPrice, rate * 100.0, withTax);
    o := order.(total := env.quantize(Plus(subtotal, order.shippingPrice)),
                undiscountedTotal := env.quantize(Plus(undiscountedSubtotal, undiscountedShipping)),
                subtotal := env.quantize(subtotal));
  }

  /** The line context `update_order_prices_with_flat_rates` builds. */
  function LinesCtx(order: TaxOrderRow, withTax: bool, exportClass: Option<int>, env: FlatRateEnv): LineTaxCtx {
    var country := TaxCountry(order, exportClass, env);
    LineTaxCtx(country, DefaultRate(env.rates, country), withTax, exportClass, StalePk(exportClass, env), env)
  }

  /** `_calculate_order_shipping`. */
  function OrderShipping(order: TaxOrderRow, rate: real, withTax: bool, env: FlatRateEnv): Taxed {
    var price := if withTax then order.shippingPrice.gross else order.shippingPrice.net;
    env.quantize(env.flatRate(price, rate, withTax))
  }

  /** `update_order_prices_with_flat_rates` on values: the taxed order and lines, or the
      error raised. `exportClass` is the outcome of get_zero_rated_export_tax_class. */
  function FlatRates(order: TaxOrderRow, ls: seq<TaxLine>, withTax: bool,
                     exportClass: Result<Option<int>, string>, env: FlatRateEnv)
    : Result<(TaxOrderRow, seq<TaxLine>), OrderTaxError>
  {
    if exportClass.Err? then Err(ExportClassNotConfigured(exportClass.error))
    else
      var c := LinesCtx(order, withTax, exportClass.value, env);
      var o1 := RestoredShipping(order, c.stalePk);
      var taxed := TaxedLines(Restored(ls, c), c);
      if taxed.Err? then Err(TaxDataError(taxed.error))
      else
        var o2 := if exportClass.value.Some? then o1.(shippingTaxClass := exportClass.value) else o1;
        var rate := env.shippingRate(o2.shippingTaxClass, taxed.value, c.defaultRate, c.country, exportClass.value);
        if rate.Err? then Err(ShippingRateError(rate.error))
        else
          var o3 := o2.(shippingPrice := OrderShipping(o2, rate.value, withTax, env),
                        shippingTaxRate := Some(env.normalize(rate.value)));
          Ok((OrderTotals(o3, taxed.value, withTax, env), taxed.value))
  }

  /** `update_order_prices_with_flat_rates`: the lines are changed in place and the taxed
      order is returned. */
  method UpdateOrderPricesWithFlatRates(order: TaxOrderRow, lines: array<TaxLine>, withTax: bool,
                                        exportClass: Result<Option<int>, string>, env: FlatRateEnv)
    returns (r: Result<TaxOrderRow, OrderTaxError>)
    modifies lines
    ensures var spec := FlatRates(order, old(lines[..]), withTax, exportClass, env);
      && (r.Err? <==> spec.Err?)
      && (r.Err? ==> r.error == spec.error)
      && (r.Ok? ==> r.value == spec.value.0 && lines[..] == spec.value.1)
  {
    if exportClass.Err? {
      return Err(ExportClassNotConfigured(exportClass.error));
    }
    ghost var ls := lines[..];
    var exportCls := exportClass.value;
    var country := if exportCls.Some? then order.channelCountry else env.taxCountry;
    var stale: Option<int> := None;
    var o := order;
    if exportCls.None? {
      stale := env.configuredExportPk;
      if Truthy(stale) && o.shippingTaxClass == stale {
        o := o.(shippingTaxClass := if o.shippingMethod.Some? then o.shippingMethod.value else None);
      }
    }
    var defaultRate := DefaultRate(env.rates, country);
    var c := LineTaxCtx(country, defaultRate, withTax, exportCls, stale, env);
    assert c == LinesCtx(order, withTax, exportCls, env);
    var e := UpdateTaxesForOrderLines(lines, c);
    if e.Some? {
      return Err(TaxDataError(e.value));
    }
    if exportCls.Some? {
      o := o.(shippingTaxClass := exportCls);
    }
    var rate := env.shippingRate(o.shippingTaxClass, lines[..], defaultRate, country, exportCls);
    if rate.Err? {
      return Err(ShippingRateError(rate.error));
    }
    o := o.(shippingPrice := OrderShipping(o, rate.value, withTax, env), shippingTaxRate := Some(env.normalize(rate.value)));
    o := SetOrderTotals(o, lines[..], withTax, env);
    return Ok(o);
  }

  /** Export mode looks rates up for the channel's country, otherwise for the order's tax
      country; only outside export mode is a stale export class looked for. */
  lemma TaxCountryChoice(order: TaxOrderRow, exportClass: Option<int>, env: FlatRateEnv)
    ensures exportClass.Some? ==> TaxCountry(order, exportClass, env) == order.channelCountry && StalePk(exportClass, env).None?
    ensures exportClass.None? ==> TaxCountry(order, exportClass, env) == env.taxCountry && StalePk(exportClass, env) == env.configuredExportPk
  {
  }

  /** Outside export mode a stale export class is gone from the shipping and from every
      line with a variant afterwards, unless the natural class is that same class; other
      classes are kept. */
  lemma StaleClassesReplaced(order: TaxOrderRow, ls: seq<TaxLine>, c: LineTaxCtx, p: int)
    requires c.exportClass.None? && c.stalePk == Some(p) && p != 0
    ensures var o := RestoredShipping(order, c.stalePk);
      && (order.shippingTaxClass == Some(p) ==>
            o.shippingTaxClass == (if order.shippingMethod.Some? then order.shippingMethod.value else None))
      && (order.shippingTaxClass != Some(p) ==> o == order)
    ensures var r := Restored(ls, c);
      forall i :: 0 <= i < |ls| ==>
        && (ls[i].hasVariant && ls[i].taxClass == Some(p) ==> r[i].taxClass == ls[i].productTaxClass)
        && (!ls[i].hasVariant || ls[i].taxClass != Some(p) ==> r[i] == ls[i])
        && r[i].(taxClass := ls[i].taxClass) == ls[i]
  {
  }

  /** An export run followed by a domestic run that still knows the export class as the
      configured one puts the product's class back on the line. */
  lemma ExportThenDomesticRestores(l: TaxLine, c: LineTaxCtx, d: LineTaxCtx, p: int)
    requires c.exportClass == Some(p) && p != 0
    requires TaxedLine(l, c).Ok?
    requires d.exportClass.None? && d.stalePk == Some(p)
    requires l.hasVariant
    ensures TaxedLine(l, c).value.taxClass == Some(p)
    ensures RestoredLine(TaxedLine(l, c).value, d).taxClass == l.productTaxClass
  {
  }

  /** A line fails exactly when it has a variant, its rate class is set (the export class
      in export mode) and the table holds no rate for that class and country. */
  lemma LineFailsIff(l: TaxLine, c: LineTaxCtx)
    ensures TaxedLine(l, c).Err? <==>
      l.hasVariant && Truthy(RateClass(l, c))
      && forall i :: 0 <= i < |c.env.rates| ==> !(c.env.rates[i].country == c.country && c.env.rates[i].taxClass == RateClass(l, c))
    ensures TaxedLine(l, c).Err? ==> TaxedLine(l, c).error == NoTaxClassCountryRate(RateClass(l, c).value, c.country)
  {
  }

  /** Lines without a variant are passed over unchanged. */
  lemma LineWithoutVariantUntouched(l: TaxLine, c: LineTaxCtx)
    requires !l.hasVariant
    ensures RestoredLine(l, c) == l && TaxedLine(l, c) == Ok(l)
  {
  }

  /** In export mode every taxed line with a variant carries the export class, its rate
      is the export class's rate for the channel country, and it is stored normalized. */
  lemma ExportModeLine(l: TaxLine, c: LineTaxCtx, p: int)
    requires c.exportClass == Some(p) && p != 0
    requires l.hasVariant && TaxedLine(l, c).Ok?
    ensures FindRate(c.env.rates, c.country, Some(p)).Some?
    ensures TaxedLine(l, c).value.taxClass == Some(p)
    ensures TaxedLine(l, c).value.taxRate == Some(c.env.normalize(FindRate(c.env.rates, c.country, Some(p)).value))
  {
  }

  /** A line without a class reuses the rate stored with a removed class (its name and
      rate still set), and otherwise gets the country's default rate. */
  lemma RemovedClassRate(l: TaxLine, c: LineTaxCtx)
    requires c.exportClass.None? && !Truthy(l.taxClass)
    ensures l.taxClassName.Some? && l.taxRate.Some? ==> LineRate(l, c) == Ok(c.env.denormalize(l.taxRate.value))
    ensures !(l.taxClassName.Some? && l.taxRate.Some?) ==> LineRate(l, c) == Ok(c.defaultRate)
  {
  }

  /** The default rate is the country's class-less row, or 0. */
  lemma DefaultRateRow(rates: seq<RateRow>, country: string, i: int)
    requires 0 <= i < |rates| && rates[i].country == country && rates[i].taxClass.None?
    requires forall j :: 0 <= j < |rates| && rates[j].country == country && rates[j].taxClass.None? ==> rates[j].rate == rates[i].rate
    ensures DefaultRate(rates, country) == rates[i].rate
  {
  }

  /** A domestic run (no export class) fails in the line loop exactly when some line with
      a variant has a class with no rate for the order's tax country; then nothing is
      returned and the error is re-raised as TaxDataError. */
  lemma FlatRatesLineFailure(order: TaxOrderRow, ls: seq<TaxLine>, withTax: bool, env: FlatRateEnv)
    ensures var c := LinesCtx(order, withTax, None, env);
      var r := Restored(ls, c);
      (exists k :: 0 <= k < |r| && TaxedLine(r[k], c).Err?) <==>
        FlatRates(order, ls, withTax, Ok(None), env).Err? && FlatRates(order, ls, withTax, Ok(None), env).error.TaxDataError?
  {
  }

  /** In export mode the returned order's shipping carries the export class, and the
      shipping rate was asked for with the export class as the override. */
  lemma ExportModeShipping(order: TaxOrderRow, ls: seq<TaxLine>, withTax: bool, p: int, env: FlatRateEnv)
    requires p != 0
    requires FlatRates(order, ls, withTax, Ok(Some(p)), env).Ok?
    ensures FlatRates(order, ls, withTax, Ok(Some(p)), env).value.0.shippingTaxClass == Some(p)
  {
  }

  /** The totals: a base total of 0 or less sets all three totals to it; otherwise the
      subtotal sums every line's total (with or without a variant) and the total adds the
      shipping price to that sum. */
  lemma TotalsCases(order: TaxOrderRow, ls: seq<TaxLine>, withTax: bool, env: FlatRateEnv)
    ensures var o := OrderTotals(order, ls, withTax, env);
      var base := env.baseOrderTotal(order, ls);
      && (base <= 0.0 ==> o.total == o.subtotal == o.undiscountedTotal == env.quantize(Taxed(base, base)))
      && (base > 0.0 ==> o.subtotal == env.quantize(SumTotals(ls))
                         && o.total == env.quantize(Plus(SumTotals(ls), order.shippingPrice)))
      && o.(total := order.total, undiscountedTotal := order.undiscountedTotal, subtotal := order.subtotal) == order
  {
  }

  /** The subtotal sum is additive over the lines. */
  lemma {:induction false} SumTotalsConcat(a: seq<TaxLine>, b: seq<TaxLine>)
    ensures SumTotals(a + b) == Plus(SumTotals(a), SumTotals(b))
  {
    if |b| == 0 {
      assert a + b == a;
    } else {
      var b' := b[..|b| - 1];
      assert (a + b)[..|a + b| - 1] == a + b';
      SumTotalsConcat(a, b');
    }
  }
}
