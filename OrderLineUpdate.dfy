/** saleor/graphql/order/mutations/order_line_update.py: the quantity and, optionally, a
    custom price of an order line are changed. A net-and-gross override is final; a net
    price alone, or no price on a line without a custom net/gross pair, makes the order's
    prices be recalculated. */
module OrderLineUpdate {
  import opened Wrappers

  /** The order-line columns the mutation reads and writes. */
  datatype Line = Line(
    quantity: int,
    isGift: bool,
    unitNet: Option<real>,
    unitGross: Option<real>,
    totalNet: real,
    totalGross: real,
    baseUnit: real,
    undiscountedBaseUnit: real,
    undiscountedUnitNet: real,
    undiscountedUnitGross: real,
    undiscountedTotalNet: real,
    undiscountedTotalGross: real)

  /** The inputs: the quantity, the legacy `price` (whether the key is present, and its
      value), `price_net` and `price_gross`. */
  datatype LineInput = LineInput(quantity: int, priceKey: bool, price: Option<real>, priceNet: Option<real>, priceGross: Option<real>)

  /** What the order around the line contributes; the collaborators of saleor/order/utils.py
      and saleor/core/prices.py are not part of this model and appear as results. */
  datatype LineContext = LineContext(
    isDraft: bool,
    editable: bool,                 // validate_order passes
    stockAvailable: bool,           // change_order_line_quantity raises no InsufficientStock
    quantize: real -> real)         // quantize_price in the line currency

  datatype LineUpdateError =
    | PriceOnNonDraft        // price, CANNOT_DISCOUNT
    | NotEditable            // validate_order
    | ZeroQuantity           // quantity, ZERO_QUANTITY
    | GiftLine               // id, NON_EDITABLE_GIFT_LINE
    | InsufficientStock      // INSUFFICIENT_STOCK
    | GrossWithoutNet        // price_gross, REQUIRED

  /** The line columns named in the line's `update_fields`. */
  datatype LineColumn =
    | UnitPriceNet | UnitPriceGross | TotalPriceNet | TotalPriceGross
    | BaseUnitPrice | UndiscountedBaseUnitPrice | UndiscountedUnitPriceNet | UndiscountedUnitPriceGross
    | UndiscountedTotalPriceNet | UndiscountedTotalPriceGross

  /** The outcome: the line, the price columns saved, and whether the order's prices are
      invalidated (and `should_refresh_prices` written). */
  datatype LineOutcome = LineOutcome(line: Line, saved: seq<LineColumn>, refresh: bool)

  /** `clean_input`, its checks in order. */
  function Clean(line: Line, input: LineInput, ctx: LineContext): Option<LineUpdateError> {
    if input.priceKey && !ctx.isDraft then Some(PriceOnNonDraft)
    else if !ctx.editable then Some(NotEditable)
    else if input.quantity <= 0 then Some(ZeroQuantity)
    else if line.isGift then Some(GiftLine)
    else None
  }

  /** The line holds a custom price pair: net and gross both set and different. */
  predicate HasCustomPricing(line: Line) {
    line.unitNet.Some? && line.unitGross.Some? && line.unitNet.value != line.unitGross.value
  }

  /** The price branches of `save` on a line whose quantity is already the new one. */
  function PriceBranch(l: Line, input: LineInput, q: real -> real): LineOutcome
    requires !(input.priceGross.Some? && input.priceNet.None?)
  {
    if input.priceNet.Some? && input.priceGross.None? then
      var net := q(input.priceNet.value);
      LineOutcome(
        l.(unitNet := Some(net), baseUnit := net, undiscountedBaseUnit := net, undiscountedUnitNet := net),
        [UnitPriceNet, BaseUnitPrice, UndiscountedBaseUnitPrice, UndiscountedUnitPriceNet],
        true)
    else if input.priceNet.Some? then
      var net, gross := q(input.priceNet.value), q(input.priceGross.value);
      var qty := l.quantity as real;
      LineOutcome(
        l.(unitNet := Some(net), unitGross := Some(gross), totalNet := net * qty, totalGross := gross * qty,
           baseUnit := net, undiscountedBaseUnit := net, undiscountedUnitNet := net, undiscountedUnitGross := gross,
           undiscountedTotalNet := net * qty, undiscountedTotalGross := gross * qty),
        [UnitPriceNet, UnitPriceGross, TotalPriceNet, TotalPriceGross, BaseUnitPrice, UndiscountedBaseUnitPrice,
         UndiscountedUnitPriceNet, UndiscountedUnitPriceGross, UndiscountedTotalPriceNet, UndiscountedTotalPriceGross],
        false)
    else if input.price.Some? then
      var p := q(input.price.value);
      LineOutcome(
        l.(baseUnit := p, undiscountedBaseUnit := p, undiscountedUnitNet := p, undiscountedUnitGross := p,
           unitNet := Some(p), unitGross := Some(p)),
        [BaseUnitPrice, UndiscountedBaseUnitPrice, UndiscountedUnitPriceNet, UndiscountedUnitPriceGross,
         UnitPriceNet, UnitPriceGross],
        false)
    else
      LineOutcome(l, [], !HasCustomPricing(l))
  }

  /** The mutation. The gross-without-net check runs after the quantity change inside the
      transaction, so rejecting it rolls the quantity back too. */
  function UpdateLine(line: Line, input: LineInput, ctx: LineContext): Result<LineOutcome, LineUpdateError> {
    var bad := Clean(line, input, ctx);
    if bad.Some? then Err(bad.value)
    else if !ctx.stockAvailable then Err(InsufficientStock)
    else if input.priceGross.Some? && input.priceNet.None? then Err(GrossWithoutNet)
    else Ok(PriceBranch(line.(quantity := input.quantity), input, ctx.quantize))
  }

  /** `save`'s branches, assigning the line's columns step by step. */
  method UpdateLineMutation(line: Line, input: LineInput, ctx: LineContext) returns (r: Result<LineOutcome, LineUpdateError>)
    ensures r == UpdateLine(line, input, ctx)
  {
    var bad := Clean(line, input, ctx);
    if bad.Some? {
      return Err(bad.value);
    }
    var l := line.(quantity := input.quantity);
    if !ctx.stockAvailable {
      return Err(InsufficientStock);
    }
    var shouldInvalidate := false;
    var saved: seq<LineColumn> := [];
    if input.priceGross.Some? && input.priceNet.None? {
      return Err(GrossWithoutNet);
    }
    if input.priceNet.Some? || input.priceGross.Some? {
      var net := ctx.quantize(input.priceNet.value);
      if input.priceGross.None? {
        l := l.(unitNet := Some(net), baseUnit := net, undiscountedBaseUnit := net, undiscountedUnitNet := net);
        shouldInvalidate := true;
        saved := [UnitPriceNet, BaseUnitPrice, UndiscountedBaseUnitPrice, UndiscountedUnitPriceNet];
      } else {
        var gross := ctx.quantize(input.priceGross.value);
        var qty := l.quantity as real;
        l := l.(unitNet := Some(net), unitGross := Some(gross), totalNet := net * qty, totalGross := gross * qty);
        l := l.(baseUnit := net, undiscountedBaseUnit := net, undiscountedUnitNet := net, undiscountedUnitGross := gross);
        l := l.(undiscountedTotalNet := net * qty, undiscountedTotalGross := gross * qty);
        saved := [UnitPriceNet, UnitPriceGross, TotalPriceNet, TotalPriceGross, BaseUnitPrice, UndiscountedBaseUnitPrice,
                  UndiscountedUnitPriceNet, UndiscountedUnitPriceGross, UndiscountedTotalPriceNet, UndiscountedTotalPriceGross];
      }
    } else if input.price.Some? {
      var p := ctx.quantize(input.price.value);
      l := l.(baseUnit := p, undiscountedBaseUnit := p, undiscountedUnitNet := p, undiscountedUnitGross := p);
      l := l.(unitNet := Some(p), unitGross := Some(p));
      saved := [BaseUnitPrice, UndiscountedBaseUnitPrice, UndiscountedUnitPriceNet, UndiscountedUnitPriceGross,
                UnitPriceNet, UnitPriceGross];
    } else {
      var hasCustomPricing := l.unitNet.Some? && l.unitGross.Some? && l.unitNet.value != l.unitGross.value;
      if !hasCustomPricing {
        shouldInvalidate := true;
      }
    }
    assert LineOutcome(l, saved, shouldInvalidate) == PriceBranch(line.(quantity := input.quantity), input, ctx.quantize);
    return Ok(LineOutcome(l, saved, shouldInvalidate));
  }

  /** The guards: a legacy price off a draft order, a quantity of 0 or less, a gift line,
      and a gross price without a net one are each refused. */
  lemma LineUpdateGuards(line: Line, input: LineInput, ctx: LineContext)
    ensures input.priceKey && !ctx.isDraft ==> UpdateLine(line, input, ctx) == Err(PriceOnNonDraft)
    ensures Clean(line, input, ctx).None? ==> input.quantity > 0 && !line.isGift
    ensures input.quantity <= 0 && ctx.editable && !(input.priceKey && !ctx.isDraft) ==>
      UpdateLine(line, input, ctx) == Err(ZeroQuantity)
    ensures line.isGift && input.quantity > 0 && ctx.editable && !(input.priceKey && !ctx.isDraft) ==>
      UpdateLine(line, input, ctx) == Err(GiftLine)
    ensures Clean(line, input, ctx).None? && ctx.stockAvailable && input.priceGross.Some? && input.priceNet.None? ==>
      UpdateLine(line, input, ctx) == Err(GrossWithoutNet)
  {
  }

  /** With net and gross given, the unit prices are their quantized values, the totals are
      unit price times the new quantity, and the order's prices are left alone. */
  lemma NetAndGrossOverride(line: Line, input: LineInput, ctx: LineContext)
    requires UpdateLine(line, input, ctx).Ok?
    requires input.priceNet.Some? && input.priceGross.Some?
    ensures var o := UpdateLine(line, input, ctx).value;
      var net, gross := ctx.quantize(input.priceNet.value), ctx.quantize(input.priceGross.value);
      && o.line.quantity == input.quantity
      && o.line.unitNet == Some(net) && o.line.unitGross == Some(gross)
      && o.line.totalNet == net * input.quantity as real
      && o.line.totalGross == gross * input.quantity as real
      && o.line.undiscountedTotalNet == o.line.totalNet && o.line.undiscountedTotalGross == o.line.totalGross
      && o.line.baseUnit == net && o.line.undiscountedUnitGross == gross
      && !o.refresh
  {
  }

  /** A net price alone sets the net, base and undiscounted-net prices, keeps the gross
      and the totals for the recalculation, and invalidates the order's prices. */
  lemma NetOnly(line: Line, input: LineInput, ctx: LineContext)
    requires UpdateLine(line, input, ctx).Ok?
    requires input.priceNet.Some? && input.priceGross.None?
    ensures var o := UpdateLine(line, input, ctx).value;
      var net := ctx.quantize(input.priceNet.value);
      && o.line.unitNet == Some(net) && o.line.baseUnit == net
      && o.line.undiscountedBaseUnit == net && o.line.undiscountedUnitNet == net
      && o.line.unitGross == line.unitGross && o.line.totalNet == line.totalNet && o.line.totalGross == line.totalGross
      && o.refresh
  {
  }

  /** A legacy price sets net and gross alike, and the order's prices are left alone. */
  lemma LegacyPrice(line: Line, input: LineInput, ctx: LineContext)
    requires UpdateLine(line, input, ctx).Ok?
    requires input.priceNet.None? && input.priceGross.None? && input.price.Some?
    ensures var o := UpdateLine(line, input, ctx).value;
      var p := ctx.quantize(input.price.value);
      && o.line.unitNet == Some(p) && o.line.unitGross == Some(p) && o.line.baseUnit == p
      && !o.refresh
  {
  }

  /** Without a price input nothing price-related is saved, and the order's prices are
      refreshed unless the line carries a custom pair (net and gross set and different). */
  lemma NoPriceInput(line: Line, input: LineInput, ctx: LineContext)
    requires UpdateLine(line, input, ctx).Ok?
    requires input.priceNet.None? && input.priceGross.None? && input.price.None?
    ensures var o := UpdateLine(line, input, ctx).value;
      && o.line == line.(quantity := input.quantity)
      && o.saved == []
      && (o.refresh <==> !(line.unitNet.Some? && line.unitGross.Some? && line.unitNet.value != line.unitGross.value))
  {
  }

  /** A manual net/gross override with different quantized values survives a later update
      without price input: no recalculation is triggered and the prices stay. */
  lemma OverrideIsFinal(line: Line, input: LineInput, ctx: LineContext, qty: int)
    requires UpdateLine(line, input, ctx).Ok?
    requires input.priceNet.Some? && input.priceGross.Some?
    requires ctx.quantize(input.priceNet.value) != ctx.quantize(input.priceGross.value)
    requires qty > 0
    ensures var l1 := UpdateLine(line, input, ctx).value.line;
      var next := LineInput(qty, false, None, None, None);
      UpdateLine(l1, next, ctx).Ok?
      && !UpdateLine(l1, next, ctx).value.refresh
      && UpdateLine(l1, next, ctx).value.line.unitNet == l1.unitNet
      && UpdateLine(l1, next, ctx).value.line.unitGross == l1.unitGross
  {
  }

  /** A legacy price leaves net equal to gross, so the next update without a price input
      sends the line through the price recalculation again. */
  lemma LegacyPriceIsRecalculatedLater(line: Line, input: LineInput, ctx: LineContext, qty: int)
    requires UpdateLine(line, input, ctx).Ok?
    requires input.priceNet.None? && input.priceGross.None? && input.price.Some?
    requires qty > 0
    ensures var l1 := UpdateLine(line, input, ctx).value.line;
      var next := LineInput(qty, false, None, None, None);
      UpdateLine(l1, next, ctx).Ok? && UpdateLine(l1, next, ctx).value.refresh
  {
  }
}
