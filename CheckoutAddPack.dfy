/** saleor/graphql/checkout/mutations/checkout_add_pack.py: the `checkoutAddPack`
    mutation. A positive pack size is split across the product's variants
    (saleor/checkout/pack_utils.py), the product's minimum order quantity (MOQ) is
    checked against everything the customer would then hold, and one checkout line per
    allocated variant is prepared, tagged as belonging to the pack. */
module CheckoutAddPack {
  import opened Wrappers
  import opened Sums
  import opened Text
  import opened PackUtils
  import opened PackProperties

  /** The error codes used here. */
  datatype ErrorCode = Invalid | InsufficientStock | ProductNotPublished

  /** The two wordings of the insufficient stock error. */
  datatype MoqMessage =
    | CannotLeaveTooLittle(minRequired: int, shortfall: int, totalAvailable: int)
    | BelowMinimum(effectiveMinimum: int, totalQuantity: int, shortfall: int)

  /** A `ValidationError` of the mutation: field, code and, for the MOQ check, the message. */
  datatype AddPackError =
    | InvalidPackSize
    | MinimumNotMet(message: MoqMessage)
    | NoVariantsAvailable

  function Field(e: AddPackError): string {
    match e
    case InvalidPackSize => "pack_size"
    case MinimumNotMet(_) => "pack_size"
    case NoVariantsAvailable => "product_id"
  }

  function Code(e: AddPackError): ErrorCode {
    match e
    case InvalidPackSize => Invalid
    case MinimumNotMet(_) => InsufficientStock
    case NoVariantsAvailable => ProductNotPublished
  }

  /** Lines 75-85: `validate_pack_size`. */
  function ValidatePackSize(packSize: int): (r: Result<(), AddPackError>)
    ensures r.Ok? <==> packSize > 0
    ensures r.Err? ==> r.error == InvalidPackSize
  {
    if packSize <= 0 then Err(InvalidPackSize) else Ok(())
  }

  /** The effective minimum and whether it comes from the stock the order would leave. */
  datatype Minimum = Minimum(effective: int, insufficientRemaining: bool)

  /** Lines 120-135: the minimum an order must reach. Below the MOQ in stock, all the
      stock; an order that would leave a positive amount below the MOQ, all the stock too;
      otherwise the MOQ. */
  function EffectiveMinimum(minRequired: int, totalAvailable: int, totalQuantity: int): (m: Minimum)
    ensures m.effective == minRequired || m.effective == totalAvailable
    ensures m.insufficientRemaining ==> m.effective == totalAvailable
    ensures m.insufficientRemaining <==>
      minRequired <= totalAvailable && 0 < totalAvailable - totalQuantity < minRequired
  {
    var remainingAfterOrder := totalAvailable - totalQuantity;
    if totalAvailable < minRequired then Minimum(totalAvailable, false)
    else if remainingAfterOrder > 0 && remainingAfterOrder < minRequired then Minimum(totalAvailable, true)
    else Minimum(minRequired, false)
  }

  /** Lines 137-157: the check proper, for a known MOQ and total stock. */
  function MinimumCheck(minRequired: int, totalAvailable: int, totalQuantity: int): Result<(), AddPackError> {
    var m := EffectiveMinimum(minRequired, totalAvailable, totalQuantity);
    if totalQuantity < m.effective then
      var shortfall := m.effective - totalQuantity;
      if m.insufficientRemaining then Err(MinimumNotMet(CannotLeaveTooLittle(minRequired, shortfall, totalAvailable)))
      else Err(MinimumNotMet(BelowMinimum(m.effective, totalQuantity, shortfall)))
    else Ok(())
  }

  /** Lines 87-157: `validate_minimum_order_quantity` on values. `available[v]` is the
      availability of variant `v` for the country; every variant counts. */
  function ValidateMinimumOrderQuantity(moq: Option<int>, available: seq<int>, currentQuantity: int, packQuantity: int): (r: Result<(), AddPackError>)
    ensures moq.None? ==> r.Ok?
    ensures r.Err? ==> r.error.MinimumNotMet?
  {
    if moq.None? then Ok(())
    else MinimumCheck(moq.value, SumInts(available), currentQuantity + packQuantity)
  }

  /** The same with its loop over the variants. */
  method ValidateMinimumOrderQuantityLoop(moq: Option<int>, available: seq<int>, currentQuantity: int, packQuantity: int)
    returns (r: Result<(), AddPackError>)
    ensures r == ValidateMinimumOrderQuantity(moq, available, currentQuantity, packQuantity)
  {
    if moq.None? {
      return Ok(());
    }
    var minRequired := moq.value;
    var totalAvailable := 0;
    var i := 0;
    while i < |available|
      invariant 0 <= i <= |available|
      invariant totalAvailable == SumInts(available[..i])
    {
      SumAppend(available[..i], [available[i]]);
      assert available[..i + 1] == available[..i] + [available[i]];
      totalAvailable := totalAvailable + available[i];
      i := i + 1;
    }
    assert available[..i] == available;
    var totalQuantity := currentQuantity + packQuantity;
    var remainingAfterOrder := totalAvailable - totalQuantity;
    var effectiveMinimum: int;
    var insufficientRemaining: bool;
    if totalAvailable < minRequired {
      effectiveMinimum, insufficientRemaining := totalAvailable, false;
    } else if remainingAfterOrder > 0 && remainingAfterOrder < minRequired {
      effectiveMinimum, insufficientRemaining := totalAvailable, true;
    } else {
      effectiveMinimum, insufficientRemaining := minRequired, false;
    }
    if totalQuantity < effectiveMinimum {
      var shortfall := effectiveMinimum - totalQuantity;
      if insufficientRemaining {
        return Err(MinimumNotMet(CannotLeaveTooLittle(minRequired, shortfall, totalAvailable)));
      }
      return Err(MinimumNotMet(BelowMinimum(effectiveMinimum, totalQuantity, shortfall)));
    }
    return Ok(());
  }

  /** The check fails exactly when the order is below the effective minimum, and then
      reports the difference as the shortfall. */
  lemma MinimumCheckFailsIff(minRequired: int, totalAvailable: int, totalQuantity: int)
    ensures var m := EffectiveMinimum(minRequired, totalAvailable, totalQuantity);
      var r := MinimumCheck(minRequired, totalAvailable, totalQuantity);
      && (r.Err? <==> totalQuantity < m.effective)
      && (r.Err? ==> r.error.MinimumNotMet? && r.error.message.shortfall == m.effective - totalQuantity > 0)
      && (r.Err? ==> Field(r.error) == "pack_size" && Code(r.error) == InsufficientStock)
      && (r.Err? ==> (r.error.message.CannotLeaveTooLittle? <==> m.insufficientRemaining))
  {
  }

  /** With a minimum that is not negative, an order is accepted exactly when it takes all
      the stock, or reaches the minimum and leaves at least a minimum's worth behind. */
  lemma AcceptedIff(minRequired: int, totalAvailable: int, totalQuantity: int)
    requires minRequired >= 0
    ensures MinimumCheck(minRequired, totalAvailable, totalQuantity).Ok? <==>
      totalQuantity >= totalAvailable
      || (totalQuantity >= minRequired && totalAvailable - totalQuantity >= minRequired)
  {
  }

  /** Ordering exactly all the stock always passes. */
  lemma AllAvailablePasses(moq: Option<int>, available: seq<int>, currentQuantity: int, packQuantity: int)
    requires currentQuantity + packQuantity == SumInts(available)
    ensures ValidateMinimumOrderQuantity(moq, available, currentQuantity, packQuantity).Ok?
  {
  }

  /** Without an MOQ there is no check. */
  lemma NoMinimumNoCheck(available: seq<int>, currentQuantity: int, packQuantity: int)
    ensures ValidateMinimumOrderQuantity(None, available, currentQuantity, packQuantity).Ok?
  {
  }

  /** An existing checkout line: its variant's product and its quantity. */
  datatype CheckoutLine = CheckoutLine(productId: int, quantity: int)

  /** Lines 196-203: the quantity of the product already in the checkout. */
  function CurrentQuantity(lines: seq<CheckoutLine>, productId: int): int {
    if lines == [] then 0
    else (if lines[0].productId == productId then lines[0].quantity else 0) + CurrentQuantity(lines[1..], productId)
  }

  lemma {:induction false} CurrentQuantityAppend(a: seq<CheckoutLine>, b: seq<CheckoutLine>, productId: int)
    ensures CurrentQuantity(a + b, productId) == CurrentQuantity(a, productId) + CurrentQuantity(b, productId)
  {
    if a == [] {
      assert a + b == b;
    } else {
      assert (a + b)[1..] == a[1..] + b;
      CurrentQuantityAppend(a[1..], b, productId);
    }
  }

  /** Only lines of the same product count: a line of another product changes nothing,
      a line of this product adds its quantity. */
  lemma CurrentQuantityCountsProduct(lines: seq<CheckoutLine>, line: CheckoutLine, productId: int)
    ensures CurrentQuantity(lines + [line], productId)
      == CurrentQuantity(lines, productId) + (if line.productId == productId then line.quantity else 0)
  {
    CurrentQuantityAppend(lines, [line], productId);
  }

  /** The generator expression of lines 198-202 as a loop. */
  method SumCurrentQuantity(lines: seq<CheckoutLine>, productId: int) returns (total: int)
    ensures total == CurrentQuantity(lines, productId)
  {
    total := 0;
    var i := 0;
    while i < |lines|
      invariant 0 <= i <= |lines|
      invariant total == CurrentQuantity(lines[..i], productId)
    {
      assert lines[..i + 1] == lines[..i] + [lines[i]];
      CurrentQuantityCountsProduct(lines[..i], lines[i], productId);
      if lines[i].productId == productId {
        total := total + lines[i].quantity;
      }
      i := i + 1;
    }
    assert lines[..i] == lines;
  }

  /** The MOQ attribute (slug `minimum-order-quantity`): the product types it is assigned to, and each
      product's value read as an integer (`int(value.name)`). */
  datatype MoqAttribute = MoqAttribute(productTypes: set<int>, values: map<int, int>)

  /** Lines 210-226: the MOQ of a product, if the attribute exists, is assigned to its
      product type and the product has a value. */
  function MoqOf(attribute: Option<MoqAttribute>, productId: int, productTypeId: int): (r: Option<int>)
    ensures r.Some? <==> attribute.Some? && productTypeId in attribute.value.productTypes && productId in attribute.value.values
    ensures r.Some? ==> r.value == attribute.value.values[productId]
  {
    if attribute.None? || productTypeId !in attribute.value.productTypes then None
    else if productId !in attribute.value.values then None
    else Some(attribute.value.values[productId])
  }

  /** Lines 229-233: availability for the MOQ check is read for the shipping address's
      country, or the channel's default country without one. */
  function CountryCode(shippingCountry: Option<string>, channelCountry: string): (c: string)
    ensures shippingCountry.Some? ==> c == shippingCountry.value
    ensures shippingCountry.None? ==> c == channelCountry
  {
    if shippingCountry.Some? then shippingCountry.value else channelCountry
  }

  /** A metadata entry. */
  datatype MetadataItem = MetadataItem(key: string, value: string)

  /** `CheckoutLineData` as built here: a new line, quantity to update, no custom price. */
  datatype LineData = LineData(
    variant: nat, quantity: int, quantityToUpdate: bool, lineId: Option<string>,
    customPrice: Option<real>, metadata: seq<MetadataItem>)

  function PackMetadata(packId: string, packSize: nat): seq<MetadataItem> {
    [MetadataItem("pack_id", packId), MetadataItem("pack_size", NatToStr(packSize)), MetadataItem("is_pack_item", "true")]
  }

  /** Lines 246-262: one line per allocated variant, in allocation order. */
  function PackLines(allocation: seq<Allocation>, packId: string, packSize: nat): (r: seq<LineData>)
    ensures |r| == |allocation|
    ensures forall i :: 0 <= i < |r| ==>
      r[i] == LineData(allocation[i].variant, allocation[i].quantity, true, None, None, PackMetadata(packId, packSize))
  {
    seq(|allocation|, i requires 0 <= i < |allocation| =>
      LineData(allocation[i].variant, allocation[i].quantity, true, None, None, PackMetadata(packId, packSize)))
  }

  /** The list-building loop. */
  method BuildPackLines(allocation: seq<Allocation>, packId: string, packSize: nat) returns (lines: seq<LineData>)
    ensures lines == PackLines(allocation, packId, packSize)
  {
    lines := [];
    var i := 0;
    while i < |allocation|
      invariant 0 <= i <= |allocation|
      invariant lines == PackLines(allocation[..i], packId, packSize)
    {
      var md := [MetadataItem("pack_id", packId), MetadataItem("pack_size", NatToStr(packSize)), MetadataItem("is_pack_item", "true")];
      lines := lines + [LineData(allocation[i].variant, allocation[i].quantity, true, None, None, md)];
      i := i + 1;
    }
    assert allocation[..i] == allocation;
  }

  function LineQuantities(lines: seq<LineData>): (q: seq<int>)
    ensures |q| == |lines| && forall i :: 0 <= i < |lines| ==> q[i] == lines[i].quantity
  {
    seq(|lines|, i requires 0 <= i < |lines| => lines[i].quantity)
  }

  /** The lines carry the whole pack: their quantities are the allocation's, and every
      line is tagged with the same pack id and the pack size. */
  lemma PackLinesCarryPack(allocation: seq<Allocation>, packId: string, packSize: nat)
    ensures LineQuantities(PackLines(allocation, packId, packSize)) == Quantities(allocation)
    ensures SumInts(LineQuantities(PackLines(allocation, packId, packSize))) == SumInts(Quantities(allocation))
    ensures forall i :: 0 <= i < |allocation| ==>
      MetadataItem("pack_id", packId) in PackLines(allocation, packId, packSize)[i].metadata
      && StrToNat(PackLines(allocation, packId, packSize)[i].metadata[1].value) == packSize
  {
    StrToNatOfNatToStr(packSize);
  }

  /** What the mutation reads: the variants' availability for the pack (channel default
      country) and for the MOQ check (by country), the checkout's lines and the MOQ. */
  datatype PackRequest = PackRequest(
    productId: int, productTypeId: int, packSize: int, packId: string,
    packAvailability: seq<int>, availabilityFor: string -> seq<int>,
    lines: seq<CheckoutLine>, shippingCountry: Option<string>, channelCountry: string,
    moqAttribute: Option<MoqAttribute>)

  /** Lines 160-269 up to `add_variants_to_checkout`: the lines to add, or the first error. */
  function AddPack(q: PackRequest): (r: Result<seq<LineData>, AddPackError>)
    ensures q.packSize <= 0 ==> r == Err(InvalidPackSize)
  {
    if ValidatePackSize(q.packSize).Err? then Err(InvalidPackSize)
    else
      var allocation := PackFor(q.packAvailability, q.packSize);
      if allocation == [] then Err(NoVariantsAvailable)
      else
        var currentQty := CurrentQuantity(q.lines, q.productId);
        var packQty := SumInts(Quantities(allocation));
        var moq := MoqOf(q.moqAttribute, q.productId, q.productTypeId);
        var available := q.availabilityFor(CountryCode(q.shippingCountry, q.channelCountry));
        var check := ValidateMinimumOrderQuantity(moq, available, currentQty, packQty);
        if check.Err? then Err(check.error)
        else Ok(PackLines(allocation, q.packId, q.packSize))
  }

  /** Line 203: `pack_qty`. */
  method SumPackQuantity(allocation: seq<Allocation>) returns (packQty: int)
    ensures packQty == SumInts(Quantities(allocation))
  {
    packQty := 0;
    var i := 0;
    while i < |allocation|
      invariant 0 <= i <= |allocation|
      invariant packQty == SumInts(Quantities(allocation[..i]))
    {
      assert Quantities(allocation[..i + 1]) == Quantities(allocation[..i]) + [allocation[i].quantity];
      SumAppend(Quantities(allocation[..i]), [allocation[i].quantity]);
      packQty := packQty + allocation[i].quantity;
      i := i + 1;
    }
    assert allocation[..i] == allocation;
  }

  /** `perform_mutation`, up to handing the lines to `add_variants_to_checkout`. */
  method PerformMutation(q: PackRequest) returns (r: Result<seq<LineData>, AddPackError>)
    ensures r == AddPack(q)
  {
    if q.packSize <= 0 {
      return Err(InvalidPackSize);
    }
    var allocation := GetPackForProduct(q.packAvailability, q.packSize);
    if allocation == [] {
      return Err(NoVariantsAvailable);
    }
    var currentQty := SumCurrentQuantity(q.lines, q.productId);
    var packQty := SumPackQuantity(allocation);
    var moq := MoqOf(q.moqAttribute, q.productId, q.productTypeId);
    var countryCode := if q.shippingCountry.Some? then q.shippingCountry.value else q.channelCountry;
    var check := ValidateMinimumOrderQuantityLoop(moq, q.availabilityFor(countryCode), currentQty, packQty);
    assert countryCode == CountryCode(q.shippingCountry, q.channelCountry);
    assert AddPack(q) == if check.Err? then Err(check.error) else Ok(PackLines(allocation, q.packId, q.packSize));
    if check.Err? {
      return Err(check.error);
    }
    var lines := BuildPackLines(allocation, q.packId, q.packSize);
    return Ok(lines);
  }

  /** The outcomes: an invalid size first, then no stock, then the MOQ. */
  lemma AddPackErrors(q: PackRequest)
    ensures var r := AddPack(q);
      && (r == Err(InvalidPackSize) <==> q.packSize <= 0)
      && (r == Err(NoVariantsAvailable) <==> q.packSize > 0 && PackFor(q.packAvailability, q.packSize) == [])
      && (r.Err? && r.error.MinimumNotMet? ==> q.packSize > 0 && PackFor(q.packAvailability, q.packSize) != [])
  {
    if q.packSize > 0 {
      var allocation := PackFor(q.packAvailability, q.packSize);
      if allocation != [] {
        var check := ValidateMinimumOrderQuantity(MoqOf(q.moqAttribute, q.productId, q.productTypeId),
          q.availabilityFor(CountryCode(q.shippingCountry, q.channelCountry)),
          CurrentQuantity(q.lines, q.productId), SumInts(Quantities(allocation)));
        assert AddPack(q) == if check.Err? then Err(check.error) else Ok(PackLines(allocation, q.packId, q.packSize));
        assert AddPack(q).Ok? || AddPack(q).error.MinimumNotMet?;
      } else {
        assert AddPack(q) == Err(NoVariantsAvailable);
      }
    }
  }

  /** Accepted lines hold exactly the pack of the positive size, up to the stock, one
      line per allocated variant. */
  lemma AddPackLines(q: PackRequest)
    requires AddPack(q).Ok?
    ensures q.packSize > 0
    ensures SumInts(LineQuantities(AddPack(q).value)) == Min(q.packSize, SumInts(Stocks(InStock(q.packAvailability))))
    ensures |AddPack(q).value| == |PackFor(q.packAvailability, q.packSize)|
  {
    var allocation := PackFor(q.packAvailability, q.packSize);
    assert AddPack(q).value == PackLines(allocation, q.packId, q.packSize);
    PackLinesCarryPack(allocation, q.packId, q.packSize);
    PackTotal(q.packAvailability, q.packSize);
  }
}
