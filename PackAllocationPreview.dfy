/** saleor/graphql/checkout/resolvers.py, `resolve_get_pack_allocation`: a preview of the
    pack the mutation would add, with the same minimum order quantity (MOQ) rule, reported
    as a shortfall and a `can_add` flag instead of an error. The effective minimum is the
    rule of checkout_add_pack.py, written out a second time in the resolver. */
module PackAllocationPreview {
  import opened Wrappers
  import opened Sums
  import opened PackUtils
  import opened PackProperties
  import opened CheckoutAddPack

  /** The two wordings of the preview's message. */
  datatype PreviewMessage =
    | MustTakeAll(minRequired: int, shortfall: int, totalAvailable: int)
    | AddMore(shortfall: int, effectiveMinimum: int)

  /** The `PackAllocation` result. */
  datatype PackAllocation = PackAllocation(
    allocation: seq<Allocation>, canAdd: bool, currentQuantity: int, packQuantity: int,
    totalQuantity: int, minimumRequired: Option<int>, effectiveMinimum: Option<int>,
    shortfall: int, message: Option<PreviewMessage>)

  /** The MOQ part of the preview: its minimum, effective minimum, shortfall, flag and
      message. */
  datatype MoqVerdict = MoqVerdict(
    minimumRequired: Option<int>, effectiveMinimum: Option<int>, shortfall: int,
    canAdd: bool, message: Option<PreviewMessage>)

  /** Lines 136-200, for the total stock of all variants. */
  function Verdict(moq: Option<int>, totalAvailable: int, totalQuantity: int): (v: MoqVerdict)
    ensures moq.None? ==> v == MoqVerdict(None, None, 0, true, None)
    ensures v.shortfall >= 0 && (v.canAdd <==> v.shortfall == 0)
    ensures v.canAdd <==> v.message.None?
  {
    if moq.None? then MoqVerdict(None, None, 0, true, None)
    else
      var m := EffectiveMinimum(moq.value, totalAvailable, totalQuantity);
      var shortfall := Max(0, m.effective - totalQuantity);
      var canAdd := shortfall == 0;
      var message :=
        if canAdd then None
        else if m.insufficientRemaining then Some(MustTakeAll(moq.value, shortfall, totalAvailable))
        else Some(AddMore(shortfall, m.effective));
      MoqVerdict(moq, Some(m.effective), shortfall, canAdd, message)
  }

  /** What the resolver reads: the variants' availability for the channel's default
      country, the lines of the checkout when one is given, and the MOQ attribute. */
  datatype PreviewRequest = PreviewRequest(
    productId: int, productTypeId: int, packSize: int, availability: seq<int>,
    checkoutLines: Option<seq<CheckoutLine>>, moqAttribute: Option<MoqAttribute>)

  /** Lines 120-133: the product's quantity in the checkout, 0 without one. */
  function CheckoutQuantity(lines: Option<seq<CheckoutLine>>, productId: int): (n: int)
    ensures lines.None? ==> n == 0
    ensures lines.Some? ==> n == CurrentQuantity(lines.value, productId)
  {
    if lines.Some? then CurrentQuantity(lines.value, productId) else 0
  }

  /** `resolve_get_pack_allocation` on values. */
  function Preview(q: PreviewRequest): (r: PackAllocation)
    ensures r.totalQuantity == r.currentQuantity + r.packQuantity
    ensures r.packQuantity == SumInts(Quantities(r.allocation))
    ensures q.checkoutLines.None? ==> r.currentQuantity == 0
  {
    PreviewOf(q, FairPack(q.availability, q.packSize))
  }

  /** The preview for a given pack allocation. */
  function PreviewOf(q: PreviewRequest, allocation: seq<Allocation>): (r: PackAllocation)
    ensures r.allocation == allocation
    ensures r.totalQuantity == r.currentQuantity + r.packQuantity
    ensures r.packQuantity == SumInts(Quantities(allocation))
    ensures q.checkoutLines.None? ==> r.currentQuantity == 0
  {
    var packQty := SumInts(Quantities(allocation));
    var currentQty := CheckoutQuantity(q.checkoutLines, q.productId);
    var moq := MoqOf(q.moqAttribute, q.productId, q.productTypeId);
    Assemble(allocation, currentQty, packQty, Verdict(moq, SumInts(q.availability), currentQty + packQty))
  }

  /** The `PackAllocation` record of an allocation, the two quantities and the verdict. */
  function Assemble(allocation: seq<Allocation>, currentQty: int, packQty: int, v: MoqVerdict): PackAllocation {
    PackAllocation(allocation, v.canAdd, currentQty, packQty, currentQty + packQty,
      v.minimumRequired, v.effectiveMinimum, v.shortfall, v.message)
  }

  /** The resolver with its loops: the pack, then the preview of it. */
  method ResolveGetPackAllocation(q: PreviewRequest) returns (r: PackAllocation)
    ensures r == Preview(q)
  {
    var allocation := PreviewPack(q.availability, q.packSize);
    r := PreviewFor(q, allocation);
  }

  /** Lines 118-205: the pack's quantity, the checkout's lines, the stock and the verdict. */
  method PreviewFor(q: PreviewRequest, allocation: seq<Allocation>) returns (r: PackAllocation)
    ensures r == PreviewOf(q, allocation)
  {
    var packQty := SumPackQuantity(allocation);
    var currentQty := PreviewCurrentQuantity(q.checkoutLines, q.productId);
    var moq := MoqOf(q.moqAttribute, q.productId, q.productTypeId);
    var v := VerdictFor(moq, q.availability, currentQty + packQty);
    r := Assemble(allocation, currentQty, packQty, v);
  }

  method PreviewCurrentQuantity(lines: Option<seq<CheckoutLine>>, productId: int) returns (n: int)
    ensures n == CheckoutQuantity(lines, productId)
  {
    n := 0;
    if lines.Some? {
      n := SumCurrentQuantity(lines.value, productId);
    }
  }

  /** Line 117: `get_pack_for_product`, with a pack size that is not positive asking for
      nothing. */
  method PreviewPack(avail: seq<int>, packSize: int) returns (allocation: seq<Allocation>)
    ensures allocation == FairPack(avail, packSize)
  {
    allocation := [];
    if packSize > 0 {
      allocation := GetPackForProduct(avail, packSize);
    }
  }

  /** Lines 136-200: nothing without an MOQ, otherwise the stock loop and the verdict. */
  method VerdictFor(moq: Option<int>, available: seq<int>, totalQty: int) returns (v: MoqVerdict)
    ensures v == Verdict(moq, SumInts(available), totalQty)
  {
    if moq.None? {
      return MoqVerdict(None, None, 0, true, None);
    }
    var totalAvailable := SumAvailable(available);
    v := VerdictOf(moq.value, totalAvailable, totalQty);
  }

  /** Lines 160-169: the stock of every variant added up. */
  method SumAvailable(available: seq<int>) returns (total: int)
    ensures total == SumInts(available)
  {
    total := 0;
    var i := 0;
    while i < |available|
      invariant 0 <= i <= |available|
      invariant total == SumInts(available[..i])
    {
      SumAppend(available[..i], [available[i]]);
      assert available[..i + 1] == available[..i] + [available[i]];
      total := total + available[i];
      i := i + 1;
    }
    assert available[..i] == available;
  }

  /** Lines 171-200 step by step, for a known MOQ. */
  method VerdictOf(minRequired: int, totalAvailable: int, totalQty: int) returns (v: MoqVerdict)
    ensures v == Verdict(Some(minRequired), totalAvailable, totalQty)
  {
    var remainingAfterOrder := totalAvailable - totalQty;
    var effectiveMinimum: int;
    var insufficientRemaining: bool;
    if totalAvailable < minRequired {
      effectiveMinimum, insufficientRemaining := totalAvailable, false;
    } else if remainingAfterOrder > 0 && remainingAfterOrder < minRequired {
      effectiveMinimum, insufficientRemaining := totalAvailable, true;
    } else {
      effectiveMinimum, insufficientRemaining := minRequired, false;
    }
    var shortfall := if 0 >= effectiveMinimum - totalQty then 0 else effectiveMinimum - totalQty;
    var canAdd := shortfall == 0;
    var message: Option<PreviewMessage> := None;
    if !canAdd {
      if insufficientRemaining {
        message := Some(MustTakeAll(minRequired, shortfall, totalAvailable));
      } else {
        message := Some(AddMore(shortfall, effectiveMinimum));
      }
    }
    return MoqVerdict(Some(minRequired), Some(effectiveMinimum), shortfall, canAdd, message);
  }

  /** The preview says yes exactly when the mutation's check passes, and its shortfall is
      the one the mutation's error reports. */
  lemma PreviewAgreesWithCheck(minRequired: int, totalAvailable: int, totalQuantity: int)
    ensures var v := Verdict(Some(minRequired), totalAvailable, totalQuantity);
      var c := MinimumCheck(minRequired, totalAvailable, totalQuantity);
      && (v.canAdd <==> c.Ok?)
      && (c.Err? ==> c.error.MinimumNotMet? && v.shortfall == c.error.message.shortfall)
      && (c.Err? ==> (v.message.value.MustTakeAll? <==> c.error.message.CannotLeaveTooLittle?))
      && v.effectiveMinimum == Some(EffectiveMinimum(minRequired, totalAvailable, totalQuantity).effective)
  {
  }

  /** Without an MOQ the preview always allows the pack and reports no minimum. */
  lemma NoMinimumPreview(q: PreviewRequest)
    requires MoqOf(q.moqAttribute, q.productId, q.productTypeId).None?
    ensures var r := Preview(q);
      r.canAdd && r.minimumRequired.None? && r.effectiveMinimum.None? && r.shortfall == 0 && r.message.None?
  {
  }

  /** The worked examples of the preview: 11 in stock with an MOQ of 10 and an order of
      10 must take all 11; from 38, an order of 28 leaves 10 and passes, one of 29 leaves
      9 and must take all 38. */
  lemma PreviewExamples()
    ensures Verdict(Some(10), 11, 10) == MoqVerdict(Some(10), Some(11), 1, false, Some(MustTakeAll(10, 1, 11)))
    ensures Verdict(Some(10), 38, 28) == MoqVerdict(Some(10), Some(10), 0, true, None)
    ensures Verdict(Some(10), 38, 29) == MoqVerdict(Some(10), Some(38), 9, false, Some(MustTakeAll(10, 9, 38)))
    ensures Verdict(Some(20), 100, 10) == MoqVerdict(Some(20), Some(20), 10, false, Some(AddMore(10, 20)))
  {
  }

  /** With a checkout, its lines of the product count towards the minimum; a pack size
      that is not positive previews an empty pack. */
  lemma PreviewCounts(q: PreviewRequest)
    ensures q.checkoutLines.Some? ==> Preview(q).currentQuantity == CurrentQuantity(q.checkoutLines.value, q.productId)
    ensures q.packSize <= 0 ==> Preview(q).allocation == [] && Preview(q).packQuantity == 0
    ensures q.packSize > 0 ==> Preview(q).allocation == PackFor(q.availability, q.packSize)
  {
  }
}
