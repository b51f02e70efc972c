/** saleor/account/vat_utils.py: an order is VAT exempt (reverse charge) when its billing
    address carries a non-blank `vat_number` in its metadata. */
module VatUtils {
  import opened Wrappers
  import opened Text

  /** The part of a billing address read here: its metadata. */
  datatype BillingAddress = BillingAddress(metadata: map<string, string>)

  const VatNumberKey: string := "vat_number"

  /** `should_apply_vat_exemption`. */
  function ShouldApplyVatExemption(address: Option<BillingAddress>): (r: bool)
    ensures r <==> address.Some? && VatNumberKey in address.value.metadata && !IsBlank(address.value.metadata[VatNumberKey])
  {
    if address.None? then false
    else if VatNumberKey !in address.value.metadata then false
    else
      var vatNumber := address.value.metadata[VatNumberKey];
      StripEmptyIffBlank(vatNumber);
      !(vatNumber == [] || Strip(vatNumber) == [])
  }

  /** The decision reads nothing but the `vat_number` entry: two addresses that agree on
      it get the same answer, whatever else their metadata holds. */
  lemma OnlyVatNumberMatters(a: BillingAddress, b: BillingAddress)
    requires (VatNumberKey in a.metadata) == (VatNumberKey in b.metadata)
    requires VatNumberKey in a.metadata ==> a.metadata[VatNumberKey] == b.metadata[VatNumberKey]
    ensures ShouldApplyVatExemption(Some(a)) == ShouldApplyVatExemption(Some(b))
  {
  }

  /** The cases: no address, no key, an empty or whitespace-only number give no
      exemption; any number with a non-space character gives it. */
  lemma ExemptionCases(a: BillingAddress, v: string, i: int)
    ensures !ShouldApplyVatExemption(None)
    ensures !ShouldApplyVatExemption(Some(BillingAddress(map[])))
    ensures !ShouldApplyVatExemption(Some(BillingAddress(map[VatNumberKey := ""])))
    ensures !ShouldApplyVatExemption(Some(BillingAddress(map[VatNumberKey := "   "])))
    ensures 0 <= i < |v| && !IsSpace(v[i]) ==> ShouldApplyVatExemption(Some(a.(metadata := a.metadata[VatNumberKey := v])))
  {
    assert !IsBlank(v) <== 0 <= i < |v| && !IsSpace(v[i]);
  }
}
