/** saleor/account/vat_validation.py: VAT numbers are normalized, and validated against
    the European Commission's VIES service through a cache keyed by country and number. A
    valid answer is cached for 24 hours and an invalid one for one hour; a failed request
    caches nothing and propagates. */
module VatValidation {
  import opened Wrappers
  import opened Text

  const CacheTtlValid: int := 60 * 60 * 24
  const CacheTtlInvalid: int := 60 * 60

  /** `normalize_vat_number`: stripped, upper-cased, spaces removed. */
  function NormalizeVatNumber(vat: string): (r: string)
    ensures forall i :: 0 <= i < |r| ==> r[i] != ' ' && !('a' <= r[i] <= 'z')
  {
    var u := Upper(Strip(vat));
    var r := RemoveChar(u, ' ');
    assert forall i :: 0 <= i < |r| ==> !('a' <= r[i] <= 'z') by {
      forall i | 0 <= i < |r|
        ensures !('a' <= r[i] <= 'z')
      {
        RemoveCharFrom(u, ' ', i);
        var j :| 0 <= j < |u| && u[j] == r[i];
        UpperCharNotLower(Strip(vat)[j]);
      }
    }
    r
  }

  lemma UpperCharNotLower(c: char)
    ensures !('a' <= UpperChar(c) <= 'z')
  {
  }

  /** Removing a character from a string with one more character at the end. */
  lemma {:induction false} RemoveCharSnoc(s: string, x: char, c: char)
    ensures RemoveChar(s + [x], c) == RemoveChar(s, c) + (if x == c then [] else [x])
  {
    if s != [] {
      assert (s + [x])[1..] == s[1..] + [x];
      RemoveCharSnoc(s[1..], x, c);
    }
  }

  /** Removing a character keeps a first and a last character that are not it. */
  lemma RemoveCharEnds(s: string, c: char)
    requires s != [] && s[0] != c && s[|s| - 1] != c
    ensures RemoveChar(s, c) != [] && RemoveChar(s, c)[0] == s[0]
    ensures RemoveChar(s, c)[|RemoveChar(s, c)| - 1] == s[|s| - 1]
  {
    var init := s[..|s| - 1];
    assert s == init + [s[|s| - 1]];
    RemoveCharSnoc(init, s[|s| - 1], c);
  }

  /** Removing a character only drops characters: every character left was in the input. */
  lemma {:induction false} RemoveCharFrom(s: string, c: char, i: int)
    requires 0 <= i < |RemoveChar(s, c)|
    ensures exists j :: 0 <= j < |s| && s[j] == RemoveChar(s, c)[i]
  {
    var head := if s[0] == c then [] else [s[0]];
    if i < |head| {
      assert RemoveChar(s, c)[i] == s[0];
    } else {
      assert RemoveChar(s, c)[i] == RemoveChar(s[1..], c)[i - |head|];
      RemoveCharFrom(s[1..], c, i - |head|);
      var j :| 0 <= j < |s[1..]| && s[1..][j] == RemoveChar(s[1..], c)[i - |head|];
      assert s[j + 1] == s[1..][j];
    }
  }

  lemma UpperCharSpace(c: char)
    ensures IsSpace(UpperChar(c)) == IsSpace(c)
  {
  }

  /** A normalized number neither starts nor ends with whitespace. */
  lemma NormalizedEnds(vat: string)
    ensures NormalizeVatNumber(vat) == []
      || (!IsSpace(NormalizeVatNumber(vat)[0]) && !IsSpace(NormalizeVatNumber(vat)[|NormalizeVatNumber(vat)| - 1]))
  {
    var s := Strip(vat);
    StripShape(vat);
    assert NormalizeVatNumber(vat) == RemoveChar(Upper(s), ' ');
    if s != [] {
      UpperEnds(s);
    } else {
      assert Upper(s) == [];
    }
  }

  /** Upper-casing and removing spaces keeps non-blank ends. */
  lemma UpperEnds(s: string)
    requires s != [] && !IsSpace(s[0]) && !IsSpace(s[|s| - 1])
    ensures RemoveChar(Upper(s), ' ') != []
    ensures !IsSpace(RemoveChar(Upper(s), ' ')[0])
    ensures !IsSpace(RemoveChar(Upper(s), ' ')[|RemoveChar(Upper(s), ' ')| - 1])
  {
    var u := Upper(s);
    UpperCharSpace(s[0]);
    UpperCharSpace(s[|s| - 1]);
    assert !IsSpace(u[0]) && !IsSpace(u[|u| - 1]);
    RemoveCharEnds(u, ' ');
  }

  lemma UpperFixed(n: string)
    requires forall i :: 0 <= i < |n| ==> !('a' <= n[i] <= 'z')
    ensures Upper(n) == n
  {
    assert forall i :: 0 <= i < |n| ==> Upper(n)[i] == n[i];
  }

  /** Normalizing twice is normalizing once. */
  lemma NormalizeIdempotent(vat: string)
    ensures NormalizeVatNumber(NormalizeVatNumber(vat)) == NormalizeVatNumber(vat)
  {
    var n := NormalizeVatNumber(vat);
    NormalizedEnds(vat);
    TrimLeftFixed(n);
    TrimRightFixed(n);
    assert Strip(n) == n;
    UpperFixed(n);
    RemoveCharAbsent(n, ' ');
    assert NormalizeVatNumber(n) == RemoveChar(Upper(Strip(n)), ' ');
  }

  /** `_get_cache_key`. */
  function CacheKey(vat: string, countryCode: string): string {
    "vat_validation:" + countryCode + ":" + vat
  }

  /** Keys of two-letter (equal-length) country codes identify the number and country. */
  lemma CacheKeyInjective(v1: string, c1: string, v2: string, c2: string)
    requires |c1| == |c2|
    requires CacheKey(v1, c1) == CacheKey(v2, c2)
    ensures v1 == v2 && c1 == c2
  {
    var p := "vat_validation:";
    assert CacheKey(v1, c1) == p + c1 + ":" + v1;
    assert c1 == CacheKey(v1, c1)[|p|..|p| + |c1|];
    assert c2 == CacheKey(v2, c2)[|p|..|p| + |c2|];
    assert v1 == CacheKey(v1, c1)[|p| + |c1| + 1..];
    assert v2 == CacheKey(v2, c2)[|p| + |c2| + 1..];
  }

  /** The result dict. */
  datatype VatResult = VatResult(valid: bool, name: string, address: string)

  /** The VIES JSON body: each key may be missing. */
  datatype ViesData = ViesData(valid: Option<bool>, name: Option<string>, address: Option<string>)

  /** `requests.Timeout` and any other `requests.RequestException`, both re-raised. */
  datatype RequestError = Timeout | RequestFailed

  /** The request's query parameters. */
  datatype ViesRequest = ViesRequest(countryCode: string, vatNumber: string)

  /** The VIES service, which is not part of this model: its answer to a request. */
  type Vies = ViesRequest -> Result<ViesData, RequestError>

  /** A cache entry: the result and its time to live in seconds. */
  datatype Entry = Entry(result: VatResult, ttl: int)

  /** The number sent: the country prefix removed when the number starts with it. */
  function ViesNumber(vat: string, countryCode: string): (r: string)
    ensures HasPrefix(vat, countryCode) ==> countryCode + r == vat
    ensures !HasPrefix(vat, countryCode) ==> r == vat
  {
    if |countryCode| <= |vat| && vat[..|countryCode|] == countryCode then vat[|countryCode|..] else vat
  }

  /** `data.get(...)` with its defaults. */
  function ResultOf(data: ViesData): VatResult {
    VatResult(
      if data.valid.Some? then data.valid.value else false,
      if data.name.Some? then data.name.value else "",
      if data.address.Some? then data.address.value else "")
  }

  function TtlFor(r: VatResult): int {
    if r.valid then CacheTtlValid else CacheTtlInvalid
  }

  /** What one call does: its outcome, the cache afterwards, and the request sent if any. */
  datatype Validation = Validation(outcome: Result<VatResult, RequestError>, cache: map<string, Entry>, request: Option<ViesRequest>)

  /** `validate_vat_vies` on values. */
  function ValidateVatVies(cache: map<string, Entry>, vat: string, countryCode: string, vies: Vies): Validation {
    var key := CacheKey(vat, countryCode);
    if key in cache then Validation(Ok(cache[key].result), cache, None)
    else
      var req := ViesRequest(countryCode, ViesNumber(vat, countryCode));
      var answer := vies(req);
      if answer.Err? then Validation(Err(answer.error), cache, Some(req))
      else
        var result := ResultOf(answer.value);
        Validation(Ok(result), cache[key := Entry(result, TtlFor(result))], Some(req))
  }

  /** The Django cache, a store shared by all callers. Expiry is the cache backend's. */
  class VatCache {
    var entries: map<string, Entry>

    constructor ()
      ensures entries == map[]
    {
      entries := map[];
    }

    /** `validate_vat_vies`: cache first, then the request, then the cache write. */
    method Validate(vat: string, countryCode: string, vies: Vies) returns (r: Result<VatResult, RequestError>, request: Option<ViesRequest>)
      modifies this
      ensures var v := ValidateVatVies(old(entries), vat, countryCode, vies);
        r == v.outcome && request == v.request && entries == v.cache
    {
      var key := CacheKey(vat, countryCode);
      if key in entries {
        return Ok(entries[key].result), None;
      }
      var vatNumber := vat;
      if |countryCode| <= |vat| && vat[..|countryCode|] == countryCode {
        vatNumber := vat[|countryCode|..];
      }
      var req := ViesRequest(countryCode, vatNumber);
      var answer := vies(req);
      if answer.Err? {
        return Err(answer.error), Some(req);
      }
      var result := ResultOf(answer.value);
      var ttl := if result.valid then CacheTtlValid else CacheTtlInvalid;
      entries := entries[key := Entry(result, ttl)];
      return Ok(result), Some(req);
    }
  }

  /** A cached result is returned as it is, with no request and no cache change. */
  lemma CacheHitSendsNothing(cache: map<string, Entry>, vat: string, countryCode: string, vies: Vies)
    requires CacheKey(vat, countryCode) in cache
    ensures ValidateVatVies(cache, vat, countryCode, vies)
      == Validation(Ok(cache[CacheKey(vat, countryCode)].result), cache, None)
  {
  }

  /** On a miss exactly one request is sent, for the country and the number without its
      country prefix. */
  lemma MissSendsPrefixStripped(cache: map<string, Entry>, vat: string, countryCode: string, vies: Vies)
    requires CacheKey(vat, countryCode) !in cache
    ensures var req := ValidateVatVies(cache, vat, countryCode, vies).request;
      && req.Some? && req.value.countryCode == countryCode
      && (HasPrefix(vat, countryCode) ==> countryCode + req.value.vatNumber == vat)
      && (!HasPrefix(vat, countryCode) ==> req.value.vatNumber == vat)
  {
  }

  /** A successful request caches its result under the key of the number as given, for
      24 hours when valid and one hour when not; a failed one caches nothing. */
  lemma MissCaching(cache: map<string, Entry>, vat: string, countryCode: string, vies: Vies)
    requires CacheKey(vat, countryCode) !in cache
    ensures var v := ValidateVatVies(cache, vat, countryCode, vies);
      && (v.outcome.Err? ==> v.cache == cache && v.outcome.error == vies(v.request.value).error)
      && (v.outcome.Ok? ==>
            && v.cache == cache[CacheKey(vat, countryCode) := Entry(v.outcome.value, if v.outcome.value.valid then 86400 else 3600)]
            && v.outcome.value == ResultOf(vies(v.request.value).value))
  {
  }

  /** After a successful call the same question is answered from the cache: no second
      request, the same result. */
  lemma SecondCallIsCached(cache: map<string, Entry>, vat: string, countryCode: string, vies: Vies, vies2: Vies)
    requires ValidateVatVies(cache, vat, countryCode, vies).outcome.Ok?
    ensures var v := ValidateVatVies(cache, vat, countryCode, vies);
      var w := ValidateVatVies(v.cache, vat, countryCode, vies2);
      w.request.None? && w.outcome == v.outcome && w.cache == v.cache
  {
  }
}
