/** saleor/product/price_list_parsing.py: the field parsers of a price-list sheet row.
    Every parser returns its value together with a list of errors, so that all the
    problems of a row are reported together; `parse_row` collects them and marks the
    row valid exactly when there are none. A cell is `None` when it is empty (NaN cells
    are turned into `None` before the row is parsed) or the text `str(value)` of what it
    holds. Decimals are `real`s; `Decimal(str(value))` is a parameter. */
module PriceListParsing {
  import opened Wrappers
  import opened Text
  import opened SizeQty
  import opened UrlParse

  type Cell = Option<string>

  /** `Decimal(text)`: the value, or `None` when the text is not a number or is not
      finite (`InvalidOperation`, infinities and NaN). Python's `decimal` module is not
      part of this model. */
  type DecimalParser = string -> Option<real>

  /** The messages a parser can report; each names its field the way the message does. */
  datatype FieldError =
    | Required(field: string)
    | ContainsSpaces
    | UnknownCategory(category: string)
    | NotANumber(field: string, text: string)
    | Negative(field: string)
    | TooHeavy(kg: real)
    | UnsupportedDataUri(mime: string)
    | NotHttp
    | MissingHost
    | UnsupportedExtension(found: string)
    | WrongHsCodeLength(digits: nat, received: string)
    | SizesUnparseable(text: string)
    | InvalidUrl

  const ValidImageExtensions: set<string> :=
    {".jpg", ".jpeg", ".png", ".gif", ".webp", ".bmp", ".tiff", ".tif", ".avif"}

  const ValidImageMimeTypes: set<string> :=
    {"image/jpeg", "image/png", "image/gif", "image/webp", "image/bmp", "image/tiff", "image/avif"}

  /** UK commodity codes: 6 digits (HS), 8 digits (CN8 import) or 10 digits (export). */
  const ValidHsCodeLengths: set<nat> := {6, 8, 10}

  /** `parse_optional_str`. */
  function OptionalStr(val: Cell): (s: string)
    ensures val.None? ==> s == []
    ensures val.Some? ==> s == Strip(val.value)
  {
    if val.None? then [] else Strip(val.value)
  }

  /** `parse_required_str`: the trimmed text, and a "required" error exactly when that
      text is empty, in which case the value is empty. */
  function RequiredStr(val: Cell, field: string): (r: (string, seq<FieldError>))
    ensures r.0 == OptionalStr(val)
    ensures r.1 != [] <==> r.0 == []
    ensures r.1 != [] ==> r.1 == [Required(field)]
  {
    var s := OptionalStr(val);
    if s == [] then ([], [Required(field)]) else (s, [])
  }

  /** `parse_product_code`: lower-cased; a space left after trimming is an error. */
  function ProductCode(val: Cell): (r: (string, seq<FieldError>))
    ensures r.0 == Lower(OptionalStr(val))
    ensures r.1 == RequiredStr(val, "product_code").1
      + (if Contains(r.0, ' ') then [ContainsSpaces] else [])
  {
    var (s, errs) := RequiredStr(val, "product_code");
    var code := Lower(s);
    if code != [] && Contains(code, ' ') then (code, errs + [ContainsSpaces]) else (code, errs)
  }

  /** `parse_brand`: lower-cased, required. */
  function Brand(val: Cell): (r: (string, seq<FieldError>))
    ensures r.0 == Lower(OptionalStr(val))
    ensures r.1 == RequiredStr(val, "brand").1
  {
    var (s, errs) := RequiredStr(val, "brand");
    (Lower(s), errs)
  }

  /** `parse_category`: optional; checked against the known categories when they are
      given. */
  function Category(val: Cell, valid: Option<set<string>>): (r: (string, seq<FieldError>))
    ensures r.0 == OptionalStr(val)
    ensures r.1 != [] <==> r.0 != [] && valid.Some? && r.0 !in valid.value
    ensures r.1 != [] ==> r.1 == [UnknownCategory(r.0)]
  {
    var s := OptionalStr(val);
    if s != [] && valid.Some? && s !in valid.value then (s, [UnknownCategory(s)]) else (s, [])
  }

  /** `parse_decimal`: nothing and no error for an empty cell. */
  function Decimal(val: Cell, field: string, dec: DecimalParser): (r: (Option<real>, seq<FieldError>))
    ensures val.None? ==> r == (None, [])
    ensures val.Some? && dec(val.value).None? ==> r == (None, [NotANumber(field, val.value)])
    ensures val.Some? && dec(val.value).Some? ==> r == (dec(val.value), [])
  {
    if val.None? then (None, [])
    else
      var d := dec(val.value);
      if d.None? then (None, [NotANumber(field, val.value)]) else (d, [])
  }

  /** `parse_price`: a negative price is kept, with an error. */
  function Price(val: Cell, field: string, dec: DecimalParser): (r: (Option<real>, seq<FieldError>))
    ensures r.0 == Decimal(val, field, dec).0
    ensures r.1 == Decimal(val, field, dec).1
      + (if r.0.Some? && r.0.value < 0.0 then [Negative(field)] else [])
  {
    var (d, errs) := Decimal(val, field, dec);
    if d.Some? && d.value < 0.0 then (d, errs + [Negative(field)]) else (d, errs)
  }

  /** `parse_required_price`: "required" only when there is no value and no other error. */
  function RequiredPrice(val: Cell, field: string, dec: DecimalParser): (r: (Option<real>, seq<FieldError>))
    ensures r.0 == Price(val, field, dec).0
    ensures r.1 == if r.0.None? && Price(val, field, dec).1 == [] then [Required(field)]
      else Price(val, field, dec).1
  {
    var (d, errs) := Price(val, field, dec);
    if d.None? && errs == [] then (d, [Required(field)]) else (d, errs)
  }

  /** `parse_weight_kg`: negative weights and weights over 1000 kg are errors. */
  function WeightKg(val: Cell, dec: DecimalParser): (r: (Option<real>, seq<FieldError>))
    ensures r.0 == Decimal(val, "weight_kg", dec).0
    ensures r.1 == Decimal(val, "weight_kg", dec).1
      + (if r.0.Some? && r.0.value < 0.0 then [Negative("weight_kg")]
         else if r.0.Some? && r.0.value > 1000.0 then [TooHeavy(r.0.value)]
         else [])
  {
    var (d, errs) := Decimal(val, "weight_kg", dec);
    if d.Some? then
      if d.value < 0.0 then (d, errs + [Negative("weight_kg")])
      else if d.value > 1000.0 then (d, errs + [TooHeavy(d.value)])
      else (d, errs)
    else (d, errs)
  }

  /** The MIME type of a `data:` URI: between the prefix and the first `;`, within the
      header before the first `,`. */
  function DataUriMime(url: string): (mime: string)
    requires HasPrefix(url, "data:")
  {
    var header := FirstField(url, ',');
    assert |header| >= 5 by {
      assert url[..5] == "data:";
      assert forall i :: 0 <= i < 5 ==> url[i] != ',' by {
        forall i | 0 <= i < 5
          ensures url[i] != ','
        {
          assert url[i] == "data:"[i];
        }
      }
    }
    FirstField(header[5..], ';')
  }

  /** What the image URL check finds wrong with a non-empty URL that is not a data URI,
      as the source runs it: `urlparse` may raise. */
  function HttpUrlProblems(url: string): (r: Result<seq<FieldError>, InvalidIpv6Url>)
  {
    var parsed := UrlParse.UrlParse(url);
    if parsed.Err? then Err(parsed.error)
    else
      var u := parsed.value;
      if u.scheme != "http" && u.scheme != "https" then Ok([NotHttp])
      else if u.netloc == [] then Ok([MissingHost])
      else
        var ext := Extension(Lower(u.path));
        if ext !in ValidImageExtensions then Ok([UnsupportedExtension(if ext == [] then "(none)" else ext)])
        else Ok([])
  }

  /** `parse_image_url` as written: optional; a data URI needs an allowed MIME type; any
      other URL must be http or https, with a host and an allowed extension. The
      `ValueError` `urlparse` raises for an unbalanced square bracket in the host is not
      caught, so it escapes the row (see `ImageUrl` for the parser that reports it). The
      `except` around the data URI split is never reached: splitting cannot fail. */
  function ImageUrlAsWritten(val: Cell): (r: Result<(string, seq<FieldError>), InvalidIpv6Url>)
    ensures r.Ok? ==> r.value.0 == OptionalStr(val)
  {
    var url := OptionalStr(val);
    if url == [] then Ok((url, []))
    else if HasPrefix(url, "data:") then
      var mime := DataUriMime(url);
      if mime !in ValidImageMimeTypes then Ok((url, [UnsupportedDataUri(mime)])) else Ok((url, []))
    else
      var problems := HttpUrlProblems(url);
      if problems.Err? then Err(problems.error) else Ok((url, problems.value))
  }

  /** `parse_image_url` with the `urlparse` error reported like the other problems. */
  function ImageUrl(val: Cell): (r: (string, seq<FieldError>))
    ensures r.0 == OptionalStr(val)
    ensures ImageUrlAsWritten(val).Ok? ==> r == ImageUrlAsWritten(val).value
    ensures ImageUrlAsWritten(val).Err? ==> r.1 == [InvalidUrl]
  {
    var w := ImageUrlAsWritten(val);
    if w.Ok? then w.value else (OptionalStr(val), [InvalidUrl])
  }

  /** `re.sub(r"\D", "", s)`: the ASCII digits of `s`, in order. */
  function DigitsOf(s: string): (r: string)
    ensures AllDigits(r) && |r| <= |s|
  {
    if s == [] then [] else (if IsDigit(s[0]) then [s[0]] else []) + DigitsOf(s[1..])
  }

  /** `parse_hs_code`: separators dropped; 6, 8 or 10 digits give the digits, any other
      count keeps the trimmed text with one error. */
  function HsCode(val: Cell): (r: (string, seq<FieldError>))
    ensures OptionalStr(val) == [] ==> r == ([], [])
    ensures OptionalStr(val) != [] && |DigitsOf(OptionalStr(val))| in ValidHsCodeLengths ==>
      r == (DigitsOf(OptionalStr(val)), [])
    ensures OptionalStr(val) != [] && |DigitsOf(OptionalStr(val))| !in ValidHsCodeLengths ==>
      r == (OptionalStr(val), [WrongHsCodeLength(|DigitsOf(OptionalStr(val))|, OptionalStr(val))])
  {
    var s := OptionalStr(val);
    if s == [] then (s, [])
    else
      var digits := DigitsOf(s);
      if |digits| !in ValidHsCodeLengths then (s, [WrongHsCodeLength(|digits|, s)]) else (digits, [])
  }

  /** `dict(zip(sizes, qtys))`: a later size overrides an earlier equal one. */
  function ZipDict(sizes: seq<string>, qtys: seq<nat>): (m: map<string, nat>)
    requires |sizes| == |qtys|
    ensures m.Keys == set k | 0 <= k < |sizes| :: sizes[k]
    decreases |sizes|
  {
    if sizes == [] then map[]
    else ZipDict(sizes[..|sizes| - 1], qtys[..|qtys| - 1])[sizes[|sizes| - 1] := qtys[|qtys| - 1]]
  }

  /** `parse_sizes`: required, in the `size[qty]` notation. */
  function Sizes(val: Cell): (r: (map<string, nat>, seq<FieldError>))
    ensures OptionalStr(val) == [] ==> r == (map[], [Required("sizes")])
    ensures OptionalStr(val) != [] && ParseSizesAndQty(OptionalStr(val)).Err? ==>
      r == (map[], [SizesUnparseable(OptionalStr(val))])
    ensures r.1 == [] <==> OptionalStr(val) != [] && ParseSizesAndQty(OptionalStr(val)).Ok?
  {
    var s := OptionalStr(val);
    if s == [] then (map[], [Required("sizes")])
    else
      var p := ParseSizesAndQty(s);
      if p.Err? then (map[], [SizesUnparseable(s)])
      else (ZipDict(p.value.0, p.value.1), [])
  }

  /** The pre-normalised row: the cells by field name; a missing key reads as `None`. */
  type RawRow = map<string, string>

  function Get(raw: RawRow, field: string): Cell {
    if field in raw then Some(raw[field]) else None
  }

  datatype ParsedRow = ParsedRow(
    rowIndex: int, productCode: string, brand: string, description: string,
    category: string, sizesAndQty: map<string, nat>, rrp: Option<real>,
    sellPrice: Option<real>, buyPrice: Option<real>, weightKg: Option<real>,
    imageUrl: string, hsCode: string, currency: string, isValid: bool,
    validationErrors: seq<FieldError>)

  /** What each field parser returned for a row. */
  datatype RowFields = RowFields(
    productCode: (string, seq<FieldError>), brand: (string, seq<FieldError>),
    category: (string, seq<FieldError>), sizes: (map<string, nat>, seq<FieldError>),
    rrp: (Option<real>, seq<FieldError>), sellPrice: (Option<real>, seq<FieldError>),
    buyPrice: (Option<real>, seq<FieldError>), weightKg: (Option<real>, seq<FieldError>),
    imageUrl: (string, seq<FieldError>), hsCode: (string, seq<FieldError>))

  /** Lines of `parse_row` that call the field parsers, each on its own cell. */
  function ParseFields(raw: RawRow, valid: Option<set<string>>, dec: DecimalParser): RowFields {
    RowFields(
      ProductCode(Get(raw, "product_code")), Brand(Get(raw, "brand")),
      Category(Get(raw, "category"), valid), Sizes(Get(raw, "sizes")),
      Price(Get(raw, "rrp"), "rrp", dec), RequiredPrice(Get(raw, "sell_price"), "sell_price", dec),
      Price(Get(raw, "buy_price"), "buy_price", dec), WeightKg(Get(raw, "weight_kg"), dec),
      ImageUrl(Get(raw, "image_url")), HsCode(Get(raw, "hs_code")))
  }

  /** The errors of each field, in the order `parse_row` collects them. */
  function ErrorLists(f: RowFields): seq<seq<FieldError>> {
    [f.productCode.1, f.brand.1, f.category.1, f.sizes.1, f.rrp.1, f.sellPrice.1,
     f.buyPrice.1, f.weightKg.1, f.imageUrl.1, f.hsCode.1]
  }

  /** The row's list of errors, one field's after another. */
  function Collect(f: RowFields): seq<FieldError> {
    f.productCode.1 + f.brand.1 + f.category.1 + f.sizes.1 + f.rrp.1
      + f.sellPrice.1 + f.buyPrice.1 + f.weightKg.1 + f.imageUrl.1 + f.hsCode.1
  }

  /** `parse_row` on values. */
  function ParseRow(rowIndex: int, raw: RawRow, currency: string, valid: Option<set<string>>,
                    dec: DecimalParser): (r: ParsedRow)
    ensures r.rowIndex == rowIndex && r.currency == currency
    ensures r.description == OptionalStr(Get(raw, "description"))
  {
    var f := ParseFields(raw, valid, dec);
    var errors := Collect(f);
    ParsedRow(rowIndex, f.productCode.0, f.brand.0, OptionalStr(Get(raw, "description")),
      f.category.0, f.sizes.0, f.rrp.0, f.sellPrice.0, f.buyPrice.0, f.weightKg.0,
      f.imageUrl.0, f.hsCode.0, currency, |errors| == 0, errors)
  }

  /** `parse_row` as the source writes it: the errors of each field's parser appended to
      the row's list by `collect`, one field after another. */
  method ParseRowCollecting(rowIndex: int, raw: RawRow, currency: string, valid: Option<set<string>>,
                            dec: DecimalParser) returns (r: ParsedRow)
    ensures r == ParseRow(rowIndex, raw, currency, valid, dec)
  {
    var f := ParseFields(raw, valid, dec);
    var errors: seq<FieldError> := [];
    errors := errors + f.productCode.1;
    errors := errors + f.brand.1;
    errors := errors + f.category.1;
    errors := errors + f.sizes.1;
    errors := errors + f.rrp.1;
    errors := errors + f.sellPrice.1;
    errors := errors + f.buyPrice.1;
    errors := errors + f.weightKg.1;
    errors := errors + f.imageUrl.1;
    errors := errors + f.hsCode.1;
    assert [] + f.productCode.1 == f.productCode.1;
    assert errors == Collect(f);
    r := ParsedRow(rowIndex, f.productCode.0, f.brand.0, OptionalStr(Get(raw, "description")),
      f.category.0, f.sizes.0, f.rrp.0, f.sellPrice.0, f.buyPrice.0, f.weightKg.0, f.imageUrl.0, f.hsCode.0, currency,
      |errors| == 0, errors);
  }

  lemma CollectEmptyIff(f: RowFields)
    ensures Collect(f) == [] <==> forall k :: 0 <= k < |ErrorLists(f)| ==> ErrorLists(f)[k] == []
  {
    var l := ErrorLists(f);
    if forall k :: 0 <= k < |l| ==> l[k] == [] {
      assert l[0] == [] && l[1] == [] && l[2] == [] && l[3] == [] && l[4] == [];
      assert l[5] == [] && l[6] == [] && l[7] == [] && l[8] == [] && l[9] == [];
    }
  }

  /** A row is valid exactly when every one of its fields parsed without an error. */
  lemma RowValidIff(rowIndex: int, raw: RawRow, currency: string, valid: Option<set<string>>, dec: DecimalParser)
    ensures var r := ParseRow(rowIndex, raw, currency, valid, dec);
      var f := ErrorLists(ParseFields(raw, valid, dec));
      r.isValid <==> forall k :: 0 <= k < |f| ==> f[k] == []
  {
    CollectEmptyIff(ParseFields(raw, valid, dec));
  }

  lemma CollectHolds(f: RowFields, k: nat, e: FieldError)
    requires k < 10 && e in ErrorLists(f)[k]
    ensures e in Collect(f)
  {
  }

  /** Parsing does not stop at the first problem: every error of every field is reported
      in the row, and the row is then not valid. */
  lemma RowCollectsAll(rowIndex: int, raw: RawRow, currency: string, valid: Option<set<string>>,
                       dec: DecimalParser, k: nat, e: FieldError)
    requires k < 10 && e in ErrorLists(ParseFields(raw, valid, dec))[k]
    ensures e in ParseRow(rowIndex, raw, currency, valid, dec).validationErrors
    ensures !ParseRow(rowIndex, raw, currency, valid, dec).isValid
  {
    CollectHolds(ParseFields(raw, valid, dec), k, e);
  }

  /** The row's errors keep the fields' order: the errors of an earlier field come before
      those of a later one. */
  lemma RowErrorOrder(rowIndex: int, raw: RawRow, currency: string, valid: Option<set<string>>,
                      dec: DecimalParser)
    ensures var f := ParseFields(raw, valid, dec);
      var errs := ParseRow(rowIndex, raw, currency, valid, dec).validationErrors;
      && |f.productCode.1| <= |errs| && errs[..|f.productCode.1|] == f.productCode.1
      && |f.hsCode.1| <= |errs| && errs[|errs| - |f.hsCode.1|..] == f.hsCode.1
  {
    var f := ParseFields(raw, valid, dec);
    assert ParseRow(rowIndex, raw, currency, valid, dec).validationErrors == Collect(f);
    CollectEnds(f);
  }

  /** The collected errors start with the first field's and end with the last field's. */
  lemma CollectEnds(f: RowFields)
    ensures |f.productCode.1| <= |Collect(f)| && Collect(f)[..|f.productCode.1|] == f.productCode.1
    ensures |f.hsCode.1| <= |Collect(f)| && Collect(f)[|Collect(f)| - |f.hsCode.1|..] == f.hsCode.1
  {
    var middle := f.brand.1 + f.category.1 + f.sizes.1 + f.rrp.1
      + f.sellPrice.1 + f.buyPrice.1 + f.weightKg.1 + f.imageUrl.1;
    assert Collect(f) == f.productCode.1 + middle + f.hsCode.1;
  }

  /** An image URL whose host opens a square bracket without closing it makes `urlparse`
      raise: the parser as written does not return, the corrected one reports the URL as
      invalid. */
  lemma UnbalancedHostEscapes(host: string)
    requires |host| > 0 && host[0] == '['
    requires forall i :: 0 <= i < |host| ==> HostChar(host[i])
    ensures ImageUrlAsWritten(Some("http://" + host)).Err?
    ensures ImageUrl(Some("http://" + host)) == ("http://" + host, [InvalidUrl])
  {
    var url := "http://" + host;
    assert url[0] == 'h' && url[|url| - 1] == host[|host| - 1];
    TrimLeftFixed(url);
    TrimRightFixed(url);
    assert OptionalStr(Some(url)) == url;
    assert !HasPrefix(url, "data:");
    UnbalancedHostRaises(host);
  }

  /** Lower-casing keeps the spaces where they were, so the space check on the code is
      the same as one on the trimmed cell. */
  lemma ProductCodeValidIff(val: Cell)
    ensures ProductCode(val).1 == [] <==> OptionalStr(val) != [] && !Contains(OptionalStr(val), ' ')
  {
    var s := OptionalStr(val);
    var code := Lower(s);
    assert forall i :: 0 <= i < |s| ==> (code[i] == ' ' <==> s[i] == ' ');
    assert Contains(code, ' ') <==> Contains(s, ' ') by {
      if Contains(code, ' ') {
        var i :| 0 <= i < |code| && code[i] == ' ';
        assert s[i] == ' ';
      }
      if Contains(s, ' ') {
        var i :| 0 <= i < |s| && s[i] == ' ';
        assert code[i] == ' ';
      }
    }
  }

  /** A price is accepted exactly when the cell is empty or holds a number that is not
      negative. */
  lemma PriceValidIff(val: Cell, field: string, dec: DecimalParser)
    ensures Price(val, field, dec).1 == [] <==>
      val.None? || (dec(val.value).Some? && dec(val.value).value >= 0.0)
  {
  }

  /** A required price is accepted exactly when the cell holds a number that is not
      negative; a negative one keeps its value alongside the error. */
  lemma RequiredPriceValidIff(val: Cell, field: string, dec: DecimalParser)
    ensures RequiredPrice(val, field, dec).1 == [] <==>
      val.Some? && dec(val.value).Some? && dec(val.value).value >= 0.0
    ensures val.Some? && dec(val.value).Some? && dec(val.value).value < 0.0 ==>
      RequiredPrice(val, field, dec) == (dec(val.value), [Negative(field)])
  {
    if val.Some? && dec(val.value).Some? && dec(val.value).value < 0.0 {
      assert Decimal(val, field, dec).1 == [];
      assert [] + [Negative(field)] == [Negative(field)];
    }
  }

  /** A weight is accepted exactly when the cell is empty or holds a number from 0 to
      1000 kg, both ends included. */
  lemma WeightValidIff(val: Cell, dec: DecimalParser)
    ensures WeightKg(val, dec).1 == [] <==>
      val.None? || (dec(val.value).Some? && 0.0 <= dec(val.value).value <= 1000.0)
  {
  }

  lemma {:induction false} DigitsOfDigits(s: string)
    requires AllDigits(s)
    ensures DigitsOf(s) == s
  {
    if s != [] {
      DigitsOfDigits(s[1..]);
    }
  }

  lemma DigitNotSpace(c: char)
    requires IsDigit(c)
    ensures !IsSpace(c)
  {
  }

  lemma DigitsUnchangedByStrip(s: string)
    requires AllDigits(s)
    ensures Strip(s) == s
  {
    if s != [] {
      DigitNotSpace(s[0]);
      DigitNotSpace(s[|s| - 1]);
      TrimLeftFixed(s);
      TrimRightFixed(s);
      assert TrimRight(TrimLeft(s)) == s;
    }
  }

  /** Normalising an accepted HS code again changes nothing. */
  lemma HsCodeIdempotent(val: Cell)
    requires HsCode(val).1 == []
    ensures HsCode(Some(HsCode(val).0)) == HsCode(val)
  {
    var s := OptionalStr(val);
    if s != [] {
      var code := DigitsOf(s);
      assert |code| in ValidHsCodeLengths;
      assert HsCode(val) == (code, []);
      DigitsUnchangedByStrip(code);
      DigitsOfDigits(code);
    }
  }

  /** Each size maps to the quantity of its last occurrence. */
  lemma {:induction false} ZipDictLast(sizes: seq<string>, qtys: seq<nat>, j: nat)
    requires |sizes| == |qtys| && j < |sizes|
    requires forall k :: j < k < |sizes| ==> sizes[k] != sizes[j]
    ensures sizes[j] in ZipDict(sizes, qtys) && ZipDict(sizes, qtys)[sizes[j]] == qtys[j]
    decreases |sizes|
  {
    if j < |sizes| - 1 {
      ZipDictLast(sizes[..|sizes| - 1], qtys[..|qtys| - 1], j);
    }
  }
}
