/** saleor/product/management/commands/update_availabilities.py: the `update_availabilities`
    command reads Code, Brand and Sizes from a sheet, matches each row to an existing
    product by (code, brand), and OVERWRITES the stock of the product's existing variants
    in one warehouse with the sheet's quantities. Sizes without a variant are skipped and
    counted; no variant or product is created. The sheet, the prompts and the output are
    not part of this model: rows come in as cells, the answers are taken as given. */
module UpdateAvailabilities {
  import opened Wrappers
  import opened Text
  import opened WarehouseRecords
  import opened SizeQty

  /** The command's own `ProductData`: code, title-cased brand, sizes and quantities. */
  datatype Row = Row(code: string, brand: string, sizes: seq<string>, qty: seq<nat>)

  /** `_process_row`. A cell is its text, or `None` when blank. A row without a code, without
      a brand, or whose sizes cell gives no sizes is skipped (`Ok(None)`); a sizes cell with
      text but no `size[qty]` entry raises, which ends the command. */
  function ProcessRow(code: Option<string>, brand: Option<string>, sizes: Option<string>):
    Result<Option<Row>, SizeQtyUnparseable>
  {
    KeepRow(CellText(code), Title(CellText(brand)), CellText(sizes))
  }

  /** A cell's stripped text, empty when the cell is blank. */
  function CellText(cell: Option<string>): string {
    if cell.Some? then Strip(cell.value) else ""
  }

  /** `_process_row` once the cells are stripped and the brand is title-cased. */
  function KeepRow(c: string, b: string, s: string): Result<Option<Row>, SizeQtyUnparseable> {
    if c == [] || b == [] then Ok(None)
    else
      match ParseSizesAndQty(s)
      case Err(e) => Err(e)
      case Ok(parsed) => if parsed.0 == [] then Ok(None) else Ok(Some(Row(c, b, parsed.0, parsed.1)))
  }

  lemma KeepRowOutcome(c: string, b: string, s: string)
    ensures var r := KeepRow(c, Title(b), s);
      && (c == [] || b == [] ==> r == Ok(None))
      && (r.Err? <==> c != [] && b != [] && s != [] && Matches(s) == [])
      && (r.Ok? && r.value.Some? <==> c != [] && b != [] && Matches(s) != [])
      && (r.Ok? && r.value.Some? ==> (
            && r.value.value.code == c && r.value.value.brand == Title(b)
            && |r.value.value.sizes| == |r.value.value.qty| > 0
            && r.value.value.sizes == SizesOf(Matches(s)) && r.value.value.qty == QtysOf(Matches(s))))
  {
    if s == [] {
      assert Matches(s) == [];
    }
  }

  /** A row is kept exactly when its code and brand are not blank and its sizes cell holds
      at least one entry; the kept row carries the stripped code, the stripped and
      title-cased brand, and the parsed sizes with their quantities. */
  lemma ProcessRowOutcome(code: Option<string>, brand: Option<string>, sizes: Option<string>)
    ensures var c := if code.Some? then Strip(code.value) else "";
      var b := if brand.Some? then Strip(brand.value) else "";
      var s := if sizes.Some? then Strip(sizes.value) else "";
      var r := ProcessRow(code, brand, sizes);
      && (c == [] || b == [] ==> r == Ok(None))
      && (r.Err? <==> c != [] && b != [] && s != [] && Matches(s) == [])
      && (r.Ok? && r.value.Some? <==> c != [] && b != [] && Matches(s) != [])
      && (r.Ok? && r.value.Some? ==> (
            && r.value.value.code == c && r.value.value.brand == Title(b)
            && |r.value.value.sizes| == |r.value.value.qty| > 0
            && r.value.value.sizes == SizesOf(Matches(s)) && r.value.value.qty == QtysOf(Matches(s))))
  {
    KeepRowOutcome(CellText(code), CellText(brand), CellText(sizes));
  }

  /** `_match_products_by_code_and_brand`: rows whose (code, brand) the lookup knows, each
      distinct row once (the dictionary is keyed by the row), and the rest in sheet order. */
  function MatchRows(rows: seq<Row>, lookup: map<(string, string), int>): (r: (seq<(Row, int)>, seq<Row>))
    ensures forall i :: 0 <= i < |r.1| ==> (r.1[i].code, r.1[i].brand) !in lookup
    ensures forall i :: 0 <= i < |r.0| ==>
      (r.0[i].0.code, r.0[i].0.brand) in lookup && r.0[i].1 == lookup[(r.0[i].0.code, r.0[i].0.brand)]
    ensures forall i, j :: 0 <= i < j < |r.0| ==> r.0[i].0 != r.0[j].0
    ensures forall row :: row in rows <==> (exists i :: 0 <= i < |r.0| && r.0[i].0 == row) || row in r.1
  {
    if rows == [] then ([], [])
    else
      var prev := MatchRows(rows[..|rows| - 1], lookup);
      var row := rows[|rows| - 1];
      assert rows == rows[..|rows| - 1] + [row];
      if (row.code, row.brand) !in lookup then (prev.0, prev.1 + [row])
      else if exists i :: 0 <= i < |prev.0| && prev.0[i].0 == row then prev
      else
        var matched := prev.0 + [(row, lookup[(row.code, row.brand)])];
        assert matched[|prev.0|].0 == row;
        assert forall i :: 0 <= i < |prev.0| ==> matched[i] == prev.0[i];
        (matched, prev.1)
  }

  // Overwriting stock

  datatype Summary = Summary(productsUpdated: nat, variantsUpdated: nat, sizesSkipped: nat)

  /** The stock rows of the selected warehouse, by variant. */
  type Stocks = map<int, Stock>

  /** `zip(sizes, qty, strict=False)`. */
  function Pairs(row: Row): (r: seq<(string, nat)>)
    ensures |r| == Min(|row.sizes|, |row.qty|)
    ensures forall i :: 0 <= i < |r| ==> r[i] == (row.sizes[i], row.qty[i])
  {
    seq(Min(|row.sizes|, |row.qty|), i requires 0 <= i < Min(|row.sizes|, |row.qty|) => (row.sizes[i], row.qty[i]))
  }

  /** One size whose variant exists: its row is overwritten, or created, with the quantity. */
  function SetQuantity(stocks: Stocks, v: int, qty: int): Stocks {
    if v in stocks then stocks[v := stocks[v].(quantity := qty)] else stocks[v := Stock(qty, 0)]
  }

  /** The sizes of one product against its size-to-variant map: the stock afterwards, the
      sizes applied and the sizes skipped. */
  function ApplySizes(stocks: Stocks, variants: map<string, int>, pairs: seq<(string, nat)>): (Stocks, nat, nat) {
    if pairs == [] then (stocks, 0, 0)
    else
      var (s, applied, skipped) := ApplySizes(stocks, variants, pairs[..|pairs| - 1]);
      var (size, qty) := pairs[|pairs| - 1];
      if size in variants then (SetQuantity(s, variants[size], qty), applied + 1, skipped)
      else (s, applied, skipped + 1)
  }

  /** `_update_stock`. `variantsOf` is `get_size_to_variant_map` for each product. */
  function UpdateAll(stocks: Stocks, matched: seq<(Row, int)>, variantsOf: int -> map<string, int>): (Stocks, Summary) {
    if matched == [] then (stocks, Summary(0, 0, 0))
    else
      var (s, sum) := UpdateAll(stocks, matched[..|matched| - 1], variantsOf);
      var (row, p) := matched[|matched| - 1];
      var (s', applied, skipped) := ApplySizes(s, variantsOf(p), Pairs(row));
      (s', Summary(sum.productsUpdated + (if applied > 0 then 1 else 0),
                   sum.variantsUpdated + applied, sum.sizesSkipped + skipped))
  }

  /** Every size is counted once, as applied or as skipped, and a product's sizes are
      applied exactly when one of them has a variant. */
  lemma {:induction false} ApplySizesCounts(stocks: Stocks, variants: map<string, int>, pairs: seq<(string, nat)>)
    ensures var (_, applied, skipped) := ApplySizes(stocks, variants, pairs);
      && applied + skipped == |pairs|
      && (applied > 0 <==> exists i :: 0 <= i < |pairs| && pairs[i].0 in variants)
      && (skipped > 0 <==> exists i :: 0 <= i < |pairs| && pairs[i].0 !in variants)
  {
    if pairs != [] {
      var init := pairs[..|pairs| - 1];
      ApplySizesCounts(stocks, variants, init);
      assert forall i :: 0 <= i < |init| ==> init[i] == pairs[i];
    }
  }

  ghost predicate Injective(variants: map<string, int>) {
    forall a, b :: a in variants && b in variants && a != b ==> variants[a] != variants[b]
  }

  ghost predicate DistinctNames(pairs: seq<(string, nat)>) {
    forall i, j :: 0 <= i < j < |pairs| ==> pairs[i].0 != pairs[j].0
  }

  /** Only the variants of the listed sizes change, and no stock row disappears. */
  lemma {:induction false} ApplySizesFrame(stocks: Stocks, variants: map<string, int>, pairs: seq<(string, nat)>)
    ensures var r := ApplySizes(stocks, variants, pairs).0;
      && stocks.Keys <= r.Keys
      && (forall v :: v in r && (forall i :: 0 <= i < |pairs| && pairs[i].0 in variants ==> variants[pairs[i].0] != v)
            ==> v in stocks && r[v] == stocks[v])
  {
    if pairs != [] {
      ApplySizesFrame(stocks, variants, pairs[..|pairs| - 1]);
    }
  }

  /** The stock of each listed size with a variant is overwritten with the sheet quantity,
      not added to; its allocations are kept, or 0 for a row the command creates. */
  lemma {:induction false} ApplySizesAt(stocks: Stocks, variants: map<string, int>, pairs: seq<(string, nat)>, i: int)
    requires Injective(variants) && DistinctNames(pairs)
    requires 0 <= i < |pairs| && pairs[i].0 in variants
    ensures var r := ApplySizes(stocks, variants, pairs).0;
      var v := variants[pairs[i].0];
      && v in r && r[v].quantity == pairs[i].1
      && r[v].quantityAllocated == (if v in stocks then stocks[v].quantityAllocated else 0)
  {
    var init := pairs[..|pairs| - 1];
    var n := |pairs| - 1;
    if i < n {
      ApplySizesAt(stocks, variants, init, i);
      assert init[i] == pairs[i];
    } else {
      ApplySizesFrame(stocks, variants, init);
      var v := variants[pairs[n].0];
      forall j | 0 <= j < |init| && init[j].0 in variants ensures variants[init[j].0] != v {
        assert init[j] == pairs[j];
      }
    }
  }

  /** Applying the same sheet row twice leaves the stock as applying it once. */
  lemma ApplySizesIdempotent(stocks: Stocks, variants: map<string, int>, pairs: seq<(string, nat)>)
    requires Injective(variants) && DistinctNames(pairs)
    ensures var once := ApplySizes(stocks, variants, pairs).0;
      ApplySizes(once, variants, pairs).0 == once
  {
    var once := ApplySizes(stocks, variants, pairs).0;
    var twice := ApplySizes(once, variants, pairs).0;
    ApplySizesFrame(stocks, variants, pairs);
    ApplySizesFrame(once, variants, pairs);
    forall v | v in twice ensures v in once && twice[v] == once[v] {
      if i :| 0 <= i < |pairs| && pairs[i].0 in variants && variants[pairs[i].0] == v {
        ApplySizesAt(stocks, variants, pairs, i);
        ApplySizesAt(once, variants, pairs, i);
      }
    }
  }

  /** The summary: a product counts as updated exactly when one of its sizes was applied,
      so at most every matched product; every listed size is either a variant update or
      a skip. */
  lemma {:induction false} UpdateAllSummary(stocks: Stocks, matched: seq<(Row, int)>, variantsOf: int -> map<string, int>)
    ensures var sum := UpdateAll(stocks, matched, variantsOf).1;
      && sum.productsUpdated <= |matched|
      && sum.variantsUpdated + sum.sizesSkipped == SizeCount(matched)
      && sum.productsUpdated == UpdatedCount(matched, variantsOf)
  {
    if matched != [] {
      var init := matched[..|matched| - 1];
      var (row, p) := matched[|matched| - 1];
      UpdateAllSummary(stocks, init, variantsOf);
      ApplySizesCounts(UpdateAll(stocks, init, variantsOf).0, variantsOf(p), Pairs(row));
    }
  }

  function SizeCount(matched: seq<(Row, int)>): nat {
    if matched == [] then 0 else SizeCount(matched[..|matched| - 1]) + |Pairs(matched[|matched| - 1].0)|
  }

  /** The matched products with a size whose variant exists. */
  function UpdatedCount(matched: seq<(Row, int)>, variantsOf: int -> map<string, int>): nat {
    if matched == [] then 0
    else
      var (row, p) := matched[|matched| - 1];
      var pairs := Pairs(row);
      UpdatedCount(matched[..|matched| - 1], variantsOf)
        + (if exists i :: 0 <= i < |pairs| && pairs[i].0 in variantsOf(p) then 1 else 0)
  }

  /** The loop over one product's sizes. */
  method ApplySizesLoop(stocks: Stocks, variants: map<string, int>, pairs: seq<(string, nat)>)
    returns (r: Stocks, applied: nat, skipped: nat)
    ensures (r, applied, skipped) == ApplySizes(stocks, variants, pairs)
  {
    r, applied, skipped := stocks, 0, 0;
    for i := 0 to |pairs|
      invariant (r, applied, skipped) == ApplySizes(stocks, variants, pairs[..i])
    {
      assert pairs[..i + 1][..i] == pairs[..i];
      var (size, qty) := pairs[i];
      if size in variants {
        var v := variants[size];
        if v in r {
          r := r[v := r[v].(quantity := qty)];
        } else {
          r := r[v := Stock(qty, 0)];
        }
        applied := applied + 1;
      } else {
        skipped := skipped + 1;
      }
    }
    assert pairs[..|pairs|] == pairs;
  }

  lemma UpdateAllStep(stocks: Stocks, matched: seq<(Row, int)>, variantsOf: int -> map<string, int>, k: int)
    requires 0 <= k < |matched|
    ensures var prev := UpdateAll(stocks, matched[..k], variantsOf);
      var step := ApplySizes(prev.0, variantsOf(matched[k].1), Pairs(matched[k].0));
      UpdateAll(stocks, matched[..k + 1], variantsOf)
        == (step.0, Summary(prev.1.productsUpdated + (if step.1 > 0 then 1 else 0),
                            prev.1.variantsUpdated + step.1, prev.1.sizesSkipped + step.2))
  {
    assert matched[..k + 1][..k] == matched[..k];
  }

  /** `_update_stock` with its loops over the products and their sizes. */
  method UpdateStock(stocks: Stocks, matched: seq<(Row, int)>, variantsOf: int -> map<string, int>)
    returns (r: Stocks, summary: Summary)
    ensures (r, summary) == UpdateAll(stocks, matched, variantsOf)
  {
    r := stocks;
    var productsUpdated: nat, variantsUpdated: nat, sizesSkipped: nat := 0, 0, 0;
    for k := 0 to |matched|
      invariant r == UpdateAll(stocks, matched[..k], variantsOf).0
      invariant Summary(productsUpdated, variantsUpdated, sizesSkipped) == UpdateAll(stocks, matched[..k], variantsOf).1
    {
      UpdateAllStep(stocks, matched, variantsOf, k);
      var applied, skipped;
      r, applied, skipped := ApplySizesLoop(r, variantsOf(matched[k].1), Pairs(matched[k].0));
      productsUpdated, variantsUpdated, sizesSkipped :=
        productsUpdated + (if applied > 0 then 1 else 0), variantsUpdated + applied, sizesSkipped + skipped;
    }
    assert matched[..|matched|] == matched;
    summary := Summary(productsUpdated, variantsUpdated, sizesSkipped);
  }
}
