/** saleor/product/ingestion.py, `deduplicate_products` and `_merge_products`: the rows of
    a sheet grouped by (brand, product code); a repeated key is an error when the
    configuration says so, and otherwise identical repeats collapse to the first row and
    differing ones merge. Afterwards two products whose names give the same slug are an
    error. `slugify` is a parameter. */
module IngestionDedup {
  import opened Wrappers
  import opened Grouping
  import opened IngestionData

  /** `zip(sizes, qty, strict=False)`: as many pairs as the shorter side has. */
  function Zip(p: ProductData): (r: seq<(string, int)>)
    ensures |r| == if |p.sizes| <= |p.qty| then |p.sizes| else |p.qty|
    ensures forall i :: 0 <= i < |r| ==> r[i] == (p.sizes[i], p.qty[i])
  {
    var n := if |p.sizes| <= |p.qty| then |p.sizes| else |p.qty|;
    seq(n, i requires 0 <= i < n => (p.sizes[i], p.qty[i]))
  }

  /** The (size, quantity) pairs of all the rows, row after row. */
  function Pairs(list: seq<ProductData>): seq<(string, int)> {
    if list == [] then [] else Pairs(list[..|list| - 1]) + Zip(list[|list| - 1])
  }

  function Size(pair: (string, int)): string { pair.0 }

  function SumQty(ps: seq<(string, int)>): int {
    if ps == [] then 0 else SumQty(ps[..|ps| - 1]) + ps[|ps| - 1].1
  }

  /** The accumulated quantity of a size, 0 for one never seen. */
  function Total(gs: map<string, seq<(string, int)>>, s: string): int {
    if s in gs then SumQty(gs[s]) else 0
  }

  /** `max(product_list, key=lambda p: p.price or 0)`: the first row of highest price. */
  function HighestPrice(list: seq<ProductData>): (i: nat)
    requires |list| > 0
    ensures i < |list|
    ensures forall j :: 0 <= j < |list| ==> PriceKey(list[j]) <= PriceKey(list[i])
    ensures forall j :: 0 <= j < i ==> PriceKey(list[j]) < PriceKey(list[i])
  {
    if |list| == 1 then 0
    else
      var i := HighestPrice(list[..|list| - 1]);
      if PriceKey(list[|list| - 1]) > PriceKey(list[i]) then |list| - 1 else i
  }

  /** `_merge_products`: the highest-price row's fields, with every size once, in order of
      first appearance, and its quantities added up. */
  function Merge(list: seq<ProductData>): (m: ProductData)
    requires |list| > 0
  {
    var hi := list[HighestPrice(list)];
    var g := GroupBy(Pairs(list), Size);
    ProductData(hi.productCode, hi.description, hi.category, g.0,
      seq(|g.0|, i requires 0 <= i < |g.0| => Total(g.1, g.0[i])),
      hi.brand, hi.rrp, hi.price, hi.currency, hi.weightKg, hi.imageUrl)
  }

  predicate AllIdentical(list: seq<ProductData>)
    requires |list| > 0
  {
    forall i :: 0 <= i < |list| ==> list[i].sizes == list[0].sizes && list[i].qty == list[0].qty
  }

  /** The product kept for one (brand, code) group. */
  function Resolve(list: seq<ProductData>): ProductData
    requires |list| > 0
  {
    if |list| == 1 then list[0] else if AllIdentical(list) then list[0] else Merge(list)
  }

  /** The group of each key, in key order, resolved to one product. */
  function ResolveAll(ks: seq<(string, string)>, gs: map<(string, string), seq<ProductData>>): (r: seq<ProductData>)
    requires forall k :: k in ks ==> k in gs && gs[k] != []
    ensures |r| == |ks|
  {
    if ks == [] then []
    else ResolveAll(ks[..|ks| - 1], gs) + [Resolve(gs[ks[|ks| - 1]])]
  }

  /** `deduplicate_products`. */
  function Deduplicate(products: seq<ProductData>, errorOnDuplicates: bool, slugify: string -> string):
    (r: Result<seq<ProductData>, IngestError>)
  {
    var g := GroupBy(products, Key);
    GroupByShape(products, Key);
    var duplicates := Repeated(g.0, g.1);
    if duplicates != [] && errorOnDuplicates then Err(DuplicateProducts(duplicates))
    else
      var deduplicated := ResolveAll(g.0, g.1);
      var bySlug := GroupBy(deduplicated, (p: ProductData) => slugify(p.description));
      var sameNames := Repeated(bySlug.0, bySlug.1);
      if sameNames != [] then Err(DuplicateProductNames(sameNames)) else Ok(deduplicated)
  }

  // Properties

  /** The duplicate error is raised exactly when some (brand, code) repeats and the
      configuration asks for it. */
  lemma DuplicatesRaiseIff(products: seq<ProductData>, errorOnDuplicates: bool, slugify: string -> string)
    ensures var r := Deduplicate(products, errorOnDuplicates, slugify);
      (r.Err? && r.error.DuplicateProducts?) <==> HasRepeat(products, Key) && errorOnDuplicates
  {
    RepeatedIff(products, Key);
  }

  /** The products of a resolved group keep the group's key. */
  lemma ResolveKey(list: seq<ProductData>, k: (string, string))
    requires |list| > 0 && forall x :: x in list ==> Key(x) == k
    ensures Key(Resolve(list)) == k
  {
    if |list| > 1 && !AllIdentical(list) {
      assert list[HighestPrice(list)] in list;
    }
  }

  lemma {:induction false} ResolveAllKeys(ks: seq<(string, string)>, gs: map<(string, string), seq<ProductData>>)
    requires forall k :: k in ks ==> k in gs && gs[k] != []
    requires forall k :: k in gs ==> forall x :: x in gs[k] ==> Key(x) == k
    ensures forall i :: 0 <= i < |ks| ==> Key(ResolveAll(ks, gs)[i]) == ks[i]
  {
    if ks != [] {
      ResolveAllKeys(ks[..|ks| - 1], gs);
      ResolveKey(gs[ks[|ks| - 1]], ks[|ks| - 1]);
    }
  }

  /** What a successful deduplication returns: each group resolved, in key order. */
  lemma DeduplicateValue(products: seq<ProductData>, errorOnDuplicates: bool, slugify: string -> string)
    requires Deduplicate(products, errorOnDuplicates, slugify).Ok?
    ensures GroupByKeysWellFormed(products)
    ensures Deduplicate(products, errorOnDuplicates, slugify).value
      == ResolveAll(GroupBy(products, Key).0, GroupBy(products, Key).1)
  {
    GroupByShape(products, Key);
  }

  ghost predicate GroupByKeysWellFormed(products: seq<ProductData>) {
    var g := GroupBy(products, Key);
    && Distinct(g.0)
    && (forall k :: k in g.1 <==> k in g.0)
    && (forall k :: k in g.1 ==> g.1[k] == Filter(products, Key, k) && g.1[k] != [])
  }

  /** After deduplication every (brand, code) of the sheet is there exactly once. */
  lemma DeduplicatedKeys(products: seq<ProductData>, errorOnDuplicates: bool, slugify: string -> string)
    requires Deduplicate(products, errorOnDuplicates, slugify).Ok?
    ensures var r := Deduplicate(products, errorOnDuplicates, slugify).value;
      && !HasRepeat(r, Key)
      && (forall p :: p in products ==> exists i :: 0 <= i < |r| && Key(r[i]) == Key(p))
      && (forall i :: 0 <= i < |r| ==> exists j :: 0 <= j < |products| && Key(products[j]) == Key(r[i]))
  {
    DeduplicateValue(products, errorOnDuplicates, slugify);
    var g := GroupBy(products, Key);
    ResolveAllKeys(g.0, g.1);
    GroupedKeysPresent(products);
    KeysCovered(products, g.0, g.1, ResolveAll(g.0, g.1));
  }

  lemma GroupedKeysPresent(products: seq<ProductData>)
    ensures forall p :: p in products ==> Key(p) in GroupBy(products, Key).1
  {
    forall p | p in products
      ensures Key(p) in GroupBy(products, Key).1
    {
      var j :| 0 <= j < |products| && products[j] == p;
      FilterEmpty(products, Key, Key(p));
    }
  }

  /** A list keyed like the grouping's keys holds every key of the sheet once. */
  lemma KeysCovered(products: seq<ProductData>, ks: seq<(string, string)>,
                    gs: map<(string, string), seq<ProductData>>, r: seq<ProductData>)
    requires forall k :: k in gs <==> k in ks
    requires Distinct(ks)
    requires forall k :: k in gs ==> gs[k] == Filter(products, Key, k) && gs[k] != []
    requires |r| == |ks| && forall i :: 0 <= i < |ks| ==> Key(r[i]) == ks[i]
    requires forall p :: p in products ==> Key(p) in gs
    ensures !HasRepeat(r, Key)
    ensures forall p :: p in products ==> exists i :: 0 <= i < |r| && Key(r[i]) == Key(p)
    ensures forall i :: 0 <= i < |r| ==> exists j :: 0 <= j < |products| && Key(products[j]) == Key(r[i])
  {
    forall p | p in products
      ensures exists i :: 0 <= i < |r| && Key(r[i]) == Key(p)
    {
      assert Key(p) in ks;
      var i :| 0 <= i < |ks| && ks[i] == Key(p);
      assert Key(r[i]) == Key(p);
    }
    forall i | 0 <= i < |r|
      ensures exists j :: 0 <= j < |products| && Key(products[j]) == Key(r[i])
    {
      var k := ks[i];
      assert k in gs;
      FilterEmpty(products, Key, k);
      var j :| 0 <= j < |products| && Key(products[j]) == k;
      assert Key(r[i]) == k;
    }
  }

  /** After deduplication no two products share a slug. */
  lemma DeduplicatedNames(products: seq<ProductData>, errorOnDuplicates: bool, slugify: string -> string)
    requires Deduplicate(products, errorOnDuplicates, slugify).Ok?
    ensures !HasRepeat(Deduplicate(products, errorOnDuplicates, slugify).value,
      (p: ProductData) => slugify(p.description))
  {
    DeduplicateValue(products, errorOnDuplicates, slugify);
    var g := GroupBy(products, Key);
    RepeatedIff(ResolveAll(g.0, g.1), (p: ProductData) => slugify(p.description));
  }

  /** Rows with the same sizes and quantities are kept once, as the first of them. */
  lemma IdenticalKeepsFirst(list: seq<ProductData>)
    requires |list| > 0 && AllIdentical(list)
    ensures Resolve(list) == list[0]
  {
  }

  /** A merged product lists each size once, exactly the sizes of the rows, with the sum
      of that size's quantities over the rows. */
  lemma MergeSizes(list: seq<ProductData>)
    requires |list| > 0
    ensures var m := Merge(list); var ps := Pairs(list);
      && Distinct(m.sizes) && |m.qty| == |m.sizes|
      && (forall s :: s in m.sizes <==> exists i :: 0 <= i < |ps| && ps[i].0 == s)
      && (forall i :: 0 <= i < |m.sizes| ==> m.qty[i] == SumQty(Filter(ps, Size, m.sizes[i])))
  {
    var ps := Pairs(list);
    var g := GroupBy(ps, Size);
    GroupByShape(ps, Size);
    forall s
      ensures s in g.0 <==> exists i :: 0 <= i < |ps| && ps[i].0 == s
    {
      FilterEmpty(ps, Size, s);
    }
  }

  /** `list[i]` is a row of highest price. */
  predicate IsHighest(list: seq<ProductData>, i: nat)
    requires i < |list|
  {
    forall j :: 0 <= j < |list| ==> PriceKey(list[j]) <= PriceKey(list[i])
  }

  /** Every field of `m` but the sizes and quantities comes from `row`. */
  predicate FieldsFrom(m: ProductData, row: ProductData) {
    m.productCode == row.productCode && m.description == row.description
    && m.category == row.category && m.brand == row.brand && m.rrp == row.rrp
    && m.price == row.price && m.currency == row.currency && m.weightKg == row.weightKg
    && m.imageUrl == row.imageUrl
  }

  /** A merged product takes its code, name, prices and the rest from the first row of
      highest price, a missing price counting as 0. */
  lemma MergeKeepsHighest(list: seq<ProductData>)
    requires |list| > 0
    ensures exists i :: (0 <= i < |list| && IsHighest(list, i) && FieldsFrom(Merge(list), list[i])
      && (forall j :: 0 <= j < i ==> PriceKey(list[j]) < PriceKey(list[i])))
  {
    var i := HighestPrice(list);
    assert IsHighest(list, i) && FieldsFrom(Merge(list), list[i]);
  }

  // The loops as the source writes them

  /** The running state of the size-to-quantity loop after the pairs `ps`: the sizes in
      order, and each size's total, alongside the pairs seen for it. */
  ghost predicate Accumulated(sizes: seq<string>, groups: map<string, seq<(string, int)>>,
                              totals: map<string, int>, ps: seq<(string, int)>)
  {
    && (sizes, groups) == GroupBy(ps, Size)
    && (forall s :: s in groups <==> s in totals)
    && (forall s :: s in totals ==> totals[s] == SumQty(groups[s]))
  }

  /** One pair: a size seen before adds to its total, a new one is appended. */
  method AddPair(sizes: seq<string>, ghost groups: map<string, seq<(string, int)>>,
                 totals: map<string, int>, ghost ps: seq<(string, int)>, pair: (string, int))
    returns (sizes': seq<string>, ghost groups': map<string, seq<(string, int)>>, totals': map<string, int>)
    requires Accumulated(sizes, groups, totals, ps)
    ensures Accumulated(sizes', groups', totals', ps + [pair])
  {
    assert (ps + [pair])[..|ps|] == ps;
    var (size, qty) := pair;
    if size in totals {
      sizes', groups', totals' := sizes, groups[size := groups[size] + [pair]], totals[size := totals[size] + qty];
    } else {
      sizes', groups', totals' := sizes + [size], groups[size := [pair]], totals[size := qty];
    }
  }

  /** One row: `for size, qty in zip(product.sizes, product.qty)`. */
  method AddRow(sizes: seq<string>, ghost groups: map<string, seq<(string, int)>>,
                totals: map<string, int>, ghost ps: seq<(string, int)>, row: seq<(string, int)>)
    returns (sizes': seq<string>, ghost groups': map<string, seq<(string, int)>>, totals': map<string, int>)
    requires Accumulated(sizes, groups, totals, ps)
    ensures Accumulated(sizes', groups', totals', ps + row)
  {
    sizes', groups', totals' := sizes, groups, totals;
    assert ps + row[..0] == ps;
    for j := 0 to |row|
      invariant Accumulated(sizes', groups', totals', ps + row[..j])
    {
      assert ps + row[..j + 1] == (ps + row[..j]) + [row[j]];
      sizes', groups', totals' := AddPair(sizes', groups', totals', ps + row[..j], row[j]);
    }
    assert row[..|row|] == row;
  }

  /** `_merge_products` with its loops: every row's pairs in turn into an insertion-ordered
      dictionary of totals, then the fields of the first row of highest price. */
  method MergeProducts(list: seq<ProductData>) returns (m: ProductData)
    requires |list| > 0
    ensures m == Merge(list)
  {
    var hi := list[HighestPrice(list)];
    var sizes: seq<string> := [];
    ghost var groups: map<string, seq<(string, int)>> := map[];
    var totals: map<string, int> := map[];
    for i := 0 to |list|
      invariant Accumulated(sizes, groups, totals, Pairs(list[..i]))
    {
      assert list[..i + 1][..i] == list[..i];
      sizes, groups, totals := AddRow(sizes, groups, totals, Pairs(list[..i]), Zip(list[i]));
    }
    assert list[..|list|] == list;
    var qty := seq(|sizes|, k requires 0 <= k < |sizes| => if sizes[k] in totals then totals[sizes[k]] else 0);
    ghost var g := GroupBy(Pairs(list), Size);
    assert qty == seq(|g.0|, i requires 0 <= i < |g.0| => Total(g.1, g.0[i]));
    m := ProductData(hi.productCode, hi.description, hi.category, sizes, qty,
      hi.brand, hi.rrp, hi.price, hi.currency, hi.weightKg, hi.imageUrl);
  }

  /** The loop over the groups: each group, in key order, kept as its one product, its
      first product when all agree, or merged. */
  method ResolveGroups(ks: seq<(string, string)>, gs: map<(string, string), seq<ProductData>>)
    returns (deduplicated: seq<ProductData>)
    requires forall k :: k in ks ==> k in gs && gs[k] != []
    ensures deduplicated == ResolveAll(ks, gs)
  {
    deduplicated := [];
    for i := 0 to |ks|
      invariant deduplicated == ResolveAll(ks[..i], gs)
    {
      assert ks[..i + 1][..i] == ks[..i];
      var list := gs[ks[i]];
      var kept;
      if |list| == 1 || AllIdentical(list) {
        kept := list[0];
      } else {
        kept := MergeProducts(list);
      }
      deduplicated := deduplicated + [kept];
    }
    assert ks[..|ks|] == ks;
  }

  /** `deduplicate_products` with its loops: group by (brand, code), raise on repeats when
      configured to, resolve each group in key order, then group the result by slug. */
  method DeduplicateProducts(products: seq<ProductData>, errorOnDuplicates: bool, slugify: string -> string)
    returns (r: Result<seq<ProductData>, IngestError>)
    ensures r == Deduplicate(products, errorOnDuplicates, slugify)
  {
    var ks, gs := GroupLoop(products, Key);
    GroupByShape(products, Key);
    var duplicates := Repeated(ks, gs);
    if duplicates != [] && errorOnDuplicates {
      return Err(DuplicateProducts(duplicates));
    }
    var deduplicated := ResolveGroups(ks, gs);
    var slugs, bySlug := GroupLoop(deduplicated, (p: ProductData) => slugify(p.description));
    var sameNames := Repeated(slugs, bySlug);
    if sameNames != [] {
      return Err(DuplicateProductNames(sameNames));
    }
    return Ok(deduplicated);
  }
}
