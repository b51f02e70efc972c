/** saleor/csv/utils/variant_compression.py, `compress_variants_data`: in a compressed
    product export all variants of a product go into one cell, `size[qty]` items joined by
    ", ", in the notation the supplier-sheet parser reads back. */
module VariantCompression {
  import opened Wrappers
  import opened Text
  import SizeQty

  /** A variant of an exported product; an absent SKU is "". */
  datatype VariantRow = VariantRow(id: int, product: int, sku: string)

  /** An attribute value: its name, its slug and the text of its `value` field, each ""
      when empty. */
  datatype AttrValue = AttrValue(name: string, slug: string, value: string)

  /** A variant's assignment of one attribute, with its values in order. */
  datatype Assignment = Assignment(variant: int, attribute: string, values: seq<AttrValue>)

  datatype StockRow = StockRow(variant: int, warehouse: int, quantity: int)

  // Sizes

  /** The text a size value gives: its name, else its slug, else its raw value. */
  function ValueText(v: AttrValue): (r: string)
    ensures v.name != "" ==> r == v.name
    ensures v.name == "" && v.slug != "" ==> r == v.slug
    ensures v.name == "" && v.slug == "" ==> r == v.value
  {
    if v.name != "" then v.name else if v.slug != "" then v.slug else v.value
  }

  /** Whether an assignment gives a size to one of the exported variants under `slug`. */
  predicate GivesSize(a: Assignment, ids: set<int>, slug: string) {
    a.variant in ids && a.attribute == slug && a.values != []
  }

  /** The sizes found under one attribute slug: a variant's later assignment overwrites
      an earlier one. */
  function SizesFor(assignments: seq<Assignment>, ids: set<int>, slug: string): (r: map<int, string>)
    ensures forall v :: v in r ==> v in ids
  {
    if assignments == [] then map[]
    else
      var a := assignments[|assignments| - 1];
      var m := SizesFor(assignments[..|assignments| - 1], ids, slug);
      if GivesSize(a, ids, slug) then m[a.variant := ValueText(a.values[0])] else m
  }

  /** A variant has a size under `slug` exactly when one of its assignments gives one. */
  lemma {:induction false} SizesForDomain(assignments: seq<Assignment>, ids: set<int>, slug: string, v: int)
    ensures v in SizesFor(assignments, ids, slug)
      <==> exists a :: a in assignments && a.variant == v && GivesSize(a, ids, slug)
  {
    if assignments != [] {
      var front := assignments[..|assignments| - 1];
      SizesForDomain(front, ids, slug, v);
      assert forall a :: a in assignments <==> a in front || a == assignments[|assignments| - 1];
    }
  }

  /** The last assignment giving a variant a size wins. */
  lemma {:induction false} SizesForLast(front: seq<Assignment>, a: Assignment, back: seq<Assignment>, ids: set<int>, slug: string)
    requires GivesSize(a, ids, slug)
    requires forall b :: b in back ==> !(b.variant == a.variant && GivesSize(b, ids, slug))
    ensures var r := SizesFor(front + [a] + back, ids, slug);
      a.variant in r && r[a.variant] == ValueText(a.values[0])
  {
    if back == [] {
      assert (front + [a] + back)[..|front|] == front;
    } else {
      var all := front + [a] + back;
      assert all[..|all| - 1] == front + [a] + back[..|back| - 1];
      SizesForLast(front, a, back[..|back| - 1], ids, slug);
    }
  }

  /** The slugs tried for the size attribute, in order. */
  function SizeSlugs(sizeSlug: string): seq<string> {
    [sizeSlug, "Size", "SIZE", "size"]
  }

  /** The sizes of the first slug that gives any. */
  function VariantSizes(assignments: seq<Assignment>, ids: set<int>, slugs: seq<string>): map<int, string> {
    if slugs == [] then map[]
    else
      var m := SizesFor(assignments, ids, slugs[0]);
      if m != map[] then m else VariantSizes(assignments, ids, slugs[1..])
  }

  /** The sizes come from the first slug giving any, and are empty when none does. */
  lemma {:induction false} VariantSizesSpec(assignments: seq<Assignment>, ids: set<int>, slugs: seq<string>, i: nat)
    requires i < |slugs|
    requires SizesFor(assignments, ids, slugs[i]) != map[]
    requires forall j :: 0 <= j < i ==> SizesFor(assignments, ids, slugs[j]) == map[]
    ensures VariantSizes(assignments, ids, slugs) == SizesFor(assignments, ids, slugs[i])
  {
    if i > 0 {
      assert SizesFor(assignments, ids, slugs[0]) == map[];
      VariantSizesSpec(assignments, ids, slugs[1..], i - 1);
    }
  }

  lemma {:induction false} VariantSizesNone(assignments: seq<Assignment>, ids: set<int>, slugs: seq<string>)
    requires forall j :: 0 <= j < |slugs| ==> SizesFor(assignments, ids, slugs[j]) == map[]
    ensures VariantSizes(assignments, ids, slugs) == map[]
  {
    if slugs != [] {
      assert SizesFor(assignments, ids, slugs[0]) == map[];
      VariantSizesNone(assignments, ids, slugs[1..]);
    }
  }

  /** A variant's label: its size, else its SKU, else `Variant-{id}`. */
  function Label(sizes: map<int, string>, v: VariantRow): (r: string)
    ensures r != ""
    ensures v.id in sizes && sizes[v.id] != "" ==> r == sizes[v.id]
    ensures (v.id !in sizes || sizes[v.id] == "") && v.sku != "" ==> r == v.sku
  {
    if v.id in sizes && sizes[v.id] != "" then sizes[v.id]
    else if v.sku != "" then v.sku
    else "Variant-" + IntToStr(v.id)
  }

  // Quantities

  /** No warehouse filter means every warehouse. */
  predicate Selected(warehouses: seq<int>, w: int) {
    warehouses == [] || w in warehouses
  }

  /** The sum of a variant's stock over the selected warehouses; none is 0. */
  function Quantity(stocks: seq<StockRow>, warehouses: seq<int>, v: int): (r: int)
    ensures (forall k :: 0 <= k < |stocks| ==> stocks[k].quantity >= 0) ==> r >= 0
  {
    if stocks == [] then 0
    else
      var s := stocks[|stocks| - 1];
      Quantity(stocks[..|stocks| - 1], warehouses, v) + (if s.variant == v && Selected(warehouses, s.warehouse) then s.quantity else 0)
  }

  /** A variant with no selected stock row has quantity 0. */
  lemma {:induction false} QuantityWithoutStock(stocks: seq<StockRow>, warehouses: seq<int>, v: int)
    requires forall k :: 0 <= k < |stocks| ==> !(stocks[k].variant == v && Selected(warehouses, stocks[k].warehouse))
    ensures Quantity(stocks, warehouses, v) == 0
  {
    if stocks != [] {
      QuantityWithoutStock(stocks[..|stocks| - 1], warehouses, v);
    }
  }

  /** Stock rows of other variants or unselected warehouses do not count. */
  lemma {:induction false} QuantityIgnores(stocks: seq<StockRow>, s: StockRow, warehouses: seq<int>, v: int)
    ensures Quantity(stocks + [s], warehouses, v)
      == Quantity(stocks, warehouses, v) + (if s.variant == v && Selected(warehouses, s.warehouse) then s.quantity else 0)
  {
    assert (stocks + [s])[..|stocks|] == stocks;
  }

  // Ordering

  /** Code-point order of strings, as Python compares them. */
  predicate LexLeq(a: string, b: string)
    decreases |a|
  {
    a == [] || (b != [] && (a[0] < b[0] || (a[0] == b[0] && LexLeq(a[1..], b[1..]))))
  }

  lemma {:induction false} LexLeqTotal(a: string, b: string)
    ensures LexLeq(a, b) || LexLeq(b, a)
    decreases |a|
  {
    if a != [] && b != [] && a[0] == b[0] {
      LexLeqTotal(a[1..], b[1..]);
    }
  }

  lemma {:induction false} LexLeqTrans(a: string, b: string, c: string)
    requires LexLeq(a, b) && LexLeq(b, c)
    ensures LexLeq(a, c)
    decreases |a|
  {
    if a != [] && b != [] && c != [] && a[0] == b[0] && b[0] == c[0] {
      LexLeqTrans(a[1..], b[1..], c[1..]);
    }
  }

  /** A sort key: the size as a number when every size of the product reads as one,
      otherwise the size text. */
  datatype Key = Num(x: real) | Str(s: string)

  predicate KeyLeq(a: Key, b: Key) {
    match (a, b)
    case (Num(x), Num(y)) => x <= y
    case (Str(s), Str(t)) => LexLeq(s, t)
    case (Num(_), Str(_)) => true
    case (Str(_), Num(_)) => false
  }

  lemma KeyLeqTotal(a: Key, b: Key)
    ensures KeyLeq(a, b) || KeyLeq(b, a)
  {
    if a.Str? && b.Str? {
      LexLeqTotal(a.s, b.s);
    }
  }

  lemma KeyLeqTrans(a: Key, b: Key, c: Key)
    requires KeyLeq(a, b) && KeyLeq(b, c)
    ensures KeyLeq(a, c)
  {
    if a.Str? && b.Str? && c.Str? {
      LexLeqTrans(a.s, b.s, c.s);
    }
  }

  type Entry = (string, int)

  type Keyed = (Key, Entry)

  ghost predicate Sorted(s: seq<Keyed>) {
    forall i, j :: 0 <= i < j < |s| ==> KeyLeq(s[i].0, s[j].0)
  }

  /** Insertion before the first element not below `x`, which keeps equal keys in their
      original order. */
  function Insert(x: Keyed, s: seq<Keyed>): (r: seq<Keyed>)
    ensures multiset(r) == multiset(s) + multiset{x}
  {
    if s == [] then [x]
    else if KeyLeq(x.0, s[0].0) then [x] + s
    else
      assert s == [s[0]] + s[1..];
      [s[0]] + Insert(x, s[1..])
  }

  lemma {:induction false} InsertSorted(x: Keyed, s: seq<Keyed>)
    requires Sorted(s)
    ensures Sorted(Insert(x, s))
  {
    if s == [] {
    } else if KeyLeq(x.0, s[0].0) {
      forall j | 1 < j < |s| + 1 ensures KeyLeq(x.0, ([x] + s)[j].0) {
        assert ([x] + s)[j] == s[j - 1];
        KeyLeqTrans(x.0, s[0].0, s[j - 1].0);
      }
    } else {
      KeyLeqTotal(x.0, s[0].0);
      InsertSorted(x, s[1..]);
      var t := Insert(x, s[1..]);
      forall j | 0 <= j < |t| ensures KeyLeq(s[0].0, t[j].0) {
        assert t[j] in multiset(t);
        assert t[j] in multiset(s[1..]) || t[j] == x;
        if t[j] != x {
          var k :| 0 <= k < |s[1..]| && s[1..][k] == t[j];
          assert s[k + 1] == t[j];
        }
      }
    }
  }

  /** Python's stable sort by key. */
  function SortKeyed(s: seq<Keyed>): (r: seq<Keyed>)
    ensures multiset(r) == multiset(s)
  {
    if s == [] then []
    else
      assert s == [s[0]] + s[1..];
      Insert(s[0], SortKeyed(s[1..]))
  }

  lemma {:induction false} SortKeyedSorted(s: seq<Keyed>)
    ensures Sorted(SortKeyed(s))
  {
    if s != [] {
      SortKeyedSorted(s[1..]);
      InsertSorted(s[0], SortKeyed(s[1..]));
    }
  }

  /** The keys of a product's entries: numbers when every size reads as one through
      `number` (Python's `float`), otherwise the size texts. */
  function Keys(entries: seq<Entry>, number: string -> Option<real>): (r: seq<Keyed>)
    ensures |r| == |entries| && forall k :: 0 <= k < |r| ==> r[k].1 == entries[k]
    ensures (forall k :: 0 <= k < |entries| ==> number(entries[k].0).Some?)
      ==> forall k :: 0 <= k < |r| ==> r[k].0 == Num(number(entries[k].0).value)
    ensures (exists k :: 0 <= k < |entries| && number(entries[k].0).None?)
      ==> forall k :: 0 <= k < |r| ==> r[k].0 == Str(entries[k].0)
  {
    if forall k :: 0 <= k < |entries| ==> number(entries[k].0).Some?
    then seq(|entries|, k requires 0 <= k < |entries| => (Num(number(entries[k].0).value), entries[k]))
    else seq(|entries|, k requires 0 <= k < |entries| => (Str(entries[k].0), entries[k]))
  }

  function Unkeyed(s: seq<Keyed>): (r: seq<Entry>)
    ensures |r| == |s| && forall k :: 0 <= k < |s| ==> r[k] == s[k].1
  {
    seq(|s|, k requires 0 <= k < |s| => s[k].1)
  }

  /** A product's entries in export order. */
  function SortEntries(entries: seq<Entry>, number: string -> Option<real>): seq<Entry> {
    Unkeyed(SortKeyed(Keys(entries, number)))
  }

  /** The export order is a reordering of the entries. */
  lemma SortEntriesPermutes(entries: seq<Entry>, number: string -> Option<real>)
    ensures multiset(SortEntries(entries, number)) == multiset(entries)
  {
    var keyed := Keys(entries, number);
    SortUnkeyed(keyed);
    assert Unkeyed(keyed) == entries;
  }

  /** When every size reads as a number, the export order is ascending by number. */
  lemma SortEntriesNumeric(entries: seq<Entry>, number: string -> Option<real>)
    requires forall k :: 0 <= k < |entries| ==> number(entries[k].0).Some?
    ensures var r := SortEntries(entries, number);
      forall i, j :: 0 <= i < j < |r| ==> (number(r[i].0).Some? && number(r[j].0).Some?
        && number(r[i].0).value <= number(r[j].0).value)
  {
    var keyed := Keys(entries, number);
    var sorted := SortKeyed(keyed);
    SortKeyedSorted(keyed);
    forall i | 0 <= i < |sorted| ensures number(sorted[i].1.0).Some? && sorted[i].0 == Num(number(sorted[i].1.0).value) {
      assert sorted[i] in multiset(sorted);
      var k :| 0 <= k < |keyed| && keyed[k] == sorted[i];
    }
  }

  /** Otherwise the export order is ascending by text. */
  lemma SortEntriesText(entries: seq<Entry>, number: string -> Option<real>)
    requires exists k :: 0 <= k < |entries| && number(entries[k].0).None?
    ensures var r := SortEntries(entries, number);
      forall i, j :: 0 <= i < j < |r| ==> LexLeq(r[i].0, r[j].0)
  {
    var keyed := Keys(entries, number);
    var sorted := SortKeyed(keyed);
    SortKeyedSorted(keyed);
    forall i | 0 <= i < |sorted| ensures sorted[i].0 == Str(sorted[i].1.0) {
      assert sorted[i] in multiset(sorted);
      var k :| 0 <= k < |keyed| && keyed[k] == sorted[i];
    }
  }

  lemma UnkeyedCons(x: Keyed, s: seq<Keyed>)
    ensures multiset(Unkeyed([x] + s)) == multiset{x.1} + multiset(Unkeyed(s))
  {
    assert Unkeyed([x] + s) == [x.1] + Unkeyed(s);
  }

  lemma {:induction false} InsertUnkeyed(x: Keyed, s: seq<Keyed>)
    ensures multiset(Unkeyed(Insert(x, s))) == multiset(Unkeyed(s)) + multiset{x.1}
  {
    if s == [] {
      UnkeyedCons(x, s);
    } else if KeyLeq(x.0, s[0].0) {
      UnkeyedCons(x, s);
    } else {
      var t := Insert(x, s[1..]);
      assert Insert(x, s) == [s[0]] + t;
      InsertUnkeyed(x, s[1..]);
      UnkeyedCons(s[0], t);
      assert s == [s[0]] + s[1..];
      UnkeyedCons(s[0], s[1..]);
    }
  }

  lemma {:induction false} SortUnkeyed(s: seq<Keyed>)
    ensures multiset(Unkeyed(SortKeyed(s))) == multiset(Unkeyed(s))
  {
    if s != [] {
      SortUnkeyed(s[1..]);
      InsertUnkeyed(s[0], SortKeyed(s[1..]));
      UnkeyedFirst(s);
    }
  }

  lemma UnkeyedFirst(s: seq<Keyed>)
    requires s != []
    ensures multiset(Unkeyed(s)) == multiset{s[0].1} + multiset(Unkeyed(s[1..]))
  {
    assert s == [s[0]] + s[1..];
    UnkeyedCons(s[0], s[1..]);
  }

  // The cell

  /** `f"{size}[{qty}]"`. */
  function EntryText(e: Entry): string {
    e.0 + "[" + IntToStr(e.1) + "]"
  }

  /** The items joined by ", ". */
  function Format(entries: seq<Entry>): string {
    Join(seq(|entries|, k requires 0 <= k < |entries| => EntryText(entries[k])), ", ")
  }

  function AsNat(entries: seq<Entry>): (r: seq<(string, nat)>)
    requires forall k :: 0 <= k < |entries| ==> entries[k].1 >= 0
    ensures |r| == |entries| && forall k :: 0 <= k < |r| ==> r[k].0 == entries[k].0 && r[k].1 == entries[k].1
  {
    seq(|entries|, k requires 0 <= k < |entries| => (entries[k].0, entries[k].1 as nat))
  }

  /** The cell reads back through `parse_sizes_and_qty` as the same sizes and quantities
      in the same order, as long as every size fits the notation and no quantity is
      negative. */
  lemma FormatRoundTrip(entries: seq<Entry>)
    requires forall k :: 0 <= k < |entries| ==> SizeQty.WritableSize(entries[k].0) && entries[k].1 >= 0
    ensures var r := SizeQty.ParseSizesAndQty(Format(entries));
      && r.Ok?
      && |r.value.0| == |entries| && |r.value.1| == |entries|
      && forall k :: 0 <= k < |entries| ==> r.value.0[k] == entries[k].0 && r.value.1[k] == entries[k].1
  {
    var items := AsNat(entries);
    assert seq(|entries|, k requires 0 <= k < |entries| => EntryText(entries[k])) == SizeQty.EntryTexts(items);
    assert SizeQty.Separator(", ");
    SizeQty.ParseEntries(items, ", ");
  }

  /** The variants of the exported products, as the variant query selects them. */
  function VariantsOf(productIds: set<int>, variants: seq<VariantRow>): (r: seq<VariantRow>)
    ensures forall v :: v in r <==> v in variants && v.product in productIds
  {
    if variants == [] then []
    else
      var v := variants[|variants| - 1];
      var front := variants[..|variants| - 1];
      assert forall x :: x in variants <==> x in front || x == v;
      VariantsOf(productIds, front) + (if v.product in productIds then [v] else [])
  }

  /** A product's entries, one per variant in query order. */
  function EntriesOf(vs: seq<VariantRow>, p: int, sizes: map<int, string>, stocks: seq<StockRow>, warehouses: seq<int>): seq<Entry> {
    if vs == [] then []
    else
      var v := vs[|vs| - 1];
      EntriesOf(vs[..|vs| - 1], p, sizes, stocks, warehouses)
        + (if v.product == p then [(Label(sizes, v), Quantity(stocks, warehouses, v.id))] else [])
  }

  function ProductColumn(vs: seq<VariantRow>): (r: seq<int>)
    ensures |r| == |vs| && forall k :: 0 <= k < |vs| ==> r[k] == vs[k].product
  {
    seq(|vs|, k requires 0 <= k < |vs| => vs[k].product)
  }

  /** A product has as many entries as it has variants. */
  lemma {:induction false} EntriesOfCount(vs: seq<VariantRow>, p: int, sizes: map<int, string>, stocks: seq<StockRow>, warehouses: seq<int>)
    ensures |EntriesOf(vs, p, sizes, stocks, warehouses)| == multiset(ProductColumn(vs))[p]
  {
    if vs != [] {
      var front, v := vs[..|vs| - 1], vs[|vs| - 1];
      EntriesOfCount(front, p, sizes, stocks, warehouses);
      assert |EntriesOf(vs, p, sizes, stocks, warehouses)|
        == |EntriesOf(front, p, sizes, stocks, warehouses)| + (if v.product == p then 1 else 0);
      var col := ProductColumn(front);
      assert ProductColumn(vs) == col + [v.product];
      assert multiset(col + [v.product]) == multiset(col) + multiset{v.product};
    }
  }

  /** Every variant of the product gives an entry, its label with its summed stock, and
      every entry comes from one. */
  lemma {:induction false} EntriesOfMembers(vs: seq<VariantRow>, p: int, sizes: map<int, string>, stocks: seq<StockRow>, warehouses: seq<int>)
    ensures forall v :: v in vs && v.product == p ==> (Label(sizes, v), Quantity(stocks, warehouses, v.id)) in EntriesOf(vs, p, sizes, stocks, warehouses)
    ensures forall e :: e in EntriesOf(vs, p, sizes, stocks, warehouses) ==>
      exists v :: v in vs && v.product == p && e == (Label(sizes, v), Quantity(stocks, warehouses, v.id))
  {
    if vs != [] {
      var front := vs[..|vs| - 1];
      var v := vs[|vs| - 1];
      EntriesOfMembers(front, p, sizes, stocks, warehouses);
      assert forall x :: x in vs <==> x in front || x == v;
      var es := EntriesOf(vs, p, sizes, stocks, warehouses);
      forall e | e in es
        ensures exists u :: u in vs && u.product == p && e == (Label(sizes, u), Quantity(stocks, warehouses, u.id))
      {
        if e in EntriesOf(front, p, sizes, stocks, warehouses) {
          var u :| u in front && u.product == p && e == (Label(sizes, u), Quantity(stocks, warehouses, u.id));
          assert u in vs;
        } else {
          assert v.product == p && e == (Label(sizes, v), Quantity(stocks, warehouses, v.id));
        }
      }
    }
  }

  /** The products that have variants. */
  function ProductsOf(vs: seq<VariantRow>): set<int> {
    set v | v in vs :: v.product
  }

  function VariantIds(vs: seq<VariantRow>): set<int> {
    set v | v in vs :: v.id
  }

  /** What `compress_variants_data` returns. `number` is Python's `float` on a size. */
  function Compressed(productIds: set<int>, variants: seq<VariantRow>, assignments: seq<Assignment>, stocks: seq<StockRow>,
                      warehouses: seq<int>, sizeSlug: string, number: string -> Option<real>): map<int, string>
  {
    var vs := VariantsOf(productIds, variants);
    if productIds == {} || vs == [] then map[]
    else
      var sizes := VariantSizes(assignments, VariantIds(vs), SizeSlugs(sizeSlug));
      FormatAll(Grouped(vs, sizes, stocks, warehouses), number)
  }

  /** The formatting loop over the groups. */
  function FormatAll(groups: map<int, seq<Entry>>, number: string -> Option<real>): (r: map<int, string>)
    ensures r.Keys == groups.Keys
    ensures forall p :: p in r ==> r[p] == Format(SortEntries(groups[p], number))
  {
    map p | p in groups :: Format(SortEntries(groups[p], number))
  }

  /** A product gets a cell exactly when it is exported and has a variant; no exported
      products, or none with variants, gives no cells. */
  lemma CompressedKeys(productIds: set<int>, variants: seq<VariantRow>, assignments: seq<Assignment>, stocks: seq<StockRow>,
                       warehouses: seq<int>, sizeSlug: string, number: string -> Option<real>, p: int)
    ensures p in Compressed(productIds, variants, assignments, stocks, warehouses, sizeSlug, number)
      <==> p in productIds && exists v :: v in variants && v.product == p
  {
    var vs := VariantsOf(productIds, variants);
    if p in productIds && exists v :: v in variants && v.product == p {
      var v :| v in variants && v.product == p;
      assert v in vs;
    }
  }

  /** The cell of a product lists each of its variants once, ordered as the sort
      orders them, and reads back as those sizes and quantities when they fit the
      notation. */
  lemma CompressedCell(productIds: set<int>, variants: seq<VariantRow>, assignments: seq<Assignment>, stocks: seq<StockRow>,
                       warehouses: seq<int>, sizeSlug: string, number: string -> Option<real>, p: int)
    requires p in Compressed(productIds, variants, assignments, stocks, warehouses, sizeSlug, number)
    ensures var vs := VariantsOf(productIds, variants);
      var sizes := VariantSizes(assignments, VariantIds(vs), SizeSlugs(sizeSlug));
      var sorted := SortEntries(EntriesOf(vs, p, sizes, stocks, warehouses), number);
      && Compressed(productIds, variants, assignments, stocks, warehouses, sizeSlug, number)[p] == Format(sorted)
      && multiset(sorted) == multiset(EntriesOf(vs, p, sizes, stocks, warehouses))
      && ((forall k :: 0 <= k < |sorted| ==> SizeQty.WritableSize(sorted[k].0) && sorted[k].1 >= 0)
          ==> SizeQty.ParseSizesAndQty(Format(sorted)).Ok?)
  {
    var vs := VariantsOf(productIds, variants);
    var sizes := VariantSizes(assignments, VariantIds(vs), SizeSlugs(sizeSlug));
    var sorted := SortEntries(EntriesOf(vs, p, sizes, stocks, warehouses), number);
    SortEntriesPermutes(EntriesOf(vs, p, sizes, stocks, warehouses), number);
    if forall k :: 0 <= k < |sorted| ==> SizeQty.WritableSize(sorted[k].0) && sorted[k].1 >= 0 {
      FormatRoundTrip(sorted);
    }
  }

  // The loops of `compress_variants_data`

  /** The assignment loop for one slug. */
  method SizesForLoop(assignments: seq<Assignment>, ids: set<int>, slug: string) returns (sizes: map<int, string>)
    ensures sizes == SizesFor(assignments, ids, slug)
  {
    sizes := map[];
    for j := 0 to |assignments|
      invariant sizes == SizesFor(assignments[..j], ids, slug)
    {
      var a := assignments[j];
      assert assignments[..j + 1][..j] == assignments[..j];
      if a.variant in ids && a.attribute == slug && a.values != [] {
        sizes := sizes[a.variant := ValueText(a.values[0])];
      }
    }
    assert assignments[..|assignments|] == assignments;
  }

  /** The slug loop, which stops at the first slug giving any size. */
  method FindSizes(assignments: seq<Assignment>, ids: set<int>, slugs: seq<string>) returns (sizes: map<int, string>)
    ensures sizes == VariantSizes(assignments, ids, slugs)
  {
    sizes := map[];
    var i := 0;
    while i < |slugs|
      invariant 0 <= i <= |slugs|
      invariant VariantSizes(assignments, ids, slugs) == VariantSizes(assignments, ids, slugs[i..])
    {
      var m := SizesForLoop(assignments, ids, slugs[i]);
      if m != map[] {
        sizes := m;
        return;
      }
      assert slugs[i..][1..] == slugs[i + 1..];
      i := i + 1;
    }
  }

  /** The groups of entries per product after the variants `vs`. */
  function Grouped(vs: seq<VariantRow>, sizes: map<int, string>, stocks: seq<StockRow>, warehouses: seq<int>): map<int, seq<Entry>> {
    map p | p in ProductsOf(vs) :: EntriesOf(vs, p, sizes, stocks, warehouses)
  }

  lemma EntriesOfAppend(vs: seq<VariantRow>, v: VariantRow, p: int, sizes: map<int, string>, stocks: seq<StockRow>, warehouses: seq<int>)
    ensures EntriesOf(vs + [v], p, sizes, stocks, warehouses)
      == EntriesOf(vs, p, sizes, stocks, warehouses) + (if v.product == p then [(Label(sizes, v), Quantity(stocks, warehouses, v.id))] else [])
  {
    assert (vs + [v])[..|vs|] == vs;
  }

  lemma {:induction false} EntriesOfAbsent(vs: seq<VariantRow>, p: int, sizes: map<int, string>, stocks: seq<StockRow>, warehouses: seq<int>)
    requires p !in ProductsOf(vs)
    ensures EntriesOf(vs, p, sizes, stocks, warehouses) == []
  {
    if vs != [] {
      var front := vs[..|vs| - 1];
      assert forall x :: x in front ==> x in vs;
      assert vs[|vs| - 1] in vs;
      EntriesOfAbsent(front, p, sizes, stocks, warehouses);
    }
  }

  lemma GroupedStep(all: seq<VariantRow>, i: nat, g: map<int, seq<Entry>>, sizes: map<int, string>, stocks: seq<StockRow>, warehouses: seq<int>)
    requires i < |all| && g == Grouped(all[..i], sizes, stocks, warehouses)
    ensures Grouped(all[..i + 1], sizes, stocks, warehouses)
      == g[all[i].product := (if all[i].product in g then g[all[i].product] else [])
                              + [(Label(sizes, all[i]), Quantity(stocks, warehouses, all[i].id))]]
  {
    assert all[..i + 1] == all[..i] + [all[i]];
    GroupedSnoc(all[..i], all[i], g, sizes, stocks, warehouses);
  }

  lemma GroupedSnoc(vs: seq<VariantRow>, v: VariantRow, g: map<int, seq<Entry>>, sizes: map<int, string>, stocks: seq<StockRow>, warehouses: seq<int>)
    requires g == Grouped(vs, sizes, stocks, warehouses)
    ensures Grouped(vs + [v], sizes, stocks, warehouses)
      == g[v.product := (if v.product in g then g[v.product] else []) + [(Label(sizes, v), Quantity(stocks, warehouses, v.id))]]
  {
    var xs := vs + [v];
    var h := g[v.product := (if v.product in g then g[v.product] else []) + [(Label(sizes, v), Quantity(stocks, warehouses, v.id))]];
    assert forall x :: x in xs <==> x in vs || x == v;
    assert ProductsOf(xs) == ProductsOf(vs) + {v.product};
    forall p | p in ProductsOf(xs) ensures Grouped(xs, sizes, stocks, warehouses)[p] == h[p] {
      EntriesOfAppend(vs, v, p, sizes, stocks, warehouses);
      if p !in ProductsOf(vs) {
        EntriesOfAbsent(vs, p, sizes, stocks, warehouses);
      }
    }
  }

  /** `compress_variants_data`. */
  method CompressVariantsData(productIds: set<int>, variants: seq<VariantRow>, assignments: seq<Assignment>, stocks: seq<StockRow>,
                              warehouses: seq<int>, sizeSlug: string, number: string -> Option<real>)
    returns (result: map<int, string>)
    ensures result == Compressed(productIds, variants, assignments, stocks, warehouses, sizeSlug, number)
  {
    result := map[];
    if productIds == {} {
      return;
    }
    var vs := VariantsOf(productIds, variants);
    if vs == [] {
      return;
    }
    var sizes := FindSizes(assignments, VariantIds(vs), SizeSlugs(sizeSlug));
    var groups: map<int, seq<Entry>> := map[];
    for i := 0 to |vs|
      invariant groups == Grouped(vs[..i], sizes, stocks, warehouses)
    {
      var v := vs[i];
      var size := Label(sizes, v);
      var quantity := Quantity(stocks, warehouses, v.id);
      GroupedStep(vs, i, groups, sizes, stocks, warehouses);
      groups := groups[v.product := (if v.product in groups then groups[v.product] else []) + [(size, quantity)]];
    }
    assert vs[..|vs|] == vs;
    result := FormatAll(groups, number);
  }
}
