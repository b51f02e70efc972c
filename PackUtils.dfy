/** saleor/checkout/pack_utils.py: a pack of `pack_size` units is split across a product's
    variants in proportion to their available stock by Hamilton's (largest remainder)
    method: each variant first gets the integer part of its quota, and the units left go
    to the largest remainders. Quotas are exact rationals here; a remainder is kept as its
    numerator over the total stock, which orders remainders the same way. */
module PackUtils {
  import opened Wrappers
  import opened Sums

  /** A variant (by its position among the product's variants) with positive stock. */
  datatype Stocked = Stocked(variant: nat, stock: int)

  /** A returned `(variant, qty)` pair. */
  datatype Allocation = Allocation(variant: nat, quantity: int)

  /** Lines 39-49: the variants with positive availability, in variant order.
      `avail[v]` is get_available_quantity of variant `v`. */
  function InStock(avail: seq<int>): (r: seq<Stocked>)
    ensures forall k :: 0 <= k < |r| ==> r[k].variant < |avail| && r[k].stock == avail[r[k].variant] && r[k].stock > 0
    ensures forall k, l :: 0 <= k < l < |r| ==> r[k].variant < r[l].variant
  {
    if |avail| == 0 then []
    else
      var init := avail[..|avail| - 1];
      var s := InStock(init);
      var r := if avail[|avail| - 1] > 0 then s + [Stocked(|avail| - 1, avail[|avail| - 1])] else s;
      InStockExtends(avail, init, s, r);
      r
  }

  /** The step of InStock: the last variant joins the list when it has stock. */
  lemma InStockExtends(avail: seq<int>, init: seq<int>, s: seq<Stocked>, r: seq<Stocked>)
    requires |avail| > 0 && init == avail[..|avail| - 1]
    requires r == if avail[|avail| - 1] > 0 then s + [Stocked(|avail| - 1, avail[|avail| - 1])] else s
    requires forall k :: 0 <= k < |s| ==> s[k].variant < |init| && s[k].stock == init[s[k].variant] && s[k].stock > 0
    requires forall k, l :: 0 <= k < l < |s| ==> s[k].variant < s[l].variant
    ensures forall k :: 0 <= k < |r| ==> r[k].variant < |avail| && r[k].stock == avail[r[k].variant] && r[k].stock > 0
    ensures forall k, l :: 0 <= k < l < |r| ==> r[k].variant < r[l].variant
  {
    forall k | 0 <= k < |r|
      ensures r[k].variant < |avail| && r[k].stock == avail[r[k].variant] && r[k].stock > 0
    {
      if k < |s| {
        assert r[k] == s[k];
        assert init[s[k].variant] == avail[s[k].variant];
      }
    }
  }

  /** Every variant with stock is in the list. */
  lemma {:induction false} InStockCovers(avail: seq<int>, v: int)
    requires 0 <= v < |avail| && avail[v] > 0
    ensures exists k :: 0 <= k < |InStock(avail)| && InStock(avail)[k].variant == v
    decreases |avail|
  {
    var init := avail[..|avail| - 1];
    var s := InStock(init);
    if v < |init| {
      assert init[v] == avail[v];
      InStockCovers(init, v);
      var k :| 0 <= k < |s| && s[k].variant == v;
      assert InStock(avail)[k] == s[k];
    } else {
      assert InStock(avail)[|s|].variant == v;
    }
  }

  function Stocks(st: seq<Stocked>): (r: seq<int>)
    ensures |r| == |st| && forall k :: 0 <= k < |st| ==> r[k] == st[k].stock
  {
    seq(|st|, k requires 0 <= k < |st| => st[k].stock)
  }

  /** `int(q)` for the rational q = n / d: truncation toward zero. */
  function IntPart(n: int, d: int): (r: int)
    requires d > 0
    ensures n >= 0 ==> 0 <= r && r * d <= n < r * d + d
    ensures n < 0 ==> r <= 0 && r * d - d < n <= r * d
  {
    if n >= 0 then n / d else -((-n) / d)
  }

  /** The quota numerators `actual_pack_size * stock`. */
  function Shares(st: seq<Stocked>, a: int): (r: seq<int>)
    ensures |r| == |st| && forall k :: 0 <= k < |st| ==> r[k] == a * st[k].stock
  {
    seq(|st|, k requires 0 <= k < |st| => a * st[k].stock)
  }

  /** The integer parts of the quotas. */
  function Floors(sh: seq<int>, t: int): (r: seq<int>)
    requires t > 0
    ensures |r| == |sh| && forall k :: 0 <= k < |sh| ==> r[k] == IntPart(sh[k], t)
  {
    seq(|sh|, k requires 0 <= k < |sh| => IntPart(sh[k], t))
  }

  /** The remainder numerators `a[k] - t * f[k]`. */
  function Diff(a: seq<int>, f: seq<int>, t: int): (r: seq<int>)
    requires |a| == |f|
    ensures |r| == |a| && forall k :: 0 <= k < |a| ==> r[k] == a[k] - t * f[k]
  {
    seq(|a|, k requires 0 <= k < |a| => a[k] - t * f[k])
  }

  /** `j` occurs in `r`. */
  predicate Appears(r: seq<nat>, j: nat) {
    exists p :: 0 <= p < |r| && r[p] == j
  }

  /** The first position whose key is below `kj`: inserting there keeps equal keys in
      their original order, as Python's stable `sorted(..., reverse=True)` does. */
  function InsertPos(s: seq<nat>, kj: int, keys: seq<int>): (p: nat)
    requires forall q :: 0 <= q < |s| ==> s[q] < |keys|
    ensures p <= |s|
    ensures forall q :: 0 <= q < p ==> keys[s[q]] >= kj
    ensures p < |s| ==> keys[s[p]] < kj
  {
    if |s| == 0 || keys[s[0]] < kj then 0
    else 1 + InsertPos(s[1..], kj, keys)
  }

  /** `r` is a list of the positions 0..n-1 sorted by descending key. */
  predicate SortedPositions(r: seq<nat>, keys: seq<int>, n: nat)
    requires n <= |keys|
  {
    && |r| == n
    && (forall p :: 0 <= p < n ==> r[p] < n)
    && (forall p, q :: 0 <= p < q < n ==> r[p] != r[q])
    && (forall p, q :: 0 <= p < q < n ==> keys[r[p]] >= keys[r[q]])
    && (forall p, q :: 0 <= p < q < n && keys[r[p]] == keys[r[q]] ==> r[p] < r[q])
    && (forall j :: 0 <= j < n ==> Appears(r, j))
  }

  /** `s` with `x` inserted at position `p`. */
  function InsertAt(s: seq<nat>, p: nat, x: nat): (r: seq<nat>)
    requires p <= |s|
    ensures |r| == |s| + 1
    ensures forall i :: 0 <= i < p ==> r[i] == s[i]
    ensures r[p] == x
    ensures forall i :: p < i <= |s| ==> r[i] == s[i - 1]
  {
    s[..p] + [x] + s[p..]
  }

  /** The keys after the insertion point are below the inserted key. */
  lemma AfterInsertPosBelow(keys: seq<int>, s: seq<nat>, n: nat)
    requires 0 < n <= |keys|
    requires SortedPositions(s, keys, n - 1)
    ensures forall q :: InsertPos(s, keys[n - 1], keys) <= q < |s| ==> keys[s[q]] < keys[n - 1]
  {
    var p := InsertPos(s, keys[n - 1], keys);
    forall q | p <= q < |s|
      ensures keys[s[q]] < keys[n - 1]
    {
      if q > p {
        assert keys[s[p]] >= keys[s[q]];
      }
    }
  }

  /** Inserting position n-1 at InsertPos into a sorted list of 0..n-2 sorts 0..n-1. */
  lemma InsertSorts(keys: seq<int>, s: seq<nat>, n: nat)
    requires 0 < n <= |keys|
    requires SortedPositions(s, keys, n - 1)
    ensures SortedPositions(InsertAt(s, InsertPos(s, keys[n - 1], keys), n - 1), keys, n)
  {
    var r := InsertAt(s, InsertPos(s, keys[n - 1], keys), n - 1);
    InsertCovers(keys, s, n, r);
    InsertOrdered(keys, s, n, r);
  }

  /** The insertion keeps the positions distinct, descending by key, and equal keys in
      position order. */
  lemma InsertOrdered(keys: seq<int>, s: seq<nat>, n: nat, r: seq<nat>)
    requires 0 < n <= |keys|
    requires SortedPositions(s, keys, n - 1)
    requires r == InsertAt(s, InsertPos(s, keys[n - 1], keys), n - 1)
    requires forall j :: 0 <= j < n ==> r[j] < n
    ensures forall i, j :: 0 <= i < j < n ==> r[i] != r[j]
    ensures forall i, j :: 0 <= i < j < n ==> keys[r[i]] >= keys[r[j]]
    ensures forall i, j :: 0 <= i < j < n && keys[r[i]] == keys[r[j]] ==> r[i] < r[j]
  {
    var p := InsertPos(s, keys[n - 1], keys);
    AfterInsertPosBelow(keys, s, n);
    forall i, j | 0 <= i < j < n
      ensures r[i] != r[j] && keys[r[i]] >= keys[r[j]] && (keys[r[i]] == keys[r[j]] ==> r[i] < r[j])
    {
      if j < p {
        assert r[i] == s[i] && r[j] == s[j];
      } else if j == p {
        assert r[i] == s[i];
      } else if i < p {
        assert r[i] == s[i] && r[j] == s[j - 1];
      } else if i == p {
        assert r[j] == s[j - 1];
      } else {
        assert r[i] == s[i - 1] && r[j] == s[j - 1];
      }
    }
  }

  /** After the insertion every position 0..n-1 appears. */
  lemma InsertCovers(keys: seq<int>, s: seq<nat>, n: nat, r: seq<nat>)
    requires 0 < n <= |keys|
    requires SortedPositions(s, keys, n - 1)
    requires r == InsertAt(s, InsertPos(s, keys[n - 1], keys), n - 1)
    ensures forall j :: 0 <= j < n ==> r[j] < n
    ensures forall j :: 0 <= j < n ==> Appears(r, j)
  {
    var p := InsertPos(s, keys[n - 1], keys);
    forall j | 0 <= j < n
      ensures Appears(r, j)
    {
      if j == n - 1 {
        assert r[p] == j;
      } else {
        assert Appears(s, j);
        var q :| 0 <= q < n - 1 && s[q] == j;
        if q < p {
          assert r[q] == j;
        } else {
          assert r[q + 1] == j;
        }
      }
    }
  }

  /** Line 70: the positions 0..n-1 sorted by descending key, equal keys in position order
      (Python's sort is stable, also with `reverse=True`). */
  function SortDesc(keys: seq<int>, n: nat): (r: seq<nat>)
    requires n <= |keys|
    ensures SortedPositions(r, keys, n)
  {
    if n == 0 then []
    else
      var s := SortDesc(keys, n - 1);
      InsertSorts(keys, s, n);
      InsertAt(s, InsertPos(s, keys[n - 1], keys), n - 1)
  }

  /** Python `xs[:m]` keeps this many items of a list of length n, for any m. */
  function SliceEnd(m: int, n: nat): (e: nat)
    ensures e <= n
  {
    if m >= 0 then (if m <= n then m else n) else (if n + m >= 0 then n + m else 0)
  }

  /** Lines 72-73: one more unit for each variant in `ps`, one after the other. */
  function Incr(alloc: seq<int>, ps: seq<nat>): (r: seq<int>)
    requires forall q :: 0 <= q < |ps| ==> ps[q] < |alloc|
    ensures |r| == |alloc|
  {
    if |ps| == 0 then alloc
    else
      var a := Incr(alloc, ps[..|ps| - 1]);
      var v := ps[|ps| - 1];
      a[v := a[v] + 1]
  }

  /** Line 75: the pairs with a positive quantity, in variant order. */
  function Positive(st: seq<Stocked>, alloc: seq<int>): (r: seq<Allocation>)
    requires |st| == |alloc|
    ensures forall i :: 0 <= i < |r| ==> r[i].quantity > 0
    ensures forall i :: 0 <= i < |r| ==> exists k :: 0 <= k < |st| && r[i] == Allocation(st[k].variant, alloc[k])
  {
    if |st| == 0 then []
    else
      var s := Positive(st[..|st| - 1], alloc[..|alloc| - 1]);
      assert forall i :: 0 <= i < |s| ==> exists k :: 0 <= k < |st| && s[i] == Allocation(st[k].variant, alloc[k]) by {
        forall i | 0 <= i < |s|
          ensures exists k :: 0 <= k < |st| && s[i] == Allocation(st[k].variant, alloc[k])
        {
          var k :| 0 <= k < |st| - 1 && s[i] == Allocation(st[..|st| - 1][k].variant, alloc[..|alloc| - 1][k]);
          assert st[..|st| - 1][k] == st[k];
        }
      }
      if alloc[|alloc| - 1] > 0 then
        var r := s + [Allocation(st[|st| - 1].variant, alloc[|alloc| - 1])];
        assert r[|s|] == Allocation(st[|st| - 1].variant, alloc[|st| - 1]);
        r
      else s
  }

  function Quantities(r: seq<Allocation>): (q: seq<int>)
    ensures |q| == |r| && forall i :: 0 <= i < |r| ==> q[i] == r[i].quantity
  {
    seq(|r|, i requires 0 <= i < |r| => r[i].quantity)
  }

  /** The steps of `get_pack_for_product` after the stock loop, for a positive total. */
  datatype Apportionment = Apportionment(
    actual: int, floors: seq<int>, rems: seq<int>, remaining: int, order: seq<nat>, end: nat, alloc: seq<int>)

  function Apportion(st: seq<Stocked>, pack: int): (ap: Apportionment)
    requires SumInts(Stocks(st)) > 0
    ensures |ap.floors| == |ap.rems| == |ap.alloc| == |ap.order| == |st|
    ensures ap.end <= |st|
    ensures forall q :: 0 <= q < |ap.order| ==> ap.order[q] < |st|
    ensures ap.actual == Min(pack, SumInts(Stocks(st)))
    ensures ap.floors == Floors(Shares(st, ap.actual), SumInts(Stocks(st)))
    ensures ap.rems == Diff(Shares(st, ap.actual), ap.floors, SumInts(Stocks(st)))
    ensures ap.remaining == ap.actual - SumInts(ap.floors)
    ensures ap.order == SortDesc(ap.rems, |st|)
    ensures ap.end == SliceEnd(ap.remaining, |st|)
    ensures ap.alloc == Incr(ap.floors, ap.order[..ap.end])
  {
    var t := SumInts(Stocks(st));
    var a := Min(pack, t);
    var sh := Shares(st, a);
    var f := Floors(sh, t);
    var r := Diff(sh, f, t);
    var m := a - SumInts(f);
    var order := SortDesc(r, |r|);
    var end := SliceEnd(m, |order|);
    Apportionment(a, f, r, m, order, end, Incr(f, order[..end]))
  }

  /** `get_pack_for_product` on values: the variants' availabilities and the pack size. */
  function PackFor(avail: seq<int>, pack: int): seq<Allocation> {
    var st := InStock(avail);
    if |avail| == 0 || SumInts(Stocks(st)) == 0 then []
    else
      assert SumInts(Stocks(st)) > 0 by { StocksPositiveSum(st); }
      Positive(st, Apportion(st, pack).alloc)
  }

  lemma {:induction false} StocksPositiveSum(st: seq<Stocked>)
    requires forall k :: 0 <= k < |st| ==> st[k].stock > 0
    ensures SumInts(Stocks(st)) >= 0
    ensures |st| > 0 ==> SumInts(Stocks(st)) > 0
  {
    if |st| > 0 {
      assert Stocks(st)[1..] == Stocks(st[1..]);
      StocksPositiveSum(st[1..]);
    }
  }

  lemma StocksAppend(st: seq<Stocked>, x: Stocked)
    ensures SumInts(Stocks(st + [x])) == SumInts(Stocks(st)) + x.stock
  {
    assert Stocks(st + [x]) == Stocks(st) + [x.stock];
    SumAppend(Stocks(st), [x.stock]);
  }

  /** One more variant: it is appended exactly when it has stock. */
  lemma InStockStep(avail: seq<int>, i: int)
    requires 0 <= i < |avail|
    ensures InStock(avail[..i + 1]) == InStock(avail[..i]) + (if avail[i] > 0 then [Stocked(i, avail[i])] else [])
  {
    assert avail[..i + 1][..i] == avail[..i];
  }

  /** Lines 36-49: the stock loop. */
  method CollectStock(avail: seq<int>) returns (st: seq<Stocked>, total: int)
    ensures st == InStock(avail) && total == SumInts(Stocks(st))
  {
    st := [];
    total := 0;
    var i := 0;
    while i < |avail|
      invariant 0 <= i <= |avail|
      invariant st == InStock(avail[..i]) && total == SumInts(Stocks(st))
    {
      InStockStep(avail, i);
      if avail[i] > 0 {
        StocksAppend(st, Stocked(i, avail[i]));
        st := st + [Stocked(i, avail[i])];
        total := total + avail[i];
      }
      i := i + 1;
    }
    assert avail[..i] == avail;
  }

  /** Lines 56-67: the quota loop. */
  method Quotas(st: seq<Stocked>, actual: int, total: int) returns (floors: seq<int>, rems: seq<int>, allocatedSoFar: int)
    requires total > 0
    ensures floors == Floors(Shares(st, actual), total)
    ensures rems == Diff(Shares(st, actual), floors, total)
    ensures allocatedSoFar == SumInts(floors)
  {
    floors := [];
    rems := [];
    allocatedSoFar := 0;
    ghost var sh := Shares(st, actual);
    var k := 0;
    while k < |st|
      invariant 0 <= k <= |st|
      invariant |floors| == |rems| == k
      invariant forall j :: 0 <= j < k ==> floors[j] == IntPart(sh[j], total) && rems[j] == sh[j] - total * floors[j]
      invariant allocatedSoFar == SumInts(floors)
    {
      var share := actual * st[k].stock;
      var integerPart := IntPart(share, total);
      SumAppend(floors, [integerPart]);
      floors := floors + [integerPart];
      rems := rems + [share - total * integerPart];
      allocatedSoFar := allocatedSoFar + integerPart;
      k := k + 1;
    }
  }

  /** Lines 72-73: the increment loop over the first `end` sorted variants. */
  method Increment(floors: seq<int>, order: seq<nat>, end: nat) returns (alloc: seq<int>)
    requires end <= |order|
    requires forall q :: 0 <= q < |order| ==> order[q] < |floors|
    ensures alloc == Incr(floors, order[..end])
  {
    alloc := floors;
    var p := 0;
    while p < end
      invariant 0 <= p <= end
      invariant alloc == Incr(floors, order[..p])
    {
      assert order[..p + 1][..p] == order[..p];
      alloc := alloc[order[p] := alloc[order[p]] + 1];
      p := p + 1;
    }
  }

  /** Line 75: the closing comprehension. */
  method KeepPositive(st: seq<Stocked>, alloc: seq<int>) returns (result: seq<Allocation>)
    requires |st| == |alloc|
    ensures result == Positive(st, alloc)
  {
    result := [];
    var k := 0;
    while k < |st|
      invariant 0 <= k <= |st|
      invariant result == Positive(st[..k], alloc[..k])
    {
      assert st[..k + 1][..k] == st[..k] && alloc[..k + 1][..k] == alloc[..k];
      if alloc[k] > 0 {
        result := result + [Allocation(st[k].variant, alloc[k])];
      }
      k := k + 1;
    }
    assert st[..k] == st && alloc[..k] == alloc;
  }

  /** `get_pack_for_product`, its loops in order. */
  method GetPackForProduct(avail: seq<int>, packSize: int) returns (result: seq<Allocation>)
    ensures result == PackFor(avail, packSize)
  {
    if |avail| == 0 {
      return [];
    }
    var st, total := CollectStock(avail);
    StocksPositiveSum(st);
    if total == 0 {
      return [];
    }
    var actual := Min(packSize, total);
    var floors, rems, allocatedSoFar := Quotas(st, actual, total);
    var remaining := actual - allocatedSoFar;
    var order := SortDesc(rems, |rems|);
    var end := SliceEnd(remaining, |order|);
    var alloc := Increment(floors, order, end);
    ghost var ap := Apportion(st, packSize);
    assert ap.actual == actual && ap.floors == floors && ap.rems == rems;
    assert ap.remaining == remaining;
    assert ap.order == order;
    assert ap.end == end;
    assert ap.alloc == alloc;
    result := KeepPositive(st, alloc);
    assert PackFor(avail, packSize) == Positive(st, ap.alloc);
  }
}
