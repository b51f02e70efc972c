/** What Hamilton's method in saleor/checkout/pack_utils.py guarantees for a pack size that
    is not negative: the pack is filled up to the available stock, every variant gets the
    integer part of its quota or one more, the extra units go to the largest remainders
    (ties to the earlier variant), and no variant gets more than it has. */
module PackProperties {
  import opened Wrappers
  import opened Sums
  import opened PackUtils

  lemma {:induction false} SumShares(st: seq<Stocked>, a: int)
    ensures SumInts(Shares(st, a)) == a * SumInts(Stocks(st))
  {
    if |st| > 0 {
      assert Shares(st, a)[1..] == Shares(st[1..], a);
      assert Stocks(st)[1..] == Stocks(st[1..]);
      SumShares(st[1..], a);
      assert a * (st[0].stock + SumInts(Stocks(st[1..]))) == a * st[0].stock + a * SumInts(Stocks(st[1..]));
    }
  }

  lemma {:induction false} SumDiff(sh: seq<int>, f: seq<int>, t: int)
    requires |sh| == |f|
    ensures SumInts(Diff(sh, f, t)) == SumInts(sh) - t * SumInts(f)
  {
    if |sh| > 0 {
      assert Diff(sh, f, t)[1..] == Diff(sh[1..], f[1..], t);
      SumDiff(sh[1..], f[1..], t);
      assert t * (f[0] + SumInts(f[1..])) == t * f[0] + t * SumInts(f[1..]);
    }
  }

  /** A sum of n values in [0, t) lies in [0, n * (t - 1)]. */
  lemma {:induction false} SumBelow(xs: seq<int>, t: int)
    requires forall i :: 0 <= i < |xs| ==> 0 <= xs[i] < t
    ensures 0 <= SumInts(xs) <= |xs| * (t - 1)
  {
    if |xs| > 0 {
      SumBelow(xs[1..], t);
      assert |xs| * (t - 1) == (|xs| - 1) * (t - 1) + (t - 1);
    }
  }

  lemma MulLe(t: int, x: int, y: int)
    requires t > 0 && x <= y
    ensures t * x <= t * y
  {
    assert t * y - t * x == t * (y - x);
  }

  /** The units left after the integer parts, t * m == R with R in [0, n * (t - 1)], are
      fewer than the number of variants. */
  lemma Leftover(t: int, m: int, r: int, n: nat)
    requires t > 0 && t * m == r && 0 <= r <= n * (t - 1)
    ensures 0 <= m && (m < n || m == 0)
  {
    if m < 0 {
      MulLe(t, m, -1);
    }
    if n > 0 && m >= n {
      MulLe(t, n, m);
    }
  }

  /** `int(n / d)` for n >= 0 leaves a remainder in [0, d). */
  lemma IntPartRemainder(n: int, d: int)
    requires d > 0 && n >= 0
    ensures 0 <= IntPart(n, d) && 0 <= n - d * IntPart(n, d) < d
  {
    var f := IntPart(n, d);
    assert (f + 1) * d == f * d + d;
  }

  lemma Scaled(t: int, m: int, a: int, f: int, r: int)
    requires m == a - f && r == a * t - t * f
    ensures t * m == r
  {
    assert t * (a - f) == t * a - t * f;
  }

  lemma MulNonNeg(a: int, b: int)
    requires a >= 0 && b >= 0
    ensures a * b >= 0
  {
  }

  lemma {:induction false} SumBump(a: seq<int>, v: nat)
    requires v < |a|
    ensures SumInts(a[v := a[v] + 1]) == SumInts(a) + 1
  {
    if v == 0 {
      assert a[v := a[v] + 1][1..] == a[1..];
    } else {
      assert a[v := a[v] + 1][1..] == a[1..][v - 1 := a[1..][v - 1] + 1];
      SumBump(a[1..], v - 1);
    }
  }

  lemma {:induction false} SumIncr(alloc: seq<int>, ps: seq<nat>)
    requires forall q :: 0 <= q < |ps| ==> ps[q] < |alloc|
    ensures SumInts(Incr(alloc, ps)) == SumInts(alloc) + |ps|
  {
    if |ps| > 0 {
      SumIncr(alloc, ps[..|ps| - 1]);
      SumBump(Incr(alloc, ps[..|ps| - 1]), ps[|ps| - 1]);
    }
  }

  predicate Distinct(ps: seq<nat>) {
    forall p, q :: 0 <= p < q < |ps| ==> ps[p] != ps[q]
  }

  /** Each listed variant, listed once, gets exactly one more unit. */
  lemma {:induction false} IncrAt(alloc: seq<int>, ps: seq<nat>, k: nat)
    requires forall q :: 0 <= q < |ps| ==> ps[q] < |alloc|
    requires Distinct(ps) && k < |alloc|
    ensures Incr(alloc, ps)[k] == alloc[k] + (if k in ps then 1 else 0)
  {
    if |ps| > 0 {
      var init := ps[..|ps| - 1];
      var v := ps[|ps| - 1];
      IncrAt(alloc, init, k);
      assert ps == init + [v];
      assert k in ps <==> k in init || k == v;
      if k == v {
        assert k !in init by {
          forall q | 0 <= q < |init|
            ensures init[q] != k
          {
            assert ps[q] != ps[|ps| - 1];
          }
        }
      }
    }
  }

  lemma {:induction false} SumPositive(st: seq<Stocked>, alloc: seq<int>)
    requires |st| == |alloc|
    requires forall k :: 0 <= k < |alloc| ==> alloc[k] >= 0
    ensures SumInts(Quantities(Positive(st, alloc))) == SumInts(alloc)
  {
    if |st| > 0 {
      var n := |st|;
      var s := Positive(st[..n - 1], alloc[..n - 1]);
      SumPositive(st[..n - 1], alloc[..n - 1]);
      assert alloc == alloc[..n - 1] + [alloc[n - 1]];
      SumAppend(alloc[..n - 1], [alloc[n - 1]]);
      if alloc[n - 1] > 0 {
        var x := Allocation(st[n - 1].variant, alloc[n - 1]);
        assert Positive(st, alloc) == s + [x];
        QuantitiesAppend(s, x);
      } else {
        assert Positive(st, alloc) == s;
      }
    }
  }

  lemma QuantitiesAppend(s: seq<Allocation>, x: Allocation)
    ensures SumInts(Quantities(s + [x])) == SumInts(Quantities(s)) + x.quantity
  {
    assert Quantities(s + [x]) == Quantities(s) + [x.quantity];
    SumAppend(Quantities(s), [x.quantity]);
  }

  /** Every positive entry is returned. */
  lemma {:induction false} PositiveKeeps(st: seq<Stocked>, alloc: seq<int>, k: nat)
    requires |st| == |alloc| && k < |st| && alloc[k] > 0
    ensures Allocation(st[k].variant, alloc[k]) in Positive(st, alloc)
  {
    var n := |st|;
    if k < n - 1 {
      PositiveKeeps(st[..n - 1], alloc[..n - 1], k);
    }
  }

  /** The pairs are listed in strictly increasing variant order, so each variant once. */
  predicate VariantsIncrease(r: seq<Allocation>) {
    forall i, j :: 0 <= i < j < |r| ==> r[i].variant < r[j].variant
  }

  /** Keeping the positive pairs keeps the variant order of the stocked list. */
  lemma {:induction false} PositiveOrdered(st: seq<Stocked>, alloc: seq<int>)
    requires |st| == |alloc|
    requires forall k, l :: 0 <= k < l < |st| ==> st[k].variant < st[l].variant
    ensures VariantsIncrease(Positive(st, alloc))
  {
    var n := |st|;
    if n > 0 {
      var ist, ia := st[..n - 1], alloc[..n - 1];
      PositiveOrdered(ist, ia);
      var s := Positive(ist, ia);
      if alloc[n - 1] > 0 {
        var last := Allocation(st[n - 1].variant, alloc[n - 1]);
        forall i | 0 <= i < |s|
          ensures s[i].variant < last.variant
        {
          var k :| 0 <= k < n - 1 && s[i] == Allocation(ist[k].variant, ia[k]);
          assert ist[k] == st[k];
        }
        AppendIncreases(s, last);
      }
    }
  }

  lemma AppendIncreases(s: seq<Allocation>, last: Allocation)
    requires VariantsIncrease(s)
    requires forall i :: 0 <= i < |s| ==> s[i].variant < last.variant
    ensures VariantsIncrease(s + [last])
  {
    var r := s + [last];
    forall i, j | 0 <= i < j < |r|
      ensures r[i].variant < r[j].variant
    {
      assert r[i] == s[i];
      if j < |s| {
        assert r[j] == s[j];
      }
    }
  }

  /** What is returned lists each variant once, in strictly increasing variant order. */
  lemma PackOrdered(avail: seq<int>, pack: int)
    ensures VariantsIncrease(PackFor(avail, pack))
  {
    var st := InStock(avail);
    if |avail| > 0 && SumInts(Stocks(st)) != 0 {
      StocksPositiveSum(st);
      PositiveOrdered(st, Apportion(st, pack).alloc);
    }
  }

  /** For a pack size that is not negative: the quotas' integer parts and remainders. */
  lemma Quotas(st: seq<Stocked>, pack: int, k: nat)
    requires SumInts(Stocks(st)) > 0 && pack >= 0 && k < |st|
    requires forall i :: 0 <= i < |st| ==> st[i].stock > 0
    ensures var ap := Apportion(st, pack); var t := SumInts(Stocks(st));
      && 0 <= ap.actual <= t
      && 0 <= ap.floors[k]
      && ap.rems[k] == ap.actual * st[k].stock - t * ap.floors[k]
      && 0 <= ap.rems[k] < t
  {
    var ap := Apportion(st, pack);
    var t := SumInts(Stocks(st));
    var sh := Shares(st, ap.actual);
    assert 0 <= ap.actual <= t;
    MulNonNeg(ap.actual, st[k].stock);
    assert ap.floors[k] == IntPart(sh[k], t);
    IntPartRemainder(sh[k], t);
  }

  /** The units left over: as many as the remainders add up to, fewer than the variants,
      and all of them handed out by the slice. */
  lemma Remaining(st: seq<Stocked>, pack: int)
    requires SumInts(Stocks(st)) > 0 && pack >= 0
    requires forall i :: 0 <= i < |st| ==> st[i].stock > 0
    ensures var ap := Apportion(st, pack);
      && 0 <= ap.remaining && (ap.remaining < |st| || ap.remaining == 0)
      && ap.end == ap.remaining
      && SumInts(Stocks(st)) * ap.remaining == SumInts(ap.rems)
  {
    var ap := Apportion(st, pack);
    var t := SumInts(Stocks(st));
    SumShares(st, ap.actual);
    SumDiff(Shares(st, ap.actual), ap.floors, t);
    forall k | 0 <= k < |st|
      ensures 0 <= ap.rems[k] < t
    {
      Quotas(st, pack, k);
    }
    SumBelow(ap.rems, t);
    Scaled(t, ap.remaining, ap.actual, SumInts(ap.floors), SumInts(ap.rems));
    Leftover(t, ap.remaining, SumInts(ap.rems), |st|);
  }

  /** The allocation before the filter: the integer part, plus one for exactly the first
      `remaining` variants by remainder. */
  lemma AllocationShape(st: seq<Stocked>, pack: int, k: nat)
    requires SumInts(Stocks(st)) > 0 && pack >= 0 && k < |st|
    requires forall i :: 0 <= i < |st| ==> st[i].stock > 0
    ensures var ap := Apportion(st, pack);
      && |ap.order[..ap.end]| == ap.remaining
      && ap.alloc[k] == ap.floors[k] + (if k in ap.order[..ap.end] then 1 else 0)
  {
    var ap := Apportion(st, pack);
    Remaining(st, pack);
    var pre := ap.order[..ap.end];
    assert Distinct(ap.order);
    PrefixDistinct(ap.order, ap.end);
    IncrAt(ap.floors, pre, k);
  }

  lemma PrefixDistinct(ps: seq<nat>, e: nat)
    requires Distinct(ps) && e <= |ps|
    ensures Distinct(ps[..e])
  {
    var pre := ps[..e];
    forall p, q | 0 <= p < q < |pre|
      ensures pre[p] != pre[q]
    {
      assert pre[p] == ps[p] && pre[q] == ps[q];
    }
  }

  /** Line 75 sees every unit: the pack is filled up to the available stock. */
  lemma AllocatedTotal(st: seq<Stocked>, pack: int)
    requires SumInts(Stocks(st)) > 0 && pack >= 0
    requires forall i :: 0 <= i < |st| ==> st[i].stock > 0
    ensures SumInts(Apportion(st, pack).alloc) == Min(pack, SumInts(Stocks(st)))
    ensures forall k :: 0 <= k < |st| ==> Apportion(st, pack).alloc[k] >= 0
  {
    AllocatedSum(st, pack);
    AllocatedNonNegative(st, pack);
  }

  lemma AllocatedSum(st: seq<Stocked>, pack: int)
    requires SumInts(Stocks(st)) > 0 && pack >= 0
    requires forall i :: 0 <= i < |st| ==> st[i].stock > 0
    ensures SumInts(Apportion(st, pack).alloc) == Min(pack, SumInts(Stocks(st)))
  {
    var ap := Apportion(st, pack);
    RemainingServed(st, pack);
    ServedSum(ap, |st|);
  }

  /** Adding one unit per served position gives the floors plus what was left over. */
  lemma ServedSum(ap: Apportionment, n: int)
    requires ap.end <= |ap.order| && forall q :: 0 <= q < |ap.order| ==> ap.order[q] < n
    requires |ap.floors| == n && |ap.order[..ap.end]| == ap.remaining
    requires ap.remaining == ap.actual - SumInts(ap.floors)
    requires ap.alloc == Incr(ap.floors, ap.order[..ap.end])
    ensures SumInts(ap.alloc) == ap.actual
  {
    var pre := ap.order[..ap.end];
    SumIncr(ap.floors, pre);
  }

  /** The slice hands out exactly the units left over. */
  lemma RemainingServed(st: seq<Stocked>, pack: int)
    requires SumInts(Stocks(st)) > 0 && pack >= 0
    requires forall i :: 0 <= i < |st| ==> st[i].stock > 0
    ensures var ap := Apportion(st, pack); |ap.order[..ap.end]| == ap.remaining
  {
    Remaining(st, pack);
  }

  lemma AllocatedNonNegative(st: seq<Stocked>, pack: int)
    requires SumInts(Stocks(st)) > 0 && pack >= 0
    requires forall i :: 0 <= i < |st| ==> st[i].stock > 0
    ensures forall k :: 0 <= k < |st| ==> Apportion(st, pack).alloc[k] >= 0
  {
    var ap := Apportion(st, pack);
    forall k | 0 <= k < |st|
      ensures ap.alloc[k] >= 0
    {
      Quotas(st, pack, k);
      AllocationShape(st, pack, k);
    }
  }

  /** The total handed back is the pack size, or all that is available when that is less. */
  lemma PackTotal(avail: seq<int>, pack: int)
    requires pack >= 0
    ensures SumInts(Quantities(PackFor(avail, pack))) == Min(pack, SumInts(Stocks(InStock(avail))))
  {
    var st := InStock(avail);
    StocksPositiveSum(st);
    if |avail| == 0 || SumInts(Stocks(st)) == 0 {
      assert |avail| == 0 ==> st == [];
    } else {
      AllocatedTotal(st, pack);
      SumPositive(st, Apportion(st, pack).alloc);
    }
  }

  /** The extra units go to the largest remainders; of two variants with equal remainders,
      the earlier one is served first. */
  lemma LargestRemainders(st: seq<Stocked>, pack: int, k: nat, j: nat)
    requires SumInts(Stocks(st)) > 0 && pack >= 0 && k < |st| && j < |st|
    requires forall i :: 0 <= i < |st| ==> st[i].stock > 0
    requires Apportion(st, pack).alloc[k] > Apportion(st, pack).floors[k]
    requires Apportion(st, pack).alloc[j] == Apportion(st, pack).floors[j]
    ensures Apportion(st, pack).rems[k] >= Apportion(st, pack).rems[j]
    ensures Apportion(st, pack).rems[k] == Apportion(st, pack).rems[j] ==> k < j
  {
    var ap := Apportion(st, pack);
    AllocationShape(st, pack, k);
    AllocationShape(st, pack, j);
    ServedFirst(ap.order, ap.rems, ap.end, k, j);
  }

  /** In a list of positions sorted by descending key, a position among the first `end`
      has a key at least that of a position after them, and comes earlier on a tie. */
  lemma ServedFirst(order: seq<nat>, keys: seq<int>, end: nat, k: nat, j: nat)
    requires |order| <= |keys| && SortedPositions(order, keys, |order|) && end <= |order|
    requires j < |order| && k in order[..end] && j !in order[..end]
    ensures keys[k] >= keys[j] && (keys[k] == keys[j] ==> k < j)
  {
    var pre := order[..end];
    var p :| 0 <= p < |pre| && pre[p] == k;
    assert Appears(order, j);
    var q :| 0 <= q < |order| && order[q] == j;
    assert forall i :: 0 <= i < |pre| ==> order[i] == pre[i];
    assert p < q;
  }

  /** Every variant gets the integer part of its quota or one unit more. */
  lemma FloorOrCeiling(st: seq<Stocked>, pack: int, k: nat)
    requires SumInts(Stocks(st)) > 0 && pack >= 0 && k < |st|
    requires forall i :: 0 <= i < |st| ==> st[i].stock > 0
    ensures var ap := Apportion(st, pack);
      ap.alloc[k] == ap.floors[k] || ap.alloc[k] == ap.floors[k] + 1
  {
    AllocationShape(st, pack, k);
  }

  /** An integer part of a * s / t with a < t is below s. */
  lemma FloorBelowStock(t: int, a: int, s: int, f: int)
    requires 0 <= a < t && s > 0 && 0 <= a * s - t * f
    ensures f < s
  {
    MulLe(s, a, t - 1);
    assert t * f <= a * s <= s * (t - 1);
    if f >= s {
      MulLe(t, s, f);
    }
  }

  /** The integer part of t * s / t is s. */
  lemma FloorWhole(t: int, s: int, f: int)
    requires t > 0 && 0 <= t * s - t * f < t
    ensures f == s
  {
    assert t * s - t * f == t * (s - f);
    if s - f >= 1 {
      MulLe(t, 1, s - f);
    }
    if s - f <= -1 {
      MulLe(t, s - f, -1);
    }
  }

  /** "If stock runs out only allocate what is available": no variant gets more than its
      stock, and a pack at least as large as the stock takes all of it. */
  lemma WithinStock(st: seq<Stocked>, pack: int, k: nat)
    requires SumInts(Stocks(st)) > 0 && pack >= 0 && k < |st|
    requires forall i :: 0 <= i < |st| ==> st[i].stock > 0
    ensures Apportion(st, pack).alloc[k] <= st[k].stock
    ensures pack >= SumInts(Stocks(st)) ==> Apportion(st, pack).alloc[k] == st[k].stock
  {
    var ap := Apportion(st, pack);
    var t := SumInts(Stocks(st));
    Quotas(st, pack, k);
    AllocationShape(st, pack, k);
    if ap.actual < t {
      FloorBelowStock(t, ap.actual, st[k].stock, ap.floors[k]);
    } else {
      forall i | 0 <= i < |st|
        ensures ap.floors[i] == st[i].stock && ap.rems[i] == 0
      {
        Quotas(st, pack, i);
        FloorWhole(t, st[i].stock, ap.floors[i]);
      }
      Remaining(st, pack);
      ZeroSum(ap.rems);
      ZeroProduct(t, ap.remaining);
    }
  }

  lemma ZeroProduct(t: int, m: int)
    requires t > 0 && t * m == 0
    ensures m == 0
  {
  }

  lemma {:induction false} ZeroSum(xs: seq<int>)
    requires forall i :: 0 <= i < |xs| ==> xs[i] == 0
    ensures SumInts(xs) == 0
  {
    if |xs| > 0 {
      ZeroSum(xs[1..]);
    }
  }

  /** What is returned, for any availabilities and a pack size that is not negative: only
      variants with stock, never more than its stock, each once and in strictly increasing
      variant order. */
  lemma PackEntries(avail: seq<int>, pack: int)
    requires pack >= 0
    ensures var r := PackFor(avail, pack);
      forall i :: 0 <= i < |r| ==>
        && r[i].variant < |avail| && 0 < r[i].quantity <= avail[r[i].variant]
    ensures VariantsIncrease(PackFor(avail, pack))
  {
    var st := InStock(avail);
    var r := PackFor(avail, pack);
    PackOrdered(avail, pack);
    StocksPositiveSum(st);
    if |avail| > 0 && SumInts(Stocks(st)) != 0 {
      forall i | 0 <= i < |r|
        ensures r[i].variant < |avail| && 0 < r[i].quantity <= avail[r[i].variant]
      {
        var k :| 0 <= k < |st| && r[i] == Allocation(st[k].variant, Apportion(st, pack).alloc[k]);
        WithinStock(st, pack, k);
      }
    }
  }

  /** A variant with stock gets a unit whenever its quota's integer part is positive. */
  lemma QuotaServed(avail: seq<int>, pack: int, k: nat)
    requires pack >= 0
    requires var st := InStock(avail); k < |st| && SumInts(Stocks(st)) > 0
    requires var st := InStock(avail); Apportion(st, pack).floors[k] > 0
    ensures var st := InStock(avail);
      Allocation(st[k].variant, Apportion(st, pack).alloc[k]) in PackFor(avail, pack)
  {
    var st := InStock(avail);
    AllocationShape(st, pack, k);
    PositiveKeeps(st, Apportion(st, pack).alloc, k);
  }

  lemma {:induction false} InStockEmpty(avail: seq<int>)
    requires forall v :: 0 <= v < |avail| ==> avail[v] <= 0
    ensures InStock(avail) == []
  {
    if |avail| > 0 {
      InStockEmpty(avail[..|avail| - 1]);
    }
  }

  /** No variants, or none with stock: nothing. */
  lemma NothingAvailable(avail: seq<int>, pack: int)
    requires forall v :: 0 <= v < |avail| ==> avail[v] <= 0
    ensures PackFor(avail, pack) == []
  {
    InStockEmpty(avail);
  }

  /** The allocation with the evidently intended reading of a pack size: one that is not
      positive asks for nothing. The preview resolver passes its argument through unchecked;
      this is the function it is modelled with. */
  function FairPack(avail: seq<int>, pack: int): (r: seq<Allocation>)
    ensures pack <= 0 ==> r == []
    ensures pack > 0 ==> r == PackFor(avail, pack)
  {
    if pack <= 0 then [] else PackFor(avail, pack)
  }

  /** For every pack size, the total handed out is the pack size clamped to [0, stock]. */
  lemma FairPackTotal(avail: seq<int>, pack: int)
    ensures SumInts(Quantities(FairPack(avail, pack))) == Min(Max(pack, 0), SumInts(Stocks(InStock(avail))))
  {
    var st := InStock(avail);
    StocksPositiveSum(st);
    if pack > 0 {
      PackTotal(avail, pack);
    } else {
      assert Quantities([]) == [];
    }
  }

  /** For every pack size, only variants with stock, never more than their stock. */
  lemma FairPackEntries(avail: seq<int>, pack: int)
    ensures var r := FairPack(avail, pack);
      forall i :: 0 <= i < |r| ==>
        && r[i].variant < |avail| && 0 < r[i].quantity <= avail[r[i].variant]
  {
    if pack > 0 {
      PackEntries(avail, pack);
      assert FairPack(avail, pack) == PackFor(avail, pack);
    } else {
      assert FairPack(avail, pack) == [];
    }
  }
}
