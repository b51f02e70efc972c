/** Worked examples of saleor/checkout/pack_utils.py, computed step by step: the docstring's
    pack of 10 over 5 smalls, 10 mediums and 40 larges, and a negative pack size that still
    hands out a unit. */
module PackExamples {
  import opened Wrappers
  import opened Sums
  import opened PackUtils
  lemma {:induction false} IncrOne(alloc: seq<int>, v: nat)
    requires v < |alloc|
    ensures Incr(alloc, [v]) == alloc[v := alloc[v] + 1]
  {
    assert [v][..0] == [];
  }
  lemma DocStockPrefix(a: int, b: int)
    requires a > 0 && b > 0
    ensures InStock([a, b]) == [Stocked(0, a), Stocked(1, b)]
  {
    var avail := [a, b];
    InStockStep(avail, 1);
    assert avail[..2] == avail && avail[..1] == [a];
    DocStockFirst(a);
  }
  lemma DocStockFirst(a: int)
    requires a > 0
    ensures InStock([a]) == [Stocked(0, a)]
  {
    assert [a][..0] == [];
  }
  lemma DocStock()
    ensures InStock([5, 10, 40]) == [Stocked(0, 5), Stocked(1, 10), Stocked(2, 40)]
  {
    assert [5, 10, 40][..2] == [5, 10];
    DocStockPrefix(5, 10);
  }
  lemma DocTotal()
    ensures SumInts(Stocks([Stocked(0, 5), Stocked(1, 10), Stocked(2, 40)])) == 55
  {
    assert Stocks([Stocked(0, 5), Stocked(1, 10), Stocked(2, 40)]) == [5, 10, 40];
    assert [5, 10, 40][1..] == [10, 40];
    assert [10, 40][1..] == [40];
    assert [40][1..] == [];
  }
  lemma DocFloors()
    ensures SumInts(Stocks([Stocked(0, 5), Stocked(1, 10), Stocked(2, 40)])) == 55
    ensures var ap := Apportion([Stocked(0, 5), Stocked(1, 10), Stocked(2, 40)], 10);
      ap.floors == [0, 1, 7] && ap.rems == [50, 45, 15]
  {
    DocTotal();
    DocShares();
    DocQuotas();
  }
  lemma DocShares()
    ensures Shares([Stocked(0, 5), Stocked(1, 10), Stocked(2, 40)], 10) == [50, 100, 400]
  {
    var sh := Shares([Stocked(0, 5), Stocked(1, 10), Stocked(2, 40)], 10);
    assert sh[0] == 50 && sh[1] == 100 && sh[2] == 400;
  }
  lemma DocQuotas()
    ensures Floors([50, 100, 400], 55) == [0, 1, 7]
    ensures Diff([50, 100, 400], [0, 1, 7], 55) == [50, 45, 15]
  {
    var f := Floors([50, 100, 400], 55);
    assert IntPart(50, 55) == 0 && IntPart(100, 55) == 1 && IntPart(400, 55) == 7;
    assert f[0] == 0 && f[1] == 1 && f[2] == 7;
    var d := Diff([50, 100, 400], [0, 1, 7], 55);
    assert d[0] == 50 && d[1] == 45 && d[2] == 15;
  }
  lemma DocRemaining()
    ensures SumInts(Stocks([Stocked(0, 5), Stocked(1, 10), Stocked(2, 40)])) == 55
    ensures Apportion([Stocked(0, 5), Stocked(1, 10), Stocked(2, 40)], 10).remaining == 2
  {
    DocFloors();
    assert [0, 1, 7][1..] == [1, 7];
    assert [1, 7][1..] == [7];
    assert [7][1..] == [];
    assert SumInts([0, 1, 7]) == 8;
  }
  lemma DocOrderPrefix()
    ensures SortDesc([50, 45, 15], 2) == [0, 1]
  {
    var keys := [50, 45, 15];
    assert SortDesc(keys, 1) == [0];
    assert InsertPos([0], 45, keys) == 1;
  }
  lemma DocOrder()
    ensures SortDesc([50, 45, 15], 3) == [0, 1, 2]
  {
    var keys := [50, 45, 15];
    DocOrderPrefix();
    assert InsertPos([0, 1], 15, keys) == 2;
    assert SortDesc(keys, 3) == InsertAt([0, 1], 2, 2);
  }
  lemma DocIncr()
    ensures Incr([0, 1, 7], [0, 1]) == [1, 2, 7]
  {
    IncrOne([0, 1, 7], 0);
    assert [0, 1][..1] == [0];
  }
  lemma DocSorted()
    ensures SumInts(Stocks([Stocked(0, 5), Stocked(1, 10), Stocked(2, 40)])) == 55
    ensures Apportion([Stocked(0, 5), Stocked(1, 10), Stocked(2, 40)], 10).order == [0, 1, 2]
  {
    DocFloors();
    DocOrder();
  }
  lemma DocSlice()
    ensures SumInts(Stocks([Stocked(0, 5), Stocked(1, 10), Stocked(2, 40)])) == 55
    ensures var ap := Apportion([Stocked(0, 5), Stocked(1, 10), Stocked(2, 40)], 10);
      ap.order[..ap.end] == [0, 1]
  {
    DocRemaining();
    DocSorted();
  }
  lemma DocApportion()
    ensures SumInts(Stocks([Stocked(0, 5), Stocked(1, 10), Stocked(2, 40)])) == 55
    ensures Apportion([Stocked(0, 5), Stocked(1, 10), Stocked(2, 40)], 10).alloc == [1, 2, 7]
  {
    DocFloors();
    DocSlice();
    DocIncr();
  }
  lemma DocPositive()
    ensures Positive([Stocked(0, 5), Stocked(1, 10), Stocked(2, 40)], [1, 2, 7])
      == [Allocation(0, 1), Allocation(1, 2), Allocation(2, 7)]
  {
    var st := [Stocked(0, 5), Stocked(1, 10), Stocked(2, 40)];
    assert st[..2] == [Stocked(0, 5), Stocked(1, 10)] && [1, 2, 7][..2] == [1, 2];
    assert st[..2][..1] == [Stocked(0, 5)] && [1, 2][..1] == [1];
    assert [Stocked(0, 5)][..0] == [] && [1][..0] == [];
    assert Positive([Stocked(0, 5)], [1]) == [Allocation(0, 1)];
    assert Positive(st[..2], [1, 2]) == [Allocation(0, 1), Allocation(1, 2)];
  }
  /** The docstring example, pack of 10: (small, 1), (medium, 2), (large, 7). */
  lemma DocExample()
    ensures PackFor([5, 10, 40], 10) == [Allocation(0, 1), Allocation(1, 2), Allocation(2, 7)]
  {
    DocStock();
    DocApportion();
    DocPositive();
  }

  lemma NegStockPrefix()
    ensures InStock([5]) == [Stocked(0, 5)]
  {
    assert [5][..0] == [];
  }

  lemma NegStock()
    ensures InStock([5, 5]) == [Stocked(0, 5), Stocked(1, 5)]
  {
    assert [5, 5][..1] == [5];
    NegStockPrefix();
  }

  lemma NegTotal()
    ensures SumInts(Stocks([Stocked(0, 5), Stocked(1, 5)])) == 10
  {
    assert Stocks([Stocked(0, 5), Stocked(1, 5)]) == [5, 5];
    assert [5, 5][1..] == [5] && [5][1..] == [];
  }

  lemma NegFloors()
    ensures SumInts(Stocks([Stocked(0, 5), Stocked(1, 5)])) == 10
    ensures var ap := Apportion([Stocked(0, 5), Stocked(1, 5)], -1);
      ap.floors == [0, 0] && ap.rems == [-5, -5]
  {
    var st := [Stocked(0, 5), Stocked(1, 5)];
    NegTotal();
    var ap := Apportion(st, -1);
    assert ap.actual == -1;
    assert Shares(st, -1) == [-5, -5];
  }

  lemma NegRemaining()
    ensures SumInts(Stocks([Stocked(0, 5), Stocked(1, 5)])) == 10
    ensures Apportion([Stocked(0, 5), Stocked(1, 5)], -1).remaining == -1
  {
    NegFloors();
    assert [0, 0][1..] == [0] && [0][1..] == [];
    assert SumInts([0, 0]) == 0;
  }

  lemma NegOrder()
    ensures SortDesc([-5, -5], 2) == [0, 1]
  {
    assert SortDesc([-5, -5], 1) == [0];
  }

  lemma NegSorted()
    ensures SumInts(Stocks([Stocked(0, 5), Stocked(1, 5)])) == 10
    ensures Apportion([Stocked(0, 5), Stocked(1, 5)], -1).order == [0, 1]
  {
    NegFloors();
    NegOrder();
  }

  /** `sorted_by_remainder[:-1]` keeps one of the two variants. */
  lemma NegSlice()
    ensures SumInts(Stocks([Stocked(0, 5), Stocked(1, 5)])) == 10
    ensures var ap := Apportion([Stocked(0, 5), Stocked(1, 5)], -1);
      ap.order[..ap.end] == [0]
  {
    NegRemaining();
    NegSorted();
  }

  lemma NegApportion()
    ensures SumInts(Stocks([Stocked(0, 5), Stocked(1, 5)])) == 10
    ensures Apportion([Stocked(0, 5), Stocked(1, 5)], -1).alloc == [1, 0]
  {
    NegFloors();
    NegSlice();
    IncrOne([0, 0], 0);
  }

  lemma NegPositive()
    ensures Positive([Stocked(0, 5), Stocked(1, 5)], [1, 0]) == [Allocation(0, 1)]
  {
    assert [Stocked(0, 5), Stocked(1, 5)][..1] == [Stocked(0, 5)] && [1, 0][..1] == [1];
    assert [Stocked(0, 5)][..0] == [] && [1][..0] == [];
    assert Positive([Stocked(0, 5)], [1]) == [Allocation(0, 1)];
  }

  /** As written, a pack size of -1 over two variants of 5 units each allocates one unit:
      `int(-0.5)` is 0, `remaining` is -1, and `[:-1]` keeps the first variant. */
  lemma NegativePackAllocatesAsWritten()
    ensures PackFor([5, 5], -1) == [Allocation(0, 1)]
  {
    NegStock();
    NegApportion();
    NegPositive();
  }
}
