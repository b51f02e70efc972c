/** Grouping a sequence by a key into an insertion-ordered dictionary of lists, the
    `defaultdict(list)` idiom `key_to_products[key].append(product)` of
    saleor/product/ingestion.py. The keys are listed in the order they first occur. */
module Grouping {

  /** The elements whose key is `k`, in order. */
  function Filter<K(==,!new), V>(vs: seq<V>, key: V -> K, k: K): (r: seq<V>)
    ensures |r| <= |vs|
    ensures forall x :: x in r ==> key(x) == k
  {
    if vs == [] then []
    else Filter(vs[..|vs| - 1], key, k) + (if key(vs[|vs| - 1]) == k then [vs[|vs| - 1]] else [])
  }

  /** The grouping loop: the keys in order of first occurrence, and each key's list. */
  function GroupBy<K(==,!new), V>(vs: seq<V>, key: V -> K): (r: (seq<K>, map<K, seq<V>>))
  {
    if vs == [] then ([], map[])
    else
      var g := GroupBy(vs[..|vs| - 1], key);
      var x := vs[|vs| - 1];
      if key(x) in g.1 then (g.0, g.1[key(x) := g.1[key(x)] + [x]])
      else (g.0 + [key(x)], g.1[key(x) := [x]])
  }

  ghost predicate Distinct<K>(ks: seq<K>) {
    forall i, j :: 0 <= i < j < |ks| ==> ks[i] != ks[j]
  }

  /** Some two elements share a key. */
  ghost predicate HasRepeat<K, V>(vs: seq<V>, key: V -> K) {
    exists i, j :: 0 <= i < j < |vs| && key(vs[i]) == key(vs[j])
  }

  /** The keys that occur more than once, in order. */
  function Repeated<K(==,!new), V>(ks: seq<K>, gs: map<K, seq<V>>): (r: seq<K>)
    ensures forall k :: k in r <==> k in ks && k in gs && |gs[k]| > 1
  {
    if ks == [] then []
    else
      var k := ks[|ks| - 1];
      Repeated(ks[..|ks| - 1], gs) + (if k in gs && |gs[k]| > 1 then [k] else [])
  }

  /** The grouping lists every key once, in the dictionary and in the key list alike, and
      each key's list is exactly the elements with that key, in their order. */
  lemma {:induction false} GroupByShape<K(!new), V>(vs: seq<V>, key: V -> K)
    ensures var g := GroupBy(vs, key);
      && Distinct(g.0)
      && (forall k :: k in g.1 <==> k in g.0)
      && (forall k :: k in g.1 ==> g.1[k] == Filter(vs, key, k) && g.1[k] != [])
  {
    if vs != [] {
      var init := vs[..|vs| - 1];
      GroupByShape(init, key);
      var x := vs[|vs| - 1];
      var g := GroupBy(init, key);
      forall k | k !in g.1
        ensures Filter(init, key, k) == []
      {
        FilterEmpty(init, key, k);
      }
    }
  }

  /** No element with key `k` gives no list, and the other way round. */
  lemma {:induction false} FilterEmpty<K(!new), V>(vs: seq<V>, key: V -> K, k: K)
    ensures Filter(vs, key, k) == [] <==> forall i :: 0 <= i < |vs| ==> key(vs[i]) != k
    ensures k !in GroupBy(vs, key).1 <==> Filter(vs, key, k) == []
  {
    if vs != [] {
      var init := vs[..|vs| - 1];
      FilterEmpty(init, key, k);
      assert forall i :: 0 <= i < |init| ==> init[i] == vs[i];
    }
  }

  /** A key's list has two elements exactly when two elements share that key. */
  lemma {:induction false} FilterTwice<K(!new), V>(vs: seq<V>, key: V -> K, k: K)
    ensures |Filter(vs, key, k)| > 1 <==>
      exists i, j :: 0 <= i < j < |vs| && key(vs[i]) == k && key(vs[j]) == k
  {
    if vs != [] {
      var init := vs[..|vs| - 1];
      var n := |vs| - 1;
      FilterTwice(init, key, k);
      FilterEmpty(init, key, k);
      assert forall i :: 0 <= i < |init| ==> init[i] == vs[i];
      if exists i, j :: 0 <= i < j < |vs| && key(vs[i]) == k && key(vs[j]) == k {
        var i, j :| 0 <= i < j < |vs| && key(vs[i]) == k && key(vs[j]) == k;
        if j < n {
          assert key(init[i]) == k && key(init[j]) == k;
        } else {
          assert key(init[i]) == k;
        }
      }
      if |Filter(vs, key, k)| > 1 && key(vs[n]) == k && |Filter(init, key, k)| <= 1 {
        var i :| 0 <= i < |init| && key(init[i]) == k;
        assert key(vs[i]) == k && key(vs[n]) == k && i < n;
      }
    }
  }

  /** Some key is repeated exactly when two elements share a key. */
  lemma RepeatedIff<K(!new), V>(vs: seq<V>, key: V -> K)
    ensures var g := GroupBy(vs, key); Repeated(g.0, g.1) != [] <==> HasRepeat(vs, key)
  {
    var g := GroupBy(vs, key);
    GroupByShape(vs, key);
    if Repeated(g.0, g.1) != [] {
      var k := Repeated(g.0, g.1)[0];
      assert k in Repeated(g.0, g.1);
      FilterTwice(vs, key, k);
    }
    if HasRepeat(vs, key) {
      var i, j :| 0 <= i < j < |vs| && key(vs[i]) == key(vs[j]);
      var k := key(vs[i]);
      FilterTwice(vs, key, k);
      FilterEmpty(vs, key, k);
      assert k in Repeated(g.0, g.1);
    }
  }

  /** The grouping loop as the source writes it. */
  method GroupLoop<K(==,!new), V>(vs: seq<V>, key: V -> K) returns (ks: seq<K>, gs: map<K, seq<V>>)
    ensures (ks, gs) == GroupBy(vs, key)
  {
    ks, gs := [], map[];
    for i := 0 to |vs|
      invariant (ks, gs) == GroupBy(vs[..i], key)
    {
      assert vs[..i + 1][..i] == vs[..i];
      var x := vs[i];
      if key(x) in gs {
        gs := gs[key(x) := gs[key(x)] + [x]];
      } else {
        ks := ks + [key(x)];
        gs := gs[key(x) := [x]];
      }
    }
    assert vs[..|vs|] == vs;
  }
}
