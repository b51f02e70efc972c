/** saleor/product/management/commands/merge_products.py: the `merge_products` command moves
    everything that refers to a source product onto a target product and deletes the
    source. `auto-merge` finds the groups of products sharing a lower-cased (product code,
    brand) and merges each group into one product of it. Rows the database keys by
    something (a language, a channel, a collection, an attribute value, a warehouse) move
    only when the target has none for that key; the source's other rows go with it when it
    is deleted. */
module MergeProducts {
  import opened Wrappers
  import opened Text
  import opened WarehouseRecords

  datatype MergeError =
    | SameProduct
    | SourceNotFound(sourceId: int)
    | TargetNotFound(targetId: int)
    | SharedWarehouseAllocated(sourceVariant: int, targetVariant: int, warehouses: set<int>)

  /** `_handle_merge`'s checks, in order, against the products that exist. */
  function CheckMerge(sourceId: int, targetId: int, products: set<int>): (r: Result<(), MergeError>)
    ensures r.Ok? <==> sourceId != targetId && sourceId in products && targetId in products
    ensures sourceId == targetId ==> r == Err(SameProduct)
    ensures sourceId != targetId && sourceId !in products ==> r == Err(SourceNotFound(sourceId))
  {
    if sourceId == targetId then Err(SameProduct)
    else if sourceId !in products then Err(SourceNotFound(sourceId))
    else if targetId !in products then Err(TargetNotFound(targetId))
    else Ok(())
  }

  // Duplicate groups

  /** `codes` and `brands` are the product-code and brand value names per product; the
      grouping ignores blank names, and a product needs both. */
  ghost predicate Named(codes: map<int, string>, brands: map<int, string>, p: int) {
    p in codes && p in brands && codes[p] != "" && brands[p] != ""
  }

  /** The products of a group: both names present, equal to the key when lower-cased. */
  ghost function Members(codes: map<int, string>, brands: map<int, string>, key: (string, string)): set<int> {
    set p | p in codes && p in brands && codes[p] != "" && brands[p] != ""
      && Lower(codes[p]) == key.0 && Lower(brands[p]) == key.1
  }

  /** `_find_duplicate_groups`: the groups of more than one product. */
  ghost function DuplicateGroups(codes: map<int, string>, brands: map<int, string>): map<(string, string), set<int>> {
    var keys := set p | p in codes && p in brands && codes[p] != "" && brands[p] != "" :: (Lower(codes[p]), Lower(brands[p]));
    map k | k in keys && |Members(codes, brands, k)| > 1 :: Members(codes, brands, k)
  }

  /** Two different products land in the same group exactly when their lower-cased code
      and brand agree; products with either name missing are in no group. */
  lemma GroupedIff(codes: map<int, string>, brands: map<int, string>, p: int, q: int)
    requires p != q
    ensures (exists k :: k in DuplicateGroups(codes, brands) && p in DuplicateGroups(codes, brands)[k]
                         && q in DuplicateGroups(codes, brands)[k])
      <==> Named(codes, brands, p) && Named(codes, brands, q)
           && Lower(codes[p]) == Lower(codes[q]) && Lower(brands[p]) == Lower(brands[q])
  {
    if Named(codes, brands, p) && Named(codes, brands, q)
       && Lower(codes[p]) == Lower(codes[q]) && Lower(brands[p]) == Lower(brands[q]) {
      var k := (Lower(codes[p]), Lower(brands[p]));
      var m := Members(codes, brands, k);
      assert p in m && q in m;
      assert {p, q} <= m;
      assert |{p, q}| == 2;
      SubsetCard({p, q}, m);
      assert k in DuplicateGroups(codes, brands);
    }
  }

  lemma SubsetCard<T>(a: set<T>, b: set<T>)
    requires a <= b
    ensures |a| <= |b|
  {
    assert b == a + (b - a);
  }

  /** The keys met among the products `ps`. */
  ghost function KeysIn(codes: map<int, string>, brands: map<int, string>, ps: set<int>): set<(string, string)> {
    set p | p in ps && p in codes && p in brands && codes[p] != "" && brands[p] != "" :: (Lower(codes[p]), Lower(brands[p]))
  }

  /** The groups built from the products `ps` so far, before the size filter. */
  ghost function GroupsIn(codes: map<int, string>, brands: map<int, string>, ps: set<int>): map<(string, string), set<int>> {
    map k | k in KeysIn(codes, brands, ps) :: Members(codes, brands, k) * ps
  }

  /** The loop body: a product with both names joins its key's group. */
  function AddProduct(found: map<(string, string), set<int>>, codes: map<int, string>, brands: map<int, string>, p: int):
    map<(string, string), set<int>>
  {
    if p in codes && p in brands && codes[p] != "" && brands[p] != "" then
      var key := (Lower(codes[p]), Lower(brands[p]));
      found[key := (if key in found then found[key] else {}) + {p}]
    else found
  }

  /** One product more: it is appended to its key's group, creating the group if need be. */
  lemma GroupsInStep(codes: map<int, string>, brands: map<int, string>, ps: set<int>, p: int)
    requires p !in ps
    ensures GroupsIn(codes, brands, ps + {p}) == AddProduct(GroupsIn(codes, brands, ps), codes, brands, p)
  {
    if Named(codes, brands, p) {
      NamedStep(codes, brands, ps, p);
    } else {
      UnnamedStep(codes, brands, ps, p);
    }
  }

  lemma NamedStep(codes: map<int, string>, brands: map<int, string>, ps: set<int>, p: int)
    requires p !in ps && Named(codes, brands, p)
    ensures GroupsIn(codes, brands, ps + {p}) == AddProduct(GroupsIn(codes, brands, ps), codes, brands, p)
  {
    var g := GroupsIn(codes, brands, ps);
    var g' := GroupsIn(codes, brands, ps + {p});
    var key := (Lower(codes[p]), Lower(brands[p]));
    var h := g[key := (if key in g then g[key] else {}) + {p}];
    assert AddProduct(g, codes, brands, p) == h;
    assert KeysIn(codes, brands, ps + {p}) == KeysIn(codes, brands, ps) + {key};
    forall k | k in g' ensures k in h && g'[k] == h[k] {
      MembersStep(codes, brands, ps, p, k);
      if k !in g {
        assert k !in KeysIn(codes, brands, ps);
        MembersMet(codes, brands, ps, k);
        assert forall q :: q !in Members(codes, brands, k) * ps;
      }
    }
    assert h.Keys == g'.Keys;
  }

  /** A product joins the members met so far of its own key only. */
  lemma MembersStep(codes: map<int, string>, brands: map<int, string>, ps: set<int>, p: int, k: (string, string))
    requires Named(codes, brands, p)
    ensures Members(codes, brands, k) * (ps + {p}) ==
      if k == (Lower(codes[p]), Lower(brands[p])) then Members(codes, brands, k) * ps + {p}
      else Members(codes, brands, k) * ps
  {
    if k == (Lower(codes[p]), Lower(brands[p])) {
      assert p in Members(codes, brands, k);
    } else {
      assert p !in Members(codes, brands, k);
    }
  }

  /** A key with members among `ps` is one of the keys met. */
  lemma MembersMet(codes: map<int, string>, brands: map<int, string>, ps: set<int>, k: (string, string))
    ensures forall q :: q in Members(codes, brands, k) && q in ps ==> k in KeysIn(codes, brands, ps)
  {
    forall q | q in Members(codes, brands, k) && q in ps ensures k in KeysIn(codes, brands, ps) {
      assert (Lower(codes[q]), Lower(brands[q])) == k;
    }
  }

  lemma UnnamedStep(codes: map<int, string>, brands: map<int, string>, ps: set<int>, p: int)
    requires p !in ps && !Named(codes, brands, p)
    ensures GroupsIn(codes, brands, ps + {p}) == AddProduct(GroupsIn(codes, brands, ps), codes, brands, p)
  {
    assert KeysIn(codes, brands, ps + {p}) == KeysIn(codes, brands, ps);
    forall k ensures Members(codes, brands, k) * (ps + {p}) == Members(codes, brands, k) * ps {
      assert p !in Members(codes, brands, k);
    }
  }

  lemma GroupsInEmpty(codes: map<int, string>, brands: map<int, string>)
    ensures GroupsIn(codes, brands, {}) == map[]
  {
    assert KeysIn(codes, brands, {}) == {};
  }

  /** The groups built by visiting the products in the order `order`. */
  function Visit(codes: map<int, string>, brands: map<int, string>, order: seq<int>): map<(string, string), set<int>> {
    if order == [] then map[]
    else AddProduct(Visit(codes, brands, order[..|order| - 1]), codes, brands, order[|order| - 1])
  }

  /** The visiting order does not matter: any order of distinct products gives the groups
      of the products visited. */
  lemma {:induction false} VisitIsGroupsIn(codes: map<int, string>, brands: map<int, string>, order: seq<int>)
    requires forall i, j :: 0 <= i < j < |order| ==> order[i] != order[j]
    ensures Visit(codes, brands, order) == GroupsIn(codes, brands, set p | p in order)
  {
    if order == [] {
      GroupsInEmpty(codes, brands);
      assert (set p | p in order) == {};
    } else {
      var front := order[..|order| - 1];
      var last := order[|order| - 1];
      VisitIsGroupsIn(codes, brands, front);
      assert (set p | p in order) == (set p | p in front) + {last};
      GroupsInStep(codes, brands, (set p | p in front), last);
    }
  }

  /** `_find_duplicate_groups`: the grouping loop over the products that have either
      name, then the size filter. `order` is the order in which the set of those products
      is iterated, which the result does not depend on. */
  method FindDuplicateGroups(codes: map<int, string>, brands: map<int, string>, order: seq<int>)
    returns (groups: map<(string, string), set<int>>)
    requires forall p :: p in order <==> p in codes || p in brands
    requires forall i, j :: 0 <= i < j < |order| ==> order[i] != order[j]
    ensures groups == DuplicateGroups(codes, brands)
  {
    var found: map<(string, string), set<int>> := map[];
    for i := 0 to |order|
      invariant found == Visit(codes, brands, order[..i])
    {
      found := AddProduct(found, codes, brands, order[i]);
      assert order[..i + 1][..i] == order[..i];
    }
    assert order[..|order|] == order;
    VisitIsGroupsIn(codes, brands, order);
    assert (set p | p in order) == codes.Keys + brands.Keys by {
      forall p ensures p in (set q | q in order) <==> p in codes.Keys + brands.Keys {
      }
    }
    groups := BigGroups(found);
    GroupsOfAll(codes, brands);
  }

  /** The size filter at the end of `_find_duplicate_groups`. */
  function BigGroups(g: map<(string, string), set<int>>): (r: map<(string, string), set<int>>)
    ensures forall k :: k in r <==> k in g && |g[k]| > 1
    ensures forall k :: k in r ==> r[k] == g[k]
  {
    map k | k in g && |g[k]| > 1 :: g[k]
  }

  lemma GroupsOfAll(codes: map<int, string>, brands: map<int, string>)
    ensures BigGroups(GroupsIn(codes, brands, codes.Keys + brands.Keys)) == DuplicateGroups(codes, brands)
  {
    var all := codes.Keys + brands.Keys;
    var g := GroupsIn(codes, brands, all);
    forall k | k in g ensures g[k] == Members(codes, brands, k) {
      MembersWithin(codes, brands, k);
    }
    KeysOfAll(codes, brands);
  }

  /** Every member of a group is one of the products. */
  lemma MembersWithin(codes: map<int, string>, brands: map<int, string>, k: (string, string))
    ensures Members(codes, brands, k) * (codes.Keys + brands.Keys) == Members(codes, brands, k)
  {
  }

  /** Every key of a product with both names is found among all the products. */
  lemma KeysOfAll(codes: map<int, string>, brands: map<int, string>)
    ensures KeysIn(codes, brands, codes.Keys + brands.Keys)
      == set p | p in codes && p in brands && codes[p] != "" && brands[p] != "" :: (Lower(codes[p]), Lower(brands[p]))
  {
  }

  // Picking the target

  /** A product of a group and whether any stock of its variants has allocations. */
  datatype Candidate = Candidate(pk: int, hasAllocations: bool)

  function MinPk(ps: seq<Candidate>): (r: Candidate)
    requires |ps| > 0
    ensures r in ps && forall c :: c in ps ==> r.pk <= c.pk
  {
    if |ps| == 1 then ps[0]
    else
      var m := MinPk(ps[1..]);
      assert forall c :: c in ps[1..] ==> c in ps;
      assert forall c :: c in ps ==> c == ps[0] || c in ps[1..];
      if ps[0].pk <= m.pk then ps[0] else m
  }

  function Allocated(ps: seq<Candidate>): (r: seq<Candidate>)
    ensures forall c :: c in r <==> c in ps && c.hasAllocations
  {
    if ps == [] then [] else (if ps[0].hasAllocations then [ps[0]] else []) + Allocated(ps[1..])
  }

  /** `_pick_target`: the first product in pk order with allocations, otherwise the lowest
      pk. */
  function PickTarget(ps: seq<Candidate>): Candidate
    requires |ps| > 0
  {
    var a := Allocated(ps);
    if a != [] then MinPk(a) else MinPk(ps)
  }

  /** The target is a product of the group; it has allocations whenever any product does,
      and no product with a lower pk has any; without allocations it is the lowest pk. */
  lemma PickTargetSpec(ps: seq<Candidate>)
    requires |ps| > 0
    ensures var t := PickTarget(ps);
      && t in ps
      && ((exists c :: c in ps && c.hasAllocations) ==> t.hasAllocations)
      && (forall c :: c in ps && c.pk < t.pk ==> !c.hasAllocations)
      && ((forall c :: c in ps ==> !c.hasAllocations) ==> forall c :: c in ps ==> t.pk <= c.pk)
  {
    var a := Allocated(ps);
    if a != [] {
      assert a[0] in a;
    }
  }

  // Matching variants

  /** A variant with the ids and the slugs of its attribute values. */
  datatype Variant = Variant(id: int, valueIds: set<int>, valueSlugs: set<string>)

  /** `_build_variant_slug_fingerprint`: the lower-cased slugs. */
  function SlugPrint(v: Variant): set<string> {
    set s | s in v.valueSlugs :: Lower(s)
  }

  /** A target dictionary lookup: the last target variant with the fingerprint. */
  function LastById(targets: seq<Variant>, ids: set<int>): (r: Option<Variant>)
    ensures r.Some? ==> r.value in targets && r.value.valueIds == ids
    ensures r.None? ==> forall t :: t in targets ==> t.valueIds != ids
  {
    if targets == [] then None
    else if targets[|targets| - 1].valueIds == ids then Some(targets[|targets| - 1])
    else
      var r := LastById(targets[..|targets| - 1], ids);
      assert forall t :: t in targets ==> t in targets[..|targets| - 1] || t == targets[|targets| - 1];
      r
  }

  function LastBySlug(targets: seq<Variant>, slugs: set<string>): (r: Option<Variant>)
    ensures r.Some? ==> r.value in targets && SlugPrint(r.value) == slugs
    ensures r.None? ==> forall t :: t in targets ==> SlugPrint(t) != slugs
  {
    if targets == [] then None
    else if SlugPrint(targets[|targets| - 1]) == slugs then Some(targets[|targets| - 1])
    else
      var r := LastBySlug(targets[..|targets| - 1], slugs);
      assert forall t :: t in targets ==> t in targets[..|targets| - 1] || t == targets[|targets| - 1];
      r
  }

  /** `target_by_id.get(id_fp) or target_by_slug.get(slug_fp)`. */
  function MatchVariant(targets: seq<Variant>, sv: Variant): Option<Variant> {
    var byId := LastById(targets, sv.valueIds);
    if byId.Some? then byId else LastBySlug(targets, SlugPrint(sv))
  }

  /** A source variant matches a target with the same attribute value ids when there is
      one, otherwise one with the same lower-cased slugs, otherwise none. */
  lemma MatchVariantSpec(targets: seq<Variant>, sv: Variant)
    ensures var m := MatchVariant(targets, sv);
      && (m.Some? ==> (m.value in targets
            && (m.value.valueIds == sv.valueIds
                || ((forall t :: t in targets ==> t.valueIds != sv.valueIds) && SlugPrint(m.value) == SlugPrint(sv)))))
      && ((exists t :: t in targets && t.valueIds == sv.valueIds) ==> m.Some? && m.value.valueIds == sv.valueIds)
      && (m.None? <==> forall t :: t in targets ==> t.valueIds != sv.valueIds && SlugPrint(t) != SlugPrint(sv))
  {
  }

  /** `_match_variants`: the matched (source, target) pairs and the unmatched source
      variants, in source order. */
  function MatchVariants(sources: seq<Variant>, targets: seq<Variant>): (r: (seq<(Variant, Variant)>, seq<Variant>))
    ensures |r.0| + |r.1| == |sources|
    ensures forall i :: 0 <= i < |r.0| ==> r.0[i].0 in sources && MatchVariant(targets, r.0[i].0) == Some(r.0[i].1)
    ensures forall v :: v in r.1 <==> v in sources && MatchVariant(targets, v).None?
  {
    if sources == [] then ([], [])
    else
      var prev := MatchVariants(sources[..|sources| - 1], targets);
      var sv := sources[|sources| - 1];
      assert sources == sources[..|sources| - 1] + [sv];
      match MatchVariant(targets, sv)
      case Some(tv) => (prev.0 + [(sv, tv)], prev.1)
      case None => (prev.0, prev.1 + [sv])
  }

  // Merging one variant's stock

  /** A variant's stock rows by warehouse. */
  type Stocks = map<int, Stock>

  /** The stock part of `_merge_single_variant`. `allocatedAt` is the warehouses where a
      source row has allocation records. A source row in a warehouse the target also
      stocks is added into the target's row, if no allocation record hangs off it; the
      other source rows move over as they are. */
  function MergeStocks(sourceVariant: int, targetVariant: int, source: Stocks, target: Stocks, allocatedAt: set<int>):
    Result<Stocks, MergeError>
  {
    var shared := set w | w in source && w in target && w in allocatedAt;
    if shared != {} then Err(SharedWarehouseAllocated(sourceVariant, targetVariant, shared))
    else
      Ok(map w | w in source.Keys + target.Keys ::
           if w in source && w in target
           then Stock(target[w].quantity + source[w].quantity, target[w].quantityAllocated + source[w].quantityAllocated)
           else if w in target then target[w] else source[w])
  }

  /** The merge refuses exactly when a shared warehouse's source row has allocations;
      otherwise no unit is lost or invented: every warehouse of either variant ends up
      with the sum of both rows' quantities and of both rows' allocations. */
  lemma MergeStocksSpec(sv: int, tv: int, source: Stocks, target: Stocks, allocatedAt: set<int>)
    ensures var r := MergeStocks(sv, tv, source, target, allocatedAt);
      && (r.Err? <==> exists w :: w in source && w in target && w in allocatedAt)
      && (r.Ok? ==> (
            && r.value.Keys == source.Keys + target.Keys
            && forall w :: w in r.value ==>
                 && r.value[w].quantity
                    == (if w in source then source[w].quantity else 0) + (if w in target then target[w].quantity else 0)
                 && r.value[w].quantityAllocated
                    == (if w in source then source[w].quantityAllocated else 0)
                       + (if w in target then target[w].quantityAllocated else 0)))
  {
    var shared := set w | w in source && w in target && w in allocatedAt;
    if exists w :: w in source && w in target && w in allocatedAt {
      var w :| w in source && w in target && w in allocatedAt;
      assert w in shared;
    }
  }

  // Rows keyed on the target

  /** Moving rows that the target may already have for the same key (language, channel,
      collection, attribute value, media): the target keeps its own, and the source's rows
      for the other keys move over. */
  function MoveMissing<K>(source: map<K, int>, target: map<K, int>): map<K, int> {
    map k | k in source.Keys + target.Keys :: if k in target then target[k] else source[k]
  }

  /** Nothing the target had is replaced, every key of either side is present, and a
      source row stays behind exactly when the target had that key. */
  lemma MoveMissingSpec<K>(source: map<K, int>, target: map<K, int>)
    ensures var r := MoveMissing(source, target);
      && r.Keys == source.Keys + target.Keys
      && (forall k :: k in target ==> r[k] == target[k])
      && (forall k :: k in source && k !in target ==> r[k] == source[k])
  {
  }

  /** Moving the source, that is, merging into a product that already has everything,
      changes nothing; merging again is a no-op. */
  lemma MoveMissingIdempotent<K>(source: map<K, int>, target: map<K, int>)
    ensures MoveMissing(source, MoveMissing(source, target)) == MoveMissing(source, target)
  {
  }

  /** References that point at a variant by id (order lines, checkout lines, purchase
      order items) all move to the target variant. */
  function Remap(refs: map<int, int>, from: int, to: int): map<int, int> {
    map l | l in refs :: if refs[l] == from then to else refs[l]
  }

  lemma RemapSpec(refs: map<int, int>, from: int, to: int)
    requires from != to
    ensures var r := Remap(refs, from, to);
      && r.Keys == refs.Keys
      && (forall l :: l in r ==> r[l] != from)
      && (forall l :: l in refs && refs[l] == from ==> r[l] == to)
      && (forall l :: l in refs && refs[l] != from ==> r[l] == refs[l])
  {
  }

  /** Many-to-many links (vouchers, shipping method exclusions): every link to the source
      becomes a link to the target. */
  function SwapMember(links: map<int, set<int>>, source: int, target: int): map<int, set<int>> {
    map v | v in links :: if source in links[v] then links[v] - {source} + {target} else links[v]
  }

  lemma SwapMemberSpec(links: map<int, set<int>>, source: int, target: int)
    requires source != target
    ensures var r := SwapMember(links, source, target);
      && r.Keys == links.Keys
      && (forall v :: v in r ==> source !in r[v])
      && (forall v :: v in links && source in links[v] ==> target in r[v])
      && (forall v :: v in links ==> r[v] - {target} == links[v] - {source, target})
  {
  }
}
