/** saleor/graphql/shipping/mutations/outbound_shipment_create.py: one outbound shipment
    for fulfillments waiting for approval that go to the same place. The fulfillment
    table is a sequence in primary-key order (the model's default ordering), the
    global ids are already decoded to primary keys, and the new shipment's primary key
    is a parameter. */
module OutboundShipment {
  import opened Wrappers
  import opened Statuses
  import opened Addresses
  import opened OrderModels
  import opened Shipments

  datatype OutboundError =
    | FulfillmentsNotFound
    | NoFulfillments
    | NotWaitingForApproval(fulfillment: int, status: FulfillmentStatus)
    | AlreadyLinked(fulfillment: int)
    | DifferentDestinations
    | NoStockInformation(fulfillment: int)
    | WarehouseWithoutAddress
    | NoShippingAddress

  /** The mutation's input; carrier and tracking URL are required by the schema and the
      currency defaults to "USD". */
  datatype OutboundRequest = OutboundRequest(
    fulfillmentIds: seq<int>,
    carrier: string,
    trackingUrl: string,
    shippingCost: Option<real>,
    currency: string)

  datatype OutboundOutcome = OutboundOutcome(shipment: Shipment, fulfillments: seq<FulfillmentView>)

  // ----- lookup -----

  predicate KeyOrdered(table: seq<FulfillmentView>) {
    forall i, j :: 0 <= i < j < |table| ==> table[i].id < table[j].id
  }

  function Ids(vs: seq<FulfillmentView>): (r: seq<int>)
    ensures |r| == |vs|
    ensures forall i :: 0 <= i < |vs| ==> r[i] == vs[i].id
  {
    if vs == [] then [] else [vs[0].id] + Ids(vs[1..])
  }

  predicate Distinct(s: seq<int>) {
    forall i, j :: 0 <= i < j < |s| ==> s[i] != s[j]
  }

  /** The elements of a sequence as a set. */
  function Elements(s: seq<int>): (r: set<int>)
    ensures forall x :: x in r <==> x in s
  {
    if s == [] then {} else {s[0]} + Elements(s[1..])
  }

  /** `Fulfillment.objects.filter(pk__in=ids)`, in table order. */
  function Selected(table: seq<FulfillmentView>, ids: seq<int>): (r: seq<FulfillmentView>)
    ensures forall v :: v in r ==> v in table && v.id in ids
    ensures forall i :: 0 <= i < |table| && table[i].id in ids ==> table[i] in r
  {
    if table == [] then []
    else if table[0].id in ids then [table[0]] + Selected(table[1..], ids)
    else Selected(table[1..], ids)
  }

  lemma {:induction false} ElementsCardAtMost(s: seq<int>)
    ensures |Elements(s)| <= |s|
  {
    if s != [] {
      ElementsCardAtMost(s[1..]);
    }
  }

  lemma {:induction false} DistinctElementsCard(s: seq<int>)
    requires Distinct(s)
    ensures |Elements(s)| == |s|
  {
    if s != [] {
      assert Distinct(s[1..]) by {
        forall i, j | 0 <= i < j < |s[1..]|
          ensures s[1..][i] != s[1..][j]
        {
          assert s[1..][i] == s[i + 1] && s[1..][j] == s[j + 1];
        }
      }
      DistinctElementsCard(s[1..]);
      forall j | 0 <= j < |s[1..]|
        ensures s[1..][j] != s[0]
      {
        assert s[1..][j] == s[j + 1];
      }
      assert s[0] !in Elements(s[1..]);
    }
  }

  lemma {:induction false} RepeatedElementsCard(s: seq<int>)
    requires !Distinct(s)
    ensures |Elements(s)| < |s|
  {
    var i, j :| 0 <= i < j < |s| && s[i] == s[j];
    if i == 0 {
      assert s[0] == s[1..][j - 1];
      assert Elements(s) == Elements(s[1..]);
      ElementsCardAtMost(s[1..]);
    } else {
      assert s[1..][i - 1] == s[1..][j - 1];
      RepeatedElementsCard(s[1..]);
    }
  }

  /** A selection from a key-ordered table never lists a fulfillment twice. */
  lemma {:induction false} SelectedDistinct(table: seq<FulfillmentView>, ids: seq<int>)
    requires KeyOrdered(table)
    ensures Distinct(Ids(Selected(table, ids)))
  {
    if table != [] {
      var rest := Selected(table[1..], ids);
      assert KeyOrdered(table[1..]);
      SelectedDistinct(table[1..], ids);
      if table[0].id in ids {
        var r := [table[0]] + rest;
        assert Selected(table, ids) == r;
        forall k | 0 <= k < |rest|
          ensures rest[k].id != table[0].id
        {
          assert rest[k] in table[1..];
          var m :| 0 <= m < |table[1..]| && table[1..][m] == rest[k];
          assert table[m + 1] == rest[k];
        }
        var ri := Ids(r);
        forall i, j | 0 <= i < j < |ri|
          ensures ri[i] != ri[j]
        {
          if i == 0 {
            assert ri[j] == rest[j - 1].id;
          } else {
            assert ri[i] == Ids(rest)[i - 1] && ri[j] == Ids(rest)[j - 1];
          }
        }
      }
    }
  }

  /** Intersecting with a set keeps its size exactly when it already lies inside. */
  lemma IntersectionCard(a: set<int>, b: set<int>)
    ensures |a * b| <= |b|
    ensures |a * b| == |b| <==> b <= a
  {
    assert b == (a * b) + (b - a);
    assert (a * b) * (b - a) == {};
    if |a * b| == |b| {
      assert b - a == {};
    }
  }

  lemma {:induction false} SelectedElements(table: seq<FulfillmentView>, ids: seq<int>)
    ensures Elements(Ids(Selected(table, ids))) == Elements(Ids(table)) * Elements(ids)
  {
    if table != [] {
      SelectedElements(table[1..], ids);
      var rest := Selected(table[1..], ids);
      assert Ids(table) == [table[0].id] + Ids(table[1..]);
      assert Elements(Ids(table)) == {table[0].id} + Elements(Ids(table[1..]));
      if table[0].id in ids {
        var r := [table[0]] + rest;
        assert r[1..] == rest;
        assert Ids(r) == [table[0].id] + Ids(rest);
        assert Elements(Ids(r)) == {table[0].id} + Elements(Ids(rest));
      }
    }
  }

  /** "Some fulfillments not found" is raised unless the ids are distinct and all exist:
      a repeated id fails like a missing one. */
  lemma SelectedCountIff(table: seq<FulfillmentView>, ids: seq<int>)
    requires KeyOrdered(table)
    ensures |Selected(table, ids)| <= |ids|
    ensures |Selected(table, ids)| == |ids| <==>
      Distinct(ids) && forall i :: 0 <= i < |ids| ==> ids[i] in Ids(table)
  {
    var s := Selected(table, ids);
    var a := Elements(Ids(table));
    var b := Elements(ids);
    SelectedDistinct(table, ids);
    DistinctElementsCard(Ids(s));
    SelectedElements(table, ids);
    assert |s| == |a * b|;
    IntersectionCard(a, b);
    ElementsCardAtMost(ids);
    if !Distinct(ids) {
      RepeatedElementsCard(ids);
    } else {
      DistinctElementsCard(ids);
    }
    assert |s| == |ids| <==> Distinct(ids) && b <= a;
    AllInIffSubset(ids, Ids(table));
  }

  lemma AllInIffSubset(s: seq<int>, t: seq<int>)
    ensures (forall i :: 0 <= i < |s| ==> s[i] in t) <==> Elements(s) <= Elements(t)
  {
  }

  // ----- validation -----

  predicate Linkable(v: FulfillmentView) {
    v.fulfillment.status == WaitingForApproval && v.fulfillment.shipment.None?
  }

  /** The error the status loop raises for one fulfillment (status first). */
  function LinkProblem(v: FulfillmentView): Option<OutboundError> {
    if v.fulfillment.status != WaitingForApproval then Some(NotWaitingForApproval(v.id, v.fulfillment.status))
    else if v.fulfillment.shipment.Some? then Some(AlreadyLinked(v.id))
    else None
  }

  function FirstUnlinkable(fs: seq<FulfillmentView>): (k: nat)
    ensures k <= |fs|
    ensures forall j :: 0 <= j < k ==> Linkable(fs[j])
    ensures k < |fs| ==> !Linkable(fs[k])
  {
    if fs == [] then 0
    else if !Linkable(fs[0]) then 0
    else 1 + FirstUnlinkable(fs[1..])
  }

  /** The destination key: street, city and postal code (not the country). */
  function DestinationKey(a: Address): (string, string, string) {
    (a.street1, a.city, a.postalCode)
  }

  /** The set of destination keys of the fulfillments whose order has a shipping address. */
  function DestinationKeys(fs: seq<FulfillmentView>): set<(string, string, string)> {
    if fs == [] then {}
    else
      var last := fs[|fs| - 1];
      DestinationKeys(fs[..|fs| - 1])
        + (if last.orderAddress.Some? then {DestinationKey(last.orderAddress.value)} else {})
  }

  predicate SameDestination(fs: seq<FulfillmentView>) {
    forall i, j :: 0 <= i < |fs| && 0 <= j < |fs| && fs[i].orderAddress.Some? && fs[j].orderAddress.Some?
      ==> DestinationKey(fs[i].orderAddress.value) == DestinationKey(fs[j].orderAddress.value)
  }

  lemma {:induction false} KeyOfMember(fs: seq<FulfillmentView>, i: nat)
    requires i < |fs| && fs[i].orderAddress.Some?
    ensures DestinationKey(fs[i].orderAddress.value) in DestinationKeys(fs)
  {
    if i < |fs| - 1 {
      var init := fs[..|fs| - 1];
      assert init[i] == fs[i];
      KeyOfMember(init, i);
    }
  }

  lemma {:induction false} KeysWithin(fs: seq<FulfillmentView>, k0: (string, string, string))
    requires forall i :: 0 <= i < |fs| && fs[i].orderAddress.Some? ==> DestinationKey(fs[i].orderAddress.value) == k0
    ensures DestinationKeys(fs) <= {k0}
  {
    if fs != [] {
      var init := fs[..|fs| - 1];
      assert forall i :: 0 <= i < |init| ==> init[i] == fs[i];
      KeysWithin(init, k0);
    }
  }

  /** At most one destination key exactly when all addressed fulfillments share it. */
  lemma SingleDestinationIff(fs: seq<FulfillmentView>)
    ensures |DestinationKeys(fs)| <= 1 <==> SameDestination(fs)
  {
    var keys := DestinationKeys(fs);
    if SameDestination(fs) {
      var k0 := ("", "", "");
      if i :| 0 <= i < |fs| && fs[i].orderAddress.Some? {
        k0 := DestinationKey(fs[i].orderAddress.value);
      }
      KeysWithin(fs, k0);
      if k0 in keys {
        assert keys == {k0};
      } else {
        assert keys == {};
      }
    } else {
      var i, j :| 0 <= i < |fs| && 0 <= j < |fs| && fs[i].orderAddress.Some? && fs[j].orderAddress.Some?
        && DestinationKey(fs[i].orderAddress.value) != DestinationKey(fs[j].orderAddress.value);
      KeyOfMember(fs, i);
      KeyOfMember(fs, j);
      var pair := {DestinationKey(fs[i].orderAddress.value), DestinationKey(fs[j].orderAddress.value)};
      assert keys == pair + (keys - pair);
      assert |pair| == 2;
    }
  }

  /** `_validate_fulfillments`. */
  function ValidationProblem(fs: seq<FulfillmentView>): Option<OutboundError> {
    if fs == [] then Some(NoFulfillments)
    else
      var k := FirstUnlinkable(fs);
      if k < |fs| then LinkProblem(fs[k])
      else if |DestinationKeys(fs)| > 1 then Some(DifferentDestinations)
      else None
  }

  // ----- the mutation -----

  function OutboundShipmentOf(req: OutboundRequest, source: Address, destination: Address): Shipment {
    Shipment(Outbound, Some(source), Some(destination), Some(req.carrier), Some(req.trackingUrl),
             None, None, req.currency, req.shippingCost, None)
  }

  /** Every fulfillment on the new shipment with the request's tracking URL. */
  function LinkedToShipment(fs: seq<FulfillmentView>, shipment: int, trackingUrl: string): (r: seq<FulfillmentView>)
    ensures |r| == |fs|
    ensures forall i :: 0 <= i < |fs| ==>
      r[i] == fs[i].(fulfillment := fs[i].fulfillment.(shipment := Some(shipment), trackingUrl := trackingUrl))
  {
    if fs == [] then []
    else
      var f := fs[0].fulfillment.(shipment := Some(shipment), trackingUrl := trackingUrl);
      [fs[0].(fulfillment := f)] + LinkedToShipment(fs[1..], shipment, trackingUrl)
  }

  function CreateOutbound(table: seq<FulfillmentView>, req: OutboundRequest, newId: int): Result<OutboundOutcome, OutboundError> {
    var fs := Selected(table, req.fulfillmentIds);
    if |fs| != |req.fulfillmentIds| then Err(FulfillmentsNotFound)
    else
      var problem := ValidationProblem(fs);
      if problem.Some? then Err(problem.value)
      else
        var first := fs[0];
        if first.firstLine.NoStockInfo? then Err(NoStockInformation(first.id))
        else if first.firstLine.address.None? then Err(WarehouseWithoutAddress)
        else if first.orderAddress.None? then Err(NoShippingAddress)
        else
          var shipment := OutboundShipmentOf(req, first.firstLine.address.value, first.orderAddress.value);
          Ok(OutboundOutcome(shipment, LinkedToShipment(fs, newId, req.trackingUrl)))
  }

  /** The status loop of `_validate_fulfillments`. */
  method CheckLinkable(fs: seq<FulfillmentView>) returns (problem: Option<OutboundError>)
    ensures problem == (var k := FirstUnlinkable(fs); if k < |fs| then LinkProblem(fs[k]) else None)
  {
    var i := 0;
    while i < |fs|
      invariant 0 <= i <= |fs|
      invariant forall j :: 0 <= j < i ==> Linkable(fs[j])
    {
      var f := fs[i].fulfillment;
      if f.status != WaitingForApproval {
        return Some(NotWaitingForApproval(fs[i].id, f.status));
      }
      if f.shipment.Some? {
        return Some(AlreadyLinked(fs[i].id));
      }
      i := i + 1;
    }
    return None;
  }

  /** The destinations loop of `_validate_fulfillments`. */
  method CollectDestinations(fs: seq<FulfillmentView>) returns (keys: set<(string, string, string)>)
    ensures keys == DestinationKeys(fs)
  {
    keys := {};
    var i := 0;
    while i < |fs|
      invariant 0 <= i <= |fs|
      invariant keys == DestinationKeys(fs[..i])
    {
      assert fs[..i + 1][..i] == fs[..i];
      if fs[i].orderAddress.Some? {
        keys := keys + {DestinationKey(fs[i].orderAddress.value)};
      }
      i := i + 1;
    }
    assert fs[..|fs|] == fs;
  }

  /** The linking loop. */
  method LinkFulfillments(fs: seq<FulfillmentView>, shipment: int, trackingUrl: string) returns (linked: seq<FulfillmentView>)
    ensures linked == LinkedToShipment(fs, shipment, trackingUrl)
  {
    linked := [];
    var i := 0;
    while i < |fs|
      invariant 0 <= i <= |fs|
      invariant |linked| == i
      invariant forall j :: 0 <= j < i ==>
        linked[j] == fs[j].(fulfillment := fs[j].fulfillment.(shipment := Some(shipment), trackingUrl := trackingUrl))
    {
      var f := fs[i].fulfillment.(shipment := Some(shipment), trackingUrl := trackingUrl);
      linked := linked + [fs[i].(fulfillment := f)];
      i := i + 1;
    }
    var spec := LinkedToShipment(fs, shipment, trackingUrl);
    assert forall j :: 0 <= j < |fs| ==> spec[j] == linked[j];
  }

  method OutboundShipmentCreate(table: seq<FulfillmentView>, req: OutboundRequest, newId: int)
    returns (r: Result<OutboundOutcome, OutboundError>)
    ensures r == CreateOutbound(table, req, newId)
  {
    var fs := Selected(table, req.fulfillmentIds);
    if |fs| != |req.fulfillmentIds| {
      return Err(FulfillmentsNotFound);
    }
    if fs == [] {
      return Err(NoFulfillments);
    }
    var problem := CheckLinkable(fs);
    if problem.Some? {
      return Err(problem.value);
    }
    var keys := CollectDestinations(fs);
    if |keys| > 1 {
      return Err(DifferentDestinations);
    }
    var first := fs[0];
    if first.firstLine.NoStockInfo? {
      return Err(NoStockInformation(first.id));
    }
    if first.firstLine.address.None? {
      return Err(WarehouseWithoutAddress);
    }
    if first.orderAddress.None? {
      return Err(NoShippingAddress);
    }
    var shipment := OutboundShipmentOf(req, first.firstLine.address.value, first.orderAddress.value);
    var linked := LinkFulfillments(fs, newId, req.trackingUrl);
    return Ok(OutboundOutcome(shipment, linked));
  }

  // ----- properties -----

  /** The shape of a successful call, unfolded once for the lemmas below. */
  lemma CreateOutboundOk(table: seq<FulfillmentView>, req: OutboundRequest, newId: int)
    requires CreateOutbound(table, req, newId).Ok?
    ensures var fs := Selected(table, req.fulfillmentIds);
      && |fs| == |req.fulfillmentIds| && fs != []
      && FirstUnlinkable(fs) == |fs|
      && |DestinationKeys(fs)| <= 1
      && fs[0].firstLine.AtWarehouse? && fs[0].firstLine.address.Some? && fs[0].orderAddress.Some?
      && CreateOutbound(table, req, newId).value == OutboundOutcome(
           OutboundShipmentOf(req, fs[0].firstLine.address.value, fs[0].orderAddress.value),
           LinkedToShipment(fs, newId, req.trackingUrl))
  {
  }

  /** A shipment is created only for a non-empty list of distinct, existing ids whose
      fulfillments all wait for approval unlinked and share one destination. */
  lemma CreateOutboundRequires(table: seq<FulfillmentView>, req: OutboundRequest, newId: int)
    requires KeyOrdered(table)
    requires CreateOutbound(table, req, newId).Ok?
    ensures req.fulfillmentIds != []
    ensures Distinct(req.fulfillmentIds)
    ensures forall i :: 0 <= i < |req.fulfillmentIds| ==> req.fulfillmentIds[i] in Ids(table)
    ensures var fs := Selected(table, req.fulfillmentIds);
      (forall i :: 0 <= i < |fs| ==> Linkable(fs[i])) && SameDestination(fs)
  {
    var fs := Selected(table, req.fulfillmentIds);
    CreateOutboundOk(table, req, newId);
    SelectedCountIff(table, req.fulfillmentIds);
    SingleDestinationIff(fs);
  }

  /** A repeated id is reported as "not found", even though every fulfillment exists. */
  lemma RepeatedIdNotFound(table: seq<FulfillmentView>, req: OutboundRequest, newId: int)
    requires KeyOrdered(table)
    requires !Distinct(req.fulfillmentIds)
    ensures CreateOutbound(table, req, newId) == Err(FulfillmentsNotFound)
  {
    SelectedCountIff(table, req.fulfillmentIds);
  }

  /** What a successful call creates: an outbound shipment, not departed, from the first
      fulfillment's warehouse to its order's address; every selected fulfillment now on it
      with the request's tracking URL; every addressed one going to the same key. */
  lemma CreateOutboundOutcome(table: seq<FulfillmentView>, req: OutboundRequest, newId: int)
    requires CreateOutbound(table, req, newId).Ok?
    ensures var o := CreateOutbound(table, req, newId).value;
      var fs := Selected(table, req.fulfillmentIds);
      && o.shipment.shipmentType == Outbound
      && o.shipment.departedAt.None?
      && o.shipment.destination == fs[0].orderAddress
      && o.shipment.source == fs[0].firstLine.address
      && o.shipment.trackingUrl == Some(req.trackingUrl)
      && |o.fulfillments| == |req.fulfillmentIds|
      && (forall i :: 0 <= i < |o.fulfillments| ==>
            o.fulfillments[i].id == fs[i].id
            && o.fulfillments[i].fulfillment.status == WaitingForApproval
            && o.fulfillments[i].fulfillment.shipment == Some(newId)
            && o.fulfillments[i].fulfillment.trackingUrl == req.trackingUrl)
      && (forall i :: 0 <= i < |fs| && fs[i].orderAddress.Some? ==>
            DestinationKey(fs[i].orderAddress.value) == DestinationKey(o.shipment.destination.value))
  {
    var fs := Selected(table, req.fulfillmentIds);
    CreateOutboundOk(table, req, newId);
    var o := CreateOutbound(table, req, newId).value;
    assert o.fulfillments == LinkedToShipment(fs, newId, req.trackingUrl);
    assert forall i :: 0 <= i < |fs| ==> Linkable(fs[i]);
    SingleDestinationIff(fs);
    assert o.shipment.destination == fs[0].orderAddress;
  }

  /** The destination check compares street, city and postal code only: two orders to the
      same street in different countries pass it. */
  lemma DestinationCheckIgnoresCountry(f: Fulfillment, a: Address, b: Address)
    requires f.status == WaitingForApproval && f.shipment.None?
    requires DestinationKey(a) == DestinationKey(b) && a.country != b.country
    ensures ValidationProblem([FulfillmentView(1, f, Some(a), NoStockInfo), FulfillmentView(2, f, Some(b), NoStockInfo)]).None?
  {
    var fs := [FulfillmentView(1, f, Some(a), NoStockInfo), FulfillmentView(2, f, Some(b), NoStockInfo)];
    SingleDestinationIff(fs);
  }

  /** Only the first fulfillment needs an address; the others may have none. */
  lemma AddresslessFulfillmentMayJoin(f: Fulfillment, a: Address)
    requires f.status == WaitingForApproval && f.shipment.None?
    ensures ValidationProblem([FulfillmentView(1, f, Some(a), NoStockInfo), FulfillmentView(2, f, None, NoStockInfo)]).None?
  {
    var fs := [FulfillmentView(1, f, Some(a), NoStockInfo), FulfillmentView(2, f, None, NoStockInfo)];
    SingleDestinationIff(fs);
  }
}
