/** saleor/order/management/commands/create_missing_fulfillments.py: for every UNFULFILLED
    order without fulfillments, check `can_confirm_order`, group the order's allocations
    by warehouse and ask `create_fulfillments` for one fulfillment per warehouse, counting
    what was created and what was skipped. `can_confirm_order` and `create_fulfillments`
    are not part of this model: they are parameters. */
module CreateMissingFulfillments {
  import opened Wrappers
  import opened Statuses

  /** The order fields the command reads: its status and its number of fulfillments. */
  datatype OrderRow = OrderRow(id: int, status: OrderStatus, fulfillmentCount: nat)

  /** One allocation of an order: its stock's warehouse, its order line and its quantity. */
  datatype AllocRow = AllocRow(warehouse: int, orderLine: int, quantityAllocated: int)

  /** One `{"order_line": …, "quantity": …}` entry. */
  datatype FulfillmentLine = FulfillmentLine(orderLine: int, quantity: int)

  /** One entry of `fulfillment_lines_for_warehouses`. */
  datatype Group = Group(warehouse: int, lines: seq<FulfillmentLine>)

  /** One call of `create_fulfillments`. */
  datatype Request = Request(order: int, groups: seq<Group>)

  /** The counters and the calls made. */
  datatype Report = Report(created: nat, skipped: nat, requests: seq<Request>)

  /** `create_fulfillments` for an order and its groups: the number of fulfillments it
      creates, or None when it raises `ValueError`. */
  type Creator = Request -> Option<nat>

  // ----- candidate selection -----

  predicate IsCandidate(o: OrderRow) {
    o.status == Unfulfilled && o.fulfillmentCount == 0
  }

  /** The queryset of candidates, in the database's order. */
  function Candidates(orders: seq<OrderRow>): (r: seq<OrderRow>)
    ensures forall o :: o in r <==> o in orders && IsCandidate(o)
  {
    if orders == [] then []
    else (if IsCandidate(orders[0]) then [orders[0]] else []) + Candidates(orders[1..])
  }

  // ----- grouping -----

  function LineOf(a: AllocRow): FulfillmentLine {
    FulfillmentLine(a.orderLine, a.quantityAllocated)
  }

  /** The warehouses of the allocations, each once, in first-seen order (the key order of
      the `defaultdict`). */
  function FirstSeen(allocs: seq<AllocRow>): (ws: seq<int>)
    ensures forall i, j :: 0 <= i < j < |ws| ==> ws[i] != ws[j]
    ensures forall w :: w in ws <==> exists i :: 0 <= i < |allocs| && allocs[i].warehouse == w
  {
    if allocs == [] then []
    else
      var init := allocs[..|allocs| - 1];
      var ws := FirstSeen(init);
      assert forall i :: 0 <= i < |init| ==> init[i] == allocs[i];
      if allocs[|allocs| - 1].warehouse in ws then ws else ws + [allocs[|allocs| - 1].warehouse]
  }

  /** The lines of the allocations in one warehouse, in allocation order. */
  function LinesAt(allocs: seq<AllocRow>, w: int): (r: seq<FulfillmentLine>)
    ensures |r| <= |allocs|
  {
    if allocs == [] then []
    else
      var last := allocs[|allocs| - 1];
      LinesAt(allocs[..|allocs| - 1], w) + (if last.warehouse == w then [LineOf(last)] else [])
  }

  /** The reference grouping: one group per warehouse in first-seen order, holding that
      warehouse's lines in allocation order. */
  function Grouped(allocs: seq<AllocRow>): (r: seq<Group>)
    ensures |r| == |FirstSeen(allocs)|
    ensures forall k :: 0 <= k < |r| ==> r[k] == Group(FirstSeen(allocs)[k], LinesAt(allocs, FirstSeen(allocs)[k]))
  {
    var ws := FirstSeen(allocs);
    seq(|ws|, k requires 0 <= k < |ws| => Group(ws[k], LinesAt(allocs, ws[k])))
  }

  /** The grouping loop (`warehouse_groups[pk].append`) and the loop building
      `fulfillment_lines_for_warehouses` from it. */
  method GroupByWarehouse(allocs: seq<AllocRow>) returns (groups: seq<Group>)
    ensures groups == Grouped(allocs)
  {
    var keys: seq<int> := [];
    var byWarehouse: map<int, seq<FulfillmentLine>> := map[];
    var i := 0;
    while i < |allocs|
      invariant 0 <= i <= |allocs|
      invariant keys == FirstSeen(allocs[..i])
      invariant forall w :: w in byWarehouse <==> w in keys
      invariant forall w :: w in byWarehouse ==> byWarehouse[w] == LinesAt(allocs[..i], w)
    {
      var a := allocs[i];
      assert allocs[..i + 1][..i] == allocs[..i];
      if a.warehouse !in keys {
        LinesAtAbsent(allocs[..i], a.warehouse);
      }
      var current := if a.warehouse in byWarehouse then byWarehouse[a.warehouse] else [];
      byWarehouse := byWarehouse[a.warehouse := current + [LineOf(a)]];
      if a.warehouse !in keys {
        keys := keys + [a.warehouse];
      }
      i := i + 1;
    }
    assert allocs[..i] == allocs;
    groups := [];
    var k := 0;
    while k < |keys|
      invariant 0 <= k <= |keys|
      invariant |groups| == k
      invariant forall j :: 0 <= j < k ==> groups[j] == Group(keys[j], byWarehouse[keys[j]])
    {
      groups := groups + [Group(keys[k], byWarehouse[keys[k]])];
      k := k + 1;
    }
  }

  /** A warehouse not seen yet has no lines. */
  lemma {:induction false} LinesAtAbsent(allocs: seq<AllocRow>, w: int)
    requires w !in FirstSeen(allocs)
    ensures LinesAt(allocs, w) == []
  {
    if allocs != [] {
      var init := allocs[..|allocs| - 1];
      assert forall i :: 0 <= i < |init| ==> init[i] == allocs[i];
      LinesAtAbsent(init, w);
    }
  }

  // ----- the command -----

  /** One order of the loop. */
  function Step(rep: Report, o: OrderRow, dryRun: bool, canConfirm: int -> bool,
                allocsOf: int -> seq<AllocRow>, create: Creator): Report
  {
    if !canConfirm(o.id) then rep.(skipped := rep.skipped + 1)
    else if dryRun then rep.(created := rep.created + 1)
    else if allocsOf(o.id) == [] then rep.(skipped := rep.skipped + 1)
    else
      var req := Request(o.id, Grouped(allocsOf(o.id)));
      match create(req)
      case None => rep.(skipped := rep.skipped + 1, requests := rep.requests + [req])
      case Some(n) => rep.(created := rep.created + n, requests := rep.requests + [req])
  }

  function Run(cands: seq<OrderRow>, dryRun: bool, canConfirm: int -> bool,
               allocsOf: int -> seq<AllocRow>, create: Creator): Report
  {
    if cands == [] then Report(0, 0, [])
    else Step(Run(cands[..|cands| - 1], dryRun, canConfirm, allocsOf, create),
              cands[|cands| - 1], dryRun, canConfirm, allocsOf, create)
  }

  /** `handle`: select the candidates (an empty selection returns at once), then the loop. */
  function Handle(orders: seq<OrderRow>, dryRun: bool, canConfirm: int -> bool,
                  allocsOf: int -> seq<AllocRow>, create: Creator): Report
  {
    Run(Candidates(orders), dryRun, canConfirm, allocsOf, create)
  }

  method HandleCommand(orders: seq<OrderRow>, dryRun: bool, canConfirm: int -> bool,
                       allocsOf: int -> seq<AllocRow>, create: Creator) returns (rep: Report)
    ensures rep == Handle(orders, dryRun, canConfirm, allocsOf, create)
  {
    var cands := Candidates(orders);
    if |cands| == 0 {
      return Report(0, 0, []);
    }
    var created: nat := 0;
    var skipped: nat := 0;
    var requests: seq<Request> := [];
    var i := 0;
    while i < |cands|
      invariant 0 <= i <= |cands|
      invariant Report(created, skipped, requests) == Run(cands[..i], dryRun, canConfirm, allocsOf, create)
    {
      var o := cands[i];
      ghost var prev := Report(created, skipped, requests);
      RunSnoc(cands, i, dryRun, canConfirm, allocsOf, create);
      if !canConfirm(o.id) {
        skipped := skipped + 1;
      } else if dryRun {
        created := created + 1;
      } else {
        var allocs := allocsOf(o.id);
        if |allocs| == 0 {
          skipped := skipped + 1;
        } else {
          var groups := GroupByWarehouse(allocs);
          var req := Request(o.id, groups);
          requests := requests + [req];
          var made := create(req);
          if made.None? {
            skipped := skipped + 1;
          } else {
            created := created + made.value;
          }
        }
      }
      assert Report(created, skipped, requests) == Step(prev, o, dryRun, canConfirm, allocsOf, create);
      i := i + 1;
    }
    assert cands[..i] == cands;
    return Report(created, skipped, requests);
  }

  /** One more candidate is one more step. */
  lemma RunSnoc(cands: seq<OrderRow>, i: nat, dryRun: bool, canConfirm: int -> bool,
                allocsOf: int -> seq<AllocRow>, create: Creator)
    requires i < |cands|
    ensures Run(cands[..i + 1], dryRun, canConfirm, allocsOf, create)
      == Step(Run(cands[..i], dryRun, canConfirm, allocsOf, create), cands[i], dryRun, canConfirm, allocsOf, create)
  {
    assert cands[..i + 1][..i] == cands[..i];
  }

  // ----- properties -----

  /** Every order is either counted as skipped or reaches the creation step; in a dry run
      nothing is created and every order passing the check counts one. */
  function Passing(cands: seq<OrderRow>, canConfirm: int -> bool): (r: nat)
    ensures r <= |cands|
  {
    if cands == [] then 0
    else Passing(cands[..|cands| - 1], canConfirm) + (if canConfirm(cands[|cands| - 1].id) then 1 else 0)
  }

  lemma {:induction false} DryRunCounts(cands: seq<OrderRow>, canConfirm: int -> bool,
                                        allocsOf: int -> seq<AllocRow>, create: Creator)
    ensures var rep := Run(cands, true, canConfirm, allocsOf, create);
      rep.requests == [] && rep.created == Passing(cands, canConfirm)
      && rep.skipped == |cands| - Passing(cands, canConfirm)
  {
    if cands != [] {
      DryRunCounts(cands[..|cands| - 1], canConfirm, allocsOf, create);
    }
  }

  /** One real-run step: the order is skipped without a call, or one call is made for
      it (only when it passes the check and has allocations, with its allocations
      grouped) and it is skipped on `ValueError` or adds the fulfillments created. */
  lemma StepShape(rep: Report, o: OrderRow, canConfirm: int -> bool,
                  allocsOf: int -> seq<AllocRow>, create: Creator)
    ensures var after := Step(rep, o, false, canConfirm, allocsOf, create);
      var req := Request(o.id, Grouped(allocsOf(o.id)));
      || (after == rep.(skipped := rep.skipped + 1) && (!canConfirm(o.id) || allocsOf(o.id) == []))
      || (after.requests == rep.requests + [req] && canConfirm(o.id) && allocsOf(o.id) != []
          && (create(req).None? ==> after == rep.(skipped := rep.skipped + 1, requests := after.requests))
          && (create(req).Some? ==> after == rep.(created := rep.created + create(req).value, requests := after.requests)))
  {
  }

  /** The calls that succeeded, and the fulfillments they report. */
  function Succeeded(reqs: seq<Request>, create: Creator): (r: nat)
    ensures r <= |reqs|
  {
    if reqs == [] then 0
    else Succeeded(reqs[..|reqs| - 1], create) + (if create(reqs[|reqs| - 1]).Some? then 1 else 0)
  }

  function CreatedBy(reqs: seq<Request>, create: Creator): nat {
    if reqs == [] then 0
    else
      var last := create(reqs[|reqs| - 1]);
      CreatedBy(reqs[..|reqs| - 1], create) + (if last.Some? then last.value else 0)
  }

  /** A real run: every candidate is skipped or created, exactly once, and `created` is
      the number of fulfillments the successful calls report. */
  lemma {:induction false} RealRunCounts(cands: seq<OrderRow>, canConfirm: int -> bool,
                                         allocsOf: int -> seq<AllocRow>, create: Creator)
    ensures var rep := Run(cands, false, canConfirm, allocsOf, create);
      rep.skipped + Succeeded(rep.requests, create) == |cands|
      && rep.created == CreatedBy(rep.requests, create)
  {
    if cands != [] {
      var init := cands[..|cands| - 1];
      var before := Run(init, false, canConfirm, allocsOf, create);
      RealRunCounts(init, canConfirm, allocsOf, create);
      StepShape(before, cands[|cands| - 1], canConfirm, allocsOf, create);
      var after := Run(cands, false, canConfirm, allocsOf, create);
      assert after == Step(before, cands[|cands| - 1], false, canConfirm, allocsOf, create);
      if after.requests != before.requests {
        assert after.requests[..|after.requests| - 1] == before.requests;
      }
    }
  }

  /** A call made for a candidate that passes the check and has allocations, with its
      allocations grouped per warehouse. */
  predicate Justified(req: Request, ids: set<int>, canConfirm: int -> bool, allocsOf: int -> seq<AllocRow>) {
    && canConfirm(req.order) && allocsOf(req.order) != []
    && req.groups == Grouped(allocsOf(req.order))
    && req.order in ids
  }

  lemma {:induction false} RealRunRequests(cands: seq<OrderRow>, canConfirm: int -> bool,
                                           allocsOf: int -> seq<AllocRow>, create: Creator)
    ensures forall k :: 0 <= k < |Run(cands, false, canConfirm, allocsOf, create).requests| ==>
      Justified(Run(cands, false, canConfirm, allocsOf, create).requests[k], IdsOf(cands), canConfirm, allocsOf)
  {
    if cands != [] {
      var init := cands[..|cands| - 1];
      var last := cands[|cands| - 1];
      RealRunRequests(init, canConfirm, allocsOf, create);
      var before := Run(init, false, canConfirm, allocsOf, create);
      StepShape(before, last, canConfirm, allocsOf, create);
      var after := Run(cands, false, canConfirm, allocsOf, create);
      assert after == Step(before, last, false, canConfirm, allocsOf, create);
      assert IdsOf(init) <= IdsOf(cands) by {
        forall o | o in init ensures o in cands { }
      }
      assert last.id in IdsOf(cands);
      forall k | 0 <= k < |after.requests|
        ensures Justified(after.requests[k], IdsOf(cands), canConfirm, allocsOf)
      {
        if k < |before.requests| {
          assert after.requests[k] == before.requests[k];
          assert Justified(before.requests[k], IdsOf(init), canConfirm, allocsOf);
        } else {
          assert after.requests[k] == Request(last.id, Grouped(allocsOf(last.id)));
        }
      }
    }
  }

  function IdsOf(cands: seq<OrderRow>): set<int> {
    set o | o in cands :: o.id
  }

  /** A `ValueError` skips that order only: later orders are processed as if it had
      created nothing. */
  lemma ValueErrorSkipsOrder(rep: Report, o: OrderRow, canConfirm: int -> bool,
                             allocsOf: int -> seq<AllocRow>, create: Creator)
    requires canConfirm(o.id) && allocsOf(o.id) != []
    requires create(Request(o.id, Grouped(allocsOf(o.id)))).None?
    ensures var after := Step(rep, o, false, canConfirm, allocsOf, create);
      after.created == rep.created && after.skipped == rep.skipped + 1
  {
  }

  /** The groups: every warehouse once; a warehouse's group lists exactly its allocations'
      lines in order; every allocation lands in its warehouse's group. */
  lemma GroupsPartitionAllocations(allocs: seq<AllocRow>, a: AllocRow)
    requires a in allocs
    ensures var gs := Grouped(allocs);
      (forall i, j :: 0 <= i < j < |gs| ==> gs[i].warehouse != gs[j].warehouse)
      && exists k :: 0 <= k < |gs| && gs[k].warehouse == a.warehouse && LineOf(a) in gs[k].lines
  {
    var i :| 0 <= i < |allocs| && allocs[i] == a;
    var ws := FirstSeen(allocs);
    assert a.warehouse in ws;
    var k :| 0 <= k < |ws| && ws[k] == a.warehouse;
    LineListed(allocs, i);
  }

  lemma {:induction false} LineListed(allocs: seq<AllocRow>, i: int)
    requires 0 <= i < |allocs|
    ensures LineOf(allocs[i]) in LinesAt(allocs, allocs[i].warehouse)
  {
    var init := allocs[..|allocs| - 1];
    if i < |allocs| - 1 {
      assert init[i] == allocs[i];
      LineListed(init, i);
    }
  }

  /** Read as the queryset `ready_to_fulfill_with_inventory`, whose first condition is
      status UNCONFIRMED, `can_confirm_order` would reject every candidate, which is
      UNFULFILLED: the command would create nothing. */
  lemma StatusBoundCheckSkipsAll(orders: seq<OrderRow>, canConfirm: int -> bool,
                                 allocsOf: int -> seq<AllocRow>, create: Creator)
    requires forall o :: o in orders && canConfirm(o.id) ==> o.status == Unconfirmed
    ensures Handle(orders, false, canConfirm, allocsOf, create).created == 0
    ensures Handle(orders, false, canConfirm, allocsOf, create).requests == []
  {
    NothingPasses(Candidates(orders), canConfirm, allocsOf, create);
  }

  lemma {:induction false} NothingPasses(cands: seq<OrderRow>, canConfirm: int -> bool,
                                         allocsOf: int -> seq<AllocRow>, create: Creator)
    requires forall i :: 0 <= i < |cands| ==> !canConfirm(cands[i].id)
    ensures Run(cands, false, canConfirm, allocsOf, create) == Report(0, |cands|, [])
  {
    if cands != [] {
      NothingPasses(cands[..|cands| - 1], canConfirm, allocsOf, create);
    }
  }
}
