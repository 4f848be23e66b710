/** The allocation of assignToWorkers: for each requested item, in order,
    check the product's stock, draw FIFO from the batches, debit the stock and
    create a Pending work assignment; the per-line batch writes are collected
    and applied together at the end. */
module Allocation {
  import opened Common
  import opened Fifo
  import opened Inventory
  import opened Assignments

  /** One entry of `productsToAssign` or `additionalItems`. */
  datatype Item = Item(product: Option<nat>, quantity: int, price: Option<int>)

  /** What a successful allocation produces: the new product stock, the
      deferred batch writes in order, and the new assignments in item order. */
  datatype Plan = Plan(stock: map<nat, int>, ops: seq<Op>, created: seq<Assignment>)

  /** The quantity the items request of product p. */
  function ItemQty(items: seq<Item>, p: nat): int
  {
    if |items| == 0 then 0
    else (if items[0].product == Some(p) then items[0].quantity else 0) + ItemQty(items[1..], p)
  }

  /** The stock check: an unknown product, or one whose current stock is below
      the quantity, fails the allocation. */
  predicate Refused(stock: map<nat, int>, it: Item)
  {
    it.product.None? || it.product.value !in stock || stock[it.product.value] < it.quantity
  }

  /** `sourceBatches` of a draw. */
  function SourceList(ds: seq<Draw>): (r: seq<Source>)
    ensures |r| == |ds|
    ensures forall k :: 0 <= k < |ds| ==> r[k] == Source(ds[k].source.batch, ds[k].taken)
  {
    if |ds| == 0 then [] else [Source(ds[0].source.batch, ds[0].taken)] + SourceList(ds[1..])
  }

  /** The `$set` of each drawn line to its new level. */
  function OpsOf(ds: seq<Draw>, p: nat): (r: seq<Op>)
    ensures |r| == |ds|
    ensures forall k :: 0 <= k < |ds| ==> r[k] == Op(ds[k].source.batch, p, NewLevel(ds[k]))
  {
    if |ds| == 0 then [] else [Op(ds[0].source.batch, p, NewLevel(ds[0]))] + OpsOf(ds[1..], p)
  }

  /** The draw of one item; the batches are read as they were before the
      request, since the writes are deferred. */
  function ItemDraw(bs: seq<Batch>, p: nat, q: int): seq<Draw>
  {
    DrawList(Candidates(bs, p), q)
  }

  /** One item: the stock check, the debit, the writes and the new assignment. */
  function Step(stock: map<nat, int>, bs: seq<Batch>, it: Item, jobworker: nat,
                assignedBy: Option<nat>, challan: nat): Result<Plan>
  {
    if Refused(stock, it) then Err(InsufficientStock)
    else
      var p := it.product.value;
      var ds := ItemDraw(bs, p, it.quantity);
      Ok(Plan(stock[p := stock[p] - it.quantity], OpsOf(ds, p),
              [Fresh(p, it.quantity, OrZero(it.price), jobworker, assignedBy, challan, SourceList(ds))]))
  }

  /** Put the work of earlier items in front of a later outcome. */
  function Prepend(ops: seq<Op>, created: seq<Assignment>, r: Result<Plan>): Result<Plan>
  {
    match r
    case Err(e) => Err(e)
    case Ok(pl) => Ok(Plan(pl.stock, ops + pl.ops, created + pl.created))
  }

  /** The allocation of all items, in order. */
  function PlanItems(stock: map<nat, int>, bs: seq<Batch>, items: seq<Item>, jobworker: nat,
                     assignedBy: Option<nat>, challan: nat): (r: Result<Plan>)
    ensures r.Err? ==> r.error == InsufficientStock
    decreases |items|
  {
    if |items| == 0 then Ok(Plan(stock, [], []))
    else match Step(stock, bs, items[0], jobworker, assignedBy, challan)
      case Err(e) => Err(e)
      case Ok(s) => Prepend(s.ops, s.created, PlanItems(s.stock, bs, items[1..], jobworker, assignedBy, challan))
  }

  lemma PrependTwice(ops1: seq<Op>, cr1: seq<Assignment>, ops2: seq<Op>, cr2: seq<Assignment>, r: Result<Plan>)
    ensures Prepend(ops1, cr1, Prepend(ops2, cr2, r)) == Prepend(ops1 + ops2, cr1 + cr2, r)
  {
    if r.Ok? {
      assert ops1 + (ops2 + r.value.ops) == ops1 + ops2 + r.value.ops;
      assert cr1 + (cr2 + r.value.created) == cr1 + cr2 + r.value.created;
    }
  }

  lemma PrependNothing(r: Result<Plan>)
    ensures Prepend([], [], r) == r
  {
    if r.Ok? {
      assert [] + r.value.ops == r.value.ops && [] + r.value.created == r.value.created;
    }
  }

  /** The loop invariant of Allocate: the work done on the first i items,
      followed by the allocation of the rest against the running stock, is
      the allocation of all items. */
  ghost predicate Allocated(stock: map<nat, int>, bs: seq<Batch>, items: seq<Item>, jobworker: nat,
                            assignedBy: Option<nat>, challan: nat,
                            i: nat, current: map<nat, int>, ops: seq<Op>, created: seq<Assignment>)
    requires i <= |items|
  {
    PlanItems(stock, bs, items, jobworker, assignedBy, challan)
      == Prepend(ops, created, PlanItems(current, bs, items[i..], jobworker, assignedBy, challan))
  }

  lemma AllocatedStart(stock: map<nat, int>, bs: seq<Batch>, items: seq<Item>, jobworker: nat,
                       assignedBy: Option<nat>, challan: nat)
    ensures Allocated(stock, bs, items, jobworker, assignedBy, challan, 0, stock, [], [])
  {
    assert items[0..] == items;
    PrependNothing(PlanItems(stock, bs, items, jobworker, assignedBy, challan));
  }

  /** A refused item fails the whole allocation. */
  lemma AllocatedRefused(stock: map<nat, int>, bs: seq<Batch>, items: seq<Item>, jobworker: nat,
                         assignedBy: Option<nat>, challan: nat,
                         i: nat, current: map<nat, int>, ops: seq<Op>, created: seq<Assignment>)
    requires i < |items| && Allocated(stock, bs, items, jobworker, assignedBy, challan, i, current, ops, created)
    requires Refused(current, items[i])
    ensures PlanItems(stock, bs, items, jobworker, assignedBy, challan) == Err(InsufficientStock)
  {
    assert items[i..][0] == items[i];
  }

  /** An accepted item adds its writes and its assignment. */
  lemma AllocatedStep(stock: map<nat, int>, bs: seq<Batch>, items: seq<Item>, jobworker: nat,
                      assignedBy: Option<nat>, challan: nat,
                      i: nat, current: map<nat, int>, ops: seq<Op>, created: seq<Assignment>,
                      p: nat, ds: seq<Draw>)
    requires i < |items| && Allocated(stock, bs, items, jobworker, assignedBy, challan, i, current, ops, created)
    requires items[i].product == Some(p) && p in current && current[p] >= items[i].quantity
    requires ds == ItemDraw(bs, p, items[i].quantity)
    ensures Allocated(stock, bs, items, jobworker, assignedBy, challan, i + 1,
                      current[p := current[p] - items[i].quantity], ops + OpsOf(ds, p),
                      created + [Fresh(p, items[i].quantity, OrZero(items[i].price), jobworker, assignedBy, challan,
                                       SourceList(ds))])
  {
    var s := Step(current, bs, items[i], jobworker, assignedBy, challan).value;
    assert items[i..][0] == items[i] && items[i..][1..] == items[i + 1..];
    PrependTwice(ops, created, s.ops, s.created, PlanItems(s.stock, bs, items[i + 1..], jobworker, assignedBy, challan));
  }

  lemma AllocatedEnd(stock: map<nat, int>, bs: seq<Batch>, items: seq<Item>, jobworker: nat,
                     assignedBy: Option<nat>, challan: nat,
                     current: map<nat, int>, ops: seq<Op>, created: seq<Assignment>)
    requires Allocated(stock, bs, items, jobworker, assignedBy, challan, |items|, current, ops, created)
    ensures PlanItems(stock, bs, items, jobworker, assignedBy, challan) == Ok(Plan(current, ops, created))
  {
    assert items[|items|..] == [];
    assert ops + [] == ops && created + [] == created;
  }

  /** The item loop as the handler runs it: the stock check against the
      running stock, the FIFO walk, the debit, and the arrays it pushes to. */
  method Allocate(stock: map<nat, int>, bs: seq<Batch>, items: seq<Item>, jobworker: nat,
                  assignedBy: Option<nat>, challan: nat) returns (r: Result<Plan>)
    ensures r == PlanItems(stock, bs, items, jobworker, assignedBy, challan)
  {
    var current: map<nat, int> := stock;
    var ops: seq<Op> := [];
    var created: seq<Assignment> := [];
    var i := 0;
    AllocatedStart(stock, bs, items, jobworker, assignedBy, challan);
    while i < |items|
      invariant 0 <= i <= |items|
      invariant Allocated(stock, bs, items, jobworker, assignedBy, challan, i, current, ops, created)
    {
      var it := items[i];
      if it.product.None? || it.product.value !in current || current[it.product.value] < it.quantity {
        AllocatedRefused(stock, bs, items, jobworker, assignedBy, challan, i, current, ops, created);
        return Err(InsufficientStock);
      }
      var p := it.product.value;
      var draws, _ := PlanDraw(Candidates(bs, p), it.quantity);
      var a := Fresh(p, it.quantity, OrZero(it.price), jobworker, assignedBy, challan, SourceList(draws));
      AllocatedStep(stock, bs, items, jobworker, assignedBy, challan, i, current, ops, created, p, draws);
      current := current[p := current[p] - it.quantity];
      ops := ops + OpsOf(draws, p);
      created := created + [a];
      i := i + 1;
    }
    AllocatedEnd(stock, bs, items, jobworker, assignedBy, challan, current, ops, created);
    return Ok(Plan(current, ops, created));
  }

  /** Each product's stock falls by exactly what the items request of it, in
      total; the set of products does not change. */
  lemma {:induction false} PlanStock(stock: map<nat, int>, bs: seq<Batch>, items: seq<Item>, jobworker: nat,
                                     assignedBy: Option<nat>, challan: nat)
    requires PlanItems(stock, bs, items, jobworker, assignedBy, challan).Ok?
    ensures PlanItems(stock, bs, items, jobworker, assignedBy, challan).value.stock.Keys == stock.Keys
    ensures forall p :: p in stock ==>
      PlanItems(stock, bs, items, jobworker, assignedBy, challan).value.stock[p] == stock[p] - ItemQty(items, p)
    decreases |items|
  {
    if |items| > 0 {
      var s := Step(stock, bs, items[0], jobworker, assignedBy, challan).value;
      PlanStock(s.stock, bs, items[1..], jobworker, assignedBy, challan);
    }
  }

  /** Whether item k is refused, given the stock before the request: the
      earlier items have already debited their quantities. */
  predicate RefusedAt(stock: map<nat, int>, items: seq<Item>, k: nat)
    requires k < |items|
  {
    var it := items[k];
    it.product.None? || it.product.value !in stock
    || stock[it.product.value] - ItemQty(items[..k], it.product.value) < it.quantity
  }

  /** The allocation fails exactly when some item is refused against the stock
      the items before it have left. */
  lemma {:induction false} PlanFailsIff(stock: map<nat, int>, bs: seq<Batch>, items: seq<Item>, jobworker: nat,
                                        assignedBy: Option<nat>, challan: nat)
    ensures PlanItems(stock, bs, items, jobworker, assignedBy, challan).Err?
        <==> exists k :: 0 <= k < |items| && RefusedAt(stock, items, k)
    decreases |items|
  {
    if |items| > 0 {
      assert items[..0] == [];
      if !Refused(stock, items[0]) {
        var s := Step(stock, bs, items[0], jobworker, assignedBy, challan).value;
        var rest := items[1..];
        PlanFailsIff(s.stock, bs, rest, jobworker, assignedBy, challan);
        forall k | 1 <= k < |items|
          ensures RefusedAt(stock, items, k) == RefusedAt(s.stock, rest, k - 1)
        {
          assert items[..k] == [items[0]] + rest[..k - 1];
          assert items[..k][1..] == rest[..k - 1];
        }
        if exists k :: 0 <= k < |items| && RefusedAt(stock, items, k) {
          var k :| 0 <= k < |items| && RefusedAt(stock, items, k);
          assert k >= 1 && RefusedAt(s.stock, rest, k - 1);
        }
        if exists j :: 0 <= j < |rest| && RefusedAt(s.stock, rest, j) {
          var j :| 0 <= j < |rest| && RefusedAt(s.stock, rest, j);
          assert RefusedAt(stock, items, j + 1);
        }
      } else {
        assert RefusedAt(stock, items, 0);
      }
    }
  }

  /** One Pending assignment per item, in item order, holding the item's
      product, quantity, price (zero when absent) and its FIFO draw, with
      zero counters and no lock. */
  lemma {:induction false} PlanCreated(stock: map<nat, int>, bs: seq<Batch>, items: seq<Item>, jobworker: nat,
                                       assignedBy: Option<nat>, challan: nat)
    requires PlanItems(stock, bs, items, jobworker, assignedBy, challan).Ok?
    ensures |PlanItems(stock, bs, items, jobworker, assignedBy, challan).value.created| == |items|
    ensures forall k :: 0 <= k < |items| ==>
      items[k].product.Some? &&
      PlanItems(stock, bs, items, jobworker, assignedBy, challan).value.created[k]
        == Fresh(items[k].product.value, items[k].quantity, OrZero(items[k].price), jobworker, assignedBy,
                 challan, SourceList(ItemDraw(bs, items[k].product.value, items[k].quantity)))
    decreases |items|
  {
    if |items| > 0 {
      var s := Step(stock, bs, items[0], jobworker, assignedBy, challan).value;
      PlanCreated(s.stock, bs, items[1..], jobworker, assignedBy, challan);
      var cr := PlanItems(stock, bs, items, jobworker, assignedBy, challan).value.created;
      assert cr == s.created + PlanItems(s.stock, bs, items[1..], jobworker, assignedBy, challan).value.created;
      forall k | 1 <= k < |items|
        ensures cr[k] == PlanItems(s.stock, bs, items[1..], jobworker, assignedBy, challan).value.created[k - 1]
      {
      }
    }
  }

  /** The new assignments, one per item, all belong to the new challan and
      carry neither a lock nor staged quantities. */
  lemma {:induction false} PlanUnlocked(stock: map<nat, int>, bs: seq<Batch>, items: seq<Item>, jobworker: nat,
                                        assignedBy: Option<nat>, challan: nat)
    requires PlanItems(stock, bs, items, jobworker, assignedBy, challan).Ok?
    ensures var cr := PlanItems(stock, bs, items, jobworker, assignedBy, challan).value.created;
      && |cr| == |items|
      && forall k :: 0 <= k < |cr| ==>
           cr[k].challan == challan && cr[k].activeRequest.None?
           && cr[k].pendingCleared == 0 && cr[k].pendingLost == 0 && cr[k].pendingDamaged == 0
    decreases |items|
  {
    if |items| > 0 {
      var s := Step(stock, bs, items[0], jobworker, assignedBy, challan).value;
      PlanUnlocked(s.stock, bs, items[1..], jobworker, assignedBy, challan);
    }
  }

  /** The writes of all items in order; they do not depend on the stock. */
  function AllOps(bs: seq<Batch>, items: seq<Item>): seq<Op>
  {
    if |items| == 0 then []
    else
      (if items[0].product.Some? then OpsOf(ItemDraw(bs, items[0].product.value, items[0].quantity), items[0].product.value)
       else [])
      + AllOps(bs, items[1..])
  }

  lemma {:induction false} PlanOps(stock: map<nat, int>, bs: seq<Batch>, items: seq<Item>, jobworker: nat,
                                   assignedBy: Option<nat>, challan: nat)
    requires PlanItems(stock, bs, items, jobworker, assignedBy, challan).Ok?
    ensures PlanItems(stock, bs, items, jobworker, assignedBy, challan).value.ops == AllOps(bs, items)
    decreases |items|
  {
    if |items| > 0 {
      var s := Step(stock, bs, items[0], jobworker, assignedBy, challan).value;
      PlanOps(s.stock, bs, items[1..], jobworker, assignedBy, challan);
    }
  }

  /** Every write of one item's draw names the first line of a matching batch
      and lowers its level by a positive take, to no less than zero. */
  lemma DrawOpsLower(bs: seq<Batch>, p: nat, q: int)
    ensures forall op :: op in OpsOf(ItemDraw(bs, p, q), p) ==>
      && op.batch < |bs| && op.product == p && FirstLine(bs[op.batch].lines, p).Some?
      && 0 <= op.level < bs[op.batch].lines[FirstLine(bs[op.batch].lines, p).value].available
  {
    var cands := Candidates(bs, p);
    var ds := ItemDraw(bs, p, q);
    CandidatesOrdered(bs, p);
    DrawFrom(cands, q);
    DrawBounds(cands, q);
    forall op | op in OpsOf(ds, p)
      ensures && op.batch < |bs| && op.product == p && FirstLine(bs[op.batch].lines, p).Some?
              && 0 <= op.level < bs[op.batch].lines[FirstLine(bs[op.batch].lines, p).value].available
    {
      var k :| 0 <= k < |ds| && OpsOf(ds, p)[k] == op;
      assert ds[k] in ds;
    }
  }

  /** The same for the writes of all items. */
  lemma {:induction false} AllOpsLower(bs: seq<Batch>, items: seq<Item>)
    ensures forall op :: op in AllOps(bs, items) ==>
      && op.batch < |bs| && FirstLine(bs[op.batch].lines, op.product).Some?
      && 0 <= op.level < bs[op.batch].lines[FirstLine(bs[op.batch].lines, op.product).value].available
  {
    if |items| > 0 {
      AllOpsLower(bs, items[1..]);
      if items[0].product.Some? {
        DrawOpsLower(bs, items[0].product.value, items[0].quantity);
      }
    }
  }

  /** The level the last write names was written by one of the writes. */
  lemma {:induction false} LastWriteFrom(ops: seq<Op>, b: nat, p: nat)
    ensures LastWrite(ops, b, p).Some? ==> Op(b, p, LastWrite(ops, b, p).value) in ops
  {
    if |ops| > 0 {
      LastWriteFrom(ops[1..], b, p);
    }
  }

  /** After the bulk write, every batch line keeps its level or holds a lower
      one that is not negative; nothing but the levels changes. */
  lemma LevelsLowered(bs: seq<Batch>, items: seq<Item>)
    ensures SameShape(bs, ApplyOps(bs, AllOps(bs, items)))
    ensures forall i, k :: 0 <= i < |bs| && 0 <= k < |bs[i].lines| ==>
      var after := ApplyOps(bs, AllOps(bs, items))[i].lines[k].available;
      after == bs[i].lines[k].available || 0 <= after < bs[i].lines[k].available
  {
    var ops := AllOps(bs, items);
    LastWriteWins(bs, ops);
    AllOpsLower(bs, items);
    forall i, k | 0 <= i < |bs| && 0 <= k < |bs[i].lines|
      ensures var after := ApplyOps(bs, ops)[i].lines[k].available;
              after == bs[i].lines[k].available || 0 <= after < bs[i].lines[k].available
    {
      var p := bs[i].lines[k].product;
      LastWriteFrom(ops, i, p);
    }
  }
}
