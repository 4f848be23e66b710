/** The database the handlers share and the handlers themselves. Each handler
    runs in one transaction: it either fails and leaves every collection as it
    was, or applies all of its updates. Ids are positions in the collections;
    products are the keys of the stock map (a missing key is a product that
    does not exist). */
module Store {
  import opened Common
  import opened Assignments
  import opened Returns
  import opened Bookkeeping
  import ChallanNumber
  import Inventory
  import Allocation
  import Sale

  class Db {
    /** `totalAvailableStock` of each product. */
    var stock: map<nat, int>
    var batches: seq<Inventory.Batch>
    var challans: seq<Challan>
    var assignments: seq<Assignment>
    var requests: seq<ReturnRequest>
    var ledger: seq<LedgerEntry>
    var orders: seq<Sale.SaleOrder>

    /** The invariant every handler keeps (see `Bookkeeping.Consistent`). */
    ghost predicate Valid()
      reads this`challans, this`assignments, this`requests
    {
      Consistent(challans, assignments, requests)
    }

    /** A database holding the given products and nothing else. */
    constructor(products: map<nat, int>)
      ensures Valid()
      ensures stock == products && batches == [] && challans == [] && assignments == []
      ensures requests == [] && ledger == [] && orders == []
    {
      stock := products;
      batches := [];
      challans := [];
      assignments := [];
      requests := [];
      ledger := [];
      orders := [];
    }

    /** The assignment an id names, if any. */
    function Find(id: Option<nat>): (r: Option<Assignment>)
      reads this
      ensures r.Some? <==> id.Some? && id.value < |assignments|
      ensures r.Some? ==> r.value == assignments[id.value]
    {
      if id.Some? && id.value < |assignments| then Some(assignments[id.value]) else None
    }

    /** getNextChallanNumber: the successor of the most recent challan's number.
        `Bookkeeping.NextNumber` specifies it; this function only reads the
        challans off the store. */
    function NextChallanNumber(): (n: string)
      reads this
      ensures Valid() ==> n == ChallanNumber.Format(|challans| + 1)
    {
      NextNumber(challans)
    }

    /** createInventory. */
    method CreateInventory(lines: seq<Inventory.LineInput>, vendor: Option<nat>, issuedBy: Option<nat>,
                           challanNo: Option<string>, challanDate: Option<int>) returns (r: Result<nat>)
      requires Valid()
      modifies this
      ensures Valid()
      ensures r.Err? ==> unchanged(this)
      ensures |lines| == 0 || issuedBy.None? ==> r == Err(MissingInput)
      ensures |lines| > 0 && issuedBy.Some? &&
              (!Inventory.Complete(lines) || challanNo.None? || challanNo.value == "" || challanDate.None?)
              ==> r == Err(InvalidDocument)
      ensures r.Ok? ==>
        && r.value == |old(batches)|
        && batches == old(batches) + [Inventory.Batch(Inventory.Normalize(lines), vendor, issuedBy.value,
                                                      challanNo.value, challanDate.value)]
        && stock == Inventory.Credited(old(stock), Inventory.Normalize(lines))
        && challans == old(challans) && assignments == old(assignments) && requests == old(requests)
        && ledger == old(ledger) && orders == old(orders)
      ensures r.Ok? <==> |lines| > 0 && issuedBy.Some? && Inventory.Complete(lines)
                         && challanNo.Some? && challanNo.value != "" && challanDate.Some?
    {
      if |lines| == 0 || issuedBy.None? {
        return Err(MissingInput);
      }
      if !Inventory.Complete(lines) || challanNo.None? || challanNo.value == "" || challanDate.None? {
        return Err(InvalidDocument);
      }
      var normalized := Inventory.Normalize(lines);
      r := Ok(|batches|);
      batches := batches + [Inventory.Batch(normalized, vendor, issuedBy.value, challanNo.value, challanDate.value)];
      stock := Inventory.CreditAll(stock, normalized);
    }

    /** assignToWorkers: a new challan, one Pending assignment per item, the
        stock debits and the batch writes, or nothing at all. */
    method AssignToWorkers(jobworker: Option<nat>, assignedBy: Option<nat>,
                           products: seq<Allocation.Item>, additional: seq<Allocation.Item>) returns (r: Result<nat>)
      requires Valid()
      modifies this
      ensures Valid()
      ensures r.Err? ==> unchanged(this)
      ensures jobworker.None? || |products + additional| == 0 ==> r == Err(MissingInput)
      ensures jobworker.Some? && |products + additional| > 0 ==>
        var plan := Allocation.PlanItems(old(stock), old(batches), products + additional, jobworker.value,
                                         assignedBy, |old(challans)|);
        && (plan.Err? ==> r == Err(plan.error))
        && (plan.Ok? ==>
              && r == Ok(|old(challans)|)
              && stock == plan.value.stock
              && batches == Inventory.ApplyOps(old(batches), plan.value.ops)
              && assignments == old(assignments) + plan.value.created
              && challans == old(challans) + [Challan(ChallanNumber.Format(|old(challans)| + 1), jobworker.value,
                                                      assignedBy, Ids(|old(assignments)|, |products + additional|))]
              && |plan.value.created| == |products + additional|
              && (forall k :: 0 <= k < |plan.value.created| ==>
                    challans[|old(challans)|].assignments[k] < |assignments|
                    && assignments[challans[|old(challans)|].assignments[k]] == plan.value.created[k])
              && requests == old(requests) && ledger == old(ledger) && orders == old(orders))
    {
      var items := products + additional;
      if jobworker.None? || |items| == 0 {
        return Err(MissingInput);
      }
      var number := NextChallanNumber();
      var challan := |challans|;
      var plan := Allocation.Allocate(stock, batches, items, jobworker.value, assignedBy, challan);
      if plan.Err? {
        return Err(plan.error);
      }
      Allocation.PlanUnlocked(stock, batches, items, jobworker.value, assignedBy, challan);
      IdsNameCreated(assignments, plan.value.created);
      Dispatch(Challan(number, jobworker.value, assignedBy, Ids(|assignments|, |items|)), plan.value);
      return Ok(challan);
    }

    /** The writes of a successful allocation: the debited stock, the batch
        writes, the new assignments and the challan that holds them. */
    method Dispatch(c: Challan, plan: Allocation.Plan)
      requires Valid() && c.number == ChallanNumber.Format(|challans| + 1)
      requires forall k :: 0 <= k < |plan.created| ==>
        plan.created[k].challan == |challans| && plan.created[k].activeRequest.None?
        && plan.created[k].pendingCleared == 0 && plan.created[k].pendingLost == 0
        && plan.created[k].pendingDamaged == 0
      modifies this
      ensures Valid()
      ensures stock == plan.stock && batches == Inventory.ApplyOps(old(batches), plan.ops)
      ensures assignments == old(assignments) + plan.created && challans == old(challans) + [c]
      ensures unchanged(this`requests, this`ledger, this`orders)
    {
      AllocationKeeps(challans, assignments, requests, c, plan.created);
      stock := plan.stock;
      batches := Inventory.ApplyOps(batches, plan.ops);
      assignments := assignments + plan.created;
      challans := challans + [c];
    }

    /** receiveAssignmentReturn: commit outcome counters directly, checked
        against the committed counters only. */
    method ReceiveAssignmentReturn(assignmentId: Option<nat>, c: int, l: int, d: int) returns (r: Result<Assignment>)
      requires Valid()
      modifies this
      ensures Valid()
      ensures r.Err? ==> unchanged(this)
      ensures ReceiveError(assignmentId, old(Find(assignmentId)), c, l, d).Some? ==>
        r == Err(ReceiveError(assignmentId, old(Find(assignmentId)), c, l, d).value)
      ensures ReceiveError(assignmentId, old(Find(assignmentId)), c, l, d).None? ==>
        && r == Ok(Commit(old(assignments[assignmentId.value]), c, l, d))
        && assignments == old(assignments)[assignmentId.value := r.value]
        && Accounted(r.value) <= r.value.quantity
        && stock == old(stock) && batches == old(batches) && challans == old(challans)
        && requests == old(requests) && ledger == old(ledger) && orders == old(orders)
    {
      var e := ReceiveError(assignmentId, Find(assignmentId), c, l, d);
      if e.Some? {
        return Err(e.value);
      }
      var id := assignmentId.value;
      var a := Commit(assignments[id], c, l, d);
      KeepsBookkeeping(challans, assignments, requests, id, a);
      assignments := assignments[id := a];
      return Ok(a);
    }

    /** submitReturnRequest: record a Pending request and stage its proposal
        on the assignment under the lock. */
    method SubmitReturnRequest(assignmentId: Option<nat>, jobworkerId: Option<nat>, c: int, l: int, d: int)
      returns (r: Result<nat>)
      requires Valid()
      modifies this
      ensures Valid()
      ensures r.Err? ==> unchanged(this)
      ensures SubmitError(assignmentId, jobworkerId, old(Find(assignmentId)), c, l, d).Some? ==>
        r == Err(SubmitError(assignmentId, jobworkerId, old(Find(assignmentId)), c, l, d).value)
      ensures SubmitError(assignmentId, jobworkerId, old(Find(assignmentId)), c, l, d).None? ==>
        var id := assignmentId.value;
        && r == Ok(|old(requests)|)
        && requests == old(requests) + [ReturnRequest(id, c, l, d, RequestStatus.Pending, jobworkerId.value, None, None)]
        && assignments == old(assignments)[id := Stage(old(assignments[id]), |old(requests)|, c, l, d)]
        && Accounted(assignments[id]) == Accounted(old(assignments[id]))
        && Conserving(assignments[id])
        && stock == old(stock) && batches == old(batches) && challans == old(challans)
        && ledger == old(ledger) && orders == old(orders)
    {
      var e := SubmitError(assignmentId, jobworkerId, Find(assignmentId), c, l, d);
      if e.Some? {
        return Err(e.value);
      }
      var id := assignmentId.value;
      var rid := |requests|;
      var request := ReturnRequest(id, c, l, d, RequestStatus.Pending, jobworkerId.value, None, None);
      SubmitKeeps(challans, assignments, requests, id, request);
      assert LockHeld(assignments, requests, id);
      requests := requests + [request];
      assignments := assignments[id := Stage(assignments[id], rid, c, l, d)];
      return Ok(rid);
    }

    /** The request an id names, if any. */
    function RequestAt(id: Option<nat>): (r: Option<ReturnRequest>)
      reads this
      ensures r.Some? <==> id.Some? && id.value < |requests|
      ensures r.Some? ==> r.value == requests[id.value]
    {
      if id.Some? && id.value < |requests| then Some(requests[id.value]) else None
    }

    /** The assignment a request names, if both exist. */
    function TargetOf(id: Option<nat>): Option<Assignment>
      reads this
    {
      var request := RequestAt(id);
      if request.Some? then Find(Some(request.value.assignment)) else None
    }

    /** The failure, if any, of reviewing request `id` in the current state. */
    function ReviewFailure(action: string, id: Option<nat>, reviewer: Option<nat>): Option<Error>
      reads this
    {
      var found := TargetOf(id);
      ReviewError(action, id, RequestAt(id), found, found.Some? && found.value.product in stock, reviewer)
    }

    /** reviewReturnRequest: reject (release the staged proposal) or approve
        (commit it and credit the cleared units to the product). */
    method ReviewReturnRequest(action: string, requestId: Option<nat>, reason: Option<string>, reviewer: Option<nat>)
      returns (r: Result<Assignment>)
      requires Valid()
      modifies this
      ensures Valid()
      ensures r.Err? ==> unchanged(this)
      ensures unchanged(this`batches, this`challans, this`orders)
      ensures old(ReviewFailure(action, requestId, reviewer)).Some? ==>
        r == Err(old(ReviewFailure(action, requestId, reviewer)).value)
      ensures old(ReviewFailure(action, requestId, reviewer)).None? ==>
        var id := requestId.value;
        var request := old(requests[id]);
        var a := request.assignment;
        var before := old(assignments[a]);
        && (action == "reject" ==>
              && r == Ok(Unstage(before))
              && assignments == old(assignments)[a := Unstage(before)]
              && requests == old(requests)[id := request.(status := RequestStatus.Rejected,
                              reviewedBy := reviewer, rejectionReason := Some(ReasonOrDefault(reason)))]
              && ledger == old(ledger) + [LedgerEntry(ReturnRejected, 0, before.product, a, reviewer.value)]
              && stock == old(stock))
        && (action != "reject" ==>
              && action == "approve"
              && r == Ok(Assignments.Approved(before))
              && assignments == old(assignments)[a := Assignments.Approved(before)]
              && r.value.cleared == before.cleared + request.cleared
              && r.value.lost == before.lost + request.shortage
              && r.value.damaged == before.damaged + request.seconds
              && requests == old(requests)[id := request.(status := RequestStatus.Approved, reviewedBy := reviewer)]
              && ledger == old(ledger) + (if ApprovalWrites(before) then
                   CategoryEntries(before.pendingCleared, before.pendingLost, before.pendingDamaged,
                                   before.product, a, reviewer.value) else [])
              && stock == (if before.pendingCleared > 0 then
                   old(stock)[before.product := old(stock)[before.product] + before.pendingCleared]
                   else old(stock)))
    {
      var e := ReviewFailure(action, requestId, reviewer);
      if e.Some? {
        return Err(e.value);
      }
      var id := requestId.value;
      if action == "reject" {
        var after := Reject(id, reason, reviewer);
        r := Ok(after);
      } else {
        var after := Approve(id, reviewer);
        r := Ok(after);
      }
    }

    /** The reject branch of a review: the staged proposal is released, the
        request is Rejected with its reason, and one ledger entry records it. */
    method Reject(id: nat, reason: Option<string>, reviewer: Option<nat>) returns (after: Assignment)
      requires Valid() && id < |requests| && requests[id].status == RequestStatus.Pending && reviewer.Some?
      modifies this
      ensures Valid()
      ensures old(requests[id]).assignment < |old(assignments)|
      ensures
        var request := old(requests[id]);
        var before := old(assignments[request.assignment]);
        && after == Unstage(before)
        && assignments == old(assignments)[request.assignment := after]
        && requests == old(requests)[id := request.(status := RequestStatus.Rejected,
                          reviewedBy := reviewer, rejectionReason := Some(ReasonOrDefault(reason)))]
        && ledger == old(ledger) + [LedgerEntry(ReturnRejected, 0, before.product, request.assignment, reviewer.value)]
      ensures unchanged(this`stock, this`batches, this`challans, this`orders)
    {
      var request := requests[id];
      var a := request.assignment;
      PendingIsStaged(challans, assignments, requests, id);
      var before := assignments[a];
      ledger := ledger + [LedgerEntry(ReturnRejected, 0, before.product, a, reviewer.value)];
      after := Unstage(before);
      Settle(id, request.(status := RequestStatus.Rejected, reviewedBy := reviewer,
                          rejectionReason := Some(ReasonOrDefault(reason))), after);
    }

    /** The approve branch of a review: the staged proposal is committed,
        the cleared units return to the product's stock, one ledger entry per
        positive category, and the request is Approved. */
    method Approve(id: nat, reviewer: Option<nat>) returns (after: Assignment)
      requires Valid() && id < |requests| && requests[id].status == RequestStatus.Pending
      requires ApprovalWrites(assignments[requests[id].assignment]) ==>
        reviewer.Some? && assignments[requests[id].assignment].product in stock
      modifies this
      ensures Valid()
      ensures old(requests[id]).assignment < |old(assignments)|
      ensures
        var request := old(requests[id]);
        var a := request.assignment;
        var before := old(assignments[a]);
        && after == Assignments.Approved(before)
        && before.pendingCleared == request.cleared && before.pendingLost == request.shortage
        && before.pendingDamaged == request.seconds
        && assignments == old(assignments)[a := after]
        && requests == old(requests)[id := request.(status := RequestStatus.Approved, reviewedBy := reviewer)]
        && ledger == old(ledger) + (if ApprovalWrites(before) then
             CategoryEntries(before.pendingCleared, before.pendingLost, before.pendingDamaged,
                             before.product, a, reviewer.value) else [])
        && stock == (if before.pendingCleared > 0 then
             old(stock)[before.product := old(stock)[before.product] + before.pendingCleared]
             else old(stock))
      ensures unchanged(this`batches, this`challans, this`orders)
    {
      var request := requests[id];
      var a := request.assignment;
      PendingIsStaged(challans, assignments, requests, id);
      var before := assignments[a];
      if before.pendingCleared > 0 {
        stock := stock[before.product := stock[before.product] + before.pendingCleared];
      }
      if ApprovalWrites(before) {
        ledger := ledger + CategoryEntries(before.pendingCleared, before.pendingLost, before.pendingDamaged,
                                           before.product, a, reviewer.value);
      }
      after := Assignments.Approved(before);
      Settle(id, request.(status := RequestStatus.Approved, reviewedBy := reviewer), after);
    }

    /** The writes every review makes: the request is settled, and its
        assignment is replaced by one whose lock is released and whose
        staging fields are zero. */
    method Settle(id: nat, settled: ReturnRequest, a: Assignment)
      requires Valid() && id < |requests| && requests[id].status == RequestStatus.Pending
      requires settled.assignment == requests[id].assignment && settled.status != RequestStatus.Pending
      requires a.challan == assignments[requests[id].assignment].challan && a.activeRequest.None?
      requires a.pendingCleared == 0 && a.pendingLost == 0 && a.pendingDamaged == 0
      modifies this
      ensures Valid()
      ensures requests == old(requests)[id := settled]
      ensures assignments == old(assignments)[old(requests[id]).assignment := a]
      ensures unchanged(this`stock, this`batches, this`challans, this`ledger, this`orders)
    {
      ReviewKeeps(challans, assignments, requests, id, settled, a);
      assignments := assignments[requests[id].assignment := a];
      requests := requests[id := settled];
    }

    /** directReturnProcess with its defect corrected: the ledger entries are
        performed by the acting user. It commits the counters straight away,
        reserving what Pending requests propose, and records an Approved
        request. */
    method DirectReturnProcess(actor: nat, assignmentId: Option<nat>, c: int, l: int, d: int)
      returns (r: Result<Assignment>)
      requires Valid()
      modifies this
      ensures Valid()
      ensures r.Err? ==> unchanged(this)
      ensures
        var pending := if assignmentId.Some? then PendingQuantity(old(requests), assignmentId.value) else 0;
        var e := DirectError(assignmentId, old(Find(assignmentId)), pending, c, l, d);
        && (e.Some? ==> r == Err(e.value))
        && (e.None? ==>
              var id := assignmentId.value;
              var before := old(assignments[id]);
              && r == Ok(Commit(before, c, l, d))
              && assignments == old(assignments)[id := r.value]
              && pending == PendingTotal(before)
              && (Conserving(before) ==> Conserving(r.value))
              && r.value.activeRequest == before.activeRequest && PendingTotal(r.value) == PendingTotal(before)
              && stock == (if c > 0 && before.product in old(stock) then
                             old(stock)[before.product := old(stock)[before.product] + c] else old(stock))
              && ledger == old(ledger) + CategoryEntries(c, l, d, before.product, id, actor)
              && requests == old(requests) + [ReturnRequest(id, c, l, d, RequestStatus.Approved, actor, Some(actor), None)]
              && batches == old(batches) && challans == old(challans) && orders == old(orders))
    {
      var pending := if assignmentId.Some? then PendingQuantity(requests, assignmentId.value) else 0;
      var e := DirectError(assignmentId, Find(assignmentId), pending, c, l, d);
      if e.Some? {
        return Err(e.value);
      }
      var id := assignmentId.value;
      var before := assignments[id];
      PendingMatchesLock(challans, assignments, requests, id);
      var a := Commit(before, c, l, d);
      var request := ReturnRequest(id, c, l, d, RequestStatus.Approved, actor, Some(actor), None);
      KeepsBookkeeping(challans, assignments, requests, id, a);
      AddSettledRequest(challans, assignments[id := a], requests, request);
      assignments := assignments[id := a];
      if c > 0 && before.product in stock {
        stock := stock[before.product := stock[before.product] + c];
      }
      ledger := ledger + CategoryEntries(c, l, d, before.product, id, actor);
      requests := requests + [request];
      return Ok(a);
    }

    /** createSaleOrder: every line is fulfilled from Cleared assignments and
        product stock, then the order document is validated and saved. */
    method CreateSaleOrder(lines: seq<Sale.SaleLine>, vendor: Option<nat>, admin: Option<nat>, firm: Option<nat>,
                           invoiceNo: Option<string>, invoiceDate: Option<int>, notes: Option<string>)
      returns (r: Result<nat>)
      requires Valid()
      modifies this
      ensures Valid()
      ensures r.Err? ==> unchanged(this)
      ensures |lines| == 0 ==> r == Err(MissingInput)
      ensures |lines| > 0 ==>
        var plan := Sale.SalePlan(old(assignments), old(stock), lines);
        var order := Sale.OrderOf(lines, vendor, admin, firm, invoiceNo, invoiceDate, notes);
        && (plan.Err? ==> r == Err(plan.error))
        && (plan.Ok? && order.Err? ==> r == Err(order.error))
        && (plan.Ok? && order.Ok? ==>
              && r == Ok(|old(orders)|)
              && assignments == plan.value.0 && stock == plan.value.1
              && orders == old(orders) + [order.value]
              && unchanged(this`batches, this`challans, this`requests, this`ledger))
    {
      if |lines| == 0 {
        return Err(MissingInput);
      }
      var plan := Sale.Fulfil(assignments, stock, lines);
      if plan.Err? {
        return Err(plan.error);
      }
      var order := Sale.OrderOf(lines, vendor, admin, firm, invoiceNo, invoiceDate, notes);
      if order.Err? {
        return Err(order.error);
      }
      Sale.SalePlanQuantities(assignments, stock, lines);
      r := Ok(|orders|);
      RecordSale(plan.value.0, plan.value.1, order.value);
    }

    /** The saves of a sale: the drained assignments, the debited stock and
        the new order. */
    method RecordSale(after: seq<Assignments.Assignment>, st: map<nat, int>, order: Sale.SaleOrder)
      requires Valid() && |after| == |assignments|
      requires forall j :: 0 <= j < |assignments| ==> after[j] == assignments[j].(quantity := after[j].quantity)
      modifies this
      ensures Valid()
      ensures assignments == after && stock == st && orders == old(orders) + [order]
      ensures unchanged(this`batches, this`challans, this`requests, this`ledger)
    {
      SaleKeeps(challans, assignments, requests, after);
      assignments := after;
      stock := st;
      orders := orders + [order];
    }
  }
}
