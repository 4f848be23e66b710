/** Work assignments: the record of a quantity of one product sent to one job
    worker, its committed outcome counters (cleared, lost, damaged), the
    staging fields of an outstanding return request and the lock naming it,
    and the status recomputed on every commit. */
module Assignments {
  import opened Common

  datatype Status = Pending | InProgress | Cleared

  /** One `sourceBatches` entry: a batch drawn from and the quantity taken. */
  datatype Source = Source(batch: nat, taken: int)

  /** `lost` is the source's `lostlQuantity`. The `pending*` fields and
      `activeRequest` (`activeReturnRequestId`) are the ones the return
      handlers write. */
  datatype Assignment = Assignment(
    product: nat, quantity: int, price: int, jobworker: nat, assignedBy: Option<nat>,
    challan: nat, sources: seq<Source>, status: Status,
    cleared: int, lost: int, damaged: int,
    pendingCleared: int, pendingLost: int, pendingDamaged: int,
    activeRequest: Option<nat>)

  /** The quantity already accounted for. */
  function Accounted(a: Assignment): int
  {
    a.cleared + a.lost + a.damaged
  }

  /** The quantity not yet accounted for. */
  function Remaining(a: Assignment): int
  {
    a.quantity - Accounted(a)
  }

  /** The quantity staged by an outstanding return request. */
  function PendingTotal(a: Assignment): int
  {
    a.pendingCleared + a.pendingLost + a.pendingDamaged
  }

  /** Conservation: committed plus staged never exceeds the assigned quantity. */
  predicate Conserving(a: Assignment)
  {
    Accounted(a) + PendingTotal(a) <= a.quantity
  }

  /** The status every commit recomputes: `accounted === quantity ? "Cleared" : "InProgress"`. */
  function StatusFor(accounted: int, quantity: int): (s: Status)
    ensures s == Cleared <==> accounted == quantity
    ensures s != Pending
  {
    if accounted == quantity then Cleared else InProgress
  }

  /** A new assignment as the allocation creates it. */
  function Fresh(product: nat, quantity: int, price: int, jobworker: nat, assignedBy: Option<nat>,
                 challan: nat, sources: seq<Source>): (r: Assignment)
    ensures r.status == Pending && Accounted(r) == 0 && PendingTotal(r) == 0 && r.activeRequest.None?
    ensures r.cleared == 0 && r.lost == 0 && r.damaged == 0
    ensures quantity >= 0 ==> Conserving(r)
  {
    Assignment(product, quantity, price, jobworker, assignedBy, challan, sources, Pending,
               0, 0, 0, 0, 0, 0, None)
  }

  /** Commit outcome deltas: each counter grows by its delta and the status
      is recomputed; nothing else changes. */
  function Commit(a: Assignment, c: int, l: int, d: int): (r: Assignment)
    ensures r.cleared == a.cleared + c && r.lost == a.lost + l && r.damaged == a.damaged + d
    ensures Accounted(r) == Accounted(a) + c + l + d
    ensures r.status == Cleared <==> Accounted(r) == r.quantity
    ensures r.status != Pending
    ensures r == a.(cleared := r.cleared, lost := r.lost, damaged := r.damaged, status := r.status)
    ensures c + l + d <= Remaining(a) ==> Accounted(r) <= r.quantity
    ensures c + l + d <= Remaining(a) - PendingTotal(a) ==> Conserving(r)
  {
    var r := a.(cleared := a.cleared + c, lost := a.lost + l, damaged := a.damaged + d);
    r.(status := StatusFor(Accounted(r), r.quantity))
  }

  /** Stage a return request's proposal and take the lock. */
  function Stage(a: Assignment, request: nat, c: int, l: int, d: int): (r: Assignment)
    ensures r.activeRequest == Some(request) && PendingTotal(r) == c + l + d
    ensures r == a.(pendingCleared := c, pendingLost := l, pendingDamaged := d, activeRequest := Some(request))
    ensures Accounted(r) == Accounted(a) && r.status == a.status
    ensures c + l + d <= Remaining(a) ==> Conserving(r)
  {
    a.(pendingCleared := c, pendingLost := l, pendingDamaged := d, activeRequest := Some(request))
  }

  /** Zero the staging fields and release the lock. */
  function Unstage(a: Assignment): (r: Assignment)
    ensures r.activeRequest.None? && r.pendingCleared == 0 && r.pendingLost == 0 && r.pendingDamaged == 0
    ensures r == a.(pendingCleared := 0, pendingLost := 0, pendingDamaged := 0, activeRequest := None)
    ensures Conserving(a) && PendingTotal(a) >= 0 ==> Conserving(r)
  {
    a.(pendingCleared := 0, pendingLost := 0, pendingDamaged := 0, activeRequest := None)
  }

  /** Approval: the staged values move into the committed counters, the
      staging fields are zeroed, the lock released, the status recomputed. */
  function Approved(a: Assignment): (r: Assignment)
    ensures r.cleared == a.cleared + a.pendingCleared
    ensures r.lost == a.lost + a.pendingLost
    ensures r.damaged == a.damaged + a.pendingDamaged
    ensures Accounted(r) == Accounted(a) + PendingTotal(a) && PendingTotal(r) == 0
    ensures r.activeRequest.None? && r.quantity == a.quantity && r.product == a.product
    ensures r.status == Cleared <==> Accounted(r) == r.quantity
    ensures Conserving(a) ==> Conserving(r)
  {
    Unstage(Commit(a, a.pendingCleared, a.pendingLost, a.pendingDamaged))
  }

  /** The legacy receive path checks only the committed counters, so a
      return it accepts can overrun a quantity that an outstanding request
      has already staged: accounting for all that remains while a positive
      proposal is staged breaks conservation. */
  lemma ReceiveIgnoresStaging(a: Assignment, c: int)
    requires Conserving(a) && PendingTotal(a) > 0
    requires 0 < c == Remaining(a)
    ensures !Conserving(Commit(a, c, 0, 0))
  {
  }

  /** Ten units assigned, a request proposing 7 cleared, 2 short and 1
      second staged and then approved: the counters hold the proposal, the
      assignment is Cleared, and nothing stays staged. */
  lemma ApprovalScenario(product: nat, price: int, jobworker: nat, assignedBy: Option<nat>, challan: nat,
                         sources: seq<Source>, request: nat)
    ensures var a := Approved(Stage(Fresh(product, 10, price, jobworker, assignedBy, challan, sources),
                                    request, 7, 2, 1));
      && a.cleared == 7 && a.lost == 2 && a.damaged == 1 && a.status == Cleared
      && PendingTotal(a) == 0 && a.activeRequest.None?
  {
  }
}

