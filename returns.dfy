/** Return requests and the audit ledger: the request documents of the
    submit / review protocol, the entries the ledger receives, the order in
    which each return handler checks its input, and the sum of the proposals
    still pending for an assignment. */
module Returns {
  import opened Common
  import opened Assignments

  datatype RequestStatus = Pending | Approved | Rejected

  /** A return request: proposed cleared / shortage / seconds for one assignment. */
  datatype ReturnRequest = ReturnRequest(assignment: nat, cleared: int, shortage: int, seconds: int,
                                         status: RequestStatus, submittedBy: nat,
                                         reviewedBy: Option<nat>, rejectionReason: Option<string>)

  function RequestTotal(r: ReturnRequest): int
  {
    r.cleared + r.shortage + r.seconds
  }

  predicate PendingFor(r: ReturnRequest, a: nat)
  {
    r.assignment == a && r.status == RequestStatus.Pending
  }

  /** `pendingRequests.reduce((acc, req) => acc + req.cleared + req.shortage + req.seconds, 0)`
      over the Pending requests of assignment a. */
  function PendingQuantity(rs: seq<ReturnRequest>, a: nat): int
    decreases |rs|
  {
    if |rs| == 0 then 0
    else PendingQuantity(rs[..|rs| - 1], a)
         + (if PendingFor(rs[|rs| - 1], a) then RequestTotal(rs[|rs| - 1]) else 0)
  }

  /** When every Pending request of a is the one its lock names, the reduce
      sees exactly that request's proposal, or nothing. */
  lemma {:induction false} PendingQuantityOfLock(rs: seq<ReturnRequest>, a: nat, lock: Option<nat>)
    requires forall i :: 0 <= i < |rs| && PendingFor(rs[i], a) ==> lock == Some(i)
    ensures PendingQuantity(rs, a) ==
      if lock.Some? && lock.value < |rs| && PendingFor(rs[lock.value], a) then RequestTotal(rs[lock.value]) else 0
    decreases |rs|
  {
    if |rs| > 0 {
      var front := rs[..|rs| - 1];
      assert forall i :: 0 <= i < |front| ==> front[i] == rs[i];
      PendingQuantityOfLock(front, a, lock);
    }
  }

  /** What the ledger records: the event kind, the units it reports, and the
      product, assignment and user it concerns. */
  datatype EntryKind = ReturnRejected | ReturnCleared | ReturnLost | ReturnDamaged

  datatype LedgerEntry = LedgerEntry(kind: EntryKind, amount: int, product: nat, assignment: nat,
                                     performedBy: nat)

  /** One entry per category with a positive amount, in the order cleared,
      lost, damaged. */
  function CategoryEntries(c: int, l: int, d: int, product: nat, assignment: nat, actor: nat): (r: seq<LedgerEntry>)
    ensures |r| == (if c > 0 then 1 else 0) + (if l > 0 then 1 else 0) + (if d > 0 then 1 else 0)
    ensures forall e :: e in r ==>
      e.amount > 0 && e.product == product && e.assignment == assignment && e.performedBy == actor
      && e.kind != ReturnRejected
    ensures c > 0 <==> LedgerEntry(ReturnCleared, c, product, assignment, actor) in r
    ensures l > 0 <==> LedgerEntry(ReturnLost, l, product, assignment, actor) in r
    ensures d > 0 <==> LedgerEntry(ReturnDamaged, d, product, assignment, actor) in r
  {
    (if c > 0 then [LedgerEntry(ReturnCleared, c, product, assignment, actor)] else [])
    + (if l > 0 then [LedgerEntry(ReturnLost, l, product, assignment, actor)] else [])
    + (if d > 0 then [LedgerEntry(ReturnDamaged, d, product, assignment, actor)] else [])
  }

  /** `rejectionReason || "no reason"`. */
  function ReasonOrDefault(reason: Option<string>): (r: string)
    ensures |r| > 0
    ensures reason.None? || reason.value == "" ==> r == "no reason"
    ensures reason.Some? && reason.value != "" ==> r == reason.value
  {
    if reason.Some? && reason.value != "" then reason.value else "no reason"
  }

  /** The checks of receiveAssignmentReturn, in the order it makes them. */
  function ReceiveError(assignmentId: Option<nat>, found: Option<Assignment>, c: int, l: int, d: int): Option<Error>
  {
    if assignmentId.None? then Some(MissingInput)
    else if c + l + d <= 0 then Some(NonPositiveTotal)
    else if found.None? then Some(NotFound)
    else if c + l + d > Remaining(found.value) then Some(OverAllocation)
    else None
  }

  /** The checks of submitReturnRequest, in the order it makes them. */
  function SubmitError(assignmentId: Option<nat>, jobworkerId: Option<nat>, found: Option<Assignment>,
                       c: int, l: int, d: int): Option<Error>
  {
    if assignmentId.None? || jobworkerId.None? then Some(MissingInput)
    else if c + l + d <= 0 then Some(NonPositiveTotal)
    else if found.None? then Some(NotFound)
    else if found.value.activeRequest.Some? then Some(LockConflict)
    else if c + l + d > Remaining(found.value) then Some(OverAllocation)
    else None
  }

  /** The checks of directReturnProcess: the remaining quantity is reduced by
      what Pending requests of the assignment already propose. */
  function DirectError(assignmentId: Option<nat>, found: Option<Assignment>, pendingQuantity: int,
                       c: int, l: int, d: int): Option<Error>
  {
    if assignmentId.None? then Some(MissingInput)
    else if c + l + d <= 0 then Some(NonPositiveTotal)
    else if found.None? then Some(NotFound)
    else if c + l + d > Remaining(found.value) - pendingQuantity then Some(OverAllocation)
    else None
  }

  /** Whether a review's approval writes any ledger entry. */
  predicate ApprovalWrites(a: Assignment)
  {
    a.pendingCleared > 0 || a.pendingLost > 0 || a.pendingDamaged > 0
  }

  /** The checks and failures of reviewReturnRequest, in order. Building a
      ledger entry reads `assignment.productId._id`, which fails when the
      product document is gone; the entry then needs a `performedBy`. */
  function ReviewError(action: string, requestId: Option<nat>, request: Option<ReturnRequest>,
                       found: Option<Assignment>, productKnown: bool, reviewer: Option<nat>): Option<Error>
  {
    if action == "" || requestId.None? then Some(MissingInput)
    else if request.None? then Some(NotFound)
    else if request.value.status != RequestStatus.Pending then Some(AlreadyReviewed)
    else if found.None? then Some(NotFound)
    else if action == "reject" then
      if !productKnown then Some(NullReference)
      else if reviewer.None? then Some(InvalidDocument)
      else None
    else if action == "approve" then
      if ApprovalWrites(found.value) && !productKnown then Some(NullReference)
      else if ApprovalWrites(found.value) && reviewer.None? then Some(InvalidDocument)
      else None
    else Some(InvalidAction)
  }

  /** A request that has been reviewed cannot be reviewed again, whatever the
      action. */
  lemma ReviewedOnce(action: string, requestId: nat, request: ReturnRequest,
                     found: Option<Assignment>, productKnown: bool, reviewer: Option<nat>)
    requires action != "" && request.status != RequestStatus.Pending
    ensures ReviewError(action, Some(requestId), Some(request), found, productKnown, reviewer) == Some(AlreadyReviewed)
  {
  }

  /** A Pending request under review with an action other than approve or
      reject fails, and no other check can succeed in its place. */
  lemma OnlyTwoActions(action: string, requestId: nat, request: ReturnRequest,
                       a: Assignment, productKnown: bool, reviewer: Option<nat>)
    requires action != "" && action != "approve" && action != "reject"
    requires request.status == RequestStatus.Pending
    ensures ReviewError(action, Some(requestId), Some(request), Some(a), productKnown, reviewer) == Some(InvalidAction)
  {
  }

  /** directReturnProcess AS WRITTEN: once its checks pass it commits the
      counters, and then the first ledger write evaluates `reviewedBy`, an
      identifier the handler never declares; the ReferenceError aborts the
      transaction. */
  function DirectAsWritten(assignmentId: Option<nat>, found: Option<Assignment>, pendingQuantity: int,
                           c: int, l: int, d: int): Result<Assignment>
  {
    var e := DirectError(assignmentId, found, pendingQuantity, c, l, d);
    if e.Some? then Err(e.value)
    else if c > 0 || l > 0 || d > 0 then Err(UndefinedName)
    else match found
      case Some(a) => Ok(Commit(a, c, l, d))
      case None => Err(NotFound)
  }

  /** As written, no direct process ever commits: a total above zero always
      has a positive category, and that category's ledger write throws. */
  lemma DirectAsWrittenAlwaysAborts(assignmentId: Option<nat>, found: Option<Assignment>,
                                    pendingQuantity: int, c: int, l: int, d: int)
    ensures DirectAsWritten(assignmentId, found, pendingQuantity, c, l, d).Err?
    ensures DirectError(assignmentId, found, pendingQuantity, c, l, d).None? ==>
      DirectAsWritten(assignmentId, found, pendingQuantity, c, l, d) == Err(UndefinedName)
  {
  }

  /** The corrected direct process keeps conservation: its check reserves the
      quantity Pending requests propose. */
  lemma DirectConserves(assignmentId: nat, a: Assignment, c: int, l: int, d: int)
    requires DirectError(Some(assignmentId), Some(a), PendingTotal(a), c, l, d).None?
    ensures Conserving(Commit(a, c, l, d))
    ensures Accounted(Commit(a, c, l, d)) > Accounted(a)
  {
  }
}
