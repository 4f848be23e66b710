/** The consistency the handlers keep between challans, work assignments and
    return requests, stated over the collections as values, and one lemma per
    kind of update saying that the update keeps it. */
module Bookkeeping {
  import opened Common
  import opened Assignments
  import opened Returns
  import ChallanNumber

  /** A dispatch challan: its number, job worker, dispatcher and the ids of
      its assignments in item order. */
  datatype Challan = Challan(number: string, jobworker: nat, dispatchedBy: Option<nat>, assignments: seq<nat>)

  /** The ids `from`, `from + 1`, ..., `from + n - 1`. */
  function Ids(from: nat, n: nat): seq<nat>
  {
    seq(n, k requires 0 <= k < n => from + k)
  }

  /** The ids a new challan lists, appended after the existing assignments,
      name the created assignments one for one and in order. */
  lemma IdsNameCreated(asg: seq<Assignment>, created: seq<Assignment>)
    ensures |Ids(|asg|, |created|)| == |created|
    ensures forall k :: 0 <= k < |created| ==>
      Ids(|asg|, |created|)[k] < |asg + created| && (asg + created)[Ids(|asg|, |created|)[k]] == created[k]
  {
    var ids := Ids(|asg|, |created|);
    forall k | 0 <= k < |created|
      ensures ids[k] < |asg + created| && (asg + created)[ids[k]] == created[k]
    {
      assert ids[k] == |asg| + k;
    }
  }

  /** Assignment j's staging fields and lock agree with the requests: a lock
      names a Pending request of j whose proposal the staging fields hold;
      without a lock the staging fields are zero. */
  ghost predicate LockHeld(asg: seq<Assignment>, rq: seq<ReturnRequest>, j: nat)
    requires j < |asg|
  {
    var a := asg[j];
    match a.activeRequest
    case None => a.pendingCleared == 0 && a.pendingLost == 0 && a.pendingDamaged == 0
    case Some(r) =>
      && r < |rq| && rq[r].assignment == j && rq[r].status == RequestStatus.Pending
      && a.pendingCleared == rq[r].cleared && a.pendingLost == rq[r].shortage
      && a.pendingDamaged == rq[r].seconds
  }

  /** Challans are numbered CH-00001, CH-00002, ... in creation order. */
  predicate Numbered(ch: seq<Challan>)
  {
    forall i :: 0 <= i < |ch| ==> ch[i].number == ChallanNumber.Format(i + 1)
  }

  /** getNextChallanNumber over the challans in creation order: it reads the
      number of the most recent one. */
  function NextNumber(ch: seq<Challan>): (n: string)
    ensures Numbered(ch) ==> n == ChallanNumber.Format(|ch| + 1)
  {
    if |ch| == 0 then ChallanNumber.Next(None)
    else
      ChallanNumber.SuccessorOfFormat(|ch|);
      ChallanNumber.Next(Some(ch[|ch| - 1].number))
  }

  /** Challans are numbered CH-00001, CH-00002, ... in creation order;
      references resolve; every lock is held as above; and every Pending
      request is the one its assignment's lock names. */
  ghost predicate Consistent(ch: seq<Challan>, asg: seq<Assignment>, rq: seq<ReturnRequest>)
  {
    && Numbered(ch)
    && (forall j :: 0 <= j < |asg| ==> asg[j].challan < |ch| && LockHeld(asg, rq, j))
    && (forall r :: 0 <= r < |rq| ==> rq[r].assignment < |asg|)
    && (forall r :: 0 <= r < |rq| && rq[r].status == RequestStatus.Pending ==>
          asg[rq[r].assignment].activeRequest == Some(r))
  }

  /** An assignment has at most one Pending request, and it is the one whose
      proposal its staging fields hold. */
  lemma PendingIsStaged(ch: seq<Challan>, asg: seq<Assignment>, rq: seq<ReturnRequest>, r: nat)
    requires Consistent(ch, asg, rq)
    requires r < |rq| && rq[r].status == RequestStatus.Pending
    ensures rq[r].assignment < |asg|
    ensures asg[rq[r].assignment].activeRequest == Some(r)
    ensures asg[rq[r].assignment].pendingCleared == rq[r].cleared
    ensures asg[rq[r].assignment].pendingLost == rq[r].shortage
    ensures asg[rq[r].assignment].pendingDamaged == rq[r].seconds
    ensures forall q :: 0 <= q < |rq| && PendingFor(rq[q], rq[r].assignment) ==> q == r
  {
    assert LockHeld(asg, rq, rq[r].assignment);
  }

  /** The reduce of directReturnProcess over the Pending requests of an
      assignment equals what its staging fields hold. */
  lemma PendingMatchesLock(ch: seq<Challan>, asg: seq<Assignment>, rq: seq<ReturnRequest>, a: nat)
    requires Consistent(ch, asg, rq) && a < |asg|
    ensures PendingQuantity(rq, a) == PendingTotal(asg[a])
  {
    assert LockHeld(asg, rq, a);
    PendingQuantityOfLock(rq, a, asg[a].activeRequest);
  }

  /** No two challans share a number, and the next number is new, so the
      unique index on challan numbers never refuses a challan. */
  lemma ChallanNumbersDistinct(ch: seq<Challan>, asg: seq<Assignment>, rq: seq<ReturnRequest>)
    requires Consistent(ch, asg, rq)
    ensures forall i, j :: 0 <= i < j < |ch| ==> ch[i].number != ch[j].number
    ensures forall i :: 0 <= i < |ch| ==> ch[i].number != ChallanNumber.Format(|ch| + 1)
  {
    forall i, j | 0 <= i < j < |ch|
      ensures ch[i].number != ch[j].number
    {
      ChallanNumber.FormatInjective(i + 1, j + 1);
    }
    forall i | 0 <= i < |ch|
      ensures ch[i].number != ChallanNumber.Format(|ch| + 1)
    {
      ChallanNumber.FormatInjective(i + 1, |ch| + 1);
    }
  }

  /** Replacing an assignment by one with the same challan, lock and staging
      fields (a commit of counters, a change of quantity). */
  lemma KeepsBookkeeping(ch: seq<Challan>, asg: seq<Assignment>, rq: seq<ReturnRequest>, id: nat, a: Assignment)
    requires Consistent(ch, asg, rq) && id < |asg|
    requires a.challan == asg[id].challan && a.activeRequest == asg[id].activeRequest
    requires a.pendingCleared == asg[id].pendingCleared && a.pendingLost == asg[id].pendingLost
    requires a.pendingDamaged == asg[id].pendingDamaged
    ensures Consistent(ch, asg[id := a], rq)
  {
    var asg' := asg[id := a];
    forall j | 0 <= j < |asg'|
      ensures asg'[j].challan < |ch| && LockHeld(asg', rq, j)
    {
      assert LockHeld(asg, rq, j);
    }
  }

  /** Appending a request that is not Pending. */
  lemma AddSettledRequest(ch: seq<Challan>, asg: seq<Assignment>, rq: seq<ReturnRequest>, r: ReturnRequest)
    requires Consistent(ch, asg, rq)
    requires r.status != RequestStatus.Pending && r.assignment < |asg|
    ensures Consistent(ch, asg, rq + [r])
  {
    forall j | 0 <= j < |asg|
      ensures LockHeld(asg, rq + [r], j)
    {
      assert LockHeld(asg, rq, j);
    }
  }

  /** A submission: a Pending request for an unlocked assignment, whose
      proposal is staged under a lock naming it. */
  lemma SubmitKeeps(ch: seq<Challan>, asg: seq<Assignment>, rq: seq<ReturnRequest>, id: nat, r: ReturnRequest)
    requires Consistent(ch, asg, rq) && id < |asg| && asg[id].activeRequest.None?
    requires r.assignment == id && r.status == RequestStatus.Pending
    ensures Consistent(ch, asg[id := Stage(asg[id], |rq|, r.cleared, r.shortage, r.seconds)], rq + [r])
  {
    var asg' := asg[id := Stage(asg[id], |rq|, r.cleared, r.shortage, r.seconds)];
    var rq' := rq + [r];
    forall j | 0 <= j < |asg'|
      ensures asg'[j].challan < |ch| && LockHeld(asg', rq', j)
    {
      assert LockHeld(asg, rq, j);
    }
    forall q | 0 <= q < |rq'| && rq'[q].status == RequestStatus.Pending
      ensures asg'[rq'[q].assignment].activeRequest == Some(q)
    {
      if q < |rq| {
        assert rq'[q] == rq[q];
      }
    }
  }

  /** A review: the Pending request is settled and its assignment unlocked
      with zero staging fields. */
  lemma ReviewKeeps(ch: seq<Challan>, asg: seq<Assignment>, rq: seq<ReturnRequest>, id: nat,
                    settled: ReturnRequest, a: Assignment)
    requires Consistent(ch, asg, rq) && id < |rq| && rq[id].status == RequestStatus.Pending
    requires settled.assignment == rq[id].assignment && settled.status != RequestStatus.Pending
    requires a.challan == asg[rq[id].assignment].challan && a.activeRequest.None?
    requires a.pendingCleared == 0 && a.pendingLost == 0 && a.pendingDamaged == 0
    ensures Consistent(ch, asg[rq[id].assignment := a], rq[id := settled])
  {
    var x := rq[id].assignment;
    var asg' := asg[x := a];
    var rq' := rq[id := settled];
    PendingIsStaged(ch, asg, rq, id);
    forall j | 0 <= j < |asg'|
      ensures asg'[j].challan < |ch| && LockHeld(asg', rq', j)
    {
      assert LockHeld(asg, rq, j);
    }
    forall q | 0 <= q < |rq'| && rq'[q].status == RequestStatus.Pending
      ensures asg'[rq'[q].assignment].activeRequest == Some(q)
    {
      assert rq'[q] == rq[q];
    }
  }

  /** An allocation: a challan with the next number and, under it, new
      assignments without lock or staged quantities. */
  lemma AllocationKeeps(ch: seq<Challan>, asg: seq<Assignment>, rq: seq<ReturnRequest>, c: Challan,
                        created: seq<Assignment>)
    requires Consistent(ch, asg, rq)
    requires c.number == ChallanNumber.Format(|ch| + 1)
    requires forall k :: 0 <= k < |created| ==>
      created[k].challan == |ch| && created[k].activeRequest.None?
      && created[k].pendingCleared == 0 && created[k].pendingLost == 0 && created[k].pendingDamaged == 0
    ensures Consistent(ch + [c], asg + created, rq)
  {
    var asg' := asg + created;
    forall j | 0 <= j < |asg'|
      ensures asg'[j].challan < |ch| + 1 && LockHeld(asg', rq, j)
    {
      if j < |asg| {
        assert asg'[j] == asg[j];
        assert LockHeld(asg, rq, j);
      } else {
        assert asg'[j] == created[j - |asg|];
      }
    }
  }

  /** A sale: some assignments' quantities change, nothing else does. */
  lemma SaleKeeps(ch: seq<Challan>, asg: seq<Assignment>, rq: seq<ReturnRequest>, after: seq<Assignment>)
    requires Consistent(ch, asg, rq) && |after| == |asg|
    requires forall j :: 0 <= j < |asg| ==> after[j] == asg[j].(quantity := after[j].quantity)
    ensures Consistent(ch, after, rq)
  {
    forall j | 0 <= j < |after|
      ensures after[j].challan < |ch| && LockHeld(after, rq, j)
    {
      assert LockHeld(asg, rq, j);
    }
  }
}
