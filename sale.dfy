/** Sale fulfilment (createSaleOrder): for each line, in order, the Cleared
    work assignments of the product are checked for enough `quantity`, the
    quantity is deducted from them one after another, the product stock is
    checked and debited; the order document is validated and saved last. */
module Sale {
  import opened Common
  import opened Assignments

  /** A line of the request; `price` and `discount` may be absent. */
  datatype SaleLine = SaleLine(product: nat, quantity: int, price: Option<int>, discount: Option<int>)

  /** A line of the saved order. */
  datatype OrderLine = OrderLine(product: nat, quantity: int, price: int, discount: int)

  datatype SaleOrder = SaleOrder(lines: seq<OrderLine>, vendor: Option<nat>, admin: Option<nat>,
                                 firm: Option<nat>, invoiceNo: string, invoiceDate: int, notes: string)

  /** The indices of the Cleared assignments of product p from `from` on, in
      store order. */
  function ClearedOf(asg: seq<Assignment>, p: nat, from: nat): (r: seq<nat>)
    requires from <= |asg|
    ensures forall k :: 0 <= k < |r| ==> from <= r[k] < |asg| && asg[r[k]].product == p && asg[r[k]].status == Cleared
    ensures forall j :: from <= j < |asg| && asg[j].product == p && asg[j].status == Cleared ==> j in r
    ensures forall k, l :: 0 <= k < l < |r| ==> r[k] < r[l]
    decreases |asg| - from
  {
    if from == |asg| then []
    else
      var rest := ClearedOf(asg, p, from + 1);
      if asg[from].product == p && asg[from].status == Cleared then [from] + rest else rest
  }

  /** The `quantity` of each indexed assignment, in index order. */
  function QuantitiesAt(asg: seq<Assignment>, idx: seq<nat>): seq<int>
    requires forall k :: 0 <= k < |idx| ==> idx[k] < |asg|
  {
    seq(|idx|, k requires 0 <= k < |idx| => asg[idx[k]].quantity)
  }

  function Sum(qs: seq<int>): int
  {
    if |qs| == 0 then 0 else qs[0] + Sum(qs[1..])
  }

  /** The deduction from each assignment the loop touches, the last one
      included (`Math.min(wa.quantity, remaining)`). */
  function Deductions(qs: seq<int>, remaining: int): (r: seq<int>)
    ensures |r| <= |qs|
  {
    if |qs| == 0 then []
    else
      var d := Min(qs[0], remaining);
      if remaining - d <= 0 then [d] else [d] + Deductions(qs[1..], remaining - d)
  }

  /** How many of the touched assignments are saved: the `break` comes before
      the save, so the one that completes the deduction is not. */
  function Saved(qs: seq<int>, remaining: int): (n: nat)
    ensures n <= |qs|
  {
    if |qs| == 0 then 0
    else
      var d := Min(qs[0], remaining);
      if remaining - d <= 0 then 0 else 1 + Saved(qs[1..], remaining - d)
  }

  /** The deduction loop as the handler runs it over the quantities of the
      Cleared assignments. */
  method DeductSequentially(qs: seq<int>, need: int) returns (deducted: seq<int>, saved: nat)
    ensures deducted == Deductions(qs, need)
    ensures saved == Saved(qs, need)
  {
    deducted := [];
    saved := 0;
    var remaining := need;
    var i := 0;
    assert qs[0..] == qs;
    while i < |qs|
      invariant 0 <= i <= |qs|
      invariant deducted + Deductions(qs[i..], remaining) == Deductions(qs, need)
      invariant saved + Saved(qs[i..], remaining) == Saved(qs, need)
    {
      ghost var rest := qs[i..];
      ghost var before := remaining;
      assert rest[0] == qs[i] && rest[1..] == qs[i + 1..];
      var d := Min(qs[i], remaining);
      remaining := remaining - d;
      if remaining <= 0 {
        assert Deductions(rest, before) == [d] && Saved(rest, before) == 0;
        deducted := deducted + [d];
        return;
      }
      assert Deductions(rest, before) == [d] + Deductions(qs[i + 1..], remaining);
      assert Saved(rest, before) == 1 + Saved(qs[i + 1..], remaining);
      assert deducted + [d] + Deductions(qs[i + 1..], remaining) == deducted + ([d] + Deductions(qs[i + 1..], remaining));
      deducted := deducted + [d];
      saved := saved + 1;
      i := i + 1;
    }
    assert qs[i..] == [];
    assert deducted + [] == deducted;
  }

  /** Every saved assignment gave all it held, and the loop touches no more
      assignments than there are. */
  lemma {:induction false} SavedDrained(qs: seq<int>, need: int)
    ensures |Deductions(qs, need)| <= |qs|
    ensures Saved(qs, need) <= |Deductions(qs, need)|
    ensures forall k :: 0 <= k < Saved(qs, need) ==> Deductions(qs, need)[k] == qs[k]
    ensures forall k :: 0 <= k < |Deductions(qs, need)| ==> Deductions(qs, need)[k] <= qs[k]
    decreases |qs|
  {
    if |qs| > 0 {
      var d := Min(qs[0], need);
      if need - d > 0 {
        SavedDrained(qs[1..], need - d);
        var ds := Deductions(qs, need);
        assert ds == [d] + Deductions(qs[1..], need - d);
        forall k | 1 <= k < |ds|
          ensures ds[k] == Deductions(qs[1..], need - d)[k - 1]
        {
        }
      }
    }
  }

  /** When the Cleared assignments hold enough, the deductions sum to the
      requested quantity, none exceeds what its assignment holds or is
      negative, and every touched assignment but the last is saved. */
  lemma {:induction false} CoversRequest(qs: seq<int>, need: int)
    requires forall k :: 0 <= k < |qs| ==> qs[k] >= 0
    requires 0 < need <= Sum(qs)
    ensures |Deductions(qs, need)| > 0
    ensures Sum(Deductions(qs, need)) == need
    ensures Saved(qs, need) == |Deductions(qs, need)| - 1
    ensures forall k :: 0 <= k < |Deductions(qs, need)| ==> 0 <= Deductions(qs, need)[k] <= qs[k]
    decreases |qs|
  {
    var d := Min(qs[0], need);
    var ds := Deductions(qs, need);
    if need - d > 0 {
      var tail := Deductions(qs[1..], need - d);
      assert 0 < need - d <= Sum(qs[1..]);
      CoversRequest(qs[1..], need - d);
      assert ds == [d] + tail;
      assert ds[1..] == tail;
      assert Sum(ds) == d + Sum(tail);
      assert Saved(qs, need) == 1 + Saved(qs[1..], need - d);
      forall k | 0 <= k < |ds|
        ensures 0 <= ds[k] <= qs[k]
      {
        if k > 0 {
          assert ds[k] == tail[k - 1] && qs[k] == qs[1..][k - 1];
        }
      }
    } else {
      assert ds == [need];
      assert Sum(ds) == need + Sum([]);
    }
  }

  /** The deduction that reaches the store falls short of the request: the
      saved assignments are drained and together held less than the request,
      since the last deduction is lost with the unsaved assignment. */
  lemma {:induction false} LastDeductionLost(qs: seq<int>, need: int)
    requires forall k :: 0 <= k < |qs| ==> qs[k] >= 0
    requires 0 < need <= Sum(qs)
    ensures Sum(qs[..Saved(qs, need)]) < need
    decreases |qs|
  {
    var d := Min(qs[0], need);
    if need - d > 0 {
      LastDeductionLost(qs[1..], need - d);
      var n := Saved(qs[1..], need - d);
      assert qs[..1 + n] == [qs[0]] + qs[1..][..n];
      assert qs[..1 + n][1..] == qs[1..][..n];
    } else {
      assert qs[..0] == [];
    }
  }

  /** A request for zero or less saves no assignment. */
  lemma NonPositiveSavesNothing(qs: seq<int>, need: int)
    requires forall k :: 0 <= k < |qs| ==> qs[k] >= 0
    requires need <= 0
    ensures Saved(qs, need) == 0
  {
  }

  /** The store after saving the first |qs| indexed assignments with new
      quantities. */
  function SetQuantities(asg: seq<Assignment>, idx: seq<nat>, qs: seq<int>): (r: seq<Assignment>)
    requires |qs| <= |idx| && forall k :: 0 <= k < |idx| ==> idx[k] < |asg|
    ensures |r| == |asg|
    decreases |qs|
  {
    if |qs| == 0 then asg
    else SetQuantities(asg[idx[0] := asg[idx[0]].(quantity := qs[0])], idx[1..], qs[1..])
  }

  lemma {:induction false} SetQuantitiesEffect(asg: seq<Assignment>, idx: seq<nat>, qs: seq<int>)
    requires |qs| <= |idx| && forall k :: 0 <= k < |idx| ==> idx[k] < |asg|
    requires forall k, l :: 0 <= k < l < |idx| ==> idx[k] < idx[l]
    ensures forall k :: 0 <= k < |qs| ==> SetQuantities(asg, idx, qs)[idx[k]] == asg[idx[k]].(quantity := qs[k])
    ensures forall j :: 0 <= j < |asg| && j !in idx[..|qs|] ==> SetQuantities(asg, idx, qs)[j] == asg[j]
    decreases |qs|
  {
    if |qs| > 0 {
      var asg1 := asg[idx[0] := asg[idx[0]].(quantity := qs[0])];
      SetQuantitiesEffect(asg1, idx[1..], qs[1..]);
      var r := SetQuantities(asg, idx, qs);
      forall k | 0 <= k < |qs|
        ensures r[idx[k]] == asg[idx[k]].(quantity := qs[k])
      {
        if k > 0 {
          assert idx[1..][k - 1] == idx[k];
          assert idx[k] !in idx[1..][..0];
          if idx[k] in idx[1..][..|qs| - 1] {
            var m :| 0 <= m < |qs| - 1 && idx[1..][m] == idx[k];
          }
        } else {
          assert idx[0] !in idx[1..][..|qs| - 1] by {
            forall m | 0 <= m < |qs| - 1 ensures idx[1..][m] != idx[0] {
              assert idx[1..][m] == idx[m + 1];
            }
          }
        }
      }
      forall j | 0 <= j < |asg| && j !in idx[..|qs|]
        ensures r[j] == asg[j]
      {
        assert idx[0] in idx[..|qs|];
        assert j !in idx[1..][..|qs| - 1] by {
          forall m | 0 <= m < |qs| - 1 ensures idx[1..][m] != j {
            assert idx[1..][m] == idx[..|qs|][m + 1];
          }
        }
      }
    }
  }

  /** The new quantities of the saved assignments. */
  function Remainders(qs: seq<int>, ds: seq<int>, n: nat): seq<int>
    requires n <= |qs| && n <= |ds|
  {
    seq(n, k requires 0 <= k < n => qs[k] - ds[k])
  }

  /** Whether `after` differs from `before` only in Cleared assignments of
      product p that it has drained to zero, keeping their status. */
  predicate DrainedOnly(before: seq<Assignment>, after: seq<Assignment>, p: nat)
  {
    && |after| == |before|
    && forall j :: 0 <= j < |before| ==>
         after[j] == before[j]
         || (before[j].product == p && before[j].status == Cleared && after[j] == before[j].(quantity := 0))
  }

  /** Saving the first n indexed assignments with what the deductions left,
      where each of those deductions took all the assignment held, drains
      them and touches nothing else. */
  lemma DrainsSaved(asg: seq<Assignment>, p: nat, idx: seq<nat>, qs: seq<int>, ds: seq<int>, n: nat)
    requires forall k :: 0 <= k < |idx| ==> idx[k] < |asg| && asg[idx[k]].product == p && asg[idx[k]].status == Cleared
    requires forall k, l :: 0 <= k < l < |idx| ==> idx[k] < idx[l]
    requires |qs| == |idx| && forall k :: 0 <= k < |qs| ==> qs[k] == asg[idx[k]].quantity
    requires n <= |ds| && n <= |qs| && forall k :: 0 <= k < n ==> ds[k] == qs[k]
    ensures DrainedOnly(asg, SetQuantities(asg, idx, Remainders(qs, ds, n)), p)
  {
    var rem := Remainders(qs, ds, n);
    SetQuantitiesEffect(asg, idx, rem);
    var after := SetQuantities(asg, idx, rem);
    forall j | 0 <= j < |asg|
      ensures after[j] == asg[j] || (asg[j].product == p && asg[j].status == Cleared && after[j] == asg[j].(quantity := 0))
    {
      if j in idx[..n] {
        var k :| 0 <= k < n && idx[..n][k] == j;
        assert after[idx[k]] == asg[idx[k]].(quantity := rem[k]);
      }
    }
  }

  /** The assignments after the deduction loop of one line has saved what it
      saves: only Cleared assignments of the product change, and those are
      drained to zero with their status kept. */
  function Drain(asg: seq<Assignment>, p: nat, quantity: int): (r: seq<Assignment>)
    ensures DrainedOnly(asg, r, p)
  {
    var idx := ClearedOf(asg, p, 0);
    var qs := QuantitiesAt(asg, idx);
    var ds := Deductions(qs, quantity);
    var n := Saved(qs, quantity);
    SavedDrained(qs, quantity);
    DrainsSaved(asg, p, idx, qs, ds, n);
    SetQuantities(asg, idx, Remainders(qs, ds, n))
  }

  /** One sale line against the assignments and the product stock. The
      checks are those of the handler; since a failure aborts the whole
      transaction, the saves the handler makes before the product check do
      not survive it, and the line's effect is all or nothing. */
  function SaleStep(asg: seq<Assignment>, stock: map<nat, int>, line: SaleLine): Result<(seq<Assignment>, map<nat, int>)>
  {
    var p := line.product;
    var idx := ClearedOf(asg, p, 0);
    if |idx| == 0 then Err(NoClearedStock)
    else if Sum(QuantitiesAt(asg, idx)) < line.quantity then Err(InsufficientCleared)
    else if p !in stock then Err(NotFound)
    else if stock[p] < line.quantity then Err(InsufficientStock)
    else Ok((Drain(asg, p, line.quantity), stock[p := stock[p] - line.quantity]))
  }

  /** A successful line debits exactly its quantity from its product, and
      changes assignments only by draining Cleared ones of that product to
      zero (their status stays Cleared). */
  lemma SaleStepEffect(asg: seq<Assignment>, stock: map<nat, int>, line: SaleLine)
    requires SaleStep(asg, stock, line).Ok?
    ensures var (after, st) := SaleStep(asg, stock, line).value;
      && st.Keys == stock.Keys
      && st[line.product] == stock[line.product] - line.quantity
      && (forall q :: q in stock && q != line.product ==> st[q] == stock[q])
      && DrainedOnly(asg, after, line.product)
  {
  }

  /** The product lines of a whole order, in order; the first failing line
      fails the order. */
  function SalePlan(asg: seq<Assignment>, stock: map<nat, int>, lines: seq<SaleLine>): Result<(seq<Assignment>, map<nat, int>)>
    decreases |lines|
  {
    if |lines| == 0 then Ok((asg, stock))
    else match SaleStep(asg, stock, lines[0])
      case Err(e) => Err(e)
      case Ok(s) => SalePlan(s.0, s.1, lines[1..])
  }

  /** The loop invariant of Fulfil: the remaining lines, against the state
      the earlier lines have left, yield the outcome of the whole order. */
  ghost predicate Fulfilled(asg: seq<Assignment>, stock: map<nat, int>, lines: seq<SaleLine>,
                            i: nat, current: seq<Assignment>, st: map<nat, int>)
    requires i <= |lines|
  {
    SalePlan(asg, stock, lines) == SalePlan(current, st, lines[i..])
  }

  /** A failing line fails the order with its error. */
  lemma FulfilFails(asg: seq<Assignment>, stock: map<nat, int>, lines: seq<SaleLine>,
                    i: nat, current: seq<Assignment>, st: map<nat, int>, e: Error)
    requires i < |lines| && Fulfilled(asg, stock, lines, i, current, st)
    requires SaleStep(current, st, lines[i]) == Err(e)
    ensures SalePlan(asg, stock, lines) == Err(e)
  {
    assert lines[i..][0] == lines[i];
  }

  /** A successful line hands its state to the next one. */
  lemma FulfilStep(asg: seq<Assignment>, stock: map<nat, int>, lines: seq<SaleLine>,
                   i: nat, current: seq<Assignment>, st: map<nat, int>, after: seq<Assignment>, st': map<nat, int>)
    requires i < |lines| && Fulfilled(asg, stock, lines, i, current, st)
    requires SaleStep(current, st, lines[i]) == Ok((after, st'))
    ensures Fulfilled(asg, stock, lines, i + 1, after, st')
  {
    assert lines[i..][0] == lines[i] && lines[i..][1..] == lines[i + 1..];
  }

  /** The line loop as the handler runs it: the Cleared query, the quantity
      check, the deduction loop, the saves before the break, and the product
      check and debit, all against the state the earlier lines have left. */
  method Fulfil(asg: seq<Assignment>, stock: map<nat, int>, lines: seq<SaleLine>)
    returns (r: Result<(seq<Assignment>, map<nat, int>)>)
    ensures r == SalePlan(asg, stock, lines)
  {
    var current := asg;
    var st: map<nat, int> := stock;
    var i := 0;
    assert lines[0..] == lines;
    while i < |lines|
      invariant 0 <= i <= |lines|
      invariant Fulfilled(asg, stock, lines, i, current, st)
    {
      var line := lines[i];
      var idx := ClearedOf(current, line.product, 0);
      if |idx| == 0 {
        FulfilFails(asg, stock, lines, i, current, st, NoClearedStock);
        return Err(NoClearedStock);
      }
      var qs := QuantitiesAt(current, idx);
      if Sum(qs) < line.quantity {
        FulfilFails(asg, stock, lines, i, current, st, InsufficientCleared);
        return Err(InsufficientCleared);
      }
      var ds, n := DeductSequentially(qs, line.quantity);
      SavedDrained(qs, line.quantity);
      var after := SetQuantities(current, idx, Remainders(qs, ds, n));
      assert after == Drain(current, line.product, line.quantity);
      if line.product !in st {
        FulfilFails(asg, stock, lines, i, current, st, NotFound);
        return Err(NotFound);
      }
      if st[line.product] < line.quantity {
        FulfilFails(asg, stock, lines, i, current, st, InsufficientStock);
        return Err(InsufficientStock);
      }
      var st' := st[line.product := st[line.product] - line.quantity];
      FulfilStep(asg, stock, lines, i, current, st, after, st');
      current := after;
      st := st';
      i := i + 1;
    }
    assert lines[i..] == [];
    return Ok((current, st));
  }

  /** The quantity the lines of an order ask of product p. */
  function LineQty(lines: seq<SaleLine>, p: nat): int
  {
    if |lines| == 0 then 0
    else (if lines[0].product == p then lines[0].quantity else 0) + LineQty(lines[1..], p)
  }

  /** Whether some line of the order is for product p. */
  predicate Ordered(lines: seq<SaleLine>, p: nat)
  {
    exists i :: 0 <= i < |lines| && lines[i].product == p
  }

  /** A successful order debits each product by exactly what its lines ask,
      and changes assignments only by draining Cleared ones of the ordered
      products to zero. */
  lemma {:induction false} SalePlanEffect(asg: seq<Assignment>, stock: map<nat, int>, lines: seq<SaleLine>)
    requires SalePlan(asg, stock, lines).Ok?
    ensures var (after, st) := SalePlan(asg, stock, lines).value;
      && st.Keys == stock.Keys
      && (forall q :: q in stock ==> st[q] == stock[q] - LineQty(lines, q))
      && |after| == |asg|
      && (forall j :: 0 <= j < |asg| ==>
            after[j] == asg[j]
            || (asg[j].status == Cleared && Ordered(lines, asg[j].product) && after[j] == asg[j].(quantity := 0)))
    decreases |lines|
  {
    if |lines| > 0 {
      var s := SaleStep(asg, stock, lines[0]).value;
      var rest := lines[1..];
      SaleStepEffect(asg, stock, lines[0]);
      SalePlanEffect(s.0, s.1, rest);
      var after := SalePlan(s.0, s.1, rest).value.0;
      assert SalePlan(asg, stock, lines).value.0 == after;
      forall j | 0 <= j < |asg|
        ensures after[j] == asg[j]
             || (asg[j].status == Cleared && Ordered(lines, asg[j].product) && after[j] == asg[j].(quantity := 0))
      {
        if s.0[j] != asg[j] {
          assert lines[0].product == asg[j].product;
        }
        if after[j] != s.0[j] {
          var i :| 0 <= i < |rest| && rest[i].product == s.0[j].product;
          assert lines[i + 1].product == asg[j].product;
        }
      }
    }
  }

  /** A successful order changes nothing of an assignment but its quantity. */
  lemma SalePlanQuantities(asg: seq<Assignment>, stock: map<nat, int>, lines: seq<SaleLine>)
    requires SalePlan(asg, stock, lines).Ok?
    ensures var after := SalePlan(asg, stock, lines).value.0;
      && |after| == |asg|
      && forall j :: 0 <= j < |asg| ==> after[j] == asg[j].(quantity := after[j].quantity)
  {
    SalePlanEffect(asg, stock, lines);
  }

  /** The saved order line: `discount || 0`; the schema requires a price. */
  function OrderLineOf(l: SaleLine): OrderLine
    requires l.price.Some?
  {
    OrderLine(l.product, l.quantity, l.price.value, OrZero(l.discount))
  }

  /** The order document, validated against its schema when it is saved:
      every line needs a price, the order an invoice number and date. */
  function OrderOf(lines: seq<SaleLine>, vendor: Option<nat>, admin: Option<nat>, firm: Option<nat>,
                   invoiceNo: Option<string>, invoiceDate: Option<int>, notes: Option<string>): (r: Result<SaleOrder>)
    ensures r.Ok? <==> (forall k :: 0 <= k < |lines| ==> lines[k].price.Some?)
                       && invoiceNo.Some? && invoiceNo.value != "" && invoiceDate.Some?
    ensures r.Ok? ==> |r.value.lines| == |lines| && forall k :: 0 <= k < |lines| ==>
      r.value.lines[k].product == lines[k].product && r.value.lines[k].quantity == lines[k].quantity
      && r.value.lines[k].price == lines[k].price.value
      && r.value.lines[k].discount == (if lines[k].discount.Some? then lines[k].discount.value else 0)
    ensures r.Err? ==> r.error == InvalidDocument
  {
    if (forall k :: 0 <= k < |lines| ==> lines[k].price.Some?)
       && invoiceNo.Some? && invoiceNo.value != "" && invoiceDate.Some?
    then
      Ok(SaleOrder(seq(|lines|, k requires 0 <= k < |lines| => OrderLineOf(lines[k])),
                   vendor, admin, firm, invoiceNo.value, invoiceDate.value,
                   if notes.Some? then notes.value else ""))
    else Err(InvalidDocument)
  }

  /** A sale drains Cleared assignments by lowering `quantity`, not the
      counters: a fully accounted assignment drained to zero then accounts for
      more than it holds. */
  lemma DrainBreaksAccounting(a: Assignment)
    requires a.status == Cleared && Accounted(a) == a.quantity > 0
    ensures Accounted(a.(quantity := 0)) > a.(quantity := 0).quantity
    ensures a.(quantity := 0).status == Cleared
  {
  }
}

