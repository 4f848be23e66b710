/** Inventory batches: the lines a receipt creates, the product stock it
    credits, the batches the FIFO draw considers for a product and in which
    order, and the deferred per-line writes (`bulkWrite`) that the allocation
    applies when it is done. */
module Inventory {
  import opened Common
  import opened Fifo

  /** A batch line: product, received quantity, unit price, the
      `availableStock` left on the line, and the discount. */
  datatype Line = Line(product: nat, quantity: int, price: int, available: int, discount: int)

  /** An inventory batch (receipt challan); `challanDate` is an ordered integer. */
  datatype Batch = Batch(lines: seq<Line>, vendor: Option<nat>, issuedBy: nat,
                         challanNo: string, challanDate: int)

  /** A line as the receipt request gives it; any field may be absent. */
  datatype LineInput = LineInput(product: Option<nat>, quantity: Option<int>,
                                 price: Option<int>, discount: Option<int>)

  /** The schema demands a product and a quantity on every line. */
  predicate Complete(inputs: seq<LineInput>)
  {
    forall i :: 0 <= i < |inputs| ==> inputs[i].product.Some? && inputs[i].quantity.Some?
  }

  function NormalizeLine(p: LineInput): Line
    requires p.product.Some? && p.quantity.Some?
  {
    Line(p.product.value, p.quantity.value, OrZero(p.price), p.quantity.value, OrZero(p.discount))
  }

  /** The receipt's normalisation: every line starts fully available, and a
      missing price or discount is zero. */
  function Normalize(inputs: seq<LineInput>): (r: seq<Line>)
    requires Complete(inputs)
    ensures |r| == |inputs|
    ensures forall i :: 0 <= i < |r| ==>
      && r[i].product == inputs[i].product.value
      && r[i].quantity == inputs[i].quantity.value
      && r[i].available == r[i].quantity
      && r[i].price == (if inputs[i].price.Some? then inputs[i].price.value else 0)
      && r[i].discount == (if inputs[i].discount.Some? then inputs[i].discount.value else 0)
  {
    seq(|inputs|, i requires 0 <= i < |inputs| => NormalizeLine(inputs[i]))
  }

  /** The quantity the lines hold for product p. */
  function LineQty(lines: seq<Line>, p: nat): int
  {
    if |lines| == 0 then 0
    else (if lines[0].product == p then lines[0].quantity else 0) + LineQty(lines[1..], p)
  }

  /** `$inc` of one line's quantity on its product; an unknown product id
      matches no document and changes nothing. */
  function Credit(stock: map<nat, int>, l: Line): map<nat, int>
  {
    if l.product in stock then stock[l.product := stock[l.product] + l.quantity] else stock
  }

  /** The product stock after the receipt's increments, one per line, in order. */
  function Credited(stock: map<nat, int>, lines: seq<Line>): map<nat, int>
  {
    if |lines| == 0 then stock else Credited(Credit(stock, lines[0]), lines[1..])
  }

  /** A receipt raises each known product's stock by exactly the quantity of
      its lines in the batch, and touches no other product. */
  lemma {:induction false} CreditedExact(stock: map<nat, int>, lines: seq<Line>)
    ensures Credited(stock, lines).Keys == stock.Keys
    ensures forall p :: p in stock ==> Credited(stock, lines)[p] == stock[p] + LineQty(lines, p)
  {
    if |lines| > 0 {
      CreditedExact(Credit(stock, lines[0]), lines[1..]);
    }
  }

  /** The receipt's increment loop, one `$inc` per line in order. */
  method CreditAll(stock: map<nat, int>, lines: seq<Line>) returns (s: map<nat, int>)
    ensures s == Credited(stock, lines)
  {
    s := stock;
    var i := 0;
    assert lines[0..] == lines;
    while i < |lines|
      invariant 0 <= i <= |lines|
      invariant Credited(s, lines[i..]) == Credited(stock, lines)
    {
      assert lines[i..][0] == lines[i] && lines[i..][1..] == lines[i + 1..];
      s := Credit(s, lines[i]);
      i := i + 1;
    }
  }

  /** The index of the first line for product p (`products.find`, and the
      element the positional `$` operator updates). */
  function FirstLine(lines: seq<Line>, p: nat): (r: Option<nat>)
    ensures r.Some? ==> r.value < |lines| && lines[r.value].product == p
    ensures r.Some? ==> forall k :: 0 <= k < r.value ==> lines[k].product != p
    ensures r.None? ==> forall k :: 0 <= k < |lines| ==> lines[k].product != p
  {
    if |lines| == 0 then None
    else if lines[0].product == p then Some(0)
    else match FirstLine(lines[1..], p)
      case None => None
      case Some(k) => Some(k + 1)
  }

  /** The batch query `{"products.product": p, "products.availableStock": {$gt: 0}}`:
      on an array the two conditions may hold of different lines. */
  predicate Matches(b: Batch, p: nat)
  {
    FirstLine(b.lines, p).Some? && exists k :: 0 <= k < |b.lines| && b.lines[k].available > 0
  }

  function CandOf(bs: seq<Batch>, i: nat, p: nat): Cand
    requires i < |bs| && FirstLine(bs[i].lines, p).Some?
  {
    Cand(i, bs[i].challanDate, bs[i].lines[FirstLine(bs[i].lines, p).value].available)
  }

  /** The matching batches from index `from` on, in store order. */
  function Collect(bs: seq<Batch>, p: nat, from: nat): (r: seq<Cand>)
    requires from <= |bs|
    ensures forall c :: c in r ==> from <= c.batch < |bs| && Matches(bs[c.batch], p) && c == CandOf(bs, c.batch, p)
    ensures forall i :: from <= i < |bs| && Matches(bs[i], p) ==> CandOf(bs, i, p) in r
    decreases |bs| - from
  {
    if from == |bs| then []
    else (if Matches(bs[from], p) then [CandOf(bs, from, p)] else []) + Collect(bs, p, from + 1)
  }

  /** Insert c before the first element whose date is not earlier. */
  function Insert(c: Cand, s: seq<Cand>): seq<Cand>
  {
    if |s| == 0 then [c]
    else if c.date <= s[0].date then [c] + s
    else [s[0]] + Insert(c, s[1..])
  }

  /** `.sort({challanDate: 1})`; equal dates keep store order. */
  function SortByDate(s: seq<Cand>): seq<Cand>
  {
    if |s| == 0 then [] else Insert(s[0], SortByDate(s[1..]))
  }

  /** The batches the draw walks for product p, oldest challan date first. */
  function Candidates(bs: seq<Batch>, p: nat): seq<Cand>
  {
    SortByDate(Collect(bs, p, 0))
  }

  /** Insertion keeps every element and adds c. */
  lemma {:induction false} InsertPermutes(c: Cand, s: seq<Cand>)
    ensures multiset(Insert(c, s)) == multiset(s) + multiset{c}
  {
    if |s| > 0 && c.date > s[0].date {
      InsertPermutes(c, s[1..]);
      assert s == [s[0]] + s[1..];
    }
  }

  /** The first element after insertion is c or the old first element. */
  lemma {:induction false} InsertHead(c: Cand, s: seq<Cand>)
    ensures |Insert(c, s)| == |s| + 1
    ensures Insert(c, s)[0] == if |s| == 0 || c.date <= s[0].date then c else s[0]
  {
    if |s| > 0 && c.date > s[0].date {
      InsertHead(c, s[1..]);
    }
  }

  lemma {:induction false} InsertSorted(c: Cand, s: seq<Cand>)
    requires SortedByDate(s)
    ensures SortedByDate(Insert(c, s))
  {
    var r := Insert(c, s);
    InsertHead(c, s);
    if |s| > 0 && c.date > s[0].date {
      var rest := s[1..];
      assert SortedByDate(rest) by {
        forall i, j | 0 <= i < j < |rest|
          ensures rest[i].date <= rest[j].date
        {
          assert rest[i] == s[i + 1] && rest[j] == s[j + 1];
        }
      }
      InsertSorted(c, rest);
      var ir := Insert(c, rest);
      InsertHead(c, rest);
      assert s[0].date <= ir[0].date by {
        if |rest| > 0 {
          assert rest[0] == s[1];
        }
      }
      assert r == [s[0]] + ir;
      forall i, j | 0 <= i < j < |r|
        ensures r[i].date <= r[j].date
      {
        if i == 0 {
          assert r[j] == ir[j - 1];
          assert ir[0].date <= ir[j - 1].date;
        } else {
          assert r[i] == ir[i - 1] && r[j] == ir[j - 1];
        }
      }
    } else if |s| > 0 {
      assert r == [c] + s;
      forall i, j | 0 <= i < j < |r|
        ensures r[i].date <= r[j].date
      {
        assert r[j] == s[j - 1];
        if i > 0 {
          assert r[i] == s[i - 1];
        } else {
          assert s[0].date <= s[j - 1].date;
        }
      }
    }
  }

  lemma {:induction false} SortByDateSorted(s: seq<Cand>)
    ensures SortedByDate(SortByDate(s))
    ensures multiset(SortByDate(s)) == multiset(s)
  {
    if |s| > 0 {
      SortByDateSorted(s[1..]);
      InsertSorted(s[0], SortByDate(s[1..]));
      InsertPermutes(s[0], SortByDate(s[1..]));
      assert s == [s[0]] + s[1..];
    }
  }

  /** The draw walks the matching batches, each exactly as often as the store
      holds it, in ascending challan date. */
  lemma CandidatesOrdered(bs: seq<Batch>, p: nat)
    ensures SortedByDate(Candidates(bs, p))
    ensures multiset(Candidates(bs, p)) == multiset(Collect(bs, p, 0))
    ensures forall c :: c in Candidates(bs, p) ==>
      c.batch < |bs| && Matches(bs[c.batch], p) && c == CandOf(bs, c.batch, p)
    ensures forall i :: 0 <= i < |bs| && Matches(bs[i], p) ==> CandOf(bs, i, p) in Candidates(bs, p)
  {
    var col := Collect(bs, p, 0);
    SortByDateSorted(col);
    forall c | c in Candidates(bs, p)
      ensures c in col
    {
      assert c in multiset(Candidates(bs, p));
    }
    forall i | 0 <= i < |bs| && Matches(bs[i], p)
      ensures CandOf(bs, i, p) in Candidates(bs, p)
    {
      assert CandOf(bs, i, p) in multiset(col);
    }
  }

  /** One deferred `updateOne`: set the first p-line of a batch to `level`. */
  datatype Op = Op(batch: nat, product: nat, level: int)

  function SetLevel(bs: seq<Batch>, op: Op): seq<Batch>
  {
    if op.batch < |bs| && FirstLine(bs[op.batch].lines, op.product).Some? then
      var b := bs[op.batch];
      var k := FirstLine(b.lines, op.product).value;
      bs[op.batch := b.(lines := b.lines[k := b.lines[k].(available := op.level)])]
    else bs
  }

  /** `bulkWrite(ops)`: the updates applied in order. */
  function ApplyOps(bs: seq<Batch>, ops: seq<Op>): seq<Batch>
    decreases |ops|
  {
    if |ops| == 0 then bs else ApplyOps(SetLevel(bs, ops[0]), ops[1..])
  }

  /** The level the last op for (batch b, product p) writes, if any. */
  function LastWrite(ops: seq<Op>, b: nat, p: nat): Option<int>
  {
    if |ops| == 0 then None
    else match LastWrite(ops[1..], b, p)
      case Some(l) => Some(l)
      case None => if ops[0].batch == b && ops[0].product == p then Some(ops[0].level) else None
  }

  /** Two batch lists that differ at most in the lines' available stock. */
  predicate SameShape(bs: seq<Batch>, cs: seq<Batch>)
  {
    && |bs| == |cs|
    && forall i :: 0 <= i < |bs| ==>
      && bs[i].(lines := []) == cs[i].(lines := [])
      && |bs[i].lines| == |cs[i].lines|
      && forall k :: 0 <= k < |bs[i].lines| ==> bs[i].lines[k].(available := 0) == cs[i].lines[k].(available := 0)
  }

  lemma {:induction false} FirstLineShape(ls: seq<Line>, ms: seq<Line>, p: nat)
    requires |ls| == |ms|
    requires forall k :: 0 <= k < |ls| ==> ls[k].product == ms[k].product
    ensures FirstLine(ls, p) == FirstLine(ms, p)
  {
    if |ls| > 0 {
      FirstLineShape(ls[1..], ms[1..], p);
    }
  }

  /** The available stock of line k of batch i after the writes. */
  function LevelAfter(bs: seq<Batch>, ops: seq<Op>, i: nat, k: nat): int
    requires i < |bs| && k < |bs[i].lines|
  {
    var line := bs[i].lines[k];
    var w := LastWrite(ops, i, line.product);
    if w.Some? && FirstLine(bs[i].lines, line.product) == Some(k) then w.value else line.available
  }

  /** bulkWrite semantics: only available stock changes, and only on the first
      line of a product in a batch that some op names; there the last op
      naming it decides the level. */
  lemma {:induction false} LastWriteWins(bs: seq<Batch>, ops: seq<Op>)
    ensures SameShape(bs, ApplyOps(bs, ops))
    ensures forall i, k :: 0 <= i < |bs| && 0 <= k < |bs[i].lines| ==>
      ApplyOps(bs, ops)[i].lines[k].available == LevelAfter(bs, ops, i, k)
    decreases |ops|
  {
    if |ops| > 0 {
      var bs1 := SetLevel(bs, ops[0]);
      assert SameShape(bs, bs1);
      LastWriteWins(bs1, ops[1..]);
      var r := ApplyOps(bs, ops);
      assert r == ApplyOps(bs1, ops[1..]);
      forall i, k | 0 <= i < |bs| && 0 <= k < |bs[i].lines|
        ensures r[i].lines[k].available == LevelAfter(bs, ops, i, k)
      {
        var p := bs[i].lines[k].product;
        assert bs1[i].lines[k].product == p;
        FirstLineShape(bs[i].lines, bs1[i].lines, p);
        assert r[i].lines[k].available == LevelAfter(bs1, ops[1..], i, k);
      }
    }
  }
}
