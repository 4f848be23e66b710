/** The FIFO draw of assignToWorkers: for one requested (product, quantity),
    walk the candidate batches (oldest challan date first) and take
    min(remaining, lineAvailable) from each line that still has stock, until
    the request is met or the batches run out. */
module Fifo {
  import opened Common

  /** A candidate batch for one product: its index in the batch store, its
      challan date, and the available stock of its first line for the product. */
  datatype Cand = Cand(batch: nat, date: int, level: int)

  /** One entry of `sourceBatches`: the candidate drawn from and the quantity
      taken; the line's new level is `source.level - taken`. */
  datatype Draw = Draw(source: Cand, taken: int)

  function NewLevel(d: Draw): int
  {
    d.source.level - d.taken
  }

  /** What the walk draws, given the candidates in walk order and the
      quantity still to assign. */
  function DrawList(cands: seq<Cand>, remaining: int): seq<Draw>
    decreases |cands|
  {
    if |cands| == 0 || remaining <= 0 then []
    else if cands[0].level > 0 then
      var t := Min(remaining, cands[0].level);
      [Draw(cands[0], t)] + DrawList(cands[1..], remaining - t)
    else DrawList(cands[1..], remaining)
  }

  /** The total taken by a list of draws. */
  function Taken(ds: seq<Draw>): int
  {
    if |ds| == 0 then 0 else ds[0].taken + Taken(ds[1..])
  }

  /** The candidates whose line still has stock, in walk order. */
  function Stocked(cands: seq<Cand>): (r: seq<Cand>)
    ensures |r| <= |cands|
  {
    if |cands| == 0 then []
    else if cands[0].level > 0 then [cands[0]] + Stocked(cands[1..])
    else Stocked(cands[1..])
  }

  /** The stock the candidates hold, counting only positive lines. */
  function StockedTotal(cands: seq<Cand>): int
  {
    if |cands| == 0 then 0
    else (if cands[0].level > 0 then cands[0].level else 0) + StockedTotal(cands[1..])
  }

  function Sources(ds: seq<Draw>): (r: seq<Cand>)
    ensures |r| == |ds|
    ensures forall k :: 0 <= k < |ds| ==> r[k] == ds[k].source
  {
    if |ds| == 0 then [] else [ds[0].source] + Sources(ds[1..])
  }

  predicate SortedByDate(cands: seq<Cand>)
  {
    forall i, j :: 0 <= i < j < |cands| ==> cands[i].date <= cands[j].date
  }

  /** The draw loop as the handler runs it: `sourceBatches` grows by one entry
      per line drawn from, and the loop stops once nothing remains. */
  method PlanDraw(cands: seq<Cand>, need: int) returns (draws: seq<Draw>, remaining: int)
    ensures draws == DrawList(cands, need)
    ensures remaining == need - Taken(draws)
  {
    draws := [];
    remaining := need;
    var i := 0;
    while i < |cands|
      invariant 0 <= i <= |cands|
      invariant draws + DrawList(cands[i..], remaining) == DrawList(cands, need)
      invariant remaining == need - Taken(draws)
    {
      if remaining <= 0 {
        break;
      }
      var c := cands[i];
      if c.level > 0 {
        var take := Min(remaining, c.level);
        TakenAppend(draws, Draw(c, take));
        draws := draws + [Draw(c, take)];
        remaining := remaining - take;
      }
      assert cands[i..][1..] == cands[i + 1..];
      i := i + 1;
    }
  }

  lemma {:induction false} TakenAppend(ds: seq<Draw>, d: Draw)
    ensures Taken(ds + [d]) == Taken(ds) + d.taken
  {
    if |ds| > 0 {
      assert (ds + [d])[1..] == ds[1..] + [d];
      TakenAppend(ds[1..], d);
    }
  }

  /** Every take is positive and at most the line's level, so each new level
      lies in [0, old level). */
  lemma {:induction false} DrawBounds(cands: seq<Cand>, need: int)
    ensures forall k :: 0 <= k < |DrawList(cands, need)| ==>
      0 < DrawList(cands, need)[k].taken <= DrawList(cands, need)[k].source.level
    decreases |cands|
  {
    if |cands| > 0 && need > 0 {
      var ds := DrawList(cands, need);
      if cands[0].level > 0 {
        var t := Min(need, cands[0].level);
        DrawBounds(cands[1..], need - t);
        assert ds == [Draw(cands[0], t)] + DrawList(cands[1..], need - t);
        forall k | 0 <= k < |ds|
          ensures 0 < ds[k].taken <= ds[k].source.level
        {
          if k > 0 {
            assert ds[k] == DrawList(cands[1..], need - t)[k - 1];
          }
        }
      } else {
        DrawBounds(cands[1..], need);
      }
    }
  }

  /** The takes sum to the request, or to all the stock the batches hold when
      that is less; a non-positive request takes nothing. */
  lemma {:induction false} DrawTotal(cands: seq<Cand>, need: int)
    ensures Taken(DrawList(cands, need)) == Min(Max(need, 0), StockedTotal(cands))
    decreases |cands|
  {
    StockedTotalNonNegative(cands);
    if |cands| > 0 && need > 0 {
      if cands[0].level > 0 {
        var t := Min(need, cands[0].level);
        DrawTotal(cands[1..], need - t);
        StockedTotalNonNegative(cands[1..]);
      } else {
        DrawTotal(cands[1..], need);
      }
    }
  }

  lemma {:induction false} StockedTotalNonNegative(cands: seq<Cand>)
    ensures StockedTotal(cands) >= 0
  {
    if |cands| > 0 {
      StockedTotalNonNegative(cands[1..]);
    }
  }

  /** The lines drawn from are exactly the first stocked candidates, in walk
      order: no stocked candidate is skipped. */
  lemma {:induction false} DrawPrefix(cands: seq<Cand>, need: int)
    ensures |DrawList(cands, need)| <= |Stocked(cands)|
    ensures Sources(DrawList(cands, need)) == Stocked(cands)[..|DrawList(cands, need)|]
    decreases |cands|
  {
    if |cands| > 0 && need > 0 {
      if cands[0].level > 0 {
        var t := Min(need, cands[0].level);
        DrawPrefix(cands[1..], need - t);
        var rest := DrawList(cands[1..], need - t);
        assert Sources([Draw(cands[0], t)] + rest) == [cands[0]] + Sources(rest);
        assert ([cands[0]] + Stocked(cands[1..]))[..1 + |rest|] == [cands[0]] + Stocked(cands[1..])[..|rest|];
      } else {
        DrawPrefix(cands[1..], need);
      }
    }
  }

  /** Every draw but the last empties its line. */
  lemma {:induction false} DrawDrains(cands: seq<Cand>, need: int)
    ensures forall k :: 0 <= k < |DrawList(cands, need)| - 1 ==>
      DrawList(cands, need)[k].taken == DrawList(cands, need)[k].source.level
    decreases |cands|
  {
    if |cands| > 0 && need > 0 {
      var ds := DrawList(cands, need);
      if cands[0].level > 0 {
        var t := Min(need, cands[0].level);
        var rest := DrawList(cands[1..], need - t);
        DrawDrains(cands[1..], need - t);
        assert ds == [Draw(cands[0], t)] + rest;
        if |rest| > 0 {
          assert t == cands[0].level;
        }
        forall k | 0 <= k < |ds| - 1
          ensures ds[k].taken == ds[k].source.level
        {
          if k > 0 {
            assert ds[k] == rest[k - 1];
          }
        }
      } else {
        DrawDrains(cands[1..], need);
      }
    }
  }

  /** Every draw comes from one of the candidates. */
  lemma {:induction false} DrawFrom(cands: seq<Cand>, need: int)
    ensures forall d :: d in DrawList(cands, need) ==> d.source in cands
    decreases |cands|
  {
    if |cands| > 0 && need > 0 {
      if cands[0].level > 0 {
        DrawFrom(cands[1..], need - Min(need, cands[0].level));
      } else {
        DrawFrom(cands[1..], need);
      }
      assert forall c :: c in cands[1..] ==> c in cands;
    }
  }

  lemma {:induction false} StockedSorted(cands: seq<Cand>)
    requires SortedByDate(cands)
    ensures SortedByDate(Stocked(cands))
    ensures forall c :: c in Stocked(cands) ==> c in cands && c.level > 0
    decreases |cands|
  {
    if |cands| > 0 {
      var rest := cands[1..];
      assert SortedByDate(rest) by {
        forall i, j | 0 <= i < j < |rest|
          ensures rest[i].date <= rest[j].date
        {
          assert rest[i] == cands[i + 1] && rest[j] == cands[j + 1];
        }
      }
      StockedSorted(rest);
      var s := Stocked(rest);
      forall c | c in s
        ensures c in cands && cands[0].date <= c.date
      {
        var k :| 0 <= k < |rest| && rest[k] == c;
        assert cands[k + 1] == c;
      }
      if cands[0].level > 0 {
        var r := [cands[0]] + s;
        assert Stocked(cands) == r;
        forall i, j | 0 <= i < j < |r|
          ensures r[i].date <= r[j].date
        {
          if i == 0 {
            assert r[j] == s[j - 1] && r[j] in s;
          } else {
            assert r[i] == s[i - 1] && r[j] == s[j - 1];
          }
        }
      }
    }
  }

  /** FIFO: over candidates in ascending challan date, a batch is drawn from
      only after every stocked batch with an earlier date has been drawn from
      and emptied. */
  lemma DrawIsFifo(cands: seq<Cand>, need: int, k: nat, i: nat)
    requires SortedByDate(cands)
    requires k < |DrawList(cands, need)|
    requires i < |Stocked(cands)| && Stocked(cands)[i].date < DrawList(cands, need)[k].source.date
    ensures i < k
    ensures DrawList(cands, need)[i].source == Stocked(cands)[i]
    ensures DrawList(cands, need)[i].taken == Stocked(cands)[i].level
  {
    var ds := DrawList(cands, need);
    DrawPrefix(cands, need);
    DrawDrains(cands, need);
    StockedSorted(cands);
    assert ds[k].source == Sources(ds)[k] == Stocked(cands)[k];
    assert Sources(ds)[i] == Stocked(cands)[i];
  }

  /** Two batches holding 5 (older) and 10 (newer): a request for 8 drains
      the older one and takes 3 from the newer. */
  lemma OlderBatchFirst(older: Cand, newer: Cand)
    requires older.level == 5 && newer.level == 10 && older.date < newer.date
    ensures DrawList([older, newer], 8) == [Draw(older, 5), Draw(newer, 3)]
  {
    assert [older, newer][1..] == [newer] && [newer][1..] == [];
    assert DrawList([newer], 3) == [Draw(newer, 3)] + DrawList([], 0);
    assert DrawList([older, newer], 8) == [Draw(older, 5)] + DrawList([newer], 3);
  }
}
