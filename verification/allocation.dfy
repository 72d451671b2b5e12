/// Grouping the discounted units by the line they came from.
///
/// The source builds an insertion-ordered `Map` from line id to
/// `{ amount, units }`, visiting the discounted units in sorted order and
/// replacing each entry as it goes. A JavaScript `Map` is modelled by its key
/// order (`order`) and its entries (`tallies`): setting an existing key keeps
/// its place, setting a new key appends it. `AllocationOf` says what the map
/// holds once every unit is visited; `Allocate` is the loop.

module Allocation {
  import opened Cart

  /** A line's contribution to the discounted set: summed price (cents) and unit count. */
  datatype Tally = Tally(amount: nat, units: nat)

  function Plus(a: Tally, b: Tally): Tally
  {
    Tally(a.amount + b.amount, a.units + b.units)
  }

  /** The tally after one more unit. */
  function Add(t: Tally, u: Unit): Tally
  {
    Tally(t.amount + u.price, t.units + 1)
  }

  /** Whether some unit of `items` belongs to line `id`. */
  ghost predicate HasLine(items: seq<Unit>, id: LineId)
  {
    exists k :: 0 <= k < |items| && items[k].lineId == id
  }

  ghost predicate Distinct(ids: seq<LineId>)
  {
    forall i, j :: 0 <= i < j < |ids| ==> ids[i] != ids[j]
  }

  /** The summed price and the number of the units of line `id` in `items`. */
  function TallyOf(items: seq<Unit>, id: LineId): Tally
  {
    if items == [] then Tally(0, 0)
    else
      var last := items[|items| - 1];
      var t := TallyOf(items[..|items| - 1], id);
      if last.lineId == id then Add(t, last) else t
  }

  /** The line ids of `items`, each once, in the order of their first unit. */
  function FirstAppearances(items: seq<Unit>): (r: seq<LineId>)
    ensures Distinct(r)
    ensures forall id :: id in r <==> HasLine(items, id)
  {
    if items == [] then []
    else
      var init, last := items[..|items| - 1], items[|items| - 1];
      var prev := FirstAppearances(init);
      forall id ensures HasLine(items, id) <==> HasLine(init, id) || id == last.lineId {
        if HasLine(init, id) {
          var k :| 0 <= k < |init| && init[k].lineId == id;
          assert items[k] == init[k];
        }
        if HasLine(items, id) && id != last.lineId {
          var k :| 0 <= k < |items| && items[k].lineId == id;
          assert init[k] == items[k];
        }
        if id == last.lineId {
          assert items[|items| - 1].lineId == id;
        }
      }
      if last.lineId in prev then prev else prev + [last.lineId]
  }

  /** The grouped allocation: line ids in order of first appearance and each line's tally. */
  datatype LineAllocations = LineAllocations(order: seq<LineId>, tallies: map<LineId, Tally>)

  /** What the `allocation` map holds after every unit of `items` has been visited. */
  function AllocationOf(items: seq<Unit>): (r: LineAllocations)
    ensures r.order == FirstAppearances(items)
    ensures forall id :: id in r.tallies <==> id in r.order
    ensures forall id :: id in r.tallies ==> r.tallies[id] == TallyOf(items, id)
    ensures Distinct(r.order)
    ensures forall id :: id in r.tallies <==> HasLine(items, id)
    ensures forall id :: id in r.tallies ==> r.tallies[id].units >= 1
  {
    var order := FirstAppearances(items);
    forall id | HasLine(items, id) ensures TallyOf(items, id).units >= 1 {
      TallyOfPresent(items, id);
    }
    LineAllocations(order, map id | id in order :: TallyOf(items, id))
  }

  // ---------------------------------------------------------------------
  // The loop

  /** Visits the units in order; each unit adds its price and one unit to its
      line's entry (`allocation.get(...) ?? { amount: 0, units: 0 }` then
      `allocation.set(...)`). */
  method Allocate(items: seq<Unit>) returns (alloc: LineAllocations)
    ensures alloc == AllocationOf(items)
  {
    var order: seq<LineId> := [];
    var tallies: map<LineId, Tally> := map[];
    var i := 0;
    while i < |items|
      invariant 0 <= i <= |items|
      invariant order == AllocationOf(items[..i]).order
      invariant tallies == AllocationOf(items[..i]).tallies
    {
      var item := items[i];
      AllocationOfSnoc(items[..i], item);
      assert items[..i + 1] == items[..i] + [item];
      ghost var next := AllocationOf(items[..i + 1]);
      var current := if item.lineId in tallies then tallies[item.lineId] else Tally(0, 0);
      if item.lineId !in tallies {
        order := order + [item.lineId];
      }
      tallies := tallies[item.lineId := Add(current, item)];
      assert order == next.order && tallies == next.tallies;
      i := i + 1;
    }
    assert items[..i] == items;
    alloc := LineAllocations(order, tallies);
  }


  // ---------------------------------------------------------------------
  // Properties

  /** A line none of whose units is present has an empty tally. */
  lemma {:induction false} TallyOfAbsent(items: seq<Unit>, id: LineId)
    requires !HasLine(items, id)
    ensures TallyOf(items, id) == Tally(0, 0)
  {
    if items != [] {
      var init := items[..|items| - 1];
      forall k | 0 <= k < |init| ensures init[k].lineId != id {
        assert init[k] == items[k];
      }
      assert items[|items| - 1].lineId != id;
      TallyOfAbsent(init, id);
    }
  }

  /** Every line in the allocation has at least one unit, so dividing by its
      unit count is safe. */
  lemma {:induction false} TallyOfPresent(items: seq<Unit>, id: LineId)
    requires HasLine(items, id)
    ensures TallyOf(items, id).units >= 1
  {
    var init, last := items[..|items| - 1], items[|items| - 1];
    if last.lineId != id {
      var k :| 0 <= k < |items| && items[k].lineId == id;
      assert k < |init| && init[k] == items[k];
      TallyOfPresent(init, id);
    }
  }

  /** One more unit: a new line id is appended to the key order, an existing one
      keeps its place, and only that line's tally changes. */
  lemma AllocationOfSnoc(s: seq<Unit>, x: Unit)
    ensures
      var prev, next := AllocationOf(s), AllocationOf(s + [x]);
      var current := if x.lineId in prev.tallies then prev.tallies[x.lineId] else Tally(0, 0);
      && next.order == (if x.lineId in prev.tallies then prev.order else prev.order + [x.lineId])
      && next.tallies == prev.tallies[x.lineId := Add(current, x)]
  {
    var prev, next := AllocationOf(s), AllocationOf(s + [x]);
    assert (s + [x])[..|s|] == s;
    if x.lineId !in prev.tallies {
      TallyOfAbsent(s, x.lineId);
    }
    var current := if x.lineId in prev.tallies then prev.tallies[x.lineId] else Tally(0, 0);
    assert next.tallies == prev.tallies[x.lineId := Add(current, x)];
  }

  /** The sum of the tallies of `ids`. */
  function SumTallies(items: seq<Unit>, ids: seq<LineId>): Tally
  {
    if ids == [] then Tally(0, 0)
    else Plus(SumTallies(items, ids[..|ids| - 1]), TallyOf(items, ids[|ids| - 1]))
  }

  lemma {:induction false} SumTalliesSnoc(s: seq<Unit>, x: Unit, ids: seq<LineId>)
    requires Distinct(ids)
    ensures SumTallies(s + [x], ids) == if x.lineId in ids then Add(SumTallies(s, ids), x) else SumTallies(s, ids)
  {
    assert (s + [x])[..|s|] == s;
    if ids != [] {
      var init := ids[..|ids| - 1];
      assert Distinct(init);
      assert x.lineId in ids <==> x.lineId in init || x.lineId == ids[|ids| - 1];
      SumTalliesSnoc(s, x, init);
    }
  }

  /** Bookkeeping: the per-line unit counts add up to the number of discounted
      units, and the per-line amounts add up to their total price. */
  lemma {:induction false} AllocationTotals(items: seq<Unit>)
    ensures SumTallies(items, AllocationOf(items).order) == Tally(SumPrices(items), |items|)
  {
    if items != [] {
      var s, x := items[..|items| - 1], items[|items| - 1];
      assert items == s + [x];
      AllocationTotals(s);
      var order := AllocationOf(s).order;
      SumTalliesSnoc(s, x, order);
      SumPricesAppend(s, [x]);
      assert SumPrices([x]) == x.price;
      if x.lineId in order {
        assert AllocationOf(items).order == order;
      } else {
        TallyOfAbsent(s, x.lineId);
        assert AllocationOf(items).order == order + [x.lineId];
        assert (order + [x.lineId])[..|order|] == order;
        assert SumTallies(items, order + [x.lineId]) == Plus(SumTallies(items, order), TallyOf(items, x.lineId));
      }
    }
  }

  /** The position of the first unit of line `id`. */
  function FirstIndex(items: seq<Unit>, id: LineId): (k: nat)
    requires HasLine(items, id)
    ensures k < |items| && items[k].lineId == id
    ensures forall m :: 0 <= m < k ==> items[m].lineId != id
  {
    if items[0].lineId == id then 0
    else
      var k :| 0 <= k < |items| && items[k].lineId == id;
      assert items[1..][k - 1] == items[k];
      1 + FirstIndex(items[1..], id)
  }

  /** The key order is the order of the lines' first units. */
  lemma {:induction false} FirstAppearancesOrdered(items: seq<Unit>)
    ensures forall i, j :: 0 <= i < j < |FirstAppearances(items)| ==>
      FirstIndex(items, FirstAppearances(items)[i]) < FirstIndex(items, FirstAppearances(items)[j])
  {
    if items != [] {
      var s, x := items[..|items| - 1], items[|items| - 1];
      FirstAppearancesOrdered(s);
      var prev, order := FirstAppearances(s), FirstAppearances(items);
      forall id | HasLine(s, id) ensures FirstIndex(items, id) == FirstIndex(s, id) {
        var k := FirstIndex(s, id);
        assert items[k] == s[k];
        assert forall m :: 0 <= m < k ==> items[m] == s[m];
      }
      forall i, j | 0 <= i < j < |order| ensures FirstIndex(items, order[i]) < FirstIndex(items, order[j]) {
        assert order[i] == prev[i] && HasLine(s, prev[i]);
        if j < |prev| {
          assert order[j] == prev[j] && HasLine(s, prev[j]);
          assert FirstIndex(s, prev[i]) < FirstIndex(s, prev[j]);
          assert FirstIndex(items, order[i]) == FirstIndex(s, prev[i]);
          assert FirstIndex(items, order[j]) == FirstIndex(s, prev[j]);
        } else {
          assert order[j] == x.lineId && !HasLine(s, x.lineId);
          forall m | 0 <= m < |s| ensures items[m].lineId != x.lineId {
            assert items[m] == s[m];
          }
          assert FirstIndex(items, order[j]) == |s|;
          assert FirstIndex(items, order[i]) == FirstIndex(s, order[i]) < |s|;
        }
      }
    }
  }
}
