/// Sharing the discount total out over the lines of the discounted set.
///
/// For each entry of the allocation map, in its key order, the source takes
/// the line's share of the discount total, rounds it to cents, skips the line
/// when that share is not positive, and otherwise emits one fixed per-item
/// discount on the line: the smaller of the line's average selected unit
/// price and its share per unit, rendered to cents. The three roundings
/// (discount total, line share, per-item amount) are independent, so the
/// emitted amounts need not add up to the discount total.

module Distribution {
  import opened Money
  import opened Cart
  import opened Allocation

  datatype Option<T> = None | Some(value: T)

  /** `lineDiscountTotal`: the share `amount / total` of the discount total,
      rounded to cents (within half a cent of `amount * discountTotal / total`).
      A line's share never exceeds the discount total. */
  function LineShare(amount: nat, total: nat, discountTotal: nat): (r: nat)
    requires total > 0
    ensures 2 * total * r <= 2 * (amount * discountTotal) + total < 2 * total * (r + 1)
    ensures amount <= total ==> r <= discountTotal
  {
    assert amount <= total ==> RoundHalfUp(amount * discountTotal, total) <= discountTotal by {
      if amount <= total {
        MulMonotone(discountTotal, amount, total);
        RoundHalfUpMonotone(amount * discountTotal, discountTotal * total, total);
        RoundHalfUpExact(discountTotal, total);
      }
    }
    RoundHalfUp(amount * discountTotal, total)
  }

  /** The discount emitted for line `id` with tally `t`, or None when its share
      rounds to nothing. `total` is the selected units' total price and
      `discountTotal` the (positive) discount total, both in cents.
      With `total == 0` the share ratio is 0 / 0, which is NaN: the test
      `NaN <= 0` is false and `Math.min(x, NaN)` is NaN, so the line gets a
      discount whose amount renders as "NaN". Otherwise the per-item amount is
      the smaller of the average unit price and the share per unit, in cents;
      rounding is monotone, so rounding the two before or after taking the
      smaller gives the same cents. */
  function LineDiscount(id: LineId, t: Tally, total: nat, discountTotal: nat, message: string): (r: Option<Discount>)
    requires t.units > 0
    ensures r.Some? ==> r.value.targets == [id] && r.value.value.appliesToEachItem && r.value.message == message
    ensures r.None? <==> total > 0 && LineShare(t.amount, total, discountTotal) == 0
    ensures r.Some? && r.value.value.amount.NotANumber? <==> total == 0
    ensures r.Some? && r.value.value.amount.Cents? ==>
      var lineTotal := LineShare(t.amount, total, discountTotal);
      var c := r.value.value.amount.cents;
      && lineTotal > 0
      && c == Min(RoundHalfUp(t.amount, t.units), RoundHalfUp(lineTotal, t.units))
      && 0 <= c <= RoundHalfUp(t.amount, t.units)
      && c <= RoundHalfUp(lineTotal, t.units)
  {
    if total == 0 then
      Some(Discount([id], FixedAmount(NotANumber, true), message))
    else
      var lineTotal := LineShare(t.amount, total, discountTotal);
      if lineTotal <= 0 then None
      else
        var perUnit := RoundHalfUp(Min(t.amount, lineTotal), t.units);
        assert perUnit == Min(RoundHalfUp(t.amount, t.units), RoundHalfUp(lineTotal, t.units)) by {
          if t.amount <= lineTotal {
            RoundHalfUpMonotone(t.amount, lineTotal, t.units);
          } else {
            RoundHalfUpMonotone(lineTotal, t.amount, t.units);
          }
        }
        Some(Discount([id], FixedAmount(Cents(perUnit), true), message))
  }

  /** Every listed line has a tally with at least one unit. */
  ghost predicate Tallied(order: seq<LineId>, tallies: map<LineId, Tally>)
  {
    forall id :: id in order ==> id in tallies && tallies[id].units > 0
  }

  /** The discounts pushed while visiting `order`, in that order. */
  function Distributed(order: seq<LineId>, tallies: map<LineId, Tally>, total: nat, discountTotal: nat, message: string): (r: seq<Discount>)
    requires Tallied(order, tallies)
    ensures |r| <= |order|
    ensures forall k :: 0 <= k < |r| ==>
      && |r[k].targets| == 1 && r[k].targets[0] in order
      && r[k].value.appliesToEachItem && r[k].message == message
  {
    if order == [] then []
    else
      var init, id := order[..|order| - 1], order[|order| - 1];
      var prev := Distributed(init, tallies, total, discountTotal, message);
      match LineDiscount(id, tallies[id], total, discountTotal, message)
      case None => prev
      case Some(d) => prev + [d]
  }

  /** The `forEach` over the allocation map that pushes one discount per line
      whose share is positive. */
  method Distribute(alloc: LineAllocations, total: nat, discountTotal: nat, message: string) returns (discounts: seq<Discount>)
    requires Tallied(alloc.order, alloc.tallies)
    ensures discounts == Distributed(alloc.order, alloc.tallies, total, discountTotal, message)
  {
    discounts := [];
    var i := 0;
    while i < |alloc.order|
      invariant 0 <= i <= |alloc.order|
      invariant discounts == Distributed(alloc.order[..i], alloc.tallies, total, discountTotal, message)
    {
      var id := alloc.order[i];
      assert alloc.order[..i + 1][..i] == alloc.order[..i];
      var d := LineDiscount(id, alloc.tallies[id], total, discountTotal, message);
      if d.Some? {
        discounts := discounts + [d.value];
      }
      i := i + 1;
    }
    assert alloc.order[..i] == alloc.order;
  }

  // ---------------------------------------------------------------------
  // Properties

  /** The position of `id` in `order`. */
  function IndexOf(order: seq<LineId>, id: LineId): (k: nat)
    requires id in order
    ensures k < |order| && order[k] == id
    ensures forall m :: 0 <= m < k ==> order[m] != id
  {
    if order[0] == id then 0 else 1 + IndexOf(order[1..], id)
  }

  lemma {:induction false} IndexOfSnoc(order: seq<LineId>, x: LineId, id: LineId)
    requires id in order
    ensures IndexOf(order + [x], id) == IndexOf(order, id)
  {
    if order[0] != id {
      assert (order + [x])[1..] == order[1..] + [x];
      IndexOfSnoc(order[1..], x, id);
    }
  }

  /** Each emitted discount is the one `LineDiscount` gives for a line of `order`. */
  lemma {:induction false} DistributedFromLines(order: seq<LineId>, tallies: map<LineId, Tally>, total: nat, discountTotal: nat, message: string)
    requires Tallied(order, tallies)
    ensures var ds := Distributed(order, tallies, total, discountTotal, message);
      && |ds| <= |order|
      && forall k :: 0 <= k < |ds| ==>
           |ds[k].targets| == 1 && ds[k].targets[0] in order
           && LineDiscount(ds[k].targets[0], tallies[ds[k].targets[0]], total, discountTotal, message) == Some(ds[k])
  {
    if order != [] {
      var init, x := order[..|order| - 1], order[|order| - 1];
      assert forall id :: id in init ==> id in order;
      DistributedFromLines(init, tallies, total, discountTotal, message);
    }
  }

  /** The discounts follow the key order of the allocation map. */
  lemma {:induction false} DistributedInOrder(order: seq<LineId>, tallies: map<LineId, Tally>, total: nat, discountTotal: nat, message: string)
    requires Tallied(order, tallies)
    requires Distinct(order)
    ensures var ds := Distributed(order, tallies, total, discountTotal, message);
      forall i, j :: 0 <= i < j < |ds| ==>
        |ds[i].targets| == 1 && |ds[j].targets| == 1 &&
        ds[i].targets[0] in order && ds[j].targets[0] in order &&
        IndexOf(order, ds[i].targets[0]) < IndexOf(order, ds[j].targets[0])
  {
    if order != [] {
      var init, x := order[..|order| - 1], order[|order| - 1];
      assert order == init + [x];
      assert Distinct(init);
      assert forall id :: id in init ==> id in order;
      DistributedInOrder(init, tallies, total, discountTotal, message);
      DistributedFromLines(init, tallies, total, discountTotal, message);
      var prev := Distributed(init, tallies, total, discountTotal, message);
      var ds := Distributed(order, tallies, total, discountTotal, message);
      var step := LineDiscount(x, tallies[x], total, discountTotal, message);
      assert ds == if step.Some? then prev + [step.value] else prev;
      assert ds[..|prev|] == prev;
      assert x !in init;
      SnocAllOrdered(init, x, prev, ds);
    }
  }

  /** One pair of the ordering step: `ds` is `prev` with at most one discount
      for the new last line `x` appended. */
  lemma SnocOrdered(init: seq<LineId>, x: LineId, prev: seq<Discount>, ds: seq<Discount>, i: nat, j: nat)
    requires x !in init
    requires forall k :: 0 <= k < |prev| ==> |prev[k].targets| == 1 && prev[k].targets[0] in init
    requires forall a, b :: 0 <= a < b < |prev| ==> IndexOf(init, prev[a].targets[0]) < IndexOf(init, prev[b].targets[0])
    requires |prev| <= |ds| <= |prev| + 1 && ds[..|prev|] == prev
    requires |ds| > |prev| ==> ds[|prev|].targets == [x]
    requires i < j < |ds|
    ensures ds[i].targets[0] in init + [x] && ds[j].targets[0] in init + [x]
    ensures IndexOf(init + [x], ds[i].targets[0]) < IndexOf(init + [x], ds[j].targets[0])
  {
    assert ds[i] == ds[..|prev|][i];
    var a := prev[i].targets[0];
    IndexOfSnoc(init, x, a);
    if j < |prev| {
      assert ds[j] == ds[..|prev|][j];
      IndexOfSnoc(init, x, prev[j].targets[0]);
    } else {
      assert (init + [x])[|init|] == x;
      assert IndexOf(init + [x], x) == |init|;
    }
  }

  /** The ordering step for every pair of `ds`. */
  lemma SnocAllOrdered(init: seq<LineId>, x: LineId, prev: seq<Discount>, ds: seq<Discount>)
    requires x !in init
    requires forall k :: 0 <= k < |prev| ==> |prev[k].targets| == 1 && prev[k].targets[0] in init
    requires forall a, b :: 0 <= a < b < |prev| ==> IndexOf(init, prev[a].targets[0]) < IndexOf(init, prev[b].targets[0])
    requires |prev| <= |ds| <= |prev| + 1 && ds[..|prev|] == prev
    requires |ds| > |prev| ==> ds[|prev|].targets == [x]
    ensures forall i, j :: 0 <= i < j < |ds| ==>
      && |ds[i].targets| == 1 && |ds[j].targets| == 1
      && IndexOf(init + [x], ds[i].targets[0]) < IndexOf(init + [x], ds[j].targets[0])
  {
    forall i, j | 0 <= i < j < |ds|
      ensures |ds[i].targets| == 1 && |ds[j].targets| == 1
      ensures IndexOf(init + [x], ds[i].targets[0]) < IndexOf(init + [x], ds[j].targets[0])
    {
      assert ds[i] == ds[..|prev|][i];
      if j < |prev| {
        assert ds[j] == ds[..|prev|][j];
      }
      SnocOrdered(init, x, prev, ds, i, j);
    }
  }

  /** A line is targeted exactly when it is in `order` and its share is positive. */
  lemma {:induction false} DistributedCovers(order: seq<LineId>, tallies: map<LineId, Tally>, total: nat, discountTotal: nat, message: string, id: LineId)
    requires Tallied(order, tallies)
    ensures var ds := Distributed(order, tallies, total, discountTotal, message);
      (id in order && LineDiscount(id, tallies[id], total, discountTotal, message).Some?) <==>
      (exists k :: 0 <= k < |ds| && ds[k].targets == [id])
  {
    DistributedFromLines(order, tallies, total, discountTotal, message);
    if order != [] {
      var init, x := order[..|order| - 1], order[|order| - 1];
      assert order == init + [x];
      assert forall i :: i in init ==> i in order;
      DistributedCovers(init, tallies, total, discountTotal, message, id);
      var prev := Distributed(init, tallies, total, discountTotal, message);
      var ds := Distributed(order, tallies, total, discountTotal, message);
      assert forall k :: 0 <= k < |prev| ==> ds[k] == prev[k];
      if id == x && LineDiscount(id, tallies[id], total, discountTotal, message).Some? {
        assert ds[|prev|].targets == [id];
      }
      if k :| 0 <= k < |ds| && ds[k].targets == [id] {
        if k < |prev| {
          assert prev[k].targets == [id];
        }
      }
    }
  }

  /** No line is targeted by two discounts. */
  lemma DistributedDistinct(order: seq<LineId>, tallies: map<LineId, Tally>, total: nat, discountTotal: nat, message: string)
    requires Tallied(order, tallies)
    requires Distinct(order)
    ensures var ds := Distributed(order, tallies, total, discountTotal, message);
      forall i, j :: 0 <= i < j < |ds| ==> ds[i].targets != ds[j].targets
  {
    DistributedInOrder(order, tallies, total, discountTotal, message);
  }
}
