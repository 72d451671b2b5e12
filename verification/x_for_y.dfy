/// The "buy X, pay a fixed bundle price" discount function.
///
/// `Run` follows the callback step by step: filter the eligible lines,
/// normalise the configured numbers, expand the lines into units, count the
/// complete bundles, sort the units by descending price in place and take the
/// dearest `bundleCount * bundleQuantity`, compute the discount total, group
/// the taken units by line and share the discount out. `Evaluate` is the same
/// computation as one pure function; `Run` is proved to return it, and the
/// lemmas below state what the result is.

module XForYDiscount {
  import opened Money
  import opened Cart
  import opened StableSort
  import opened Allocation
  import opened Distribution

  // ---------------------------------------------------------------------
  // The steps, as functions of the input

  /** The units of the eligible lines, in line order then replication order. */
  function EligibleUnits(lines: seq<CartLine>, config: Configuration): seq<Unit>
  {
    Expand(Eligible(lines, config.variantIds))
  }

  /** The number of complete bundles: `Math.floor(units / bundleQuantity)`. */
  function BundleCount(lines: seq<CartLine>, config: Configuration): (n: nat)
    ensures var q, units := NormalisedQuantity(config.bundleQuantity), |EligibleUnits(lines, config)|;
      n * q <= units < (n + 1) * q
  {
    var units, q := |EligibleUnits(lines, config)|, NormalisedQuantity(config.bundleQuantity);
    FloorDiv(units, q);
    units / q
  }

  /** The number of discounted units, `bundleCount * bundleQuantity`. */
  function SelectedCount(lines: seq<CartLine>, config: Configuration): (n: nat)
    ensures n <= |EligibleUnits(lines, config)|
  {
    BundleCount(lines, config) * NormalisedQuantity(config.bundleQuantity)
  }

  /** The discounted set: the dearest units, ties taken in expansion order. */
  function SelectedUnits(lines: seq<CartLine>, config: Configuration): seq<Unit>
  {
    Select(EligibleUnits(lines, config), SelectedCount(lines, config))
  }

  /** `totalSelectedPrice`, in cents. */
  function TotalSelected(lines: seq<CartLine>, config: Configuration): nat
  {
    SumPrices(SelectedUnits(lines, config))
  }

  /** `discountTotal`: selected total less `bundleCount * bundlePrice`, rounded
      to cents. Both terms are whole cents, so the rounding leaves the difference
      unchanged (`DiscountTotalWholeCents`) and the model computes it without
      rounding. The saving is at most the selected total unless the bundle price
      is negative. */
  function DiscountTotal(lines: seq<CartLine>, config: Configuration): (r: int)
    ensures NormalisedPrice(config.bundlePrice) >= 0 ==> r <= TotalSelected(lines, config)
    ensures NormalisedPrice(config.bundlePrice) <= 0 ==> r >= TotalSelected(lines, config)
  {
    var total, bundles, price := TotalSelected(lines, config), BundleCount(lines, config), NormalisedPrice(config.bundlePrice);
    assert (price >= 0 ==> bundles * price >= 0) && (price <= 0 ==> bundles * price <= 0) by {
      if price >= 0 {
        MulMonotone(price, 0, bundles);
      } else {
        MulMonotone(-price, 0, bundles);
      }
    }
    total - bundles * price
  }

  /** Rounding the discount total to cents changes nothing: it is already a
      whole number of cents. */
  lemma DiscountTotalWholeCents(lines: seq<CartLine>, config: Configuration)
    requires DiscountTotal(lines, config) >= 0
    ensures RoundHalfUp(DiscountTotal(lines, config), 1) == DiscountTotal(lines, config)
  {
    RoundHalfUpExact(DiscountTotal(lines, config), 1);
  }

  /** Every line of an allocation has at least one unit. */
  lemma AllocationTallied(items: seq<Unit>)
    ensures Tallied(AllocationOf(items).order, AllocationOf(items).tallies)
  {
    forall id | id in AllocationOf(items).order ensures TallyOf(items, id).units > 0 {
      TallyOfPresent(items, id);
    }
  }

  /** The discounts shared out over the discounted set, before the final emptiness test. */
  function LineDiscounts(lines: seq<CartLine>, config: Configuration): seq<Discount>
    requires DiscountTotal(lines, config) > 0
  {
    var selected := SelectedUnits(lines, config);
    var alloc := AllocationOf(selected);
    AllocationTallied(selected);
    Distributed(alloc.order, alloc.tallies, TotalSelected(lines, config), DiscountTotal(lines, config), config.labelText)
  }

  /** The whole callback as one function of the cart lines and the configuration.
      Discounts are granted only past the three early returns: some line is
      eligible, a bundle is complete and the discount total is positive. A
      result without discounts is the empty result. */
  function Evaluate(lines: seq<CartLine>, config: Configuration): (r: DiscountResult)
    ensures r.discounts != [] ==>
      && Eligible(lines, config.variantIds) != []
      && BundleCount(lines, config) >= 1
      && DiscountTotal(lines, config) > 0
    ensures r.discounts == [] ==> r == EmptyResult()
  {
    if Eligible(lines, config.variantIds) == [] then EmptyResult()
    else if BundleCount(lines, config) <= 0 then EmptyResult()
    else if DiscountTotal(lines, config) <= 0 then EmptyResult()
    else
      var discounts := LineDiscounts(lines, config);
      if discounts == [] then EmptyResult() else DiscountResult(discounts, Maximum)
  }

  // ---------------------------------------------------------------------
  // The callback

  method Run(lines: seq<CartLine>, config: Configuration) returns (result: DiscountResult)
    ensures result == Evaluate(lines, config)
  {
    var eligibleLines := Eligible(lines, config.variantIds);
    if |eligibleLines| == 0 {
      return EmptyResult();
    }

    var bundleQuantity := NormalisedQuantity(config.bundleQuantity);
    var bundlePrice := NormalisedPrice(config.bundlePrice);

    var unitItems := Expand(eligibleLines);

    var bundleCount := |unitItems| / bundleQuantity;
    assert bundleCount == BundleCount(lines, config);
    if bundleCount <= 0 {
      return EmptyResult();
    }

    var sorted := new Unit[|unitItems|](i requires 0 <= i < |unitItems| => unitItems[i]);
    assert sorted[..] == unitItems;
    SortByPriceDescending(sorted);
    var discountedItems := sorted[..bundleCount * bundleQuantity];
    assert discountedItems == SelectedUnits(lines, config);

    var totalSelectedPrice := SumPrices(discountedItems);
    var targetPrice := bundleCount * bundlePrice;
    var discountTotal := totalSelectedPrice - targetPrice;
    assert discountTotal == DiscountTotal(lines, config);
    if discountTotal <= 0 {
      return EmptyResult();
    }

    var allocation := Allocate(discountedItems);
    AllocationTallied(discountedItems);
    var discounts := Distribute(allocation, totalSelectedPrice, discountTotal, config.labelText);
    assert discounts == LineDiscounts(lines, config);

    if |discounts| == 0 {
      return EmptyResult();
    }
    return DiscountResult(discounts, Maximum);
  }

  // ---------------------------------------------------------------------
  // The degenerate paths

  /** No cart line is for a configured variant: nothing is granted. */
  lemma NoEligibleLineEmpty(lines: seq<CartLine>, config: Configuration)
    requires forall l :: l in lines ==> l.merchandiseId !in config.variantIds
    ensures Evaluate(lines, config) == EmptyResult()
  {
    var eligible := Eligible(lines, config.variantIds);
    if eligible != [] {
      assert eligible[0] in eligible;
    }
  }

  /** Fewer eligible units than one bundle holds: nothing is granted. */
  lemma TooFewUnitsEmpty(lines: seq<CartLine>, config: Configuration)
    requires TotalQuantity(Eligible(lines, config.variantIds)) < NormalisedQuantity(config.bundleQuantity)
    ensures Evaluate(lines, config) == EmptyResult()
  {
    var n, q := BundleCount(lines, config), NormalisedQuantity(config.bundleQuantity);
    if n >= 1 {
      MulMonotone(q, 1, n);
    }
  }

  /** A bundle price of at least `bundleQuantity` times the price of every
      eligible unit leaves no saving: nothing is granted. */
  lemma BundleNotCheaperEmpty(lines: seq<CartLine>, config: Configuration)
    requires forall u :: u in EligibleUnits(lines, config) ==>
      NormalisedQuantity(config.bundleQuantity) * u.price <= NormalisedPrice(config.bundlePrice)
    ensures Evaluate(lines, config) == EmptyResult()
  {
    var units, n := EligibleUnits(lines, config), SelectedCount(lines, config);
    var q, price := NormalisedQuantity(config.bundleQuantity), NormalisedPrice(config.bundlePrice);
    var bundles, selected := BundleCount(lines, config), SelectedUnits(lines, config);
    forall u | u in selected ensures q * u.price <= price {
      SelectFrom(units, n, u);
    }
    SumBound(selected, q, price);
    assert |selected| == bundles * q;
    assert |selected| * price == q * (bundles * price) by {
      MulAssociates(bundles, q, price);
    }
    MulCancel(q, TotalSelected(lines, config), bundles * price);
  }

  /** If each unit costs at most `price / q`, `q` times the total is at most `|s| * price`. */
  lemma {:induction false} SumBound(s: seq<Unit>, q: nat, price: int)
    requires forall u :: u in s ==> q * u.price <= price
    ensures q * SumPrices(s) <= |s| * price
  {
    if s != [] {
      var init, last := s[..|s| - 1], s[|s| - 1];
      assert forall u :: u in init ==> u in s;
      SumBound(init, q, price);
      assert last in s;
      var a, b := SumPrices(init), |init|;
      assert SumPrices(s) == a + last.price;
      MulDistributes(q, a, last.price);
      MulDistributes(price, b, 1);
      assert |s| * price == b * price + price;
    }
  }

  lemma MulDistributes(q: int, a: int, b: int)
    ensures q * (a + b) == q * a + q * b
    ensures (a + b) * q == a * q + b * q
  {
  }

  lemma MulAssociates(a: int, b: int, c: int)
    ensures (a * b) * c == b * (a * c)
  {
  }

  lemma MulCancel(q: nat, a: int, b: int)
    requires q > 0
    requires q * a <= q * b
    ensures a <= b
  {
    if a > b {
      MulMonotone(q, b + 1, a);
    }
  }

  // ---------------------------------------------------------------------
  // What is granted

  /** The result is non-empty exactly when some line is eligible, at least one
      bundle is complete, the discount total is positive, and some line of the
      discounted set has a positive rounded share (or the set is free, where
      the share is NaN). */
  lemma NonEmptyExactly(lines: seq<CartLine>, config: Configuration)
    ensures Evaluate(lines, config).discounts != [] <==>
      && Eligible(lines, config.variantIds) != []
      && BundleCount(lines, config) >= 1
      && DiscountTotal(lines, config) > 0
      && exists id :: HasLine(SelectedUnits(lines, config), id) &&
           (TotalSelected(lines, config) == 0 ||
            LineShare(TallyOf(SelectedUnits(lines, config), id).amount, TotalSelected(lines, config), DiscountTotal(lines, config)) > 0)
  {
    if Eligible(lines, config.variantIds) != [] && BundleCount(lines, config) >= 1 && DiscountTotal(lines, config) > 0 {
      var selected, total, dt := SelectedUnits(lines, config), TotalSelected(lines, config), DiscountTotal(lines, config);
      var alloc := AllocationOf(selected);
      AllocationTallied(selected);
      var ds := Distributed(alloc.order, alloc.tallies, total, dt, config.labelText);
      assert Evaluate(lines, config).discounts == ds;
      forall id | HasLine(selected, id)
        ensures LineDiscount(id, alloc.tallies[id], total, dt, config.labelText).Some? <==>
          (total == 0 || LineShare(TallyOf(selected, id).amount, total, dt) > 0)
      {
      }
      if ds != [] {
        DistributedFromLines(alloc.order, alloc.tallies, total, dt, config.labelText);
        var id := ds[0].targets[0];
        assert HasLine(selected, id);
      }
      if id :| HasLine(selected, id) && (total == 0 || LineShare(TallyOf(selected, id).amount, total, dt) > 0) {
        DistributedCovers(alloc.order, alloc.tallies, total, dt, config.labelText, id);
      }
    }
  }

  /** Every emitted discount targets one line of the discounted set, applies to
      each of its items, carries the configured label, and its per-item amount is
      the smaller of that line's average selected unit price and its rounded
      share per unit, both rounded to cents. An amount of NaN is emitted only
      when every selected unit is free, which takes a negative bundle price. */
  lemma DiscountsBounded(lines: seq<CartLine>, config: Configuration)
    ensures var ds, selected := Evaluate(lines, config).discounts, SelectedUnits(lines, config);
      forall d :: d in ds ==>
        && |d.targets| == 1 && d.value.appliesToEachItem && d.message == config.labelText
        && HasLine(selected, d.targets[0])
        && var t := TallyOf(selected, d.targets[0]);
        && t.units >= 1
        && (d.value.amount.Cents? ==>
              && TotalSelected(lines, config) > 0
              && var lineTotal := LineShare(t.amount, TotalSelected(lines, config), DiscountTotal(lines, config));
              && lineTotal > 0
              && d.value.amount.cents == Min(RoundHalfUp(t.amount, t.units), RoundHalfUp(lineTotal, t.units))
              && 0 <= d.value.amount.cents <= RoundHalfUp(t.amount, t.units)
              && d.value.amount.cents <= RoundHalfUp(lineTotal, t.units))
        && (d.value.amount.NotANumber? ==>
              TotalSelected(lines, config) == 0 && NormalisedPrice(config.bundlePrice) < 0)
  {
    var ds := Evaluate(lines, config).discounts;
    if ds != [] {
      var selected, total, dt := SelectedUnits(lines, config), TotalSelected(lines, config), DiscountTotal(lines, config);
      var alloc := AllocationOf(selected);
      AllocationTallied(selected);
      DistributedFromLines(alloc.order, alloc.tallies, total, dt, config.labelText);
      assert ds == Distributed(alloc.order, alloc.tallies, total, dt, config.labelText);
    }
  }

  /** No line is targeted twice, and the discounts follow the key order of the
      allocation map, which is the order of each line's first unit in the
      sorted discounted set (`FirstAppearancesOrdered`). */
  lemma TargetsDistinctInSelectionOrder(lines: seq<CartLine>, config: Configuration)
    ensures var ds, order := Evaluate(lines, config).discounts, FirstAppearances(SelectedUnits(lines, config));
      forall i, j :: 0 <= i < j < |ds| ==>
        && ds[i].targets != ds[j].targets
        && |ds[i].targets| == 1 && |ds[j].targets| == 1
        && ds[i].targets[0] in order && ds[j].targets[0] in order
        && IndexOf(order, ds[i].targets[0]) < IndexOf(order, ds[j].targets[0])
  {
    var ds := Evaluate(lines, config).discounts;
    if ds != [] {
      var selected, total, dt := SelectedUnits(lines, config), TotalSelected(lines, config), DiscountTotal(lines, config);
      var alloc := AllocationOf(selected);
      AllocationTallied(selected);
      DistributedInOrder(alloc.order, alloc.tallies, total, dt, config.labelText);
      assert ds == Distributed(alloc.order, alloc.tallies, total, dt, config.labelText);
    }
  }
}
