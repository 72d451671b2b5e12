/// Worked carts, in cents.
///
/// Each scenario fixes a cart and a configuration and states the callback's
/// complete result. It is proved in two halves: which units are discounted and
/// what the discount total is, then how that total is shared out. The last
/// four exhibit behaviours of the code that a reader of its description might
/// not expect: the dearest units are discounted even when a cheaper bundle
/// exists, a per-item amount of zero cents is emitted, the amounts granted can
/// add up to more than the discount total, and a negative bundle price over
/// free units yields the amount "NaN".

module Scenarios {
  import opened Money
  import opened Cart
  import opened StableSort
  import opened Allocation
  import opened Distribution
  import opened XForYDiscount

  const Label := "Bundle deal"

  function Config(q: ConfigValue, p: ConfigValue): Configuration
  {
    Configuration(q, p, Label, ["V1", "V2"])
  }

  function Fixed(id: LineId, cents: int): Discount
  {
    Discount([id], FixedAmount(Cents(cents), true), Label)
  }

  /** The result is fixed by the discounted set, the discount total and the
      discounts shared out over the discounted set. */
  lemma Outcome(lines: seq<CartLine>, config: Configuration, selected: seq<Unit>, total: nat, discountTotal: int, discounts: seq<Discount>)
    requires Eligible(lines, config.variantIds) != [] && BundleCount(lines, config) >= 1
    requires SelectedUnits(lines, config) == selected && TotalSelected(lines, config) == total
    requires DiscountTotal(lines, config) == discountTotal > 0
    requires Tallied(AllocationOf(selected).order, AllocationOf(selected).tallies)
    requires Distributed(AllocationOf(selected).order, AllocationOf(selected).tallies, total, discountTotal, config.labelText) == discounts
    ensures Evaluate(lines, config) == if discounts == [] then EmptyResult() else DiscountResult(discounts, Maximum)
  {
  }

  /** A single unit gives one entry, for its line, with its price and one unit. */
  lemma OneUnitAllocation(u: Unit)
    ensures var alloc := AllocationOf([u]);
      && alloc.order == [u.lineId]
      && alloc.tallies[u.lineId] == Tally(u.price, 1)
  {
    assert [u][..0] == [];
    assert FirstAppearances([u]) == [u.lineId];
    assert TallyOf([u], u.lineId) == Tally(u.price, 1);
  }

  /** A sequence already in descending price order is left as it is by the sort. */
  lemma SortedStays(s: seq<Unit>)
    requires SortedDesc(s)
    ensures InsSort(s) == s
  {
    SortedUnique(s, s);
  }

  /** Every line carries a configured variant: the filter keeps them all. */
  lemma {:induction false} AllEligible(lines: seq<CartLine>, ids: seq<VariantId>)
    requires forall i :: 0 <= i < |lines| ==> lines[i].merchandiseId in ids
    ensures Eligible(lines, ids) == lines
  {
    if lines != [] {
      AllEligible(lines[1..], ids);
      assert lines == [lines[0]] + lines[1..];
    }
  }

  /** The units of a line of one, two or three items. */
  lemma Copies(l: CartLine)
    ensures var u := Unit(l.id, l.unitPrice);
      && (l.quantity == 1 ==> LineUnits(l) == [u])
      && (l.quantity == 2 ==> LineUnits(l) == [u, u])
      && (l.quantity == 3 ==> LineUnits(l) == [u, u, u])
  {
  }

  lemma ExpandOne(l: CartLine)
    ensures Expand([l]) == LineUnits(l)
  {
    assert [l][1..] == [];
  }

  lemma ExpandTwo(l1: CartLine, l2: CartLine)
    ensures Expand([l1, l2]) == LineUnits(l1) + LineUnits(l2)
  {
    assert [l1, l2][1..] == [l2];
    ExpandOne(l2);
  }

  lemma ExpandThree(l1: CartLine, l2: CartLine, l3: CartLine)
    ensures Expand([l1, l2, l3]) == LineUnits(l1) + LineUnits(l2) + LineUnits(l3)
  {
    assert [l1, l2, l3][1..] == [l2, l3];
    ExpandTwo(l2, l3);
  }

  lemma SumOne(a: Unit)
    ensures SumPrices([a]) == a.price
  {
    assert [a][..0] == [];
  }

  lemma SumTwo(a: Unit, b: Unit)
    ensures SumPrices([a, b]) == a.price + b.price
  {
    assert [a, b][..1] == [a];
    SumOne(a);
  }

  lemma SumThree(a: Unit, b: Unit, c: Unit)
    ensures SumPrices([a, b, c]) == a.price + b.price + c.price
  {
    assert [a, b, c][..2] == [a, b];
    SumTwo(a, b);
  }

  lemma SumFour(a: Unit, b: Unit, c: Unit, d: Unit)
    ensures SumPrices([a, b, c, d]) == a.price + b.price + c.price + d.price
  {
    assert [a, b, c, d][..3] == [a, b, c];
    SumThree(a, b, c);
  }

  /** What one visited line contributes to the discounts. */
  function Emitted(d: Option<Discount>): seq<Discount>
  {
    if d.Some? then [d.value] else []
  }

  lemma DistributedOne(x: LineId, tallies: map<LineId, Tally>, total: nat, discountTotal: nat, message: string)
    requires Tallied([x], tallies)
    ensures Distributed([x], tallies, total, discountTotal, message) == Emitted(LineDiscount(x, tallies[x], total, discountTotal, message))
  {
    assert [x][..0] == [];
  }

  lemma DistributedSnoc(order: seq<LineId>, x: LineId, tallies: map<LineId, Tally>, total: nat, discountTotal: nat, message: string)
    requires Tallied(order + [x], tallies)
    ensures Tallied(order, tallies)
    ensures Distributed(order + [x], tallies, total, discountTotal, message)
      == Distributed(order, tallies, total, discountTotal, message) + Emitted(LineDiscount(x, tallies[x], total, discountTotal, message))
  {
    assert forall id :: id in order ==> id in order + [x];
    assert (order + [x])[..|order|] == order;
  }

  lemma DistributedThree(x: LineId, y: LineId, z: LineId, tallies: map<LineId, Tally>, total: nat, discountTotal: nat, message: string)
    requires Tallied([x, y, z], tallies)
    ensures Distributed([x, y, z], tallies, total, discountTotal, message)
      == Emitted(LineDiscount(x, tallies[x], total, discountTotal, message))
       + Emitted(LineDiscount(y, tallies[y], total, discountTotal, message))
       + Emitted(LineDiscount(z, tallies[z], total, discountTotal, message))
  {
    assert [x, y, z] == [x, y] + [z] && [x, y] == [x] + [y];
    DistributedSnoc([x, y], z, tallies, total, discountTotal, message);
    DistributedSnoc([x], y, tallies, total, discountTotal, message);
    DistributedOne(x, tallies, total, discountTotal, message);
  }

  // ---------------------------------------------------------------------
  // One line, one bundle

  const OneLine := [CartLine("L1", 3, 1000, "V1")]
  const TwoFor15 := Config(Numeric(2), Numeric(1500))

  lemma OneLineSelection()
    ensures Eligible(OneLine, TwoFor15.variantIds) != [] && BundleCount(OneLine, TwoFor15) == 1
    ensures SelectedUnits(OneLine, TwoFor15) == [Unit("L1", 1000), Unit("L1", 1000)]
    ensures DiscountTotal(OneLine, TwoFor15) == 500
    ensures TotalSelected(OneLine, TwoFor15) == 2000
  {
    var l, u := CartLine("L1", 3, 1000, "V1"), Unit("L1", 1000);
    assert OneLine == [l];
    AllEligible([l], ["V1", "V2"]);
    ExpandOne(l);
    Copies(l);
    SortedStays([u, u, u]);
    assert [u, u, u][..2] == [u, u];
    SumTwo(u, u);
  }

  /** The allocation map over the discounted units: its key order and entries. */
  lemma OneLineAllocation()
    ensures var alloc := AllocationOf([Unit("L1", 1000), Unit("L1", 1000)]);
      && alloc.order == ["L1"]
      && alloc.tallies["L1"] == Tally(2000, 2)
  {
    var u := Unit("L1", 1000);
    assert [u, u][..1] == [u] && [u][..0] == [];
    assert FirstAppearances([u]) == ["L1"];
    assert FirstAppearances([u, u]) == ["L1"];
    assert TallyOf([u], "L1") == Tally(1000, 1);
    assert TallyOf([u, u], "L1") == Tally(2000, 2);
  }

  lemma OneLineShare()
    ensures LineDiscount("L1", Tally(2000, 2), 2000, 500, Label) == Some(Fixed("L1", 250))
  {
    assert LineShare(2000, 2000, 500) == 500;
  }

  /** The discounts shared out over that allocation. */
  lemma OneLineDistribution()
    ensures var alloc := AllocationOf([Unit("L1", 1000), Unit("L1", 1000)]);
      && Tallied(alloc.order, alloc.tallies)
      && Distributed(alloc.order, alloc.tallies, 2000, 500, Label) == [Fixed("L1", 250)]
  {
    var selected := [Unit("L1", 1000), Unit("L1", 1000)];
    OneLineAllocation();
    AllocationTallied(selected);
    DistributedOne("L1", AllocationOf(selected).tallies, 2000, 500, Label);
    OneLineShare();
  }

  /** Three units at $10.00, two for $15.00: one bundle, $5.00 off, $2.50 per
      item on the line. */
  lemma OneBundleOfThree()
    ensures Evaluate(OneLine, TwoFor15) == DiscountResult([Fixed("L1", 250)], Maximum)
  {
    OneLineSelection();
    OneLineDistribution();
    Outcome(OneLine, TwoFor15, [Unit("L1", 1000), Unit("L1", 1000)], 2000, 500,
      [Fixed("L1", 250)]);
  }

  /** Taking every unit of a sequence already in descending price order takes it as it is. */
  lemma SelectAllSorted(s: seq<Unit>)
    requires SortedDesc(s)
    ensures Select(s, |s|) == s
  {
    SortedStays(s);
    assert s[..|s|] == s;
  }

  // ---------------------------------------------------------------------
  // Two lines at different prices

  const TwoLines := [CartLine("L1", 2, 500, "V1"), CartLine("L2", 2, 1500, "V2")]
  const TwoFor18 := Config(Numeric(2), Numeric(1800))

  lemma TwoLinesUnits()
    ensures Eligible(TwoLines, TwoFor18.variantIds) == TwoLines
    ensures EligibleUnits(TwoLines, TwoFor18) == [Unit("L1", 500), Unit("L1", 500), Unit("L2", 1500), Unit("L2", 1500)]
  {
    var l1, l2 := CartLine("L1", 2, 500, "V1"), CartLine("L2", 2, 1500, "V2");
    assert TwoLines == [l1, l2];
    AllEligible([l1, l2], ["V1", "V2"]);
    ExpandTwo(l1, l2);
    Copies(l1);
    Copies(l2);
  }

  lemma TwoLinesSorted()
    ensures InsSort([Unit("L1", 500), Unit("L1", 500), Unit("L2", 1500), Unit("L2", 1500)])
      == [Unit("L2", 1500), Unit("L2", 1500), Unit("L1", 500), Unit("L1", 500)]
  {
    var a, b := Unit("L1", 500), Unit("L2", 1500);
    assert [a, a, b, b][..3] == [a, a, b] && [a, a, b][..2] == [a, a];
    SortedStays([a, a]);
    assert Insert(b, [a, a]) == [b, a, a];
    assert InsSort([a, a, b]) == [b, a, a];
    assert [b, a, a][1..] == [a, a];
    assert Insert(b, [b, a, a]) == [b, b, a, a];
  }

  lemma TwoLinesSelection()
    ensures Eligible(TwoLines, TwoFor18.variantIds) != [] && BundleCount(TwoLines, TwoFor18) == 2
    ensures SelectedUnits(TwoLines, TwoFor18) == [Unit("L2", 1500), Unit("L2", 1500), Unit("L1", 500), Unit("L1", 500)]
    ensures DiscountTotal(TwoLines, TwoFor18) == 400
    ensures TotalSelected(TwoLines, TwoFor18) == 4000
  {
    var a, b := Unit("L1", 500), Unit("L2", 1500);
    TwoLinesUnits();
    TwoLinesSorted();
    assert BundleCount(TwoLines, TwoFor18) == 2;
    assert SelectedUnits(TwoLines, TwoFor18) == [b, b, a, a];
    SumFour(b, b, a, a);
  }

  /** The allocation map over the discounted units: its key order and entries. */
  lemma TwoLinesAllocation()
    ensures var alloc := AllocationOf([Unit("L2", 1500), Unit("L2", 1500), Unit("L1", 500), Unit("L1", 500)]);
      && alloc.order == ["L2", "L1"]
      && alloc.tallies["L2"] == Tally(3000, 2)
      && alloc.tallies["L1"] == Tally(1000, 2)
  {
    var b, a := Unit("L2", 1500), Unit("L1", 500);
    assert [b, b, a, a][..3] == [b, b, a] && [b, b, a][..2] == [b, b] && [b, b][..1] == [b] && [b][..0] == [];
    assert FirstAppearances([b]) == ["L2"];
    assert FirstAppearances([b, b]) == ["L2"];
    assert FirstAppearances([b, b, a]) == ["L2", "L1"];
    assert FirstAppearances([b, b, a, a]) == ["L2", "L1"];
    assert TallyOf([b], "L2") == Tally(1500, 1);
    assert TallyOf([b, b], "L2") == Tally(3000, 2);
    assert TallyOf([b, b, a], "L2") == Tally(3000, 2);
    assert TallyOf([b, b, a, a], "L2") == Tally(3000, 2);
    assert TallyOf([b], "L1") == Tally(0, 0);
    assert TallyOf([b, b], "L1") == Tally(0, 0);
    assert TallyOf([b, b, a], "L1") == Tally(500, 1);
    assert TallyOf([b, b, a, a], "L1") == Tally(1000, 2);
  }

  lemma TwoLinesShares()
    ensures LineDiscount("L2", Tally(3000, 2), 4000, 400, Label) == Some(Fixed("L2", 150))
    ensures LineDiscount("L1", Tally(1000, 2), 4000, 400, Label) == Some(Fixed("L1", 50))
  {
    assert LineShare(3000, 4000, 400) == 300;
    assert LineShare(1000, 4000, 400) == 100;
  }

  /** A $30.00 line and a $10.00 line share $4.00 out of $40.00: $1.50 and $0.50 per item. */
  lemma TwoLinesShared(tallies: map<LineId, Tally>)
    requires "L2" in tallies && "L1" in tallies
    requires tallies["L2"] == Tally(3000, 2) && tallies["L1"] == Tally(1000, 2)
    ensures Tallied(["L2", "L1"], tallies)
    ensures Distributed(["L2", "L1"], tallies, 4000, 400, Label) == [Fixed("L2", 150), Fixed("L1", 50)]
  {
    assert ["L2", "L1"] == ["L2"] + ["L1"];
    DistributedSnoc(["L2"], "L1", tallies, 4000, 400, Label);
    DistributedOne("L2", tallies, 4000, 400, Label);
    TwoLinesShares();
  }

  /** The discounts shared out over that allocation. */
  lemma TwoLinesDistribution()
    ensures var alloc := AllocationOf([Unit("L2", 1500), Unit("L2", 1500), Unit("L1", 500), Unit("L1", 500)]);
      && Tallied(alloc.order, alloc.tallies)
      && Distributed(alloc.order, alloc.tallies, 4000, 400, Label) == [Fixed("L2", 150), Fixed("L1", 50)]
  {
    TwoLinesAllocation();
    TwoLinesShared(AllocationOf([Unit("L2", 1500), Unit("L2", 1500), Unit("L1", 500), Unit("L1", 500)]).tallies);
  }

  /** Two $5.00 units and two $15.00 units, two for $18.00: both bundles are
      complete, the dearer line comes first, and the $4.00 saving is shared
      3 : 1, $1.50 and $0.50 per item. */
  lemma TwoLinesSharedProportionally()
    ensures Evaluate(TwoLines, TwoFor18) == DiscountResult([Fixed("L2", 150), Fixed("L1", 50)], Maximum)
  {
    TwoLinesSelection();
    TwoLinesDistribution();
    Outcome(TwoLines, TwoFor18, [Unit("L2", 1500), Unit("L2", 1500), Unit("L1", 500), Unit("L1", 500)], 4000, 400,
      [Fixed("L2", 150), Fixed("L1", 50)]);
  }

  // ---------------------------------------------------------------------
  // Defaults

  const SingleUnit := [CartLine("L1", 1, 1000, "V1")]
  const Unconfigured := Config(Numeric(0), NonNumeric)

  lemma SingleUnitSelection()
    ensures Eligible(SingleUnit, Unconfigured.variantIds) != [] && BundleCount(SingleUnit, Unconfigured) == 1
    ensures SelectedUnits(SingleUnit, Unconfigured) == [Unit("L1", 1000)]
    ensures DiscountTotal(SingleUnit, Unconfigured) == 1000
    ensures TotalSelected(SingleUnit, Unconfigured) == 1000
  {
    var l, u := CartLine("L1", 1, 1000, "V1"), Unit("L1", 1000);
    assert SingleUnit == [l];
    AllEligible([l], ["V1", "V2"]);
    ExpandOne(l);
    Copies(l);
    SortedStays([u]);
    SumOne(u);
  }

  lemma SingleUnitShare()
    ensures LineDiscount("L1", Tally(1000, 1), 1000, 1000, Label) == Some(Fixed("L1", 1000))
  {
    assert LineShare(1000, 1000, 1000) == 1000;
  }

  /** The discounts shared out over that allocation. */
  lemma SingleUnitDistribution()
    ensures var alloc := AllocationOf([Unit("L1", 1000)]);
      && Tallied(alloc.order, alloc.tallies)
      && Distributed(alloc.order, alloc.tallies, 1000, 1000, Label) == [Fixed("L1", 1000)]
  {
    OneUnitAllocation(Unit("L1", 1000));
    AllocationTallied([Unit("L1", 1000)]);
    DistributedOne("L1", AllocationOf([Unit("L1", 1000)]).tallies, 1000, 1000, Label);
    SingleUnitShare();
  }

  /** A bundle quantity of zero counts as one and a missing bundle price as
      zero: each unit is a bundle of its own, given away entirely. */
  lemma DefaultsGiveUnitAway()
    ensures Evaluate(SingleUnit, Unconfigured) == DiscountResult([Fixed("L1", 1000)], Maximum)
  {
    SingleUnitSelection();
    SingleUnitDistribution();
    Outcome(SingleUnit, Unconfigured, [Unit("L1", 1000)], 1000, 1000,
      [Fixed("L1", 1000)]);
  }

  // ---------------------------------------------------------------------
  // No saving

  const TwoUnits := [CartLine("L1", 2, 1000, "V1")]
  const TwoFor20 := Config(Numeric(2), Numeric(2000))

  /** A bundle price equal to the selected units' price leaves a discount
      total of zero: nothing is granted. */
  lemma NoSavingNothingGranted()
    ensures DiscountTotal(TwoUnits, TwoFor20) == 0
    ensures Evaluate(TwoUnits, TwoFor20) == EmptyResult()
  {
    var l, u := CartLine("L1", 2, 1000, "V1"), Unit("L1", 1000);
    assert TwoUnits == [l];
    AllEligible([l], ["V1", "V2"]);
    ExpandOne(l);
    Copies(l);
    assert EligibleUnits(TwoUnits, TwoFor20) == [u, u];
    assert BundleCount(TwoUnits, TwoFor20) == 1;
    SortedStays([u, u]);
    assert SelectedUnits(TwoUnits, TwoFor20) == [u, u];
    SumTwo(u, u);
  }

  // ---------------------------------------------------------------------
  // Equal prices

  const EqualPrices := [CartLine("L1", 2, 500, "V1"), CartLine("L2", 1, 500, "V2")]
  const TwoFor8 := Config(Numeric(2), Numeric(800))

  lemma EqualPricesSelection()
    ensures Eligible(EqualPrices, TwoFor8.variantIds) != [] && BundleCount(EqualPrices, TwoFor8) == 1
    ensures SelectedUnits(EqualPrices, TwoFor8) == [Unit("L1", 500), Unit("L1", 500)]
    ensures DiscountTotal(EqualPrices, TwoFor8) == 200
    ensures TotalSelected(EqualPrices, TwoFor8) == 1000
  {
    var l1, l2 := CartLine("L1", 2, 500, "V1"), CartLine("L2", 1, 500, "V2");
    var a, b := Unit("L1", 500), Unit("L2", 500);
    assert EqualPrices == [l1, l2];
    AllEligible([l1, l2], ["V1", "V2"]);
    ExpandTwo(l1, l2);
    Copies(l1);
    Copies(l2);
    assert EligibleUnits(EqualPrices, TwoFor8) == [a, a, b];
    SortedStays([a, a, b]);
    assert [a, a, b][..2] == [a, a];
    SumTwo(a, a);
  }

  /** The allocation map over the discounted units: its key order and entries. */
  lemma EqualPricesAllocation()
    ensures var alloc := AllocationOf([Unit("L1", 500), Unit("L1", 500)]);
      && alloc.order == ["L1"]
      && alloc.tallies["L1"] == Tally(1000, 2)
  {
    var a := Unit("L1", 500);
    assert [a, a][..1] == [a] && [a][..0] == [];
    assert FirstAppearances([a]) == ["L1"];
    assert FirstAppearances([a, a]) == ["L1"];
    assert TallyOf([a], "L1") == Tally(500, 1);
    assert TallyOf([a, a], "L1") == Tally(1000, 2);
  }

  lemma EqualPricesShare()
    ensures LineDiscount("L1", Tally(1000, 2), 1000, 200, Label) == Some(Fixed("L1", 100))
  {
    assert LineShare(1000, 1000, 200) == 200;
  }

  /** The discounts shared out over that allocation. */
  lemma EqualPricesDistribution()
    ensures var alloc := AllocationOf([Unit("L1", 500), Unit("L1", 500)]);
      && Tallied(alloc.order, alloc.tallies)
      && Distributed(alloc.order, alloc.tallies, 1000, 200, Label) == [Fixed("L1", 100)]
  {
    var selected := [Unit("L1", 500), Unit("L1", 500)];
    EqualPricesAllocation();
    AllocationTallied(selected);
    DistributedOne("L1", AllocationOf(selected).tallies, 1000, 200, Label);
    EqualPricesShare();
  }

  /** Equal prices keep cart order: of three $5.00 units, the two discounted
      both come from the first line, and the second line gets nothing. */
  lemma TiesTakenInCartOrder()
    ensures Evaluate(EqualPrices, TwoFor8) == DiscountResult([Fixed("L1", 100)], Maximum)
  {
    EqualPricesSelection();
    EqualPricesDistribution();
    Outcome(EqualPrices, TwoFor8, [Unit("L1", 500), Unit("L1", 500)], 1000, 200,
      [Fixed("L1", 100)]);
  }

  // ---------------------------------------------------------------------
  // The dearest units are discounted

  const CheapAndDear := [CartLine("L1", 2, 100, "V1"), CartLine("L2", 1, 1000, "V2")]
  const TwoFor6 := Config(Numeric(2), Numeric(600))

  lemma CheapAndDearSorted()
    ensures InsSort([Unit("L1", 100), Unit("L1", 100), Unit("L2", 1000)]) == [Unit("L2", 1000), Unit("L1", 100), Unit("L1", 100)]
  {
    var a, b := Unit("L1", 100), Unit("L2", 1000);
    assert [a, a, b][..2] == [a, a];
    SortedStays([a, a]);
    assert Insert(b, [a, a]) == [b, a, a];
  }

  lemma CheapAndDearSelection()
    ensures Eligible(CheapAndDear, TwoFor6.variantIds) != [] && BundleCount(CheapAndDear, TwoFor6) == 1
    ensures SelectedUnits(CheapAndDear, TwoFor6) == [Unit("L2", 1000), Unit("L1", 100)]
    ensures DiscountTotal(CheapAndDear, TwoFor6) == 500
    ensures TotalSelected(CheapAndDear, TwoFor6) == 1100
  {
    var l1, l2 := CartLine("L1", 2, 100, "V1"), CartLine("L2", 1, 1000, "V2");
    var a, b := Unit("L1", 100), Unit("L2", 1000);
    assert CheapAndDear == [l1, l2];
    AllEligible([l1, l2], ["V1", "V2"]);
    ExpandTwo(l1, l2);
    Copies(l1);
    Copies(l2);
    assert EligibleUnits(CheapAndDear, TwoFor6) == [a, a, b];
    CheapAndDearSorted();
    assert [b, a, a][..2] == [b, a];
    SumTwo(b, a);
  }

  /** The allocation map over the discounted units: its key order and entries. */
  lemma CheapAndDearAllocation()
    ensures var alloc := AllocationOf([Unit("L2", 1000), Unit("L1", 100)]);
      && alloc.order == ["L2", "L1"]
      && alloc.tallies["L2"] == Tally(1000, 1)
      && alloc.tallies["L1"] == Tally(100, 1)
  {
    var b, a := Unit("L2", 1000), Unit("L1", 100);
    assert [b, a][..1] == [b] && [b][..0] == [];
    assert FirstAppearances([b]) == ["L2"];
    assert FirstAppearances([b, a]) == ["L2", "L1"];
    assert TallyOf([b], "L2") == Tally(1000, 1);
    assert TallyOf([b, a], "L2") == Tally(1000, 1);
    assert TallyOf([b], "L1") == Tally(0, 0);
    assert TallyOf([b, a], "L1") == Tally(100, 1);
  }

  lemma CheapAndDearShares()
    ensures LineDiscount("L2", Tally(1000, 1), 1100, 500, Label) == Some(Fixed("L2", 455))
    ensures LineDiscount("L1", Tally(100, 1), 1100, 500, Label) == Some(Fixed("L1", 45))
  {
    assert LineShare(1000, 1100, 500) == 455;
    assert LineShare(100, 1100, 500) == 45;
  }

  /** A $10.00 line and a $1.00 line share $5.00 out of $11.00: 455 and 45 cents. */
  lemma CheapAndDearShared(tallies: map<LineId, Tally>)
    requires "L2" in tallies && "L1" in tallies
    requires tallies["L2"] == Tally(1000, 1) && tallies["L1"] == Tally(100, 1)
    ensures Tallied(["L2", "L1"], tallies)
    ensures Distributed(["L2", "L1"], tallies, 1100, 500, Label) == [Fixed("L2", 455), Fixed("L1", 45)]
  {
    assert ["L2", "L1"] == ["L2"] + ["L1"];
    DistributedSnoc(["L2"], "L1", tallies, 1100, 500, Label);
    DistributedOne("L2", tallies, 1100, 500, Label);
    CheapAndDearShares();
  }

  /** The discounts shared out over that allocation. */
  lemma CheapAndDearDistribution()
    ensures var alloc := AllocationOf([Unit("L2", 1000), Unit("L1", 100)]);
      && Tallied(alloc.order, alloc.tallies)
      && Distributed(alloc.order, alloc.tallies, 1100, 500, Label) == [Fixed("L2", 455), Fixed("L1", 45)]
  {
    CheapAndDearAllocation();
    CheapAndDearShared(AllocationOf([Unit("L2", 1000), Unit("L1", 100)]).tallies);
  }

  /** The dearest units are discounted even where a cheaper bundle exists: the
      two $1.00 units together cost less than the $6.00 bundle price, yet the
      $10.00 unit and one $1.00 unit are discounted and $5.00 is granted,
      shared 455 : 45 cents. */
  lemma DearestUnitsTaken()
    ensures SumPrices([Unit("L1", 100), Unit("L1", 100)]) <= 600
    ensures Evaluate(CheapAndDear, TwoFor6) == DiscountResult([Fixed("L2", 455), Fixed("L1", 45)], Maximum)
  {
    SumTwo(Unit("L1", 100), Unit("L1", 100));
    CheapAndDearSelection();
    CheapAndDearDistribution();
    Outcome(CheapAndDear, TwoFor6, [Unit("L2", 1000), Unit("L1", 100)], 1100, 500,
      [Fixed("L2", 455), Fixed("L1", 45)]);
  }

  // ---------------------------------------------------------------------
  // A zero per-item amount

  const ThreeAtOne := [CartLine("L1", 3, 100, "V1")]
  const ThreeFor299 := Config(Numeric(3), Numeric(299))

  lemma ThreeAtOneSelection()
    ensures Eligible(ThreeAtOne, ThreeFor299.variantIds) != [] && BundleCount(ThreeAtOne, ThreeFor299) == 1
    ensures SelectedUnits(ThreeAtOne, ThreeFor299) == [Unit("L1", 100), Unit("L1", 100), Unit("L1", 100)]
    ensures DiscountTotal(ThreeAtOne, ThreeFor299) == 1
    ensures TotalSelected(ThreeAtOne, ThreeFor299) == 300
  {
    var l, u := CartLine("L1", 3, 100, "V1"), Unit("L1", 100);
    assert ThreeAtOne == [l];
    AllEligible([l], ["V1", "V2"]);
    ExpandOne(l);
    Copies(l);
    SortedStays([u, u, u]);
    assert [u, u, u][..3] == [u, u, u];
    SumThree(u, u, u);
  }

  /** The allocation map over the discounted units: its key order and entries. */
  lemma ThreeAtOneAllocation()
    ensures var alloc := AllocationOf([Unit("L1", 100), Unit("L1", 100), Unit("L1", 100)]);
      && alloc.order == ["L1"]
      && alloc.tallies["L1"] == Tally(300, 3)
  {
    var u := Unit("L1", 100);
    assert [u, u, u][..2] == [u, u] && [u, u][..1] == [u] && [u][..0] == [];
    assert FirstAppearances([u]) == ["L1"];
    assert FirstAppearances([u, u]) == ["L1"];
    assert FirstAppearances([u, u, u]) == ["L1"];
    assert TallyOf([u], "L1") == Tally(100, 1);
    assert TallyOf([u, u], "L1") == Tally(200, 2);
    assert TallyOf([u, u, u], "L1") == Tally(300, 3);
  }

  lemma ThreeAtOneShare()
    ensures LineDiscount("L1", Tally(300, 3), 300, 1, Label) == Some(Fixed("L1", 0))
  {
    assert LineShare(300, 300, 1) == 1;
  }

  /** The discounts shared out over that allocation. */
  lemma ThreeAtOneDistribution()
    ensures var alloc := AllocationOf([Unit("L1", 100), Unit("L1", 100), Unit("L1", 100)]);
      && Tallied(alloc.order, alloc.tallies)
      && Distributed(alloc.order, alloc.tallies, 300, 1, Label) == [Fixed("L1", 0)]
  {
    var selected := [Unit("L1", 100), Unit("L1", 100), Unit("L1", 100)];
    ThreeAtOneAllocation();
    AllocationTallied(selected);
    DistributedOne("L1", AllocationOf(selected).tallies, 300, 1, Label);
    ThreeAtOneShare();
  }

  /** A per-item amount of zero cents is emitted: three $1.00 units for $2.99
      leave one cent, the line's share is that cent, and a third of a cent per
      item rounds to nothing. */
  lemma ZeroPerItemAmount()
    ensures Evaluate(ThreeAtOne, ThreeFor299) == DiscountResult([Fixed("L1", 0)], Maximum)
  {
    ThreeAtOneSelection();
    ThreeAtOneDistribution();
    Outcome(ThreeAtOne, ThreeFor299, [Unit("L1", 100), Unit("L1", 100), Unit("L1", 100)], 300, 1,
      [Fixed("L1", 0)]);
  }

  // ---------------------------------------------------------------------
  // More granted than the discount total

  const ThreeLines := [CartLine("L1", 1, 100, "V1"), CartLine("L2", 1, 100, "V1"), CartLine("L3", 1, 100, "V1")]
  const ThreeFor250 := Config(Numeric(3), Numeric(250))

  lemma ThreeLinesUnits()
    ensures Eligible(ThreeLines, ThreeFor250.variantIds) == ThreeLines
    ensures EligibleUnits(ThreeLines, ThreeFor250) == [Unit("L1", 100), Unit("L2", 100), Unit("L3", 100)]
  {
    var l1, l2, l3 := CartLine("L1", 1, 100, "V1"), CartLine("L2", 1, 100, "V1"), CartLine("L3", 1, 100, "V1");
    assert ThreeLines == [l1, l2, l3];
    AllEligible([l1, l2, l3], ["V1", "V2"]);
    ExpandThree(l1, l2, l3);
    Copies(l1);
    Copies(l2);
    Copies(l3);
  }

  lemma ThreeLinesSelected()
    ensures Eligible(ThreeLines, ThreeFor250.variantIds) != [] && BundleCount(ThreeLines, ThreeFor250) == 1
    ensures SelectedUnits(ThreeLines, ThreeFor250) == [Unit("L1", 100), Unit("L2", 100), Unit("L3", 100)]
  {
    var a, b, c := Unit("L1", 100), Unit("L2", 100), Unit("L3", 100);
    ThreeLinesUnits();
    assert BundleCount(ThreeLines, ThreeFor250) == 1;
    assert SelectedCount(ThreeLines, ThreeFor250) == 3;
    SelectAllSorted([a, b, c]);
  }

  lemma ThreeLinesSelection()
    ensures Eligible(ThreeLines, ThreeFor250.variantIds) != [] && BundleCount(ThreeLines, ThreeFor250) == 1
    ensures SelectedUnits(ThreeLines, ThreeFor250) == [Unit("L1", 100), Unit("L2", 100), Unit("L3", 100)]
    ensures DiscountTotal(ThreeLines, ThreeFor250) == 50
    ensures TotalSelected(ThreeLines, ThreeFor250) == 300
  {
    ThreeLinesSelected();
    SumThree(Unit("L1", 100), Unit("L2", 100), Unit("L3", 100));
  }

  /** The allocation map over the discounted units: its key order and entries. */
  lemma ThreeLinesAllocation()
    ensures var alloc := AllocationOf([Unit("L1", 100), Unit("L2", 100), Unit("L3", 100)]);
      && alloc.order == ["L1", "L2", "L3"]
      && alloc.tallies["L1"] == Tally(100, 1)
      && alloc.tallies["L2"] == Tally(100, 1)
      && alloc.tallies["L3"] == Tally(100, 1)
  {
    var a, b, c := Unit("L1", 100), Unit("L2", 100), Unit("L3", 100);
    assert [a, b, c][..2] == [a, b] && [a, b][..1] == [a] && [a][..0] == [];
    assert FirstAppearances([a]) == ["L1"];
    assert FirstAppearances([a, b]) == ["L1", "L2"];
    assert FirstAppearances([a, b, c]) == ["L1", "L2", "L3"];
    assert TallyOf([a], "L1") == Tally(100, 1);
    assert TallyOf([a, b], "L1") == Tally(100, 1);
    assert TallyOf([a, b, c], "L1") == Tally(100, 1);
    assert TallyOf([a], "L2") == Tally(0, 0);
    assert TallyOf([a, b], "L2") == Tally(100, 1);
    assert TallyOf([a, b, c], "L2") == Tally(100, 1);
    assert TallyOf([a], "L3") == Tally(0, 0);
    assert TallyOf([a, b], "L3") == Tally(0, 0);
    assert TallyOf([a, b, c], "L3") == Tally(100, 1);
  }

  /** Each line's third of 50 cents rounds up to 17. */
  lemma ThirdOfFifty(id: LineId)
    ensures LineDiscount(id, Tally(100, 1), 300, 50, Label) == Some(Fixed(id, 17))
  {
    assert LineShare(100, 300, 50) == 17;
  }

  /** Three lines of one $1.00 unit each share 50 cents out of 300: 17 cents each. */
  lemma ThreeThirds(tallies: map<LineId, Tally>)
    requires "L1" in tallies && "L2" in tallies && "L3" in tallies
    requires tallies["L1"] == tallies["L2"] == tallies["L3"] == Tally(100, 1)
    ensures Tallied(["L1", "L2", "L3"], tallies)
    ensures Distributed(["L1", "L2", "L3"], tallies, 300, 50, Label) == [Fixed("L1", 17), Fixed("L2", 17), Fixed("L3", 17)]
  {
    DistributedThree("L1", "L2", "L3", tallies, 300, 50, Label);
    ThirdOfFifty("L1");
    ThirdOfFifty("L2");
    ThirdOfFifty("L3");
  }

  /** The discounts shared out over that allocation. */
  lemma ThreeLinesDistribution()
    ensures var alloc := AllocationOf([Unit("L1", 100), Unit("L2", 100), Unit("L3", 100)]);
      && Tallied(alloc.order, alloc.tallies)
      && Distributed(alloc.order, alloc.tallies, 300, 50, Label) == [Fixed("L1", 17), Fixed("L2", 17), Fixed("L3", 17)]
  {
    ThreeLinesAllocation();
    ThreeThirds(AllocationOf([Unit("L1", 100), Unit("L2", 100), Unit("L3", 100)]).tallies);
  }

  /** Independent rounding can grant more than the discount total: three $1.00
      lines, three for $2.50, leave 50 cents, but each line's third of it rounds
      up to 17 cents, 51 cents in all. */
  lemma SharesExceedDiscountTotal()
    ensures DiscountTotal(ThreeLines, ThreeFor250) == 50
    ensures Evaluate(ThreeLines, ThreeFor250) == DiscountResult([Fixed("L1", 17), Fixed("L2", 17), Fixed("L3", 17)], Maximum)
  {
    ThreeLinesSelection();
    ThreeLinesDistribution();
    Outcome(ThreeLines, ThreeFor250, [Unit("L1", 100), Unit("L2", 100), Unit("L3", 100)], 300, 50,
      [Fixed("L1", 17), Fixed("L2", 17), Fixed("L3", 17)]);
  }

  // ---------------------------------------------------------------------
  // A "NaN" amount

  const FreeUnit := [CartLine("L1", 1, 0, "V1")]
  const OneForMinus1 := Config(Numeric(1), Numeric(-100))

  lemma FreeUnitSelection()
    ensures Eligible(FreeUnit, OneForMinus1.variantIds) != [] && BundleCount(FreeUnit, OneForMinus1) == 1
    ensures SelectedUnits(FreeUnit, OneForMinus1) == [Unit("L1", 0)]
    ensures DiscountTotal(FreeUnit, OneForMinus1) == 100
    ensures TotalSelected(FreeUnit, OneForMinus1) == 0
  {
    var l, u := CartLine("L1", 1, 0, "V1"), Unit("L1", 0);
    assert FreeUnit == [l];
    AllEligible([l], ["V1", "V2"]);
    ExpandOne(l);
    Copies(l);
    SortedStays([u]);
    SumOne(u);
  }

  /** The discounts shared out over that allocation. */
  lemma FreeUnitDistribution()
    ensures var alloc := AllocationOf([Unit("L1", 0)]);
      && Tallied(alloc.order, alloc.tallies)
      && Distributed(alloc.order, alloc.tallies, 0, 100, Label) == [Discount(["L1"], FixedAmount(NotANumber, true), Label)]
  {
    OneUnitAllocation(Unit("L1", 0));
    AllocationTallied([Unit("L1", 0)]);
    DistributedOne("L1", AllocationOf([Unit("L1", 0)]).tallies, 0, 100, Label);
  }

  /** A negative bundle price over a free unit: the discount total is positive
      but the selected total is zero, the share is 0 / 0, and the amount
      rendered is "NaN". */
  lemma NotANumberAmount()
    ensures Evaluate(FreeUnit, OneForMinus1) == DiscountResult([Discount(["L1"], FixedAmount(NotANumber, true), Label)], Maximum)
  {
    FreeUnitSelection();
    FreeUnitDistribution();
    Outcome(FreeUnit, OneForMinus1, [Unit("L1", 0)], 0, 100, [Discount(["L1"], FixedAmount(NotANumber, true), Label)]);
  }
}
