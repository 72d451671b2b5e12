/// The values the discount function reads and writes, and the pure first
/// steps of its pipeline: the eligibility filter, the normalisation of the
/// configured numbers, and the expansion of cart lines into single units.

module Cart {

  type LineId = string
  type VariantId = string

  /** A configured number as the function receives it: a number, or something
      `Number(...)` turns into NaN (a missing value or non-numeric text). */
  datatype ConfigValue = Numeric(value: int) | NonNumeric

  /** The merchant's bundle rule. `bundlePrice` is counted in cents. */
  datatype Configuration = Configuration(
    bundleQuantity: ConfigValue,
    bundlePrice: ConfigValue,
    labelText: string,  // `label` in the source; `label` is a Dafny keyword
    variantIds: seq<VariantId>)

  /** One cart line; `unitPrice` is the line's cost per item, in cents. */
  datatype CartLine = CartLine(id: LineId, quantity: nat, unitPrice: nat, merchandiseId: VariantId)

  /** One physical item of an eligible line. */
  datatype Unit = Unit(lineId: LineId, price: nat)

  /** The rendered per-item amount: whole cents, or the text "NaN". */
  datatype Amount = Cents(cents: int) | NotANumber

  datatype FixedAmount = FixedAmount(amount: Amount, appliesToEachItem: bool)

  datatype Discount = Discount(targets: seq<LineId>, value: FixedAmount, message: string)

  datatype Strategy = Maximum

  datatype DiscountResult = DiscountResult(discounts: seq<Discount>, strategy: Strategy)

  /** The result returned on every path that grants nothing. */
  function EmptyResult(): (r: DiscountResult)
    ensures r.discounts == [] && r.strategy == Maximum
  {
    DiscountResult([], Maximum)
  }

  // ---------------------------------------------------------------------
  // Eligibility

  /** The cart lines whose merchandise is one of the configured variants, in cart order. */
  function Eligible(lines: seq<CartLine>, variantIds: seq<VariantId>): (r: seq<CartLine>)
    ensures |r| <= |lines|
    ensures forall l :: l in r <==> l in lines && l.merchandiseId in variantIds
  {
    if lines == [] then []
    else
      (if lines[0].merchandiseId in variantIds then [lines[0]] else [])
      + Eligible(lines[1..], variantIds)
  }

  /** Filtering a concatenation filters each part and keeps their order. */
  lemma {:induction false} EligibleAppend(a: seq<CartLine>, b: seq<CartLine>, variantIds: seq<VariantId>)
    ensures Eligible(a + b, variantIds) == Eligible(a, variantIds) + Eligible(b, variantIds)
  {
    if a == [] {
      assert a + b == b;
    } else {
      assert (a + b)[1..] == a[1..] + b;
      EligibleAppend(a[1..], b, variantIds);
    }
  }

  // ---------------------------------------------------------------------
  // Normalisation of the configured numbers

  /** `Math.max(Number(q) || 1, 1)`: NaN and 0 become 1, anything below 1 is raised to 1. */
  function NormalisedQuantity(q: ConfigValue): (r: int)
    ensures r >= 1
    ensures q.Numeric? && q.value >= 1 ==> r == q.value
    ensures !(q.Numeric? && q.value >= 1) ==> r == 1
  {
    var n := if q.NonNumeric? || q.value == 0 then 1 else q.value;
    if n < 1 then 1 else n
  }

  /** `Number(p) || 0`: NaN becomes 0; any number, negative ones included, is kept. */
  function NormalisedPrice(p: ConfigValue): (r: int)
    ensures p.NonNumeric? ==> r == 0
    ensures p.Numeric? ==> r == p.value
  {
    if p.NonNumeric? || p.value == 0 then 0 else p.value
  }

  // ---------------------------------------------------------------------
  // Expansion into units

  /** The units of one line: `quantity` copies of (line id, unit price). */
  function LineUnits(line: CartLine): (r: seq<Unit>)
    ensures |r| == line.quantity
    ensures forall u :: u in r ==> u == Unit(line.id, line.unitPrice)
  {
    seq(line.quantity, _ => Unit(line.id, line.unitPrice))
  }

  /** The sum of the lines' quantities. */
  function TotalQuantity(lines: seq<CartLine>): nat
  {
    if lines == [] then 0 else lines[0].quantity + TotalQuantity(lines[1..])
  }

  /** `flatMap` of the lines into units: line order first, then replication order. */
  function Expand(lines: seq<CartLine>): (r: seq<Unit>)
    ensures |r| == TotalQuantity(lines)
  {
    if lines == [] then [] else LineUnits(lines[0]) + Expand(lines[1..])
  }

  /** Every unit is a unit of one of the lines: that line's id and unit price. */
  lemma {:induction false} ExpandFromLines(lines: seq<CartLine>, u: Unit)
    requires u in Expand(lines)
    ensures exists l :: l in lines && u == Unit(l.id, l.unitPrice)
  {
    if u !in LineUnits(lines[0]) {
      ExpandFromLines(lines[1..], u);
      var l :| l in lines[1..] && u == Unit(l.id, l.unitPrice);
      assert l in lines;
    }
  }

  /** Expanding a concatenation expands each part and keeps their order. */
  lemma {:induction false} ExpandAppend(a: seq<CartLine>, b: seq<CartLine>)
    ensures Expand(a + b) == Expand(a) + Expand(b)
  {
    if a == [] {
      assert a + b == b;
    } else {
      assert (a + b)[1..] == a[1..] + b;
      ExpandAppend(a[1..], b);
    }
  }

  /** The sum of the unit prices (`reduce` over the selected units). */
  function SumPrices(units: seq<Unit>): nat
  {
    if units == [] then 0 else SumPrices(units[..|units| - 1]) + units[|units| - 1].price
  }

  lemma {:induction false} SumPricesAppend(a: seq<Unit>, b: seq<Unit>)
    ensures SumPrices(a + b) == SumPrices(a) + SumPrices(b)
  {
    if b == [] {
      assert a + b == a;
    } else {
      assert (a + b)[..|a + b| - 1] == a + b[..|b| - 1];
      SumPricesAppend(a, b[..|b| - 1]);
    }
  }
}
