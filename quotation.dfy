// The estimate of src/components/project/project-quotation.tsx: each design
// is priced by its area in square feet times its rate, and the estimate
// sums areas and amounts over all designs.

module Quotation {
  import opened Types
  import opened Numeric

  /** Square millimetres in one square foot: 25.4² · 144. */
  const SquareFootMm2: real := 92903.04

  const DefaultRate: real := 360.0

  /** calculateArea: width and height in mm, result in square feet. */
  function CalculateArea(width: real, height: real): (area: real)
    ensures area * SquareFootMm2 == width * height
    ensures width >= 0.0 && height >= 0.0 ==> area >= 0.0
  {
    var widthInches := width / 25.4;
    var heightInches := height / 25.4;
    widthInches * heightInches / 144.0
  }

  /** `design.rate || 360`: an unset or zero rate falls back to the default. */
  function RateOf(d: Design): (rate: real)
    ensures rate != 0.0
    ensures d.rate.Some? && d.rate.value != 0.0 ==> rate == d.rate.value
    ensures d.rate.None? || d.rate.value == 0.0 ==> rate == DefaultRate
  {
    if d.rate.Some? && d.rate.value != 0.0 then d.rate.value else DefaultRate
  }

  function AreaOf(d: Design): real
  {
    CalculateArea(d.parameters.width as real, d.parameters.height as real)
  }

  /** A row's amount: its area times its rate. */
  function AmountOf(d: Design): (amount: real)
    ensures amount * SquareFootMm2 == (d.parameters.width * d.parameters.height) as real * RateOf(d)
  {
    AreaOf(d) * RateOf(d)
  }

  /** One row of the estimate table, with its figures rounded for display. */
  datatype QuoteRow = QuoteRow(
    serial: nat, particular: string, width: int, height: int, quantity: nat,
    area: real, rate: real, amount: real)

  function Row(index: nat, d: Design): (row: QuoteRow)
    ensures row.serial == index + 1 && row.quantity == 1
    ensures row.particular == d.name && row.width == d.parameters.width && row.height == d.parameters.height
    ensures AreaOf(d) - 0.005 < row.area <= AreaOf(d) + 0.005
    ensures RateOf(d) - 0.005 < row.rate <= RateOf(d) + 0.005
    ensures AmountOf(d) - 0.005 < row.amount <= AmountOf(d) + 0.005
    ensures IsHundredths(row.area) && IsHundredths(row.rate) && IsHundredths(row.amount)
  {
    QuoteRow(index + 1, d.name, d.parameters.width, d.parameters.height, 1,
             Fixed2(AreaOf(d)), Fixed2(RateOf(d)), Fixed2(AmountOf(d)))
  }

  /** The table body: one row per design, numbered from 1. */
  function Rows(ds: seq<Design>): (rows: seq<QuoteRow>)
    ensures |rows| == |ds|
    ensures forall i :: 0 <= i < |ds| ==> rows[i] == Row(i, ds[i])
  {
    seq(|ds|, i requires 0 <= i < |ds| => Row(i, ds[i]))
  }

  function TotalArea(ds: seq<Design>): real
  {
    if ds == [] then 0.0 else TotalArea(ds[..|ds| - 1]) + AreaOf(ds[|ds| - 1])
  }

  function TotalAmount(ds: seq<Design>): real
  {
    if ds == [] then 0.0 else TotalAmount(ds[..|ds| - 1]) + AmountOf(ds[|ds| - 1])
  }

  /** The totals of the estimate (lines 32-42): quantity, area and amount. */
  method Totals(designs: seq<Design>) returns (totalQty: nat, totalArea: real, totalAmount: real)
    ensures totalQty == |designs|
    ensures totalArea == TotalArea(designs)
    ensures totalAmount == TotalAmount(designs)
  {
    totalQty := |designs|;
    totalArea, totalAmount := 0.0, 0.0;
    var i := 0;
    while i < |designs|
      invariant 0 <= i <= |designs|
      invariant totalArea == TotalArea(designs[..i])
      invariant totalAmount == TotalAmount(designs[..i])
    {
      var design := designs[i];
      var area := CalculateArea(design.parameters.width as real, design.parameters.height as real);
      var rate := if design.rate.Some? && design.rate.value != 0.0 then design.rate.value else DefaultRate;
      var amount := area * rate;
      assert designs[..i + 1][..i] == designs[..i];
      totalArea := totalArea + area;
      totalAmount := totalAmount + amount;
      i := i + 1;
    }
    assert designs[..|designs|] == designs;
  }

  /** Totals are additive over a split of the design list. */
  lemma {:induction false} TotalsSplit(a: seq<Design>, b: seq<Design>)
    ensures TotalArea(a + b) == TotalArea(a) + TotalArea(b)
    ensures TotalAmount(a + b) == TotalAmount(a) + TotalAmount(b)
    decreases |b|
  {
    if b == [] {
      assert a + b == a;
    } else {
      var init := b[..|b| - 1];
      TotalsSplit(a, init);
      assert (a + b)[..|a + b| - 1] == a + init;
    }
  }

  /** With sides that are not negative every total is not negative. */
  lemma {:induction false} TotalAreaNonNegative(ds: seq<Design>)
    requires forall i :: 0 <= i < |ds| ==> ds[i].parameters.width >= 0 && ds[i].parameters.height >= 0
    ensures TotalArea(ds) >= 0.0
    decreases |ds|
  {
    if ds != [] {
      TotalAreaNonNegative(ds[..|ds| - 1]);
    }
  }

  /** When no design sets a rate, the total amount is the total area at the default rate. */
  lemma {:induction false} DefaultRateTotal(ds: seq<Design>)
    requires forall i :: 0 <= i < |ds| ==> ds[i].rate.None?
    ensures TotalAmount(ds) == DefaultRate * TotalArea(ds)
    decreases |ds|
  {
    if ds != [] {
      DefaultRateTotal(ds[..|ds| - 1]);
    }
  }
}
