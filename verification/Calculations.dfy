// Money and quantity arithmetic of order lines.
//
// Decimals handed in by callers are reals.  Stored amounts are integers: money
// in cents, quantities in thousandths.  Rounding is half-up in Decimal's sense:
// to the nearest integer, ties away from zero.
module Calculations {
  import opened Common

  datatype LineError = NonPositiveQuantity | NegativeAmount | DiscountAboveGross

  datatype Line = Line(
    quantity: int,
    unitPrice: int,
    gross: int,
    discount: int,
    surcharge: int,
    total: int)

  datatype Totals = Totals(subtotal: int, discountTotal: int, surchargeTotal: int, total: int)

  function HalfUp(x: real): (n: int)
    ensures -0.5 <= n as real - x <= 0.5
    ensures x == n as real + 0.5 ==> x < 0.0
    ensures x == n as real - 0.5 ==> 0.0 < x
  {
    if 0.0 <= x then (x + 0.5).Floor else -((-x + 0.5).Floor)
  }

  // The three conditions above leave exactly one integer.
  lemma HalfUpIsTheNearest(x: real, n: int)
    requires -0.5 <= n as real - x <= 0.5
    requires x == n as real + 0.5 ==> x < 0.0
    requires x == n as real - 0.5 ==> 0.0 < x
    ensures HalfUp(x) == n
  {
    assert -1.0 <= (HalfUp(x) - n) as real <= 1.0;
  }

  function Money(value: real): int {
    HalfUp(value * 100.0)
  }

  function Quantity(value: real): int {
    HalfUp(value * 1000.0)
  }

  function AsMoney(cents: int): real {
    cents as real / 100.0
  }

  function AsQuantity(thousandths: int): real {
    thousandths as real / 1000.0
  }

  // Quantizing an amount that is already stored changes nothing.
  lemma QuantizingIsIdempotent(value: real)
    ensures Money(AsMoney(Money(value))) == Money(value)
    ensures Quantity(AsQuantity(Quantity(value))) == Quantity(value)
  {
    StoredAmountsAreFixed(Money(value));
    StoredAmountsAreFixed(Quantity(value));
  }

  lemma StoredAmountsAreFixed(n: int)
    ensures Money(AsMoney(n)) == n
    ensures Quantity(AsQuantity(n)) == n
    ensures HalfUp(n as real) == n
  {
    HalfUpIsTheNearest(n as real, n);
    assert n as real / 100.0 * 100.0 == n as real;
    assert n as real / 1000.0 * 1000.0 == n as real;
  }

  function CalculateLine(quantity: real, unitPrice: real, discount: real, surcharge: real): Result<Line, LineError> {
    PriceLine(Quantity(quantity), Money(unitPrice), Money(discount), Money(surcharge))
  }

  // the part of calculate_line that follows the normalization of its arguments
  function PriceLine(q: int, p: int, d: int, s: int): Result<Line, LineError> {
    if q <= 0 then Err(NonPositiveQuantity)
    else if p < 0 || d < 0 || s < 0 then Err(NegativeAmount)
    else
      var gross := Money(AsQuantity(q) * AsMoney(p));
      if d > gross then Err(DiscountAboveGross)
      else Ok(Line(q, p, gross, d, s, Money(AsMoney(gross) - AsMoney(d) + AsMoney(s))))
  }

  // What every stored line satisfies, in integers.  The first conjunct is the
  // rounding error: gross is within half a cent of quantity times price.
  ghost predicate SoundLine(line: Line) {
    && -500 <= 1000 * line.gross - line.quantity * line.unitPrice <= 500
    && 0 < line.quantity
    && 0 <= line.unitPrice
    && 0 <= line.discount <= line.gross
    && 0 <= line.surcharge
    && line.total == line.gross - line.discount + line.surcharge
  }

  // quantity times price in cents, kept apart so that nothing else has to
  // reason about the product
  lemma GrossProduct(q: int, p: int)
    ensures AsQuantity(q) * AsMoney(p) * 100.0 == (q * p) as real / 1000.0
  {
    assert AsQuantity(q) * AsMoney(p) == (q as real * p as real) / 100000.0;
    assert q as real * p as real == (q * p) as real;
  }

  lemma CalculatedLineIsSound(quantity: real, unitPrice: real, discount: real, surcharge: real)
    requires CalculateLine(quantity, unitPrice, discount, surcharge).Ok?
    ensures SoundLine(CalculateLine(quantity, unitPrice, discount, surcharge).value)
  {
    var line := CalculateLine(quantity, unitPrice, discount, surcharge).value;
    GrossIsNearest(line.quantity, line.unitPrice);
    var net := line.gross - line.discount + line.surcharge;
    assert AsMoney(line.gross) - AsMoney(line.discount) + AsMoney(line.surcharge) == AsMoney(net);
    StoredAmountsAreFixed(net);
    GrossIsNonNegative(line.quantity, line.unitPrice, line.gross);
  }

  lemma GrossIsNearest(q: int, p: int)
    ensures -500 <= 1000 * Money(AsQuantity(q) * AsMoney(p)) - q * p <= 500
  {
    GrossProduct(q, p);
    var gross := HalfUp((q * p) as real / 1000.0);
    assert -500.0 <= 1000.0 * gross as real - (q * p) as real <= 500.0;
    assert (1000 * gross - q * p) as real == 1000.0 * gross as real - (q * p) as real;
  }

  lemma GrossIsNonNegative(q: int, p: int, gross: int)
    requires 0 < q && 0 <= p
    requires -500 <= 1000 * gross - q * p <= 500
    ensures 0 <= gross
  {
    assert 0 <= q * p;
  }

  lemma LineIsPricedExactly(q: int, p: int, d: int, s: int)
    ensures var gross := Money(AsQuantity(q) * AsMoney(p));
            var r := PriceLine(q, p, d, s);
            && (r.Ok? <==> 0 < q && 0 <= p && 0 <= d <= gross && 0 <= s)
            && (r.Ok? ==> r.value == Line(q, p, gross, d, s, gross - d + s))
  {
    var gross := Money(AsQuantity(q) * AsMoney(p));
    NetIsExact(gross, d, s);
  }

  lemma NetIsExact(gross: int, d: int, s: int)
    ensures Money(AsMoney(gross) - AsMoney(d) + AsMoney(s)) == gross - d + s
  {
    assert AsMoney(gross) - AsMoney(d) + AsMoney(s) == AsMoney(gross - d + s);
    StoredAmountsAreFixed(gross - d + s);
  }

  // Feeding a stored line's own amounts back in returns the same line, which
  // is what lets an update change one field and keep the rest.
  lemma RecalculatingAStoredLine(quantity: real, unitPrice: real, discount: real, surcharge: real)
    requires CalculateLine(quantity, unitPrice, discount, surcharge).Ok?
    ensures var line := CalculateLine(quantity, unitPrice, discount, surcharge).value;
            CalculateLine(AsQuantity(line.quantity), AsMoney(line.unitPrice), AsMoney(line.discount),
                          AsMoney(line.surcharge))
            == Ok(line)
  {
    var line := CalculateLine(quantity, unitPrice, discount, surcharge).value;
    StoredAmountsAreFixed(line.quantity);
    StoredAmountsAreFixed(line.unitPrice);
    StoredAmountsAreFixed(line.discount);
    StoredAmountsAreFixed(line.surcharge);
  }

  lemma UnitPrice()
    ensures PriceLine(1000, 100, 0, 0) == Ok(Line(1000, 100, 100, 0, 0, 100))
  {
    assert AsQuantity(1000) == 1.0 && AsMoney(100) == 1.0 && AsMoney(0) == 0.0;
    HalfUpIsTheNearest(1.0 * 1.0 * 100.0, 100);
    HalfUpIsTheNearest((1.0 - 0.0 + 0.0) * 100.0, 100);
  }

  // One unit at a price of 1.00, without adjustments.
  lemma UnitLine()
    ensures CalculateLine(1.0, 1.0, 0.0, 0.0) == Ok(Line(1000, 100, 100, 0, 0, 100))
  {
    HalfUpIsTheNearest(1.0 * 1000.0, 1000);
    HalfUpIsTheNearest(1.0 * 100.0, 100);
    HalfUpIsTheNearest(0.0 * 100.0, 0);
    UnitPrice();
  }

  // --- order totals: the generator sums of calculate_order ---

  function SumGross(lines: seq<Line>): int {
    if lines == [] then 0 else SumGross(lines[..|lines| - 1]) + lines[|lines| - 1].gross
  }

  function SumDiscount(lines: seq<Line>): int {
    if lines == [] then 0 else SumDiscount(lines[..|lines| - 1]) + lines[|lines| - 1].discount
  }

  function SumSurcharge(lines: seq<Line>): int {
    if lines == [] then 0 else SumSurcharge(lines[..|lines| - 1]) + lines[|lines| - 1].surcharge
  }

  function SumTotal(lines: seq<Line>): int {
    if lines == [] then 0 else SumTotal(lines[..|lines| - 1]) + lines[|lines| - 1].total
  }

  // quantity times unit price, summed without any rounding, in thousandths of a cent
  function SumExact(lines: seq<Line>): int {
    if lines == [] then 0
    else SumExact(lines[..|lines| - 1]) + lines[|lines| - 1].quantity * lines[|lines| - 1].unitPrice
  }

  function CalculateOrder(lines: seq<Line>): Totals {
    var subtotal := Money(AsMoney(SumGross(lines)));
    var discountTotal := Money(AsMoney(SumDiscount(lines)));
    var surchargeTotal := Money(AsMoney(SumSurcharge(lines)));
    Totals(subtotal, discountTotal, surchargeTotal,
           Money(AsMoney(subtotal) - AsMoney(discountTotal) + AsMoney(surchargeTotal)))
  }

  // Rounding the sums of stored lines is exact; the order total is the sum of
  // the line totals and is never negative; and rounding each line first costs
  // at most half a cent per line against the unrounded subtotal.
  lemma {:induction false} OrderTotalsAreExact(lines: seq<Line>)
    requires forall line :: line in lines ==> SoundLine(line)
    ensures var t := CalculateOrder(lines);
            && t.subtotal == SumGross(lines)
            && t.discountTotal == SumDiscount(lines)
            && t.surchargeTotal == SumSurcharge(lines)
            && t.total == SumTotal(lines) == t.subtotal - t.discountTotal + t.surchargeTotal
            && 0 <= t.discountTotal <= t.subtotal
            && 0 <= t.surchargeTotal
            && 0 <= t.total
            && -500 * |lines| <= 1000 * t.subtotal - SumExact(lines) <= 500 * |lines|
  {
    var subtotal, discountTotal, surchargeTotal := SumGross(lines), SumDiscount(lines), SumSurcharge(lines);
    StoredAmountsAreFixed(subtotal);
    StoredAmountsAreFixed(discountTotal);
    StoredAmountsAreFixed(surchargeTotal);
    var net := subtotal - discountTotal + surchargeTotal;
    StoredAmountsAreFixed(net);
    assert AsMoney(subtotal) - AsMoney(discountTotal) + AsMoney(surchargeTotal) == AsMoney(net);
    if lines != [] {
      var front, last := lines[..|lines| - 1], lines[|lines| - 1];
      OrderTotalsAreExact(front);
      assert SoundLine(last);
    }
  }
}
