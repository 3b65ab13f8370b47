/** Money arithmetic of store/useInvoiceStore.ts: the item subtotal, the rounding to cents and the
    aggregate totals of an invoice. Amounts are exact reals, so no floating-point artefacts arise. */
module Money {
  import opened InvoiceTypes

  /** `calculateItemSubtotal`: quantity times unit price, deliberately not rounded. */
  function ItemSubtotal(quantity: real, price: real): (r: real)
    ensures quantity >= 0.0 && price >= 0.0 ==> r >= 0.0
  {
    quantity * price
  }

  /** The amounts the store's tests check for single items. */
  lemma ItemSubtotalExamples()
    ensures ItemSubtotal(2.0, 100.0) == 200.0 && ItemSubtotal(1.0, 50.0) == 50.0
    ensures ItemSubtotal(3.0, 33.33) == 99.99 && ItemSubtotal(0.0, 100.0) == 0.0
    ensures ItemSubtotal(1.5, 100.0) == 150.0 && ItemSubtotal(2.5, 40.0) == 100.0
  {
  }

  /** A whole number of cents. */
  predicate IsWholeCents(x: real) {
    (x * 100.0).Floor as real == x * 100.0
  }

  /** `Math.round(x * 100) / 100`: `Math.round` rounds to the nearest integer, halves upwards. */
  function Round2(x: real): (r: real)
    ensures IsWholeCents(r)
    ensures x - 0.005 < r <= x + 0.005
  {
    var k := (x * 100.0 + 0.5).Floor;
    assert (k as real / 100.0) * 100.0 == k as real;
    k as real / 100.0
  }

  /** Rounding leaves an amount that is already in whole cents unchanged. */
  lemma Round2OfCents(x: real)
    requires IsWholeCents(x)
    ensures Round2(x) == x
  {
    var c := (x * 100.0).Floor;
    assert (x * 100.0 + 0.5).Floor == c;
  }

  /** Rounding never makes a non-negative amount negative. */
  lemma Round2NonNegative(x: real)
    requires x >= 0.0
    ensures Round2(x) >= 0.0
  {
  }

  /** `items.reduce((sum, item) => sum + item.subtotal, 0)`: the stored item subtotals added left to
      right; the per-item subtotal is trusted as given. */
  function SumSubtotals(items: seq<InvoiceItem>): real {
    if items == [] then 0.0 else SumSubtotals(items[..|items| - 1]) + items[|items| - 1].subtotal
  }

  lemma {:induction false} SumSubtotalsAppend(a: seq<InvoiceItem>, b: seq<InvoiceItem>)
    ensures SumSubtotals(a + b) == SumSubtotals(a) + SumSubtotals(b)
  {
    if b == [] {
      assert a + b == a;
    } else {
      assert (a + b)[..|a + b| - 1] == a + b[..|b| - 1];
      SumSubtotalsAppend(a, b[..|b| - 1]);
    }
  }

  lemma {:induction false} SumSubtotalsNonNegative(items: seq<InvoiceItem>)
    requires forall i :: 0 <= i < |items| ==> items[i].subtotal >= 0.0
    ensures SumSubtotals(items) >= 0.0
  {
    if items != [] {
      SumSubtotalsNonNegative(items[..|items| - 1]);
    }
  }

  /** The three amounts an invoice shows. */
  datatype Totals = Totals(subtotal: real, taxAmount: real, total: real)

  /** `r` is `x` rounded to cents: a whole number of cents within half a cent of `x`, halves upwards. */
  predicate RoundsTo(x: real, r: real) {
    IsWholeCents(r) && x - 0.005 < r <= x + 0.005
  }

  /** Exactly one amount is `x` rounded to cents, and `Round2` computes it. */
  lemma RoundsToUnique(x: real, r: real)
    requires RoundsTo(x, r)
    ensures r == Round2(x)
  {
    var c := (r * 100.0).Floor;
    var k := (x * 100.0 + 0.5).Floor;
    assert c as real == r * 100.0;
    assert x * 100.0 - 0.5 < c as real <= x * 100.0 + 0.5;
    assert k == c;
  }

  /** `calculateInvoiceTotals`: tax and discount are fractions of the unrounded item sum, and each
      shown amount is that exact amount rounded to cents on its own. */
  function InvoiceTotals(items: seq<InvoiceItem>, taxRate: real, discount: real): (t: Totals)
    ensures RoundsTo(SumSubtotals(items), t.subtotal)
    ensures RoundsTo(SumSubtotals(items) * taxRate, t.taxAmount)
    ensures RoundsTo(SumSubtotals(items) * (1.0 + taxRate - discount), t.total)
  {
    var subtotal := SumSubtotals(items);
    var taxAmount := subtotal * taxRate;
    var discountAmount := subtotal * discount;
    var total := subtotal + taxAmount - discountAmount;
    Totals(Round2(subtotal), Round2(taxAmount), Round2(total))
  }

  /** With non-negative line amounts, a non-negative tax rate and a discount of at most 100%, no
      shown amount is negative. */
  lemma TotalsNonNegative(items: seq<InvoiceItem>, taxRate: real, discount: real)
    requires forall i :: 0 <= i < |items| ==> items[i].subtotal >= 0.0
    requires taxRate >= 0.0 && discount <= 1.0
    ensures var t := InvoiceTotals(items, taxRate, discount);
      t.subtotal >= 0.0 && t.taxAmount >= 0.0 && t.total >= 0.0
  {
    var raw := SumSubtotals(items);
    SumSubtotalsNonNegative(items);
    assert raw * taxRate >= 0.0;
    assert raw * (1.0 + taxRate - discount) >= 0.0;
    Round2NonNegative(raw);
    Round2NonNegative(raw * taxRate);
    Round2NonNegative(raw * (1.0 + taxRate - discount));
  }

  lemma Distribute(a: real, b: real, c: real)
    ensures a * (1.0 + b - c) == a + a * b - a * c
  {
    assert a * (b - c) == a * b - a * c;
  }

  /** Because each amount is rounded separately, the shown total may differ from the shown subtotal
      plus the shown tax minus the exact discount, but by no more than a cent and a half. */
  lemma TotalsAddUpWithinRounding(items: seq<InvoiceItem>, taxRate: real, discount: real)
    ensures var t := InvoiceTotals(items, taxRate, discount);
      var d := t.total - (t.subtotal + t.taxAmount - SumSubtotals(items) * discount);
      -0.015 < d < 0.015
  {
    var raw := SumSubtotals(items);
    var t := InvoiceTotals(items, taxRate, discount);
    Distribute(raw, taxRate, discount);
    ThreeRoundings(t.subtotal, t.taxAmount, t.total, raw, raw * taxRate, raw * discount);
  }

  /** Three amounts each within half a cent of their exact values: the rounded total differs from
      the rounded parts by less than a cent and a half. */
  lemma ThreeRoundings(subtotal: real, tax: real, total: real, rawSubtotal: real, rawTax: real, rawDiscount: real)
    requires RoundsTo(rawSubtotal, subtotal) && RoundsTo(rawTax, tax)
    requires RoundsTo(rawSubtotal + rawTax - rawDiscount, total)
    ensures -0.015 < total - (subtotal + tax - rawDiscount) < 0.015
  {
  }

  /** An instance of the cent of difference: 0.125 at 20% tax shows 0.13 + 0.03 but a total of 0.15. */
  lemma TotalsOffByACent()
    ensures InvoiceTotals([InvoiceItem("1", "Item", 1.0, 0.125, 0.125)], 0.2, 0.0)
         == Totals(0.13, 0.03, 0.15)
  {
    assert SumSubtotals([InvoiceItem("1", "Item", 1.0, 0.125, 0.125)]) == 0.125;
    assert (0.125 * 100.0 + 0.5).Floor == 13;
    assert (0.125 * 0.2 * 100.0 + 0.5).Floor == 3;
    assert (0.125 * 1.2 * 100.0 + 0.5).Floor == 15;
  }

  /** The totals the store's tests check. */
  lemma InvoiceTotalsExamples()
    ensures InvoiceTotals([InvoiceItem("1", "Item 1", 1.0, 100.0, 100.0)], 0.2, 0.1)
         == Totals(100.0, 20.0, 110.0)
    ensures InvoiceTotals([InvoiceItem("1", "Item 1", 3.0, 33.33, 99.99)], 0.15, 0.0)
         == Totals(99.99, 15.0, 114.99)
    ensures InvoiceTotals([InvoiceItem("1", "Item 1", 2.0, 100.0, 200.0),
                           InvoiceItem("2", "Item 2", 1.0, 50.0, 50.0)], 0.0, 0.0)
         == Totals(250.0, 0.0, 250.0)
  {
    var one := [InvoiceItem("1", "Item 1", 1.0, 100.0, 100.0)];
    assert SumSubtotals(one) == 100.0;
    assert (100.0 * 100.0 + 0.5).Floor == 10000;
    assert (100.0 * 0.2 * 100.0 + 0.5).Floor == 2000;
    assert (100.0 * 1.1 * 100.0 + 0.5).Floor == 11000;
    var odd := [InvoiceItem("1", "Item 1", 3.0, 33.33, 99.99)];
    assert SumSubtotals(odd) == 99.99;
    assert (99.99 * 100.0 + 0.5).Floor == 9999;
    assert (99.99 * 0.15 * 100.0 + 0.5).Floor == 1500;
    assert (99.99 * 1.15 * 100.0 + 0.5).Floor == 11499;
    var two := [InvoiceItem("1", "Item 1", 2.0, 100.0, 200.0), InvoiceItem("2", "Item 2", 1.0, 50.0, 50.0)];
    assert two[..1] == [two[0]];
    assert SumSubtotals(two) == 250.0;
    assert (250.0 * 100.0 + 0.5).Floor == 25000;
    assert (250.0 * 0.0 * 100.0 + 0.5).Floor == 0;
    assert (250.0 * 1.0 * 100.0 + 0.5).Floor == 25000;
  }
}
