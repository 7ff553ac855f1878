/** Money arithmetic (lib/utils/calculations.ts), on exact reals. */
module Calculations {
  import opened Types
  import opened Seqs

  /** The extended price of one line: quantity times unit price. */
  function LineAmount(item: LineItem): real {
    item.quantity as real * item.unitPrice
  }

  /** `calculateSubtotal`: the fold of the line amounts, starting at 0. */
  function Subtotal(items: seq<LineItem>): (r: real)
    ensures items == [] ==> r == 0.0
    ensures (forall k :: 0 <= k < |items| ==> items[k].quantity >= 0 && items[k].unitPrice >= 0.0) ==> r >= 0.0
  {
    LineAmountsNonNegative(items);
    Sum(items, LineAmount)
  }

  /** Items with non-negative quantities and prices have non-negative line amounts, and so a non-negative sum. */
  lemma LineAmountsNonNegative(items: seq<LineItem>)
    ensures (forall k :: 0 <= k < |items| ==> items[k].quantity >= 0 && items[k].unitPrice >= 0.0) ==>
      Sum(items, LineAmount) >= 0.0
  {
    if forall k :: 0 <= k < |items| ==> items[k].quantity >= 0 && items[k].unitPrice >= 0.0 {
      forall k | 0 <= k < |items|
        ensures LineAmount(items[k]) >= 0.0
      {
        assert items[k].quantity as real >= 0.0;
      }
      SumNonNegative(items, LineAmount);
    }
  }

  /** `calculateTax`: `taxRate` percent of the subtotal. */
  function Tax(subtotal: real, taxRate: real): (r: real)
    ensures r * 100.0 == subtotal * taxRate
    ensures taxRate == 0.0 ==> r == 0.0
    ensures subtotal >= 0.0 && taxRate >= 0.0 ==> r >= 0.0
  {
    subtotal * (taxRate / 100.0)
  }

  /** `calculateDiscount`: `discountRate` percent of the subtotal. */
  function Discount(subtotal: real, discountRate: real): (r: real)
    ensures r * 100.0 == subtotal * discountRate
    ensures subtotal >= 0.0 && 0.0 <= discountRate <= 100.0 ==> 0.0 <= r <= subtotal
  {
    subtotal * (discountRate / 100.0)
  }

  /** `calculateTotal`: no clamping, so it may be negative. */
  function Total(subtotal: real, taxAmount: real, discountAmount: real): (r: real)
    ensures r + discountAmount == subtotal + taxAmount
    ensures r < 0.0 <==> discountAmount > subtotal + taxAmount
  {
    subtotal + taxAmount - discountAmount
  }

  /** The total computed from a subtotal and the two rates, as one expression. */
  function TotalFor(subtotal: real, taxRate: real, discountRate: real): real {
    Total(subtotal, Tax(subtotal, taxRate), Discount(subtotal, discountRate))
  }

  lemma SubtotalEmpty()
    ensures Subtotal([]) == 0.0
  {
  }

  /** Appending an item adds exactly its line amount. */
  lemma SubtotalAppend(items: seq<LineItem>, item: LineItem)
    ensures Subtotal(items + [item]) == Subtotal(items) + item.quantity as real * item.unitPrice
  {
    assert (items + [item])[..|items|] == items;
  }

  /** The subtotal is additive over concatenation. */
  lemma SubtotalConcat(a: seq<LineItem>, b: seq<LineItem>)
    ensures Subtotal(a + b) == Subtotal(a) + Subtotal(b)
  {
    SumConcat(a, b, LineAmount);
  }

  /** Reordering the items does not change the subtotal. */
  lemma SubtotalOrderIndependent(a: seq<LineItem>, b: seq<LineItem>)
    requires multiset(a) == multiset(b)
    ensures Subtotal(a) == Subtotal(b)
  {
    SumPermutation(a, b, LineAmount);
  }

  /** Total = subtotal x (100 + taxRate - discountRate) / 100. */
  lemma TotalFactored(subtotal: real, taxRate: real, discountRate: real)
    ensures TotalFor(subtotal, taxRate, discountRate) * 100.0
         == subtotal * (100.0 + taxRate - discountRate)
  {
  }

  /** A non-negative subtotal with a non-negative tax rate and a discount of at most 100% gives a non-negative total. */
  lemma TotalNonNegative(subtotal: real, taxRate: real, discountRate: real)
    requires subtotal >= 0.0 && taxRate >= 0.0 && 0.0 <= discountRate <= 100.0
    ensures TotalFor(subtotal, taxRate, discountRate) >= 0.0
  {
    TotalFactored(subtotal, taxRate, discountRate);
    assert subtotal * (100.0 + taxRate - discountRate) >= 0.0;
  }

  /** Nothing clamps the total: a discount above 100% plus the tax rate drives it below zero. */
  lemma TotalNegativeWhenDiscountExceeds(subtotal: real, taxRate: real, discountRate: real)
    requires subtotal > 0.0 && discountRate > 100.0 + taxRate
    ensures TotalFor(subtotal, taxRate, discountRate) < 0.0
  {
    TotalFactored(subtotal, taxRate, discountRate);
    var t := TotalFor(subtotal, taxRate, discountRate);
    var k := 100.0 + taxRate - discountRate;
    assert t * 100.0 == subtotal * k;
    assert subtotal * k < 0.0;
  }

  /** Subtotal 200 at 8.5% tax and 10% discount: tax 17, discount 20, total 197. */
  lemma WorkedExample()
    ensures Tax(200.0, 8.5) == 17.0
    ensures Discount(200.0, 10.0) == 20.0
    ensures TotalFor(200.0, 8.5, 10.0) == 197.0
  {
  }
}
