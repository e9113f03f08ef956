/** The invoice arithmetic of `currencyUtils` and the cleaning step of `parseCurrency`. */
module Currency {
  import opened Types
  import opened Lists
  import opened Text

  /** `calculateTax(amount, taxRate)`, the rate being a fraction (0.1 for 10%). */
  function Tax(amount: real, taxRate: real): (r: real)
    ensures r == 0.0 <==> amount == 0.0 || taxRate == 0.0
    ensures amount >= 0.0 && taxRate >= 0.0 ==> r >= 0.0
  {
    amount * taxRate
  }

  /** No tax at a zero rate, and tax is linear in the amount. */
  lemma TaxLinear(a: real, b: real, k: real, taxRate: real)
    ensures Tax(a, 0.0) == 0.0
    ensures Tax(a + b, taxRate) == Tax(a, taxRate) + Tax(b, taxRate)
    ensures Tax(k * a, taxRate) == k * Tax(a, taxRate)
  {
  }

  function ItemAmount(item: InvoiceItem): real { item.amount }

  /** `calculateSubtotal(items)`: the sum of the line amounts. */
  function Subtotal(items: seq<InvoiceItem>): (r: real)
    ensures |items| == 1 ==> r == items[0].amount
    ensures (forall i :: 0 <= i < |items| ==> items[i].amount >= 0.0) ==> r >= 0.0
  {
    SumNonNegative(items, ItemAmount);
    assert |items| == 1 ==> Sum(items, ItemAmount) == items[0].amount by {
      if |items| == 1 { assert items[1..] == []; }
    }
    Sum(items, ItemAmount)
  }

  /** An invoice with no lines has subtotal zero; the subtotal of joined lines is the sum of the subtotals. */
  lemma SubtotalAdditive(a: seq<InvoiceItem>, b: seq<InvoiceItem>)
    ensures Subtotal([]) == 0.0
    ensures Subtotal(a + b) == Subtotal(a) + Subtotal(b)
  {
    SumConcat(a, b, ItemAmount);
  }

  /** Reordering the lines does not change the subtotal. */
  lemma SubtotalIgnoresOrder(a: seq<InvoiceItem>, b: seq<InvoiceItem>)
    requires multiset(a) == multiset(b)
    ensures Subtotal(a) == Subtotal(b)
  {
    SumPermutation(a, b, ItemAmount);
  }

  /** `calculateTotal(subtotal, taxRate)`: the subtotal plus the tax on all of it. */
  function Total(subtotal: real, taxRate: real): (r: real)
    ensures r - subtotal == Tax(subtotal, taxRate)
    ensures r == subtotal * (1.0 + taxRate)
  {
    var taxAmount := Tax(subtotal, taxRate);
    subtotal + taxAmount
  }

  /** With a non-negative subtotal and rate the total is at least the subtotal. */
  lemma TotalAtLeastSubtotal(subtotal: real, taxRate: real)
    requires subtotal >= 0.0 && taxRate >= 0.0
    ensures Total(subtotal, taxRate) >= subtotal
    ensures taxRate == 0.0 ==> Total(subtotal, taxRate) == subtotal
  {
    assert subtotal * taxRate >= 0.0 * taxRate;
  }

  /** `[\d.-]`: the characters `parseCurrency` keeps. */
  predicate CurrencyChar(c: char) { IsDigit(c) || c == '.' || c == '-' }

  /**
   * `s.replace(/[^\d.-]/g, "")`: drops currency symbols, spaces and
   * separators, keeping the digits, dots and minus signs in order.
   */
  function CleanCurrencyText(s: string): (r: string)
    ensures forall i :: 0 <= i < |r| ==> CurrencyChar(r[i])
    ensures forall c | c in s && CurrencyChar(c) :: multiset(r)[c] == multiset(s)[c]
    ensures IsSubsequence(r, s)
  {
    FilterIsSubsequence(s, CurrencyChar);
    forall c | c in s && CurrencyChar(c) ensures multiset(Filter(s, CurrencyChar))[c] == multiset(s)[c] {
      FilterCount(s, CurrencyChar, c);
    }
    Filter(s, CurrencyChar)
  }

  /** Cleaning is idempotent. */
  lemma CleanIdempotent(s: string)
    ensures CleanCurrencyText(CleanCurrencyText(s)) == CleanCurrencyText(s)
  {
    FilterIdempotent(s, CurrencyChar);
  }

  // ---- the first sample invoice of the invoice list screen

  const SampleItems: seq<InvoiceItem> := [
    InvoiceItem("item1", "inv1", "Web Development Services", 40.0, 100.0, 4000.0, true),
    InvoiceItem("item2", "inv1", "Domain Registration", 1.0, 15.0, 15.0, false)]

  const SampleTaxRate: real := 0.07
  const SampleTaxAmount: real := 280.0
  const SampleSubtotal: real := 4015.0
  const SampleTotal: real := 4295.0

  /** The subtotal of the lines marked taxable: how the sample figures were worked out. */
  function TaxableSubtotal(items: seq<InvoiceItem>): (r: real)
    ensures (forall i :: 0 <= i < |items| ==> items[i].taxable) ==> r == Subtotal(items)
  {
    if items == [] then 0.0
    else (if items[0].taxable then items[0].amount else 0.0) + TaxableSubtotal(items[1..])
  }

  /**
   * `calculateTotal` taxes the whole subtotal, the non-taxable line
   * included, so it does not reproduce the sample invoice: the sample's tax
   * of 280 and total of 4295 tax only the taxable line.
   */
  lemma SampleInvoiceTotals()
    ensures Subtotal(SampleItems) == SampleSubtotal
    ensures Total(SampleSubtotal, SampleTaxRate) == 4296.05 != SampleTotal
    ensures Tax(TaxableSubtotal(SampleItems), SampleTaxRate) == SampleTaxAmount
    ensures SampleSubtotal + SampleTaxAmount == SampleTotal
  {
  }
}
