/**
 * The figures of the invoice that `generateEnhancedInvoice` (client/src/lib/enhanced-invoice.ts)
 * prints: the subtotal and item count of the order, the IGST/CGST/SGST of each line at the rates
 * stored with its product, the fixed charges and discounts, the grand total and its amount in words.
 *
 * Item prices are integers in paisa, as the order stores them; every rupee amount is an exact
 * `real`, where the source computes in floating point.
 */
module InvoiceTotals {
  import opened Wrappers
  import opened JsBuiltins
  import InvoiceWords

  /** An order line: the product, its unit price in paisa and the quantity ordered. */
  datatype LineItem = LineItem(productId: int, price: int, quantity: int)

  /** The GST fields of a product record, each of which may be missing. */
  datatype ProductGst = ProductGst(igst: Option<real>, cgst: Option<real>, sgst: Option<real>)

  /** The GST rates, in percent, the invoice applies to a line. */
  datatype Rates = Rates(igst: real, cgst: real, sgst: real)

  /** A line of `itemsWithGst`: the order line with the rates of its product attached. */
  datatype RatedItem = RatedItem(item: LineItem, rates: Rates)

  /** The fields of the order the invoice reads; `totalAmount` is in paisa. */
  datatype Order = Order(items: seq<LineItem>, paymentMethod: string, totalAmount: int)

  datatype TaxKind = Igst | Cgst | Sgst

  /** One row of the item table (lines 294-301, printed at 316-322). */
  datatype InvoiceRow = InvoiceRow(unitPrice: real, discount: real, quantity: int, taxable: real,
                                   igst: real, cgst: real, sgst: real, total: real)

  /** Every figure `generateEnhancedInvoice` computes before it renders the page. */
  datatype InvoiceFigures = InvoiceFigures(
    subtotal: real, totalQuantity: int, itemsWithGst: seq<RatedItem>,
    totalIgst: real, totalCgst: real, totalSgst: real, totalItemDiscount: real,
    gstAmount: real, cgstAmount: real, sgstAmount: real,
    deliveryCharge: real, universalDiscount: real, codCharge: real, onlinePaymentDiscount: real,
    totalBeforeDiscount: real, grandTotal: real)

  const DeliveryCharge: real := 40.0
  const UniversalDiscount: real := 40.0
  const CodCharge: real := 10.0

  // ---------------------------------------------------------------------------------------------
  // Rates

  /** `product.igst || 0`: a missing rate counts as zero. */
  function RateOrZero(rate: Option<real>): real {
    rate.GetOr(0.0)
  }

  /**
   * The rates attached to a line: those of the product record when the lookup succeeds, all zero
   * when the request or its JSON decoding fails.
   */
  function ResolveRates(fetched: Option<ProductGst>): (r: Rates)
    ensures fetched.None? ==> r == Rates(0.0, 0.0, 0.0)
    ensures fetched.Some? ==>
      r.igst == RateOrZero(fetched.value.igst) && r.cgst == RateOrZero(fetched.value.cgst)
      && r.sgst == RateOrZero(fetched.value.sgst)
  {
    match fetched
    case None => Rates(0.0, 0.0, 0.0)
    case Some(p) => Rates(RateOrZero(p.igst), RateOrZero(p.cgst), RateOrZero(p.sgst))
  }

  /** `itemsWithGst`: every line of the order, in order, with the rates its own request gave. */
  function AttachRates(items: seq<LineItem>, lookup: (nat, int) -> Option<ProductGst>): (rated: seq<RatedItem>)
    ensures |rated| == |items|
    ensures forall i :: 0 <= i < |items| ==>
      rated[i] == RatedItem(items[i], ResolveRates(lookup(i, items[i].productId)))
  {
    if items == [] then []
    else AttachRates(items[..|items| - 1], lookup)
         + [RatedItem(items[|items| - 1], ResolveRates(lookup(|items| - 1, items[|items| - 1].productId)))]
  }

  // ---------------------------------------------------------------------------------------------
  // One line

  /** `(item.price * item.quantity) / 100`: the line's value in rupees. */
  function LineSubtotal(it: LineItem): real {
    (it.price * it.quantity) as real / 100.0
  }

  /** The tax on a taxable value at a rate given in percent. */
  function Tax(taxable: real, ratePercent: real): real {
    taxable * (ratePercent / 100.0)
  }

  function RateOf(r: Rates, kind: TaxKind): real {
    match kind
    case Igst => r.igst
    case Cgst => r.cgst
    case Sgst => r.sgst
  }

  /** One component of the tax on a line, as the accumulation loop adds it (lines 135-146). */
  function LineTax(ri: RatedItem, kind: TaxKind): real {
    Tax(LineSubtotal(ri.item), RateOf(ri.rates, kind))
  }

  /** The table row of a line, computed as the template computes it (lines 294-301). */
  function Row(ri: RatedItem): (row: InvoiceRow)
    ensures row.unitPrice * 100.0 == ri.item.price as real && row.quantity == ri.item.quantity
    ensures row.discount == 0.0 && row.taxable == LineSubtotal(ri.item)
    ensures row.igst == LineTax(ri, Igst) && row.cgst == LineTax(ri, Cgst) && row.sgst == LineTax(ri, Sgst)
    ensures row.total == row.taxable * (1.0 + (ri.rates.igst + ri.rates.cgst + ri.rates.sgst) / 100.0)
  {
    var itemPrice := ri.item.price as real / 100.0;
    var itemSubtotal := itemPrice * ri.item.quantity as real;
    var itemDiscount := 0.0;
    var itemTaxableValue := itemSubtotal - itemDiscount;
    var itemIgst := itemTaxableValue * (ri.rates.igst / 100.0);
    var itemCgst := itemTaxableValue * (ri.rates.cgst / 100.0);
    var itemSgst := itemTaxableValue * (ri.rates.sgst / 100.0);
    RowTaxable(ri.item);
    InvoiceRow(itemPrice, itemDiscount, ri.item.quantity, itemTaxableValue, itemIgst, itemCgst, itemSgst,
               itemTaxableValue + itemIgst + itemCgst + itemSgst)
  }

  /** The template's unit price times quantity is the loop's price times quantity over 100. */
  lemma RowTaxable(it: LineItem)
    ensures (it.price as real / 100.0) * it.quantity as real == LineSubtotal(it)
  {
    var p, q := it.price as real, it.quantity as real;
    assert (p / 100.0) * q == (p * q) / 100.0;
  }

  function Rows(rated: seq<RatedItem>): (rows: seq<InvoiceRow>)
    ensures |rows| == |rated|
    ensures forall i :: 0 <= i < |rated| ==> rows[i] == Row(rated[i])
  {
    if rated == [] then [] else Rows(rated[..|rated| - 1]) + [Row(rated[|rated| - 1])]
  }

  /**
   * A line whose product lookup failed is taxed at zero: its three taxes are zero and its row
   * total is its taxable value.
   */
  lemma FailedLookupIsUntaxed(line: nat, it: LineItem, lookup: (nat, int) -> Option<ProductGst>)
    requires lookup(line, it.productId).None?
    ensures var row := Row(RatedItem(it, ResolveRates(lookup(line, it.productId))));
      row.igst == 0.0 && row.cgst == 0.0 && row.sgst == 0.0 && row.total == row.taxable
  {
  }

  // ---------------------------------------------------------------------------------------------
  // Sums over the order

  /** The subtotal accumulated over the first lines of the order (line 98). */
  function SubtotalOf(items: seq<LineItem>): real {
    if items == [] then 0.0 else SubtotalOf(items[..|items| - 1]) + LineSubtotal(items[|items| - 1])
  }

  /** The item count accumulated over the first lines of the order (line 99). */
  function QuantityOf(items: seq<LineItem>): int {
    if items == [] then 0 else QuantityOf(items[..|items| - 1]) + items[|items| - 1].quantity
  }

  /** One tax accumulated over the first rated lines (lines 144-146). */
  function TaxOf(rated: seq<RatedItem>, kind: TaxKind): real {
    if rated == [] then 0.0 else TaxOf(rated[..|rated| - 1], kind) + LineTax(rated[|rated| - 1], kind)
  }

  /** The taxable values of the rated lines added up. */
  function TaxableOf(rated: seq<RatedItem>): real {
    if rated == [] then 0.0 else TaxableOf(rated[..|rated| - 1]) + LineSubtotal(rated[|rated| - 1].item)
  }

  /** The GST of the rated lines: IGST, CGST and SGST together (line 150). */
  function GstOf(rated: seq<RatedItem>): real {
    TaxOf(rated, Igst) + TaxOf(rated, Cgst) + TaxOf(rated, Sgst)
  }

  /** The row totals of the item table added up. */
  function RowTotalOf(rows: seq<InvoiceRow>): real {
    if rows == [] then 0.0 else RowTotalOf(rows[..|rows| - 1]) + rows[|rows| - 1].total
  }

  /** The quantities of the item table added up. */
  function RowQuantityOf(rows: seq<InvoiceRow>): int {
    if rows == [] then 0 else RowQuantityOf(rows[..|rows| - 1]) + rows[|rows| - 1].quantity
  }

  /** The quantity column of the item table adds up to the totals row's item count (line 335). */
  lemma {:induction false} RowQuantitiesAddUp(items: seq<LineItem>, lookup: (nat, int) -> Option<ProductGst>)
    ensures RowQuantityOf(Rows(AttachRates(items, lookup))) == QuantityOf(items)
  {
    if items != [] {
      var rated := AttachRates(items, lookup);
      var n := |items| - 1;
      assert rated[..n] == AttachRates(items[..n], lookup);
      assert Rows(rated)[..n] == Rows(rated[..n]);
      RowQuantitiesAddUp(items[..n], lookup);
    }
  }

  /** The rates travel with their lines, so the taxable values of `itemsWithGst` add up to the subtotal. */
  lemma {:induction false} TaxableIsSubtotal(items: seq<LineItem>, lookup: (nat, int) -> Option<ProductGst>)
    ensures TaxableOf(AttachRates(items, lookup)) == SubtotalOf(items)
  {
    if items != [] {
      var rated := AttachRates(items, lookup);
      var n := |items| - 1;
      assert rated[..n] == AttachRates(items[..n], lookup);
      TaxableIsSubtotal(items[..n], lookup);
    }
  }

  /**
   * The rows of the item table add up to the totals row: subtotal minus item discounts plus GST
   * (lines 301 and 338). The item discounts are all zero.
   */
  lemma {:induction false} RowsAddUpToTotalsRow(rated: seq<RatedItem>)
    ensures RowTotalOf(Rows(rated)) == TaxableOf(rated) - 0.0 + GstOf(rated)
  {
    if rated != [] {
      var n := |rated| - 1;
      assert Rows(rated)[..n] == Rows(rated[..n]);
      RowsAddUpToTotalsRow(rated[..n]);
    }
  }

  /** With non-negative prices, quantities and rates, the subtotal and the GST are not negative. */
  lemma {:induction false} TotalsNonNegative(rated: seq<RatedItem>)
    requires forall i :: 0 <= i < |rated| ==> rated[i].item.price >= 0 && rated[i].item.quantity >= 0
    requires forall i :: 0 <= i < |rated| ==>
      rated[i].rates.igst >= 0.0 && rated[i].rates.cgst >= 0.0 && rated[i].rates.sgst >= 0.0
    ensures TaxableOf(rated) >= 0.0 && GstOf(rated) >= 0.0
  {
    if rated != [] {
      var n := |rated| - 1;
      var last := rated[n];
      TotalsNonNegative(rated[..n]);
      var t := LineSubtotal(last.item);
      assert t >= 0.0 by {
        assert last.item.price * last.item.quantity >= 0;
      }
      TaxNonNegative(t, last.rates.igst);
      TaxNonNegative(t, last.rates.cgst);
      TaxNonNegative(t, last.rates.sgst);
    }
  }

  lemma TaxNonNegative(taxable: real, ratePercent: real)
    requires taxable >= 0.0 && ratePercent >= 0.0
    ensures Tax(taxable, ratePercent) >= 0.0
  {
    var r := ratePercent / 100.0;
    assert taxable * r >= 0.0;
  }

  // ---------------------------------------------------------------------------------------------
  // Charges and the grand total

  /** `order.paymentMethod === 'cod' ? 10 : 0`. */
  function CodChargeFor(paymentMethod: string): (c: real)
    ensures c == (if paymentMethod == "cod" then 10.0 else 0.0)
  {
    if paymentMethod == "cod" then CodCharge else 0.0
  }

  /**
   * The online payment discount of lines 163-165: for Razorpay, a flat 50 when `totalAmount`
   * reaches 100000 and one hundredth of `totalAmount` below that; nothing for any other method.
   */
  function OnlineDiscountFor(paymentMethod: string, totalAmount: int): (d: real)
    ensures paymentMethod != "razorpay" ==> d == 0.0
    ensures paymentMethod == "razorpay" && totalAmount >= 100000 ==> d == 50.0
    ensures paymentMethod == "razorpay" && totalAmount < 100000 ==> d * 100.0 == totalAmount as real
  {
    if paymentMethod == "razorpay" then
      (if totalAmount >= 100000 then 50.0 else totalAmount as real * 0.01)
    else 0.0
  }

  /** `subtotal + deliveryCharge + gstAmount + codCharge - universalDiscount - onlinePaymentDiscount`. */
  function GrandTotal(subtotal: real, gstAmount: real, paymentMethod: string, totalAmount: int): real {
    subtotal + DeliveryCharge + gstAmount + CodChargeFor(paymentMethod)
    - UniversalDiscount - OnlineDiscountFor(paymentMethod, totalAmount)
  }

  /**
   * The delivery charge and the universal discount cancel: cash on delivery adds 10 to subtotal
   * plus GST, Razorpay takes off its online discount, and any other method pays subtotal plus GST.
   */
  lemma GrandTotalByMethod(subtotal: real, gstAmount: real, paymentMethod: string, totalAmount: int)
    ensures var g := GrandTotal(subtotal, gstAmount, paymentMethod, totalAmount);
      && g == subtotal + gstAmount + CodChargeFor(paymentMethod) - OnlineDiscountFor(paymentMethod, totalAmount)
      && (paymentMethod == "cod" ==> g == subtotal + gstAmount + 10.0)
      && (paymentMethod == "razorpay" && totalAmount >= 100000 ==> g == subtotal + gstAmount - 50.0)
      && (paymentMethod == "razorpay" && totalAmount < 100000 ==> g == subtotal + gstAmount - totalAmount as real / 100.0)
      && (paymentMethod != "cod" && paymentMethod != "razorpay" ==> g == subtotal + gstAmount)
  {
  }

  /**
   * The online discount is not monotone in the order amount: every amount above 5000 but short
   * of 100000 earns more than 50 rupees, while 100000 itself earns only 50.
   */
  lemma OnlineDiscountDropsAtThreshold(totalAmount: int)
    requires 5000 < totalAmount < 100000
    ensures OnlineDiscountFor("razorpay", 100000) == 50.0
    ensures OnlineDiscountFor("razorpay", totalAmount) > OnlineDiscountFor("razorpay", 100000)
  {
    assert OnlineDiscountFor("razorpay", totalAmount) * 100.0 == totalAmount as real;
  }

  // ---------------------------------------------------------------------------------------------
  // The computation

  /**
   * The figures of the invoice: the two `forEach` accumulations, the charges and the grand total.
   * `lookup(i, productId)` stands for the product request of line `i`, so two lines of the same
   * product may fare differently; `None` is a request or decoding that failed.
   */
  method ComputeInvoiceFigures(order: Order, lookup: (nat, int) -> Option<ProductGst>) returns (f: InvoiceFigures)
    ensures f.subtotal == SubtotalOf(order.items) && f.totalQuantity == QuantityOf(order.items)
    ensures f.itemsWithGst == AttachRates(order.items, lookup)
    ensures f.totalIgst == TaxOf(f.itemsWithGst, Igst) && f.totalCgst == TaxOf(f.itemsWithGst, Cgst)
      && f.totalSgst == TaxOf(f.itemsWithGst, Sgst)
    ensures f.totalItemDiscount == 0.0
    ensures f.gstAmount == GstOf(f.itemsWithGst) && f.cgstAmount == f.totalCgst && f.sgstAmount == f.totalSgst
    ensures f.codCharge == CodChargeFor(order.paymentMethod)
    ensures f.onlinePaymentDiscount == OnlineDiscountFor(order.paymentMethod, order.totalAmount)
    ensures f.grandTotal == GrandTotal(f.subtotal, f.gstAmount, order.paymentMethod, order.totalAmount)
    ensures f.deliveryCharge == DeliveryCharge && f.universalDiscount == UniversalDiscount
    ensures f.totalBeforeDiscount == f.subtotal + f.deliveryCharge + f.gstAmount + f.codCharge
    ensures f.grandTotal == f.totalBeforeDiscount - f.universalDiscount - f.onlinePaymentDiscount
  {
    var subtotal, totalQuantity := AccumulateSubtotal(order.items);
    var itemsWithGst := AttachRates(order.items, lookup);
    var totalIgst, totalCgst, totalSgst, totalItemDiscount := AccumulateTaxes(itemsWithGst);
    var gstAmount := totalIgst + totalCgst + totalSgst;
    var codCharge := if order.paymentMethod == "cod" then CodCharge else 0.0;
    var onlinePaymentDiscount :=
      if order.paymentMethod == "razorpay" then
        (if order.totalAmount >= 100000 then 50.0 else order.totalAmount as real * 0.01)
      else 0.0;
    var totalBeforeDiscount := subtotal + DeliveryCharge + gstAmount + codCharge;
    var grandTotal := totalBeforeDiscount - UniversalDiscount - onlinePaymentDiscount;
    f := InvoiceFigures(subtotal, totalQuantity, itemsWithGst, totalIgst, totalCgst, totalSgst,
                        totalItemDiscount, gstAmount, totalCgst, totalSgst, DeliveryCharge,
                        UniversalDiscount, codCharge, onlinePaymentDiscount, totalBeforeDiscount,
                        grandTotal);
  }

  /**
   * The "amount in words" line (line 405): the grand total rounded half up to whole rupees,
   * spelled out and followed by " RUPEES ONLY.". Below 10^9 rupees the words read back as that
   * rounded amount.
   */
  method AmountInWordsLine(grandTotal: real) returns (line: string)
    ensures line == InvoiceWords.AmountWords(Round(grandTotal)) + " RUPEES ONLY."
    ensures var n := Round(grandTotal); 0 <= n < 1000000000 ==>
      InvoiceWords.Eval(InvoiceWords.Words(n), 0, 0) == n && n as real - 0.5 <= grandTotal < n as real + 0.5
  {
    var n := Round(grandTotal);
    var words := InvoiceWords.ConvertToWords(n);
    line := words + " RUPEES ONLY.";
    if 0 <= n < 1000000000 {
      InvoiceWords.WordsDenoteAmount(n);
    }
  }

  /** The first `forEach` (lines 94-101): the order's subtotal in rupees and its number of items. */
  method AccumulateSubtotal(items: seq<LineItem>) returns (subtotal: real, totalQuantity: int)
    ensures subtotal == SubtotalOf(items) && totalQuantity == QuantityOf(items)
  {
    subtotal, totalQuantity := 0.0, 0;
    var i := 0;
    while i < |items|
      invariant 0 <= i <= |items|
      invariant subtotal == SubtotalOf(items[..i]) && totalQuantity == QuantityOf(items[..i])
    {
      var item := items[i];
      subtotal := subtotal + (item.price * item.quantity) as real / 100.0;
      totalQuantity := totalQuantity + item.quantity;
      assert items[..i + 1][..i] == items[..i];
      i := i + 1;
    }
    assert items[..|items|] == items;
  }

  /** The second `forEach` (lines 134-148): the three taxes of the rated lines and their item discounts. */
  method AccumulateTaxes(itemsWithGst: seq<RatedItem>)
    returns (totalIgst: real, totalCgst: real, totalSgst: real, totalItemDiscount: real)
    ensures totalIgst == TaxOf(itemsWithGst, Igst) && totalCgst == TaxOf(itemsWithGst, Cgst)
    ensures totalSgst == TaxOf(itemsWithGst, Sgst) && totalItemDiscount == 0.0
  {
    totalIgst, totalCgst, totalSgst, totalItemDiscount := 0.0, 0.0, 0.0, 0.0;
    var j := 0;
    while j < |itemsWithGst|
      invariant 0 <= j <= |itemsWithGst|
      invariant totalIgst == TaxOf(itemsWithGst[..j], Igst) && totalCgst == TaxOf(itemsWithGst[..j], Cgst)
      invariant totalSgst == TaxOf(itemsWithGst[..j], Sgst) && totalItemDiscount == 0.0
    {
      var item := itemsWithGst[j];
      var itemSubtotal := (item.item.price * item.item.quantity) as real / 100.0;
      var itemDiscount := 0.0;
      var itemTaxableValue := itemSubtotal - itemDiscount;
      var igstRate := item.rates.igst / 100.0;
      var cgstRate := item.rates.cgst / 100.0;
      var sgstRate := item.rates.sgst / 100.0;
      totalIgst := totalIgst + itemTaxableValue * igstRate;
      totalCgst := totalCgst + itemTaxableValue * cgstRate;
      totalSgst := totalSgst + itemTaxableValue * sgstRate;
      totalItemDiscount := totalItemDiscount + itemDiscount;
      assert itemsWithGst[..j + 1][..j] == itemsWithGst[..j];
      j := j + 1;
    }
    assert itemsWithGst[..|itemsWithGst|] == itemsWithGst;
  }

  /**
   * The figures agree with the item table: the subtotal is the sum of the rows' taxable values,
   * and the rows' totals add up to the totals row, subtotal minus item discounts plus GST.
   */
  lemma FiguresMatchTable(order: Order, lookup: (nat, int) -> Option<ProductGst>, f: InvoiceFigures)
    requires f.subtotal == SubtotalOf(order.items) && f.itemsWithGst == AttachRates(order.items, lookup)
    requires f.totalItemDiscount == 0.0 && f.gstAmount == GstOf(f.itemsWithGst)
    ensures f.subtotal == TaxableOf(f.itemsWithGst)
    ensures RowTotalOf(Rows(f.itemsWithGst)) == f.subtotal - f.totalItemDiscount + f.gstAmount
  {
    TaxableIsSubtotal(order.items, lookup);
    RowsAddUpToTotalsRow(f.itemsWithGst);
  }

  /** An order with no lines costs only the cash-on-delivery charge less the online discount. */
  lemma EmptyOrderGrandTotal(paymentMethod: string, totalAmount: int, lookup: (nat, int) -> Option<ProductGst>)
    ensures var rated := AttachRates([], lookup);
      GrandTotal(SubtotalOf([]), GstOf(rated), paymentMethod, totalAmount)
      == CodChargeFor(paymentMethod) - OnlineDiscountFor(paymentMethod, totalAmount)
  {
    assert AttachRates([], lookup) == [];
  }
}
