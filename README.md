# Blinkeach storefront: invoice, checkout and product-editor arithmetic in Dafny

This project models the computational core of the Blinkeach e-commerce client:

- **Invoice** (`client/src/lib/enhanced-invoice.ts`):
  - `convertToWords` and `convertHundreds` spell an amount in words with the Indian scale words: thousand, lakh, crore.
  - `generateEnhancedInvoice` computes the subtotal, the item count, and the IGST, CGST and SGST of every line at the rates stored with its product.
  - It also computes the fixed delivery charge and universal discount, the cash-on-delivery charge, the Razorpay online discount, the grand total, the item table and its totals row, and the "amount in words" line.
- **Checkout** (`client/src/components/checkout/RazorpayPayment.tsx`):
  - shipping for small carts and the one or five percent discount, rounded half up;
  - the total;
  - what is sent with the order and to the payment gateway.
- **Product editor** (`client/src/components/admin/ProductForm.tsx`):
  - the variant list: add, remove, update, the colour-by-size grid, and the filter applied on submit;
  - the colour table;
  - the highlight and specification rows, and the fold of the specification rows into a record;
  - the conversion of prices between stored paisa and displayed rupees.

Modules:

- `Wrappers`: `Option`.
- `JsBuiltins`: the JavaScript built-ins the core relies on:
  - `Math.round`, which rounds half up;
  - `String.prototype.trim`, with the ECMAScript whitespace set;
  - `toUpperCase`, for ASCII letters.
- `InvoiceWords`: the amount in words. `convertHundreds` and `convertToWords` are methods with the source's loop. They are proved equal to a word-list specification, `Words`. Lemmas about `Words` show:
  - the printed text is well spaced;
  - each scale word appears exactly when its digit group is non-zero;
  - the words read back as the amount.
- `InvoiceTotals`: the invoice figures. The two `forEach` accumulations are loops proved against recursive sums. Lemmas tie the item table to the totals row and describe the grand total for each payment method.
- `CheckoutPricing`: the checkout's pricing, amounts and order lines.
- `ProductAdmin`: the product editor's list helpers and price conversions. The colour-by-size grid and the specification fold are loops proved against recursive specifications.

React state is modelled by returning the new value of each list. The product request of each invoice line is the parameter `lookup`, applied to the line's position and product id, so two lines of one product may fare differently; `None` stands for a failed request.

Where the code and its comments disagree, the model follows the code:

- The invoice's online discount is a flat 50 at or above an order amount of 100000 (`enhanced-invoice.ts` line 164), not the five percent the comment announces.
- The invoice compares `order.totalAmount` (paisa) with 100000 and subtracts `totalAmount * 0.01` from a grand total kept in rupees. The model keeps these units as written.
- The checkout sends `total * 100` to the gateway as paisa (`RazorpayPayment.tsx` line 77), although `total` is already in paisa. The model keeps this as written.

## Model

| member | source | states |
|---|---|---|
| JsBuiltins.Round | client/src/lib/enhanced-invoice.ts:405 | `Math.round` gives the integer within half a unit of the argument, with halves rounded up |
| JsBuiltins.Trim | client/src/lib/enhanced-invoice.ts:56 | the result of `trim` has no whitespace at either end, and is empty exactly when the input is all whitespace |
| JsBuiltins.TrimIsMiddle | client/src/lib/enhanced-invoice.ts:56 | `trim` returns a contiguous middle of the input; everything it drops before and after that middle is whitespace |
| JsBuiltins.TrimOfTrimmed | client/src/lib/enhanced-invoice.ts:56 | trimming a string that starts and ends with a non-whitespace character changes nothing |
| InvoiceWords.Texts | client/src/lib/enhanced-invoice.ts:8-11 | each word is spelled by the source's `ones`, `teens`, `tens` and `thousands` tables, one text per word |
| InvoiceWords.ConvertHundreds | client/src/lib/enhanced-invoice.ts:15-31 | `convertHundreds` returns the words of a chunk below 1000, each followed by one space, including its early return after a teens word |
| InvoiceWords.HundredsWordsByRange | client/src/lib/enhanced-invoice.ts:15-31 | a teens word stands alone; from twenty on a tens word is followed by a ones word only when the last digit is not zero; below ten at most a ones word appears; a hundreds word comes first from 100 on |
| InvoiceWords.TensWordsAsBuilt | client/src/lib/enhanced-invoice.ts:21-30 | each branch of the tens part adds exactly the words of the specification |
| InvoiceWords.ConvertToWords | client/src/lib/enhanced-invoice.ts:7-57 | `convertToWords` returns the words of the amount, trimmed and single-spaced; "zero" for 0 and "" for a negative amount |
| InvoiceWords.ChunkStep | client/src/lib/enhanced-invoice.ts:37-54 | one loop pass keeps the invariant: the words still to come, followed by the words built so far, are the words of the amount |
| InvoiceWords.WordsFromStep | client/src/lib/enhanced-invoice.ts:38-48 | the first chunk takes three digits and every later chunk two, in the order the loop peels them |
| InvoiceWords.TrimmedWords | client/src/lib/enhanced-invoice.ts:56 | trimming the built string leaves the words joined by single spaces |
| InvoiceWords.AmountWordsShape | client/src/lib/enhanced-invoice.ts:7-57 | the printed amount is "zero" for 0, empty for a negative amount, and otherwise non-empty, with no whitespace at either end and never two whitespace characters in a row |
| InvoiceWords.WordsNonEmpty | client/src/lib/enhanced-invoice.ts:36-54 | a positive amount always produces words, all well formed |
| InvoiceWords.ChunksAsDigitGroups | client/src/lib/enhanced-invoice.ts:38-48 | the chunks are the Indian digit groups: the last three digits, then pairs for thousands, lakhs and crores |
| InvoiceWords.ScaleWordIffChunk | client/src/lib/enhanced-invoice.ts:50-52 | from any point of the loop, a scale word is added exactly when its chunk is not zero |
| InvoiceWords.ScaleWordPresent | client/src/lib/enhanced-invoice.ts:50-52 | "thousand", "lakh" or "crore" appears in an amount's words exactly when that digit group is not zero |
| InvoiceWords.HundredsWordsValue | client/src/lib/enhanced-invoice.ts:15-31 | the words of a chunk read back as the chunk |
| InvoiceWords.ChunkValue | client/src/lib/enhanced-invoice.ts:50-52 | a chunk's words with its scale word read back as the chunk times its place value |
| InvoiceWords.WordsFromValue | client/src/lib/enhanced-invoice.ts:37-54 | the words the loop adds from any point read back as the remaining amount at its place value |
| InvoiceWords.WordsDenoteAmount | client/src/lib/enhanced-invoice.ts:7-57 | for every amount below 10^9, reading the words back gives the amount |
| InvoiceTotals.ResolveRates | client/src/lib/enhanced-invoice.ts:112-130 | a failed product lookup gives zero rates; a missing or zero rate on the product counts as zero |
| InvoiceTotals.AttachRates | client/src/lib/enhanced-invoice.ts:111-131 | `itemsWithGst` has one entry per order line, in order, each carrying the rates of its own product |
| InvoiceTotals.Row | client/src/lib/enhanced-invoice.ts:293-301 | a table row shows the unit price in rupees (paisa over 100), the line's quantity, discount 0 and a taxable value equal to the line subtotal; its taxes are the loop's taxes; its total is the taxable value times one plus the summed rates |
| InvoiceTotals.RowTaxable | client/src/lib/enhanced-invoice.ts:294-295 | the template's unit price times quantity equals the loop's price times quantity over 100 |
| InvoiceTotals.Rows | client/src/lib/enhanced-invoice.ts:293-330 | the item table has one row per rated line, in order |
| InvoiceTotals.RowQuantitiesAddUp | client/src/lib/enhanced-invoice.ts:335 | the quantity column of the item table adds up to the item count of the totals row |
| InvoiceTotals.FailedLookupIsUntaxed | client/src/lib/enhanced-invoice.ts:122-129 | a line whose lookup failed has zero taxes and a row total equal to its taxable value |
| InvoiceTotals.TaxableIsSubtotal | client/src/lib/enhanced-invoice.ts:94-148 | the taxable values of `itemsWithGst` add up to the subtotal of the order |
| InvoiceTotals.RowsAddUpToTotalsRow | client/src/lib/enhanced-invoice.ts:301-338 | the row totals add up to the totals row: subtotal minus item discounts plus GST |
| InvoiceTotals.TotalsNonNegative | client/src/lib/enhanced-invoice.ts:94-150 | with non-negative prices, quantities and rates, the subtotal and the GST are not negative |
| InvoiceTotals.CodChargeFor | client/src/lib/enhanced-invoice.ts:160 | 10 for cash on delivery, 0 otherwise |
| InvoiceTotals.OnlineDiscountFor | client/src/lib/enhanced-invoice.ts:163-165 | Razorpay gets a flat 50 at or above 100000 and one hundredth of `totalAmount` below; any other method gets 0 |
| InvoiceTotals.GrandTotalByMethod | client/src/lib/enhanced-invoice.ts:155-169 | delivery charge and universal discount cancel; COD adds 10 to subtotal plus GST; Razorpay subtracts its discount; other methods pay subtotal plus GST |
| InvoiceTotals.OnlineDiscountDropsAtThreshold | client/src/lib/enhanced-invoice.ts:163-165 | the Razorpay discount is 50 at 100000, and every amount between 5000 and 100000 earns more |
| InvoiceTotals.AccumulateSubtotal | client/src/lib/enhanced-invoice.ts:94-101 | the first `forEach` yields the subtotal in rupees and the item count |
| InvoiceTotals.AccumulateTaxes | client/src/lib/enhanced-invoice.ts:134-148 | the second `forEach` yields each tax summed over the lines, and zero item discount |
| InvoiceTotals.ComputeInvoiceFigures | client/src/lib/enhanced-invoice.ts:94-169 | every figure of the invoice: the sums, the rates attached per line, GST as the sum of the three taxes, the fixed delivery charge (40) and universal discount (40), the COD charge, the online discount, the total before discount and the grand total |
| InvoiceTotals.AmountInWordsLine | client/src/lib/enhanced-invoice.ts:405 | the words line spells the grand total rounded half up, followed by " RUPEES ONLY."; below 10^9 the words read back as that rounded amount, which is within half a rupee of the grand total |
| InvoiceTotals.FiguresMatchTable | client/src/lib/enhanced-invoice.ts:94-152 | the subtotal equals the table's taxable values, and the rows add up to the totals row |
| InvoiceTotals.EmptyOrderGrandTotal | client/src/lib/enhanced-invoice.ts:155-169 | an order without lines costs the COD charge less the online discount |
| CheckoutPricing.ShippingFor | client/src/components/checkout/RazorpayPayment.tsx:27 | shipping is 99 exactly when the cart is strictly between 0 and 499, and 0 otherwise |
| CheckoutPricing.DiscountPercentageFor | client/src/components/checkout/RazorpayPayment.tsx:30 | 5 percent exactly from 100000 on, 1 percent below |
| CheckoutPricing.DiscountAmountFor | client/src/components/checkout/RazorpayPayment.tsx:31 | the discount is the percentage of the cart rounded half up to a whole unit |
| CheckoutPricing.PriceCart | client/src/components/checkout/RazorpayPayment.tsx:26-34 | total = subtotal + shipping - discount, with each part as above |
| CheckoutPricing.DiscountWithinSubtotal | client/src/components/checkout/RazorpayPayment.tsx:30-31 | the discount of a non-negative cart is between 0 and the cart |
| CheckoutPricing.TotalBounds | client/src/components/checkout/RazorpayPayment.tsx:26-34 | the total is between 0 and cart plus shipping, and 0 for an empty cart |
| CheckoutPricing.TotalDropsAtThreshold | client/src/components/checkout/RazorpayPayment.tsx:30-34 | a cart of 100000 pays 95000, and every cart between 95960 and 100000 pays more |
| CheckoutPricing.ChargedPrice | client/src/components/checkout/RazorpayPayment.tsx:69 | the discounted price when present and non-zero, otherwise the price |
| CheckoutPricing.OrderLines | client/src/components/checkout/RazorpayPayment.tsx:65-71 | one order line per cart item, in cart order, with id, product, name, charged price and quantity |
| CheckoutPricing.PaymentRequestFor | client/src/components/checkout/RazorpayPayment.tsx:51-77 | order amount and `totalAmount` are both the total; the method is "razorpay"; the gateway gets 100 times the total |
| ProductAdmin.WithoutIndex | client/src/components/admin/ProductForm.tsx:345-350 | filtering out one index removes exactly that position when it exists and changes nothing otherwise |
| ProductAdmin.WithoutIndexPositions | client/src/components/admin/ProductForm.tsx:346 | after removal the list is one shorter; elements before the index keep their place and later ones shift down by one |
| ProductAdmin.AddVariant | client/src/components/admin/ProductForm.tsx:330-343 | a blank variant (black, stock 0, no images, no price) is appended and `hasVariants` becomes true |
| ProductAdmin.RemoveVariant | client/src/components/admin/ProductForm.tsx:345-350 | the variant at the index is removed (none if the index is out of range); `hasVariants` says whether any remain |
| ProductAdmin.ApplyEdit | client/src/components/admin/ProductForm.tsx:354 | an edit changes exactly the named field of the variant |
| ProductAdmin.MapAt | client/src/components/admin/ProductForm.tsx:354-356 | the list keeps its length; only the element at the index is edited |
| ProductAdmin.UpdateVariant | client/src/components/admin/ProductForm.tsx:352-360 | the list is the mapped list; `hasVariants` says whether it is non-empty |
| ProductAdmin.UpdateOutOfRange | client/src/components/admin/ProductForm.tsx:354-356 | an update at a missing index leaves the list as it was |
| ProductAdmin.GetColorValue | client/src/components/admin/ProductForm.tsx:384-398 | a named colour gets its table value; any other name gets `#000000` |
| ProductAdmin.ColorValueIsHex | client/src/components/admin/ProductForm.tsx:384-398 | every colour value is `#` followed by six upper-case hex digits |
| ProductAdmin.HyphenateWhitespace | client/src/components/admin/ProductForm.tsx:373 | replacing whitespace runs with hyphens leaves no whitespace |
| ProductAdmin.SkuPrefix | client/src/components/admin/ProductForm.tsx:373 | the SKU prefix is never empty and has no whitespace; a missing or empty product name gives "PROD" |
| ProductAdmin.CombinationsLayout | client/src/components/admin/ProductForm.tsx:363-382 | the grid has \|colours\|·\|sizes\| entries; entry i·\|sizes\|+j is colour i in size j, with the colour's value, stock 0, no images and SKU `PREFIX-COLOUR-size` |
| ProductAdmin.GenerateVariantCombinations | client/src/components/admin/ProductForm.tsx:363-382 | the nested loops build exactly the colour-major grid; `hasVariants` holds exactly when there are both colours and sizes |
| ProductAdmin.PushSizeRow | client/src/components/admin/ProductForm.tsx:366-378 | the inner loop appends one variant per size for its colour, in size order |
| ProductAdmin.CompleteVariants | client/src/components/admin/ProductForm.tsx:277-281 | every kept variant has a non-blank colour and size, after trimming, and non-negative stock |
| ProductAdmin.CompleteVariantsMembers | client/src/components/admin/ProductForm.tsx:277-281 | a variant is kept exactly when it is in the list and complete |
| ProductAdmin.CompleteVariantsAppend | client/src/components/admin/ProductForm.tsx:277-281 | the filter distributes over concatenation, so the kept variants keep their order |
| ProductAdmin.SubmitVariants | client/src/components/admin/ProductForm.tsx:274-293 | the submitted variants are the complete ones; `hasVariants` holds exactly when there are any; an empty list gives no variants and false |
| ProductAdmin.SavedVariants | client/src/components/admin/ProductForm.tsx:186 | the saved variants are the list when `hasVariants` holds, and empty otherwise |
| ProductAdmin.SavedAfterSubmit | client/src/components/admin/ProductForm.tsx:274-292 | after submit, what line 186 saves is exactly the complete variants |
| ProductAdmin.RemoveRow | client/src/components/admin/ProductForm.tsx:564-583 | a row is removed only while more than one is left, so a non-empty list never becomes empty |
| ProductAdmin.AddHighlight | client/src/components/admin/ProductForm.tsx:559-562 | an empty highlight is appended |
| ProductAdmin.AddSpecification | client/src/components/admin/ProductForm.tsx:575-577 | an empty key/value row is appended |
| ProductAdmin.UpdateSpecificationKey | client/src/components/admin/ProductForm.tsx:585-589 | only the key of the given row changes; a missing row is an error (the source throws) |
| ProductAdmin.UpdateSpecificationValue | client/src/components/admin/ProductForm.tsx:591-595 | only the value of the given row changes; a missing row is an error |
| ProductAdmin.FoldSpecifications | client/src/components/admin/ProductForm.tsx:187-195 | the `reduce` loop builds the specification record from the rows |
| ProductAdmin.SpecMapKeys | client/src/components/admin/ProductForm.tsx:187-195 | the record's keys are exactly the keys of the rows whose key and value are both non-empty |
| ProductAdmin.SpecMapLastWins | client/src/components/admin/ProductForm.tsx:187-195 | a key's value is that of the last filled row with that key |
| ProductAdmin.PaisaToRupees | client/src/components/admin/ProductForm.tsx:153 | the rupee amount is the paisa amount over 100 |
| ProductAdmin.PriceShown | client/src/components/admin/ProductForm.tsx:153 | a new product shows price 0; an existing one shows its paisa over 100 |
| ProductAdmin.RupeesToPaisa | client/src/components/admin/ProductForm.tsx:181 | the saved paisa is within half a paisa of the typed rupees times 100 |
| ProductAdmin.PriceRoundTrip | client/src/components/admin/ProductForm.tsx:181 | a price loaded at line 153 and saved unchanged keeps its paisa value |
| ProductAdmin.SavedPriceIsClosest | client/src/components/admin/ProductForm.tsx:181 | saving moves a typed price by at most half a paisa |
| ProductAdmin.OriginalPriceShown | client/src/components/admin/ProductForm.tsx:154-156 | an original price is shown exactly when it is present and non-zero, as its paisa over 100 |
| ProductAdmin.OriginalPriceSaved | client/src/components/admin/ProductForm.tsx:182-184 | an original price is saved exactly when it is present and non-zero, as paisa within half a paisa of its rupees times 100 |
| ProductAdmin.OriginalPriceRoundTrip | client/src/components/admin/ProductForm.tsx:182-184 | loading (lines 154-156) and saving keeps a non-zero original price and drops zero |
| ProductAdmin.SelectColorAsWritten | client/src/components/admin/ProductForm.tsx:1348-1351 | as written, choosing a colour changes only the colour value; the chosen name is lost |
| ProductAdmin.SelectColorLosesName | client/src/components/admin/ProductForm.tsx:1348-1351 | choosing "Red" for a fresh variant leaves its name blank while the value becomes `#FF0000` |
| ProductAdmin.SelectColor | client/src/components/admin/ProductForm.tsx:1348-1351 | corrected: choosing a colour sets both the name and its table value, and no other variant changes |

## Left out

- Floating point: all amounts are exact rationals (`real`) or integers. `toFixed` formatting, `padStart`, and the rounding error of binary floating point are not modelled.
- The PDF, QR code, DOM and `html2canvas` rendering of the invoice, its date formatting and the CSS `text-transform: uppercase` applied to the words line are left out. So are the toasts, navigation and Razorpay script loading of the checkout, and the form, upload and 3D-model handling of the product editor.
- The product request of each invoice line (`fetch` inside `Promise.all`) is the parameter `lookup`, given the line's position and product id. A failed request or JSON decode is `None`; concurrency and timing are not modelled.
- The cart's `totalPrice` is an input of the checkout. How the cart computes it is not part of this model.
- JsBuiltins.UpperCase: maps ASCII letters only. The Unicode case mappings of `toUpperCase`, some of which change the length of a string, are not modelled.
- ProductAdmin.HyphenateWhitespace: uses the same whitespace set as `trim`, which is the set `\s` matches in JavaScript regular expressions.
- ProductAdmin.GetColorValue: `colorMap[colorName]` on an inherited property name such as "toString" returns a function object. The model treats every name outside the ten colours as unknown.
- ProductAdmin.FoldSpecifications: assigning the key `__proto__` to a plain object changes its prototype. The model treats it as an ordinary key.
- ProductAdmin.UpdateSpecificationKey: the source copies the array shallowly and then mutates the shared row object, so the previous state's row changes too. The model returns a new list and does not model that aliasing.
- ProductAdmin.UpdateSpecificationValue: the same shallow copy as `updateSpecificationKey`; the source mutates the row object it shares with the previous state, so that state's row changes too. The model returns a new list and does not model that aliasing.
- ProductAdmin.UpdateVariant: `field` is limited to the variant's own fields, each with a value of its type. The source accepts any string key and any string or number.
- The amount in words is modelled for every amount, including 10^9 and above. There `thousands[4]` is `undefined`, so the text reads "undefined", as in the source. The read-back lemma covers amounts below 10^9.
- The available-colour and available-size lists and the product name are inputs of the grid. The editing of those lists is not modelled.

## Findings

| source | as written | input that shows it | evidently intended | confidence | as-written member | corrected member |
|---|---|---|---|---|---|---|
| client/src/components/admin/ProductForm.tsx:1348-1351 | the colour select's handler calls `updateVariant` twice. Both calls map over the same `variants` of the current render, so the second list replaces the first and the new colour name is discarded | a freshly added variant, index 0, choosing "Red": the name stays "" while the value becomes `#FF0000` | set both the colour name and its value | high, by reading React's state semantics; not executed | ProductAdmin.SelectColorAsWritten (with ProductAdmin.SelectColorLosesName) | ProductAdmin.SelectColor |
