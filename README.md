# Cashier transaction engine

A Dafny model of the transaction engine of the WUPOS cashier screen
(`WUPOS/src/cashier/app.js`). The screen keeps one current transaction: an
ordered list of line items (barcode, name, unit price, quantity) and three
derived amounts, subtotal, tax (8.5 %) and total. Scanning a barcode looks the
product up in the product database and either adds one unit to the line that
already holds that barcode or appends a new line; a name search does the same
for a single case-insensitive match and asks the cashier to choose among several;
removing a barcode drops its line; every change recomputes the totals. Payment
refuses an empty cart; cash succeeds only when the amount received covers the
total, and card and mobile payments always succeed; a successful payment clears
the transaction.

Files:

- `wrappers.dfy` — `Option`.
- `text.dfy` — lower-casing and `includes`, the string operations of the name search.
- `catalog.dfy` — the product database: exact lookup, `Object.entries`, the name filter, the sample data.
- `cart.dfy` — line items and the pure operations on them (find, add, filter, sum) with their lemmas.
- `cashier.dfy` — the `Transaction` class holding `currentTransaction`, and the screen's operations as its methods.

Modelling choices:

- Money is integer cents (`price: nat`, `subtotal: int`); tax and total are exact
  `real`s with the tax rate the fraction 85/1000, so no floating-point rounding enters
  the model. `toFixed(2)` rounding is presentation only.
- The product database is a `map` from barcode to product, plus the order in which
  `Object.entries` enumerates its keys (ascending numeric order for the sample's
  integer-like barcodes). The order decides which product a selection index picks.
- What the screen would show (`showNotification`) is returned as a `Notice`;
  `Silent` where the source shows nothing.
- The cash amount typed into the prompt is an `Option<int>` of cents: `None` stands
  for a cancelled, empty or unparsable answer, which the source treats as insufficient.
  The selection answer is the already-computed `parseInt(selection) - 1`; an
  unparsable answer (NaN) behaves like any out-of-range index.
- The `setTimeout` of card and mobile payment is modelled as immediate completion.

The source hard-codes the tax rate 0.085 (`WUPOS/src/cashier/app.js:126`). Nothing
stops cart edits or a second payment while a card or mobile `setTimeout` is pending
(`WUPOS/src/cashier/app.js:197-209`); card and mobile payments complete synchronously
here. `removeItem` drops every line with the barcode, of which there is at most one
(`Cart.AddLinePreservesWellformed`).

## Model

| member | source | states |
|---|---|---|
| `Text.IncludesIffOccurs` | WUPOS/src/cashier/app.js:84 | `includes` holds exactly when the term occurs at some position of the name |
| `Text.Lower` | WUPOS/src/cashier/app.js:84 | definition of `toLowerCase` on ASCII letters; properties in `Text.LowerIdempotent` |
| `Text.Includes` | WUPOS/src/cashier/app.js:84 | definition of `includes`; characterised by `Text.IncludesIffOccurs` |
| `Text.LowerIdempotent` | WUPOS/src/cashier/app.js:84 | lower-casing an already lower-cased string changes nothing |
| `Text.EmptyIncludedEverywhere` | WUPOS/src/cashier/app.js:84 | the empty term is included in every string |
| `ProductCatalog.EntriesOf` | WUPOS/src/cashier/app.js:83 | `Object.entries` pairs each listed key with its own value and includes every listed key; order in `ProductCatalog.EntriesInOrder` |
| `ProductCatalog.EntriesInOrder` | WUPOS/src/cashier/app.js:83-92 | when every listed barcode is a key, the entries are one pair per barcode at that barcode's own position, the position a selection number refers to |
| `ProductCatalog.Lookup` | WUPOS/src/cashier/app.js:73 | definition of `productDatabase[barcode]` on the object's own keys; used by `Cashier.Transaction.ProcessBarcode` and `ProductCatalog.SearchSound` |
| `ProductCatalog.Entries` | WUPOS/src/cashier/app.js:83 | definition of `Object.entries(productDatabase)`; properties in `ProductCatalog.EntriesOf` and `ProductCatalog.EntriesInOrder` |
| `ProductCatalog.Matches` | WUPOS/src/cashier/app.js:84 | definition of the case-insensitive name test; properties in `ProductCatalog.MatchesIgnoresCase` and `ProductCatalog.EmptyTermMatchesAll` |
| `ProductCatalog.SearchMatches` | WUPOS/src/cashier/app.js:83-85 | definition of `foundProducts`; properties in `ProductCatalog.SearchSound` and `ProductCatalog.SearchComplete` |
| `ProductCatalog.FilterMatches` | WUPOS/src/cashier/app.js:83-85 | the filter keeps exactly the entries whose lower-cased name includes the lower-cased term, and never more entries than it was given |
| `ProductCatalog.FilterAppend` | WUPOS/src/cashier/app.js:83-85 | the filter keeps what it keeps in the original order: it distributes over concatenation |
| `ProductCatalog.SearchSound` | WUPOS/src/cashier/app.js:83-88 | every search candidate matches the term and its barcode looks up that very product |
| `ProductCatalog.SearchComplete` | WUPOS/src/cashier/app.js:83-85 | every database product whose name contains the term is among the candidates |
| `ProductCatalog.MatchesIgnoresCase` | WUPOS/src/cashier/app.js:84 | lower-casing the term before searching changes no match |
| `ProductCatalog.EmptyTermMatchesAll` | WUPOS/src/cashier/app.js:84 | an empty search term matches every product |
| `ProductCatalog.SampleDatabase` | WUPOS/src/cashier/app.js:12-17 | the four sample products, prices in cents, listed once each in key order |
| `ProductCatalog.SampleLookups` | WUPOS/src/cashier/app.js:12-17 | the mug's and the notebook's barcodes look up 12.99 and 8.50 |
| `Cart.Subtotal` | WUPOS/src/cashier/app.js:121-123 | definition of the left-to-right sum of price × quantity; properties in `Cart.SubtotalAppend`, `Cart.SubtotalUpdate` and `Cart.SubtotalSplit` |
| `Cart.LineTotal` | WUPOS/src/cashier/app.js:122 | definition of `item.price * item.quantity` |
| `Cart.NewLine` | WUPOS/src/cashier/app.js:105-110 | definition of the pushed line; stated by `Cart.AddLineAbsent` |
| `Cart.AddLine` | WUPOS/src/cashier/app.js:100-111 | definition of the merge-or-append; properties in `Cart.AddLineExisting`, `Cart.AddLineAbsent`, `Cart.AddLinePreservesWellformed` and `Cart.AddLineSubtotal` |
| `Cart.UnitPrice` | WUPOS/src/cashier/app.js:102-108 | definition of the price the next unit is charged at; properties in `Cart.AddLineSubtotal` and `Cart.AddedUnitPrice` |
| `Cart.IndexOf` | WUPOS/src/cashier/app.js:100 | `find` returns the first line with the barcode, and nothing exactly when no line has it |
| `Cart.IndexOfFirst` | WUPOS/src/cashier/app.js:100 | a line with the barcode and none before it is the one `find` returns |
| `Cart.Without` | WUPOS/src/cashier/app.js:157 | the filter never yields more lines than it was given |
| `Cart.WithoutMembers` | WUPOS/src/cashier/app.js:157 | the filter keeps exactly the lines whose barcode differs from the removed one |
| `Cart.AddLineExisting` | WUPOS/src/cashier/app.js:100-103 | scanning a barcode the cart holds adds exactly one unit to that line; line count, order and all other lines unchanged |
| `Cart.AddLineAbsent` | WUPOS/src/cashier/app.js:104-111 | scanning a new barcode appends one line at the end with that barcode, the product's name and price, quantity 1 |
| `Cart.AddLinePreservesWellformed` | WUPOS/src/cashier/app.js:98-111 | adding keeps one line per barcode and quantities ≥ 1, keeps every line, never refreshes a line's name or price, and leaves a line for the barcode |
| `Cart.AddTwiceMerges` | WUPOS/src/cashier/app.js:98-111 | scanning a new barcode twice yields one line of quantity 2, not two lines |
| `Cart.AddedUnitPrice` | WUPOS/src/cashier/app.js:100-103 | once a barcode has a line, further units are charged at the line's snapshot price whatever product is passed |
| `Cart.AddLineKeepsOtherIndex` | WUPOS/src/cashier/app.js:100-111 | adding one barcode does not move the line of any other barcode |
| `Cart.SubtotalAppend` | WUPOS/src/cashier/app.js:121-123 | the subtotal of two concatenated carts is the sum of their subtotals |
| `Cart.SubtotalUpdate` | WUPOS/src/cashier/app.js:121-123 | replacing one line changes the subtotal by the difference of the two line totals |
| `Cart.BumpSubtotal` | WUPOS/src/cashier/app.js:102-103 | one more unit on a line raises the subtotal by that line's price |
| `Cart.PushSubtotal` | WUPOS/src/cashier/app.js:104-111 | pushing a line raises the subtotal by that line's total |
| `Cart.SubtotalSplit` | WUPOS/src/cashier/app.js:121-123 | dropping line i lowers the subtotal by exactly that line's total |
| `Cart.AddLineSubtotal` | WUPOS/src/cashier/app.js:98-113 | every add raises the subtotal by exactly one unit price: the existing line's price, else the product's |
| `Cart.AddOrderIrrelevant` | WUPOS/src/cashier/app.js:98-123 | two scans give the same subtotal in either order |
| `Cart.WithoutAbsent` | WUPOS/src/cashier/app.js:157 | removing a barcode no line has leaves the items unchanged |
| `Cart.WithoutAppend` | WUPOS/src/cashier/app.js:157 | the filter distributes over concatenation |
| `Cart.WithoutPresent` | WUPOS/src/cashier/app.js:156-158 | removing the barcode of line i yields the other lines in their original order, and lowers the subtotal by line i's total |
| `Cart.DropPreservesWellformed` | WUPOS/src/cashier/app.js:156-157 | dropping one line of a well-formed cart keeps it well-formed and leaves no line with the dropped barcode |
| `Cart.WithoutPreservesWellformed` | WUPOS/src/cashier/app.js:156-157 | removing keeps one line per barcode and quantities ≥ 1, and leaves no line with the barcode |
| `Cashier.CashCoversTotal` | WUPOS/src/cashier/app.js:126-127 | an amount covers subtotal + 8.5 % tax exactly when 1000 × amount ≥ 1085 × subtotal, in whole cents |
| `Cashier.TotalsMatch` | WUPOS/src/cashier/app.js:120-128 | definition of the totals invariant: subtotal = Σ price × quantity, tax = subtotal × 0.085, total = subtotal + tax |
| `Cashier.Transaction.Valid` | WUPOS/src/cashier/app.js:98-128 | definition of the transaction invariant: one line per barcode, quantities ≥ 1, and `Cashier.TotalsMatch`; kept by every method |
| `Cashier.SampleItems` | WUPOS/src/cashier/app.js:98-123 | mug, mug, notebook give one line of 2 mugs and one notebook line, subtotal 34.48 |
| `Cashier.SampleScans` | WUPOS/src/cashier/app.js:72-80 | scanning those barcodes at the till leaves those lines with subtotal 34.48, tax 2.9308, total 37.4108 |
| `Cashier.SampleCashPayment` | WUPOS/src/cashier/app.js:183-192 | client of the payment contracts: 30.00 is refused with the two lines kept, 40.00 pays with change 258.92 cents and clears |
| `Cashier.Transaction.constructor` | WUPOS/src/cashier/app.js:4-9 | a new transaction has no items and zero subtotal, tax and total |
| `Cashier.Transaction.CalculateTotals` | WUPOS/src/cashier/app.js:120-128 | afterwards subtotal = Σ price × quantity, tax = subtotal × 0.085, total = subtotal + tax; items untouched |
| `Cashier.Transaction.ClearTransaction` | WUPOS/src/cashier/app.js:222-228 | the transaction is empty with zero totals |
| `Cashier.Transaction.AddItemToCart` | WUPOS/src/cashier/app.js:98-113 | items become the merged-or-appended cart, the invariant and consistent totals hold, the subtotal rises by one unit price |
| `Cashier.Transaction.RemoveItem` | WUPOS/src/cashier/app.js:156-158 | items lose exactly the barcode's line in order; absent barcode changes nothing; subtotal falls by the line's total; totals consistent |
| `Cashier.Transaction.ProcessBarcode` | WUPOS/src/cashier/app.js:72-80 | a known barcode is added with its catalog product; an unknown one leaves the transaction unchanged and reports it |
| `Cashier.Transaction.ShowProductSelection` | WUPOS/src/cashier/app.js:266-279 | an in-range index adds that candidate; any other index changes nothing and shows nothing |
| `Cashier.Transaction.SearchProduct` | WUPOS/src/cashier/app.js:82-96 | no match changes nothing; one match adds it exactly as scanning its barcode would; several matches add the selected candidate with its notice, or nothing for an out-of-range index |
| `Cashier.Transaction.CompleteTransaction` | WUPOS/src/cashier/app.js:212-220 | the transaction is cleared |
| `Cashier.Transaction.ProcessCashPayment` | WUPOS/src/cashier/app.js:183-192 | succeeds iff the amount received ≥ total, with change = amount − total ≥ 0 and a cleared transaction; otherwise nothing changes |
| `Cashier.Transaction.ProcessCardPayment` | WUPOS/src/cashier/app.js:194-201 | the card payment succeeds for the total and the transaction is cleared |
| `Cashier.Transaction.ProcessMobilePayment` | WUPOS/src/cashier/app.js:203-210 | the mobile payment succeeds for the total and the transaction is cleared |
| `Cashier.Transaction.ProcessPayment` | WUPOS/src/cashier/app.js:162-181 | an empty cart changes nothing; cash succeeds iff the amount ≥ total, i.e. 1000 × amount ≥ 1085 × subtotal in whole cents; card and mobile settle the current total; an unknown method does nothing |

## Left out

- DOM rendering (`updateCartDisplay`, `initializeInterface`), the `.focus()` calls and the event-listener wiring, including the listeners' own empty-input guard: user interface only.
- `showNotification` and `updateClock`: display, timers and wall-clock time; the model returns the message as a `Notice` instead.
- The second message of `completeTransaction` ("Transaction completed successfully!") and its `console.log`: display and logging only.
- The 2- and 3-second `setTimeout` of card and mobile payment: modelled as immediate success, so the cart edits and repeated payments that the delay lets through are not modelled.
- `prompt`, `parseFloat` and `parseInt`: the cash amount and the selection index arrive already parsed.
- JavaScript floating-point arithmetic and `toFixed(2)`: money is integer cents and the tax an exact fraction.
- `ProductCatalog.Lookup`: only the object's own keys are found; `productDatabase[barcode]` also finds inherited `Object.prototype` members (`constructor`, `toString`, `valueOf`, `hasOwnProperty`, `__proto__`), which the source would push as a line with an undefined price, making the totals NaN and refusing every cash payment until the line is removed.
- `ProductCatalog.Matches`: lower-cases ASCII letters only, where `toLowerCase` also folds other Unicode letters.
- `Cashier.Transaction.AddItemToCart`: the source bumps the quantity on the existing line object in place; the model replaces that element of the items sequence (no other reference to a line exists in this code).
- `Cashier.Transaction.ClearTransaction`: the source replaces the whole transaction object; the model resets the fields of the one object.
- How `Object.entries` derives its order from the keys: the order is a parameter of the catalog.
