# Petrology front end: forms, list pages and slip reports, in Dafny

This project models the logic of the Petrology front end: a React app for a
fuel station's back office that talks to a REST backend. The model covers
three kinds of page, each with the event handlers written as pure functions
from one page state to the next:

- **Data-entry forms.** These are the purchase invoice, the metered sale and the credit voucher.
  - They edit a table of lines by position: append a blank line, remove the line at an index, or assign one field of the line at an index.
  - The purchase and sale forms derive totals from the lines.
  - Each form builds a request body from the lines.
- **List pages.** These are stocked items, customers, purchases and sales.
  - A confirmed delete filters the list by id.
  - A confirmed save puts the dialog's copy in place of the record with its id.
  - A refused or failed request leaves the list alone.
  - Edits in a dialog change the copy and never the list.
  - The items dialog stores the fields whose key names a rate, stock, level or percentage as numbers.
  - The customers list shows the cash balance without its sign.
  - The purchases list labels each balance Receivable or Payable.
- **Slip reports.** These are the lines of text the purchase and sale list pages hand to the PDF library.
  - A header, then one numbered row per item, 6 units apart.
  - Fixed or evenly spaced columns.
  - "N/A" where a value is falsy.
  - The totals at the end.
  - Every line sits below the ones before it.

JavaScript's values are modelled explicitly, in module `JsValues`:

- `undefined`, `null`, booleans, numbers (a real or NaN) and strings.
- Truthiness and `||`.
- `===` (NaN is not equal to itself).
- `parseFloat`, a longest-prefix decimal scanner.
- `Number(text)`.
- The `find`, `filter` and `map` array methods.

Form inputs are the strings the DOM hands over, so the model keeps every
difference between `parseFloat(x) || 0`, `Number(x)` and `Number(x) || 0`.

Modules:

- `JsValues`: the JavaScript values and conversions.
- `LineEditor`: the positional editor and its sums.
- `PurchaseForm`, `SaleForm`, `CreditVoucher`: the three forms.
- `RecordList`: the list reconciliation the four list pages share.
- `ItemView`, `CustomerView`, `PurchaseView`, `SaleView`: the list pages.
- `ReportLayout`: lines, anchors and tables of a report.

## Model

| member | source | states |
|---|---|---|
| LineEditor.Append | src/pages/purchase/index.js:117-126 | adding a line makes the table one longer, keeps every earlier line in place and puts the blank line last |
| LineEditor.RemoveAt | src/pages/purchase/index.js:128-132 | `splice(i, 1)` drops exactly line i: lines before i stay put, lines after it move up one, and an index past the end changes nothing |
| LineEditor.UpdateAt | src/pages/purchase/index.js:238-242 | assigning into line i of a copy changes line i only; the length and every other line are kept |
| LineEditor.RemoveUndoesAppend | src/pages/sale/index.js:105-113 | removing the line just added restores the table (remove-at inverts append) |
| LineEditor.RemoveAtMultiset | src/pages/sale/index.js:109-113 | a removal loses line i and nothing else: the lines left, plus line i, are the lines before, each exactly once |
| LineEditor.RemoveAtKeepsOrder | src/pages/purchase/index.js:128-132 | any two surviving lines keep their relative order |
| LineEditor.RemoveForgetsUpdate | src/pages/purchase/index.js:128-132 | editing a line and then removing it leaves the same table as removing it unedited |
| LineEditor.ReduceIsSum | src/pages/purchase/index.js:60-64 | the left fold from 0 that the page runs equals the sum of the line amounts |
| LineEditor.TotalIsSum | src/pages/sale/index.js:51-57 | a fold over numbers that may be NaN equals the sum when every amount is a number, and is NaN as soon as one is not |
| LineEditor.SumConcat | src/pages/purchase/index.js:60-64 | the sum over two tables joined is the sum of their sums |
| LineEditor.SumPointwise | src/pages/purchase/index.js:83-90 | two tables of equal length whose lines have equal amounts position by position have equal sums |
| LineEditor.SumAppend | src/pages/purchase/index.js:117-126 | an appended line adds exactly its own amount to the sum |
| LineEditor.SumRemoveAt | src/pages/purchase/index.js:128-132 | a removed line takes exactly its own amount out of the sum |
| LineEditor.SumUpdateAt | src/pages/purchase/index.js:238-242 | an edited line changes the sum by its new amount minus its old one |
| LineEditor.TotalAppend | src/pages/sale/index.js:105-107 | appending to a NaN-aware fold adds the new line's amount, NaN included |
| LineEditor.TotalRemoveAt | src/pages/sale/index.js:109-113 | when every line is priced, removing line i keeps them priced and subtracts its amount from the total |
| LineEditor.TotalUpdateAt | src/pages/sale/index.js:191-194 | when every line and the new line are priced, an edit changes the total by new minus old amount |
| JsValues.Find | src/pages/sale/index.js:53 | `find` answers nothing exactly when no element matches, and otherwise answers a matching element of the list |
| JsValues.Filter | src/pages/home/view.js:58 | `filter` keeps only elements that pass and adds nothing; each element that passes survives as many times as it occurs in the list, and one that fails not at all |
| JsValues.FilterConcat | src/pages/home/view.js:58 | filtering two lists joined is joining their filtered lists, so the survivors keep their order |
| JsValues.NumberAgreesWithParseFloat | src/pages/purchase/index.js:85-88 | whenever `Number(s)` reads a number, `parseFloat(s)`, with NaN read as 0, gives the same number |
| JsValues.RenderNatRoundTrip | src/pages/voucher/cr_account.js:80 | both conversions read back the digits of any natural number exactly |
| JsValues.TrailingPointRoundTrip | src/pages/home/view.js:171 | the digits of a natural number followed by "." still read as that number under both conversions |
| JsValues.OneDecimalRoundTrip | src/pages/home/view.js:171 | the digits of n, a point and a digit d read as n + d/10 |
| PurchaseForm.ApplyEdit | src/pages/purchase/index.js:218-222 | each cell's handler assigns its own field of the line and no other |
| PurchaseForm.NetAmount | src/pages/purchase/index.js:60-64 | the net amount is the sum over lines of quantity times purchase rate, each read by `parseFloat` with a non-number counting 0, and 0 for no lines |
| PurchaseForm.TotalsOf | src/pages/purchase/index.js:66-67 | the discount is net times percentage over 100 and is a number exactly when the percentage is; the balance, discount and payment add back up to the net, and the balance is a number exactly when both inputs are |
| PurchaseForm.ComputeTotals | src/pages/purchase/index.js:36-37 | the totals are computed from the sum of line amounts, with a blank discount percentage or payment read as 0 |
| PurchaseForm.EmptyTotals | src/pages/purchase/index.js:59-72 | no lines and blank header fields give net, discount and balance 0 |
| PurchaseForm.ExampleTotals | src/pages/purchase/index.js:59-72 | 2 at rate 10 with a 10% discount and a payment of 5 give net 20, discount 2, balance 13 |
| PurchaseForm.AddItem | src/pages/purchase/index.js:117-126 | "Add Item" appends a blank line, keeps the others, and leaves the net amount unchanged |
| PurchaseForm.RemoveItem | src/pages/purchase/index.js:128-132 | "Remove" drops line i, keeps the rest in order, and takes that line's amount out of the net |
| PurchaseForm.EditLine | src/pages/purchase/index.js:238-242 | a cell edit changes only that field of line i, and the net moves by the change in that line's amount |
| PurchaseForm.EditOutsideTotals | src/pages/purchase/index.js:218-222 | editing the item name, sale rate or description of a line never changes any total |
| PurchaseForm.BuildPayload | src/pages/purchase/index.js:74-91 | the body keeps the header text fields, sends the discount percentage and payment as `Number` reads them with NaN (a non-number) as 0 and a blank field as 0, sends the effect's net and discount, and maps the lines one to one and in order |
| PurchaseForm.ItemAmountAgrees | src/pages/purchase/index.js:88 | on a line both of whose fields are numbers, the row amount sent is the amount the net counted |
| PurchaseForm.PayloadAmountsAddUp | src/pages/purchase/index.js:80-90 | when every line is numeric, the request rows' amounts add up to the net amount sent, although they are computed with `Number` and the net with `parseFloat` |
| PurchaseForm.PayloadDiscountConsistent | src/pages/purchase/index.js:78-79 | for a percentage both conversions read, the discount sent is that percentage of the net sent |
| SaleForm.ApplyEdit | src/pages/sale/index.js:191-194 | each cell's handler assigns its own field of the line and no other |
| SaleForm.UnitPrice | src/pages/sale/index.js:53-54 | a line naming no stocked item is priced 0 |
| SaleForm.UnitPriceOfFirstMatch | src/pages/sale/index.js:53-54 | the price is that of the first stocked item whose id is `===` the line's, with a falsy price read as 0 |
| SaleForm.NetAmountIsSum | src/pages/sale/index.js:51-57 | the net amount is the sum of quantity times unit price when every line is priced, and NaN exactly when some line is not |
| SaleForm.UnmatchedLineIsFree | src/pages/sale/index.js:53-56 | a line whose item is not stocked contributes 0, whatever its readings |
| SaleForm.BlankReadings | src/pages/sale/index.js:55 | each reading on its own: a blank or unreadable previous reading counts as 0, so the quantity is what the current reading reads as, and a blank or unreadable current reading counts as 0, so the quantity is minus what the previous one reads as |
| SaleForm.ReadingsBackwards | src/pages/sale/index.js:55 | the quantity is not clamped: current 2 after previous 5 sells -3 |
| SaleForm.BlankLineIsFree | src/pages/sale/index.js:106 | the blank line reads 0 units (its empty readings count 0 at src/pages/sale/index.js:55), so its amount is a number exactly when the price of the item "" is one, and then it is 0 |
| SaleForm.AddItem | src/pages/sale/index.js:105-107 | "Add New Item" appends a blank line and keeps the others. The net amount stays unchanged when the price of the item "" is a number, and becomes NaN when it is not |
| SaleForm.RemoveItem | src/pages/sale/index.js:109-113 | "Remove" drops exactly line i and keeps the rest in order; an index past the end changes nothing |
| SaleForm.RemoveItemNet | src/pages/sale/index.js:109-113 | on priced lines, the removed line's amount leaves the net amount |
| SaleForm.EditLine | src/pages/sale/index.js:191-194 | a cell edit changes only that field of line i, and on priced lines the net moves by that line's change |
| SaleForm.BuildPayload | src/pages/sale/index.js:60-79 | bank and account are sent exactly when paid online; the credit note is sent exactly when net exceeds cash; lines map one to one and in order |
| SaleForm.CreditSentIffShown | src/pages/sale/index.js:73 | the credit note is sent exactly when the page showed the credit field (`showCredit`), for every cash text; a blank cash is never sent, because the field is required (src/pages/sale/index.js:255) |
| SaleForm.ItemsCarryQuantities | src/pages/sale/index.js:74-78 | on readable lines, each request row's reading difference is the quantity the net was computed from |
| CreditVoucher.SetField | src/pages/voucher/cr_account.js:41 | assigning by input name changes that field of the row and no other |
| CreditVoucher.ChangeDetail | src/pages/voucher/cr_account.js:39-43 | a change updates one field of row i; every other row, every other field and the header are kept |
| CreditVoucher.AddDetail | src/pages/voucher/cr_account.js:45-47 | one blank row is appended after the earlier rows, which are kept |
| CreditVoucher.ResetForm | src/pages/voucher/cr_account.js:63-68 | reset clears voucher number, account and description and restores exactly one blank row |
| CreditVoucher.ResetForgets | src/pages/voucher/cr_account.js:63-68 | reset forgets every edit: any two forms reset alike, and resetting again changes nothing |
| CreditVoucher.BuildPayload | src/pages/voucher/cr_account.js:72-82 | the body keeps the header and maps rows one to one and in order, with fields renamed and the debit read by `parseFloat` |
| CreditVoucher.DebitRoundTrip | src/pages/voucher/cr_account.js:80 | a debit typed as a natural number is sent as that number |
| CreditVoucher.BlankDebitIsNaN | src/pages/voucher/cr_account.js:80 | `parseFloat` reads a blank debit as NaN, not 0; the required input (src/pages/voucher/cr_account.js:259) keeps a blank debit from being sent |
| CreditVoucher.Submit | src/pages/voucher/cr_account.js:90-94 | an accepted voucher resets the form; a refused or failed one leaves it untouched |
| CreditVoucher.SubmitStartsOver | src/pages/voucher/cr_account.js:29 | after an accepted voucher the form is in its initial state of one blank row |
| RecordList.DeleteById | src/pages/home/view.js:58 | the list after a delete holds no record with that id and adds nothing; every record with another id survives as many times as it was listed |
| RecordList.DeleteKeepsOrder | src/pages/customer/view.js:62 | survivors keep their order: deleting from two halves and joining is deleting from the whole |
| RecordList.DeleteIdempotent | src/pages/home/view.js:58 | deleting twice is deleting once, and deleting an id no record has changes nothing |
| RecordList.ReplaceById | src/pages/home/view.js:80 | a save keeps the length, puts the copy where the id matches, and leaves every other record as it was |
| RecordList.ReplaceKeepsIds | src/pages/customer/view.js:84 | a save never changes which id sits at which position |
| RecordList.ReplaceThenDelete | src/pages/home/view.js:58-80 | saving twice is saving once, and a delete after a save of that record equals the delete alone |
| RecordList.HandleEdit | src/pages/home/view.js:43-46 | opening the dialog sets the copy and leaves the list untouched |
| RecordList.SetSelected | src/pages/home/view.js:165-166 | a change event sets one key of the copy; a missing copy spreads as empty, so the new copy holds that key alone; the list and every other key stay |
| RecordList.SetText | src/pages/customer/view.js:159-161 | a change event stores the typed text under its key and leaves the list alone |
| RecordList.HandleSave | src/pages/home/view.js:69-88 | a confirmed save replaces by id and closes the dialog; a refused or failed save, or one with no copy, changes nothing |
| RecordList.HandleDelete | src/pages/home/view.js:48-67 | only a confirmed delete touches the list; a refused or failed one leaves the page as it was |
| RecordList.DeleteAlert | src/pages/customer/view.js:63-70 | no alert exactly when the delete went through; a refusal shows the backend's error or the default message; a failure shows the fixed message |
| RecordList.AlertOrDeleted | src/pages/home/view.js:56-66 | every delete either filters the list or alerts and leaves the page unchanged, never both and never neither |
| RecordList.EditsLeaveListAlone | src/pages/home/view.js:164-173 | any number of dialog edits leave the list and the dialog's open state as they were |
| RecordList.EditThenSave | src/pages/customer/view.js:83-85 | editing one field of a listed record and saving puts the new value in exactly that record's place, with the rest unchanged, for any id no other record has that `===` can match (anything but NaN) |
| ItemView.IncludesFromOccurs | src/pages/home/view.js:167-170 | `includes` answers true exactly when the word occurs at some position |
| ItemView.Coerce | src/pages/home/view.js:167-172 | a key naming a rate, stock, level or percentage stores `parseFloat(text)`, or 0 when it does not parse; any other key stores the text |
| ItemView.DialogKeyKinds | src/pages/home/view.js:167-170 | of the ten dialog keys exactly the six rate, stock, level and percent keys are numeric; the quantity per packet stays text |
| ItemView.EditField | src/pages/home/view.js:164-173 | a change event stores the coerced value under its key and leaves the list alone |
| ItemView.NumericKeystroke | src/pages/home/view.js:163-171 | a keystroke into a numeric field holding n sends the digits of n plus the key, and stores what `parseFloat` reads from them |
| ItemView.DecimalPointLost | src/pages/home/view.js:163-173 | as written, typing a digit, a point and a digit into an empty numeric field stores 10n + d |
| ItemView.DecimalRateLost | src/pages/home/view.js:164-173 | as written, typing "1.5" into an empty purchase rate stores 15, though `parseFloat("1.5")` is 1.5 |
| ItemView.CoerceRecord | src/pages/home/view.js:167-172 | corrected: the numeric keys are read from their text once, at save time, and no other value changes |
| ItemView.TypedTextKept | src/pages/customer/view.js:158-161 | storing the text typed leaves exactly the typed text in the field, keystroke after keystroke |
| ItemView.TypedNumberSaved | src/pages/home/view.js:167-172 | corrected: whatever number the typed text reads as is the number saved |
| ItemView.DecimalRateKept | src/pages/home/view.js:164-173 | corrected: typing "1.5" into an empty purchase rate and saving stores 1.5 |
| CustomerView.CashCellOf | src/pages/customer/view.js:123 | the cell shows the balance type and the magnitude of the balance, a number exactly when the balance reads as one |
| CustomerView.CashCellDropsSign | src/pages/customer/view.js:123 | a balance and its negation show the same amount, so only the type tells debit from credit |
| CustomerView.EditField | src/pages/customer/view.js:159-161 | a change event stores the text under its key; every other key of the copy and the list are kept |
| CustomerView.CashEditShown | src/pages/customer/view.js:83-85 | after editing and saving a cash balance, that row shows the magnitude of the text's number under its old type, and every other row shows what it did; this holds for any id no other record has, unless it is NaN |
| CustomerView.ClearedCashShowsZero | src/pages/customer/view.js:123 | a cleared and saved cash balance shows 0 |
| PurchaseView.BalanceLabelOf | src/pages/purchase/view.js:213-215 | the label is Receivable with the balance exactly when the balance reads as a number at least 0; otherwise it is Payable with its magnitude |
| PurchaseView.BalanceMagnitude | src/pages/purchase/view.js:213-215 | a numeric balance shows its magnitude under either label, and a payable amount is positive |
| PurchaseView.UnreadableBalanceIsPayable | src/pages/purchase/view.js:213-215 | a balance that is not a number is labelled Payable with a NaN amount |
| PurchaseView.HandleDelete | src/pages/purchase/view.js:53-69 | a successful delete filters out the id; otherwise the page is unchanged |
| PurchaseView.Header | src/pages/purchase/view.js:103-119 | the title centred on line 20, the two numbers at either margin on 35, then eight fields 7 apart down to 91 |
| PurchaseView.ItemRow | src/pages/purchase/view.js:137-144 | the definition of row k, stated field by field: its number k + 1, then the item's five fields in order; what it means for the report is stated by `PurchaseView.GenerateReport` |
| PurchaseView.ItemRows | src/pages/purchase/view.js:136-151 | one row per item, in the items' order |
| PurchaseView.AmountRow | src/pages/purchase/view.js:161-163 | each of payment, discount and balance shows its value when truthy and "N/A" otherwise |
| PurchaseView.ZeroAmountsReadNA | src/pages/purchase/view.js:161-163 | each amount on its own: a payment, a discount or a balance of 0 reads "N/A", not 0 |
| PurchaseView.PaymentSection | src/pages/purchase/view.js:154-181 | title, headings 50 apart, amounts and (only when truthy) the total amount, in that order and going down the page |
| PurchaseView.GenerateReport | src/pages/purchase/view.js:91-187 | the report is the header, the headings on line 105, item k on line 111 + 6k, then the payment section; every line is below the one before; the file is named by the purchase number |
| ReportLayout.Row | src/pages/purchase/view.js:146-148 | the definition of a table row, stated cell by cell: cell i at column i's x, all on the row's y; the table's layout is stated by `ReportLayout.TableLines` |
| ReportLayout.Spaced | src/pages/sale/view.js:94-96 | the definition of evenly spaced columns: column i at 14 + i times the step; the slip's layout is stated by `SaleView.SlipLayout` |
| ReportLayout.ConcatDescending | src/pages/sale/view.js:107-110 | two descending parts, the first wholly above the second, make a descending whole |
| ReportLayout.TableLines | src/pages/sale/view.js:100-105 | the table is one line per row, row k on line y0 + 6k, going down the page |
| ReportLayout.Table | src/pages/purchase/view.js:136-151 | the `forEach` loop writes exactly the table's lines and leaves y 6 below the last row |
| ReportLayout.TableShift | src/pages/sale/view.js:128-133 | a table placed between other lines keeps its rows in place |
| SaleView.HandleDelete | src/pages/sale/view.js:147-161 | a successful delete filters out the id; otherwise the page is unchanged |
| SaleView.Header | src/pages/sale/view.js:60-78 | the title on line 20, slip number and date at either margin on 35, four fields 7 apart, and "Items" on 75 |
| SaleView.ItemRow | src/pages/sale/view.js:84-92 | the definition of row k, stated field by field: its number k + 1, then the item's six fields in order; what it means for the slip is stated by `SaleView.SlipLayout` |
| SaleView.AmountRow | src/pages/sale/view.js:114-120 | account and bank show "N/A" when falsy, the online flag shows "Yes" or "No" |
| SaleView.CashPaymentRow | src/pages/sale/view.js:114-120 | a cash payment as the sale form saves it (null bank and account, not online) reads "N/A", "N/A", "No" |
| SaleView.Totals | src/pages/sale/view.js:135-141 | the three totals 10 below the amounts and 6 apart |
| SaleView.SlipLayout | src/pages/sale/view.js:60-141 | item k on line 86 + 6k, the amounts title and headings below the last item, amount m 6 apart below those, the totals last, every line below the one before |
| SaleView.SlipReport | src/pages/sale/view.js:84-143 | a report exists exactly when the slip has both items and amounts, and is saved as `sales_slip_` plus the slip number |
| SaleView.GenerateReport | src/pages/sale/view.js:50-51 | nothing is produced until a slip has been selected |
| SaleView.DownloadClicked | src/pages/sale/view.js:188 | as written, a row's download button reports the slip last opened, whichever row it is on |
| SaleView.DownloadIgnoresRow | src/pages/sale/view.js:188 | as written, every row's button gives the same report |
| SaleView.WrongSlipDownloaded | src/pages/sale/view.js:188 | with S-1 opened, the button on the row of S-2 saves sales_slip_S-1.pdf |
| SaleView.DownloadRow | src/pages/purchase/view.js:91-96 | corrected: the button fetches its own row's slip by id and reports that slip, or nothing if the request fails |
| SaleView.DownloadNamesRow | src/pages/purchase/view.js:91-96 | corrected: the report does not depend on the slip last opened, and names the row's own slip number |

## Left out

- HTTP requests, response parsing and the Content-Type checks are left out. The outcome of a request enters the model as an input: `ok`, a `DeleteOutcome`, or a lookup function for the slip a row's id fetches.
- React state, hooks and re-rendering are left out; each handler is a function from the page's state to the next one. `watch` is modelled by the text of the field it watches.
- Overlapping requests are not modelled: each handler runs to completion on the state it started from. On the items, customers and sales pages (src/pages/home/view.js:58,80, src/pages/customer/view.js:62,84, src/pages/sale/view.js:154) the new list is computed from the `data` captured at the click. A later response therefore overwrites the list with one built from that older state (last write wins), and a second delete in flight can bring back the record the first one removed. The purchases page uses the updater form (src/pages/purchase/view.js:60) and does not lose updates that way; `PurchaseView.HandleDelete` and `SaleView.HandleDelete` agree only when requests do not overlap.
- Form validation is left out: the native `required` debit input (src/pages/voucher/cr_account.js:259) and the fields registered as required (src/pages/sale/index.js:132-158,255 and src/pages/purchase/index.js:147,159). `CreditVoucher.BuildPayload`, `SaleForm.BuildPayload` and `PurchaseForm.BuildPayload` are also defined for inputs that validation rejects. In a request the page actually sends, the required fields are never blank.
- `alert` and console output are left out, except the text of the delete alert on the items and customers pages (`RecordList.DeleteAlert`). Success alerts carry no state.
- PDF rendering is left out: fonts, font sizes, bold text and page breaks. The page width is not a number here. A centred or right-aligned text is an anchor (`PageCentre`, `RightMargin`) that stands for `pageWidth / 2` and `pageWidth - 14`.
- Date formatting (`toLocaleDateString`, `toLocaleString`) is locale-dependent. It stays an uninterpreted text of the value (`LocaleDate`, `LocaleDateTime`).
- Template interpolation `${value}` and `String(cell)` are kept as texts holding the value. How JavaScript spells a number as a string is not modelled.
- Numbers are reals or NaN. IEEE rounding, Infinity, -0 and hex, octal and binary literals are not modelled. The scanner accepts leading white space, an optional sign, digits, one decimal point and an optional exponent (`e` or `E`, an optional sign, digits). White space is the set JavaScript trims: the ASCII spaces and line breaks, no-break space, byte order mark, the Unicode space separators and the two Unicode line separators.
- JSON encoding is left out. A NaN is sent as `null`; the model keeps the NaN.
- `JsValues.NumberText`: renders only whole non-negative numbers. `ItemView.Shown` answers None for other numbers, so the keystroke lemmas speak only of fields that hold a whole number or text.
- `LineEditor.UpdateAt`: requires the index to be within the table. In JavaScript an out-of-range index throws on `newItems[index].field`, and the row's handlers only exist for rows that are there.
- `ItemView.CoerceRecord`: leaves a value alone when it is not a string. Only text reaches it from the dialog.
- The voucher list, its details dialog, its PDF report and its delete handler (src/pages/voucher/cr_account.js:101 onwards) are left out. They repeat the fetch-and-filter pattern of the other list pages.
- `handleView` on the purchases and sales pages only fetches, and so does the start of the purchases page's `generateReport`. The slip or purchase fetched is an input: the `SaleSlip` selected, or the `PurchaseDetail` a report is built from. A failed fetch there throws before any text is written, so it produces no report at all.
- Reading the response body before checking `ok` on the items and customers pages is folded into the outcome. A body that cannot be read is `Failed`.
- src/pages/home/index.js and src/pages/customer/index.js are not part of this model; they forward form data to a POST. Nor is the navigation menu (src/navigation/vertical/index.js) or the build configuration (next.config.js).
- Supplier and customer selects and other option lists loaded at start-up enter as inputs: `available` in the sale form. The purchase form's item names are taken as typed.

## Findings

| source | as written | input that shows it | evidently intended | confidence | as-written member | corrected member |
|---|---|---|---|---|---|---|
| src/pages/home/view.js:164-173 | every keystroke in a rate, stock, level or percent field replaces the field with the number `parseFloat` reads from the text (0 for none), and the input then shows that number, so a trailing "." vanishes before the next digit | typing "1.5" into an empty purchase rate: "1" stores 1, "1." stores 1 (shown "1"), then "15" stores 15 | the field keeps the text typed and is read as a number once, so "1.5" is saved as 1.5 | not executed | ItemView.DecimalRateLost | ItemView.DecimalRateKept |
| src/pages/sale/view.js:188 | the download button of every row calls `generateReport` with the click event, and the function reports whichever slip the details dialog opened last | rows S-1 and S-2, S-1 opened in the dialog, then the download button on the row of S-2: the file saved is sales_slip_S-1.pdf | each row's button reports its own slip, fetched by the row's id, as the purchases page does | not executed | SaleView.WrongSlipDownloaded | SaleView.DownloadNamesRow |
