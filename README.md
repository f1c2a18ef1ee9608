# Point-of-sale core for a bedding and linen shop, in Dafny

The shop's application has three parts. Browser pages build bills and quotations from a
catalogue, search the invoice and quotation lists, and message customers. A small server
keeps three SQLite tables: items, invoices and quotations. A seeding script adds twelve
catalogue items and computes totals for three sample invoices and three sample quotations. This project models the computations and state changes these
parts perform and proves what they promise:

- **Tax engine.** Every price is GST-inclusive. The base price is `price × (100 − rate) / 100`,
  and the GST of a document is split into equal CGST and SGST halves. The total is
  `max(0, inclusive − discount)`. This is written once in `Money` and every page's
  accumulation loop is proved equal to it (`money.dfy`).
- **Draft documents.** The billing page's bill and the quotation page's draft are lists of
  lines edited in place. Adding an item merges by id, lines are removed by index, quantities
  never drop below 1, and per-unit discounts are clamped. A draft is submitted only after
  validation (`billing.dfy`, `quotations.dfy`).
- **Server store.** This covers the item, invoice and quotation handlers: autoincrement ids,
  400/404 rules and list orders. It also covers conversion of a quotation into an invoice,
  with optional deletion of the quotation (`store.dfy`), and the top-items report
  (`reports.dfy`).
- **Customer directory and WhatsApp number normalisation** on the welcome page (`welcome.dfy`).
- **List pages.** The search filter, the detail breakdown, and the confirm-then-request
  buttons (`listing.dfy`).
- **Catalogue page.** The MRP/discount price preview, the form checks and the request body
  (`items.dfy`).
- **Seeding script.** Its totals loop and the six sample documents' totals (`demo.dfy`).

Supporting modules:
- `Wrappers` holds `Option`/`Result` and the `x || fallback` idiom.
- `Text` holds `trim`, ASCII lower-casing, `includes` and digit stripping.
- `Sequences` holds order-preserving subsequences, `splice` and the keyed lookup of an insertion-ordered map.
- `Sorting` holds `Array.prototype.sort`, modelled as a stable descending insertion sort, and `slice`.

Modelling conventions:
- Money amounts are exact `real`s.
- `created_at` is an abstract integer timestamp passed in by the caller.
- A form field that `parseFloat` cannot read is `None`.
- A JavaScript `Map` or plain object that is filled in insertion order is a sequence of
  entries with distinct keys.

Where the code and the written description of the application differ, the model follows
the code:
- Conversion deletes the quotation only when the request's `deleteQuotation` flag is
  truthy. The quotation list page always sends it.
- The server stores the client's totals without recomputing them.
- Customer keys on the welcome page are the trimmed raw mobile strings, not normalised
  numbers. No duplicate-customer check exists.
- The quotation page submits totals at the listed price, ignoring per-unit discounts.
- The quotation page sends a GST number and an address, but the server does not store them.
- The catalogue page sends `mrp` but no `price`, so the server rejects every item it submits.
- The seeding script's invoice inserts (demo-data.js:145-146) name a `customer_gst` column,
  and its quotation inserts (demo-data.js:233-234) name `customer_gst` and `customer_address`.
  The tables created at server.js:42-75 have neither column, so SQLite refuses every sample
  invoice and quotation. The script only logs each refusal and still reports success
  (demo-data.js:147-149, 236-243). Only the items table is actually seeded; the six sample
  totals in `demo.dfy` are what the script computes, not rows it stores.

## Model

| member | source | states |
|---|---|---|
| Money.BasePrice | public/billing.js:135-137 | the base price plus `rate`% of the inclusive price gives back the inclusive price |
| Money.BasePriceBounds | public/billing.js:135-137 | for a non-negative price and a rate in 0..100, 0 ≤ base ≤ inclusive price |
| Money.Split | public/billing.js:198-204 | per line, baseTotal + gstAmount = inclusiveTotal = price × quantity |
| Money.GstIsRateOfInclusive | public/billing.js:200-203 | a line's GST amount is exactly `rate`% of its inclusive total |
| Money.Accumulate | public/billing.js:194-208 | the accumulated subtotal plus total GST equals the accumulated inclusive total; no lines give zeros |
| Money.AccumulateSnoc | public/billing.js:198-208 | one more line adds exactly that line's split to the three accumulators |
| Money.AccumulateBounds | public/billing.js:198-208 | for non-negative prices and quantities and rates in 0..100, 0 ≤ subtotal ≤ inclusive total and GST ≥ 0 |
| Money.Summarize | public/billing.js:210-218 | CGST = SGST, CGST + SGST = total GST, total = max(0, inclusive − discount), so never negative |
| Money.DocumentSummary | public/billing.js:193-219 | subtotal + CGST + SGST equals the lines' inclusive total; CGST = SGST; total ≥ 0 |
| Money.EmptySummary | public/billing.js:194-213 | an empty document has zero subtotal, CGST and SGST |
| Records.AsPriced | public/billing.js:198-203 | the engine sees each line at its listed price, rate and quantity, one entry per line |
| Records.FindById | public/billing.js:105 | `find` by id: the index of the first line with that id, or none exactly when no line has it |
| Records.SumLines | public/billing.js:194-208 | the accumulation loop returns exactly the engine's totals of the lines at listed price |
| Records.BumpKeepsIds | public/billing.js:108 | adding one unit to a line keeps the ids distinct |
| Records.RemoveKeepsIds | public/billing.js:127 | removing one line keeps the remaining ids distinct |
| Billing.NewBillLineDefaults | public/billing.js:109-118 | a catalogue item without mrp/discount enters the bill with quantity 1, mrp = price and discount 0 |
| Billing.Bill.constructor | public/billing.js:1 | a new bill is empty and valid |
| Billing.Bill.AddItem | public/billing.js:103-123 | an id already present gets quantity + 1 with every other line and the length unchanged; a new id appends one line of quantity 1; ids stay distinct |
| Billing.Bill.RemoveItem | public/billing.js:126-130 | the lines become `splice(index, 1)` of the old lines; ids stay distinct and quantities ≥ 1 |
| Billing.Bill.IncreaseQuantity | public/billing.js:177-181 | only line `index` changes, by one more unit |
| Billing.Bill.DecreaseQuantity | public/billing.js:184-190 | at quantity 1 nothing changes, otherwise only line `index` loses one unit; quantities stay ≥ 1 |
| Billing.Bill.CalculateTotal | public/billing.js:193-219 | the displayed totals are the engine's summary of the lines with the discount field read as `|| 0` |
| Billing.Bill.Submit | public/billing.js:222-275 | fails for an empty bill, then an empty trimmed name, then an empty trimmed mobile, in that order; otherwise posts the trimmed name and mobile, the lines and the same summary as displayed |
| Quotations.EffectivePrice | public/quotations.js:216-217 | the effective unit price is at least both 0 and price − discount and equals one of them, so it is max(price − discount, 0); it is at most the price for a non-negative discount |
| Quotations.EffectivePriced | public/quotations.js:214-221 | the on-screen engine sees each line at its effective price |
| Quotations.ClampDiscount | public/quotations.js:173-186 | a negative entry becomes 0; a non-negative entry at or above the price becomes price − 0.01; an entry in [0, price) is kept; for price ≥ 0.01 the result lies in [0, price) |
| Quotations.ClampBelowOnePaisa | public/quotations.js:181-182 | for a price below 0.01 the clamp stores a negative discount, so the effective price exceeds the price |
| Quotations.SumEffective | public/quotations.js:210-228 | the on-screen loop returns exactly the engine's totals at effective prices |
| Quotations.NullIfEmpty | public/quotations.js:291-292 | an empty trimmed GST number or address is sent as null, anything else as is |
| Quotations.SubmittedMatchesDisplayed | public/quotations.js:214-228 | with no per-unit discounts the submitted and displayed summaries coincide |
| Quotations.EffectiveInclusiveBelowListed | public/quotations.js:214-228 | with non-negative discounts the displayed inclusive total never exceeds the submitted one |
| Quotations.DiscountedInclusiveBelowListed | public/quotations.js:272-281 | one discounted line makes the displayed inclusive total strictly smaller than the submitted one |
| Quotations.SubmittedEqualsDisplayedIff | public/quotations.js:272-285 | submitted and displayed inclusive totals are equal exactly when no line carries a per-unit discount |
| Quotations.QuotationDraft.constructor | public/quotations.js:1 | a new draft is empty and valid |
| Quotations.QuotationDraft.AddItem | public/quotations.js:89-108 | merge by id (+1 on that line only), or append a line with quantity 1 and per-unit discount 0 |
| Quotations.QuotationDraft.RemoveItem | public/quotations.js:111-115 | the lines become `splice(index, 1)` of the old lines; ids stay distinct |
| Quotations.QuotationDraft.IncreaseQuantity | public/quotations.js:193-197 | only line `index` changes, by one more unit |
| Quotations.QuotationDraft.DecreaseQuantity | public/quotations.js:200-206 | never below 1; otherwise only line `index` loses one unit |
| Quotations.QuotationDraft.UpdateDiscount | public/quotations.js:173-190 | only line `index` changes, and only its per-unit discount, set to the clamped value |
| Quotations.QuotationDraft.CalculateTotal | public/quotations.js:209-239 | the displayed totals are the engine's summary at effective prices |
| Quotations.QuotationDraft.Create | public/quotations.js:242-299 | the three refusals in order; otherwise posts the trimmed fields, empty GST and address as null, and totals at the listed price |
| Store.Lookup | server.js:216-224 | a lookup by id finds nothing exactly when no row has the id; a found row has that id |
| Store.LookupAppended | server.js:188-191 | a row appended with a fresh id is found by that id, and other lookups are unaffected |
| Store.WithoutRow | server.js:339-349 | exactly the rows with that id are removed, the rest keep their order; nothing changes when the id is absent |
| Store.WithoutRowInOrder | server.js:339-349 | removing a row keeps the table in id order, the id is gone, and the table shrinks by one |
| Store.MatchingItems | server.js:81-91 | exactly the items whose name contains the search, each as often as in the table and in table order; an empty search gives every item |
| Store.SubsequenceAscending | server.js:91 | filtering keeps ascending id order |
| Store.CheckDocument | server.js:172-180 | 400 "customer required" for a missing name or mobile, else 400 "items required" for missing, non-array or empty items, else accepted |
| Store.Store.constructor | server.js:29-75 | the tables start empty with every counter at 1 |
| Store.Store.ListItems | server.js:81-100 | the matching items, in ascending id order; all items for an empty search |
| Store.Store.AddItem | server.js:103-122 | 400 and nothing changes unless name, gst and price are present; otherwise one row with the next id is appended and the counter advances |
| Store.Store.UpdateItem | server.js:125-149 | 400 for a bad body, 404 when no row has the id, else that row's fields replaced; other tables untouched |
| Store.Store.DeleteItem | server.js:152-166 | 404 when absent, else exactly that row removed |
| Store.Store.CreateInvoice | server.js:169-195 | the two 400 checks in order; otherwise exactly one new row with a fresh id holding the client's totals unchanged, found by that id |
| Store.Store.ListInvoices | server.js:198-210 | every invoice, in descending id order |
| Store.Store.GetInvoice | server.js:213-228 | 404 exactly when no invoice has the id, else that invoice |
| Store.Store.CreateQuotation | server.js:266-292 | the same checks and insert as invoices, into the quotations table |
| Store.Store.ListQuotations | server.js:233-245 | every quotation, in descending id order |
| Store.Store.GetQuotation | server.js:248-263 | 404 exactly when no quotation has the id, else that quotation |
| Store.Store.Convert | server.js:295-333 | 404 when the quotation is absent; otherwise a new invoice with the quotation's name, mobile, items and totals, and the quotation is still present iff `deleteQuotation` is false |
| Store.Store.DeleteQuotation | server.js:336-350 | 404 when absent, else exactly that row removed and the table one shorter; everything else unchanged |
| Sorting.SortDesc | server.js:457-458 | the sort returns a permutation of its input, ordered by key descending |
| Sorting.InsertSorted | server.js:458 | inserting into a descending sequence keeps it descending |
| Sorting.SortIsStable | server.js:458 | elements with equal keys keep their original relative order, as `Array.prototype.sort` guarantees |
| Sorting.Take | server.js:459 | `slice(0, n)` keeps the first min(n, length) elements |
| Sorting.TopOfSorted | server.js:457-459 | an element left out of the top n has a key no larger than every kept element's |
| Sorting.SortKeepsUniqueBy | public/welcome.js:50-52 | sorting keeps distinct keys distinct |
| Reports.TopItems | server.js:426-463 | the report is the top five of the per-name statistics, at most five entries, with distinct names, ordered by quantity descending |
| Sequences.FindLastKey | server.js:440 | the lookup of a key in an insertion-ordered map: none exactly when no entry has the key, otherwise an entry with that key and no later one |
| Reports.RecordInvoice | server.js:439-450 | the inner loop over one invoice's lines gives exactly the statistics after recording each line in turn |
| Reports.RecordLine | server.js:440-449 | one line updates the statistics as the `itemStats` branch does |
| Reports.RecordFacts | server.js:440-449 | names stay distinct, and a name has an entry iff it had one or is the line's name |
| Reports.RecordAmounts | server.js:441-447 | the line's name gains the line's quantity and price × quantity; other names are unchanged |
| Reports.StatsAreTotals | server.js:434-454 | per name: one entry, iff the name was sold, holding the sum of quantities and of price × quantity over all invoices |
| Reports.StatsPresence | server.js:436-450 | a name has an entry exactly when some invoice line carries it |
| Reports.TopHasLargest | server.js:457-459 | a sold name missing from the report sold no more than every reported item |
| Reports.TopUnique | server.js:457-459 | the report names each item at most once |
| Welcome.DisplayName | public/welcome.js:18 | an empty name shows as "Unknown", any other name as is |
| Welcome.LoadCustomers | public/welcome.js:3-52 | the two loops build the directory, sorted by last purchase descending, with one entry per mobile |
| Welcome.AddInvoice | public/welcome.js:16-31 | one invoice updates the map exactly as the invoice step of the directory does |
| Welcome.AddQuotation | public/welcome.js:36-46 | one quotation updates the map exactly as the quotation step of the directory does |
| Store.AppendKeepsValid | server.js:185-191 | an insert with the counter's id keeps the table in id order below the advanced counter, and the row is found by its id |
| Store.RemoveKeepsValid | server.js:339-349 | a delete keeps the table in id order, leaves no row with that id, and removes one row exactly when one existed |
| Welcome.SeeInvoiceStep | public/welcome.js:15-33 | a skipped blank mobile changes nothing; an unknown mobile is appended; a known one only has its date raised to the later of the two |
| Welcome.SeeQuotationStep | public/welcome.js:35-48 | a quotation only appends an unknown, non-blank mobile and never modifies an existing entry |
| Welcome.DirectoryUnique | public/welcome.js:13-48 | the directory has one entry per distinct trimmed mobile |
| Welcome.DirectoryEntry | public/welcome.js:15-48 | a mobile has an entry iff it is non-blank and appears on an invoice or quotation; invoice customers keep the first invoice's name and the latest invoice date; quotation-only customers take their first quotation's name and date |
| Welcome.SendWhatsApp | public/welcome.js:97-127 | an empty trimmed message is refused before the number is looked at; otherwise the link holds the normalised number and "Hi name! message", or the number is refused |
| Welcome.NormalizeShape | public/welcome.js:105-117 | an accepted number is always "91" followed by ten digits, twelve digits in all |
| Welcome.NormalizeIdempotent | public/welcome.js:105-117 | normalising an accepted number again gives the same number |
| Welcome.NormalizeRejectsLength | public/welcome.js:105-120 | fewer than 10 or more than 13 digits are always refused |
| Welcome.NormalizeKeepsTenDigits | public/welcome.js:111-116 | ten digits not starting with 0, even ones starting with "91", are kept whole behind "91" |
| Welcome.NormalizeCountryCodeVector | public/welcome.js:105-117 | "+91 9876543213" gives "919876543213" |
| Welcome.NormalizePunctuatedVector | public/welcome.js:105-117 | "(987) 654-3215" gives "919876543215" |
| Welcome.NormalizeHyphenVector | public/welcome.js:105-117 | "98765-43214" gives "919876543214" |
| Listing.Filter | public/invoices.js:63-67 | exactly the documents whose lower-cased name or mobile contains the term, each as often as in the list and in list order |
| Listing.Search | public/invoices.js:55-70 | a blank trimmed entry returns the list unchanged; otherwise exactly the matching documents, as an order-preserving subsequence, never longer |
| Listing.BreakdownRows | public/invoices.js:90-106 | one row per line with inclusive = price × quantity, base = base price × quantity, and base + GST = inclusive |
| Listing.WhatsAppTarget | public/invoices.js:302-307 | no link exactly when the mobile has no digit; otherwise the mobile's digits in order, every one of them (as many as the mobile's digit count), and nothing else |
| Text.DigitsKeepsEvery | public/invoices.js:302 | stripping every non-digit keeps exactly as many characters as the string has digits |
| Listing.ConvertAction | public/quotations-list.js:192-203 | a declined confirm sends nothing; an accepted one always asks for the quotation's deletion |
| Listing.DeleteAction | public/quotations-list.js:223-230 | a declined confirm sends nothing; an accepted one requests deletion of that id |
| Listing.ConvertFromList | public/quotations-list.js:192-220 | declining changes nothing; accepting turns an existing quotation into a new invoice and removes the quotation |
| Listing.DeleteFromList | public/quotations-list.js:223-244 | declining changes nothing; accepting removes exactly that quotation, or gives 404 |
| ItemsPage.ItemPrice | public/items.js:77-80 | price + mrp × discount / 100 = mrp; discount 0 gives mrp; mrp ≥ 0 and discount in 0..100 give 0 ≤ price ≤ mrp |
| ItemsPage.PriceField | public/items.js:81 | the price box is filled only when the computed price is positive, with that price |
| ItemsPage.FormPayload | public/items.js:93-109 | nothing is sent for a blank trimmed name or an unreadable GST or MRP; the body has the trimmed name and a discount only when positive |
| ItemsPage.AsItemRequest | public/items.js:109 | the body the server reads has name and gst but no price |
| ItemsPage.FormPayloadRejected | server.js:104-109 | every body the catalogue forms send is refused by the item handlers |
| ItemsPage.AddItemFromPage | public/items.js:93-127 | an incomplete form sends nothing; a complete one gets 400 and the catalogue is unchanged |
| ItemsPage.UpdateItemFromPage | public/items.js:177-210 | same outcome for the edit form, whatever the item id |
| ItemsPage.MrpCell | public/items.js:60 | the MRP column shows mrp, falling back to price when mrp is absent or 0 |
| ItemsPage.DiscountCell | public/items.js:61-67 | the discount column shows the discount when positive, otherwise '-' |
| ItemsPage.StoredItemCells | public/items.js:60-67 | an item as the server stores it shows its price as MRP and '-' as discount |
| Demo.Pick | demo-data.js:86-90 | a sample line carries the catalogue item's name, rate and price with the given quantity |
| Demo.SampleTotals | demo-data.js:117-135 | the seeding loop's totals are exactly the engine's summary, with CGST = SGST and a non-negative total |
| Demo.RajeshKumarInvoice | demo-data.js:86-94 | subtotal 5156, CGST = SGST = 522, total 6000 |
| Demo.PriyaSharmaInvoice | demo-data.js:95-103 | subtotal 4116, CGST = SGST = 342, total 4800 |
| Demo.AmitPatelInvoice | demo-data.js:104-113 | subtotal 4208, CGST = SGST = 396, total 4850 |
| Demo.SunitaReddyQuotation | demo-data.js:167-177 | subtotal 7134, CGST = SGST = 783, total 8400 |
| Demo.VikramSinghQuotation | demo-data.js:178-188 | subtotal 6528, CGST = SGST = 636, total 7800 |
| Demo.MeeraKrishnanQuotation | demo-data.js:189-200 | subtotal 8790, CGST = SGST = 855, total 10000 |

## Left out

- Floating point: amounts are exact reals, so double-precision drift and `toFixed(2)` display rounding are not modelled.
- Text.Lower: lower-cases ASCII letters only; JavaScript's full Unicode `toLowerCase` is not modelled.
- Store.MatchingItems: the SQL `LIKE` wildcards `%` and `_` typed inside a search are matched literally, and SQLite's case folding is taken as ASCII lower-casing.
- Date parsing: `created_at` is an abstract integer, so ISO-string parsing, invalid dates and the locale formatting of dates are not modelled.
- Reports.Stats: JavaScript's ordering of integer-like object keys and the special treatment of prototype names such as `__proto__` in `itemStats` are not modelled; names are kept in first-seen order.
- Reports.Stats: an invoice whose `items` JSON fails to parse is skipped by the server; stored items here are always a parsed list.
- JSON encoding: NaN/null values, non-string names and other wrongly typed request members are not modelled; a missing member is `None`.
- Server errors: the 500 answers for database errors are not modelled.
- Store.Store.Convert: conversion is modelled as one atomic step. In the handler the quotation delete is started after the invoice insert and not awaited, the reply is sent whatever it does, and a failed delete is only logged (server.js:321-327), so the quotation can survive a reported conversion.
- Rendering: DOM updates, `fetch`, `alert` and `window.open` are not modelled; `confirm` is the `confirmed` parameter.
- PDF generation and the invoice message template are layout only and are not modelled.
- WhatsApp links: `encodeURIComponent` is not modelled; the link carries the unencoded text.
- The dashboard's monthly and yearly sales queries depend on SQLite `strftime` and the clock and are not modelled.
- The customer lookup used by the billing and quotation pages has no handler on the server and is not modelled.
- Schema creation, routing, server start-up and shutdown, and the seeding script's inserts and delays are not modelled; only the seeding totals are (the sample invoice and quotation inserts fail against the schema, as described above).
- Item ids in the sample documents are parameters, because the database assigns them.
