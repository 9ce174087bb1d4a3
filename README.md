# EvoCoffee dashboard — a Dafny model of its state and charts

EvoCoffee is a single-page dashboard for an office coffee corner. It keeps
three things in one application state:

- an inventory snapshot: capsules on hand, split into LOR, Illy and Other, plus milk in litres;
- a log of restocks, newest first;
- a list of purchases, each with a buyer, an amount and a date.

The dashboard derives its charts from that state:

- monthly spend as a line;
- monthly purchase counts as bars;
- the top five spenders as bars;
- each buyer's share of spend as a donut;
- the inventory's brand split as a donut.

It can also export the state as a JSON document and import one back.

The model has six modules:

- `Records` (Records.dfy): the records, `defaultState` and the form
  coercion `toNumber`.
- `Text` (Text.dfy): `String.prototype.trim`, the HTML escaper
  `escapeHtml`, and the default string order of `Array.prototype.sort`.
- `Loading` (Loading.dfy): `hydrateState`. This covers the document shapes
  it accepts, how it upgrades older log entries and how it rebuilds the
  brand counts. An export followed by an import gives back the same state
  with every log entry normalised: legacy entries get per-brand counts,
  and entries from the restock form gain an empty brand.
- `Stores` (Store.dfy): a `Store` class that holds the state. Its methods
  are the four handlers that change it: the restock form, the purchase
  form, import and clear. Ids, dates and timestamps are parameters.
- `Aggregation` (Aggregation.dfy): the derived series:
  - `groupByMonth`, `totalSpendValue`, `topSpenders`, `spendShare` and
    `getTopSpender`;
  - the fallback chain of `inventoryBrandShare`;
  - the warnings of `updateLowStock`.
- `Charts` (Charts.dfy): chart geometry. It covers the points of the line
  chart, the bar layout, the donut's dash arcs, the grid lines and the
  legends of the line, bar and donut charts.

The source accumulates into a `Map` and keeps its numbers in local
variables. The model keeps those loops as methods (`Accumulate`,
`GroupByMonth`, `RankBuyers`, `TopSpenders`, `SpendShare`, `TopSpender`,
`InventoryBrandShare`, `DonutArcs`, `GridLines`). Each method is proved
against a specification function, and the lemmas state what the dashboard
promises about that function.

The source's numbers are modelled as `real`. A JavaScript `x || 0` is
`OrZero`, and truthiness is `IsTruthy` / `IsTruthyText`.

Where the code and its written description disagree, the model follows the
code. The description says that a missing `brand_counts` in an imported
document is rebuilt from the latest log entry. The code
(app.js:678-694) rebuilds it only when the key is present with a falsy or
non-object value. When the key is missing, the spread of the default
inventory keeps the default zeros. `Loading.Hydrate` and
`Loading.BrandCountsRebuilt` state the code's behaviour.

## Model

| member | source | states |
|---|---|---|
| Records.ToNumber | app.js:610-614 | every finite number, negative ones included, passes through unchanged; a missing, blank or non-numeric field reads as 0 |
| Records.DefaultState | app.js:640-656 | the initial state: no purchases, an empty log, and a snapshot with 0 capsules, 0 milk, no timestamp, an empty reason and zero brand counts |
| Text.Trim | app.js:99-101 | the trimmed text is empty exactly when the input is all whitespace, and otherwise neither starts nor ends with whitespace |
| Text.EscapeHtmlIsPerChar | app.js:616-623 | the five global replacements, ampersand first, equal escaping each character on its own, so no entity is escaped twice |
| Text.EscapeHtmlSafe | app.js:616-623 | escaped text holds no `<`, `>`, `"` or `'`, and every `&` in it starts one of the five entities |
| Text.UnescapeEscapeHtml | app.js:616-623 | decoding the five entities gives back exactly the original text |
| Text.TrimKeepsInner | app.js:99-101 | trimming strips whitespace on both sides and keeps everything between the first and last non-whitespace characters |
| Text.BelowTransitive | app.js:536 | the default string order is transitive |
| Text.BelowTotal | app.js:536 | any two different labels are ordered one way or the other by the default string sort |
| Text.SortLabels | app.js:536 | sorting keeps the same labels, and distinct labels come out strictly ascending |
| Loading.NormalizeEntry | app.js:663-676 | `brand` becomes the first truthy of brand, reason and "". Every per-brand count comes out present, a count the entry has is kept, and every other field is kept; LegacyAttribution says how a missing count is filled |
| Loading.NormalizeIdempotent | app.js:663-676 | normalising an already normalised entry changes nothing, so a second import is stable |
| Loading.LegacyLorEntry | app.js:664-668 | a legacy entry with brand LOR and 20 capsules normalises to 20 LOR, 0 Illy, 0 Other |
| Loading.LegacyAttribution | app.js:664-668 | key by key, as `??` works: a missing per-brand count gets the whole legacy total when the brand names that key (LOR, Illy, or any other non-empty brand for Other) and 0 otherwise, whatever the entry's other counts; present counts are kept |
| Loading.MixedLegacyEntry | app.js:664-668 | an entry with `capsLor` 3 but no Illy or Other count, brand Illy and 7 capsules keeps LOR 3 and gets Illy 7 and Other 0 |
| Loading.NormalizeLog | app.js:661-677 | the log keeps its length and order with each entry normalised; a null element makes the import fail |
| Loading.MergeInventory | app.js:678-694 | the shallow merge over the default snapshot: a missing inventory, or any missing key in it, takes the default value; a present number, timestamp and reason are kept, and an unusable `brand_counts` is rebuilt from the newest entry |
| Loading.Hydrate | app.js:658-697 | loading fails exactly when the log holds a null element. A non-object document gives the default state. Otherwise the purchases are kept as they are (or [] when absent); log entry i is input entry i normalised; a missing inventory gives the default snapshot, and a present one contributes its capsules, milk, timestamp and reason (a missing number as 0, a missing reason as "") and a `brand_counts` object with missing keys read as 0 |
| Loading.BrandCountsRebuilt | app.js:678-694 | an unusable `brand_counts` is rebuilt from the newest log entry's per-brand counts (zeros for an empty log); a missing one keeps the default zeros |
| Loading.EmptyDocumentIsDefault | app.js:658-697 | a non-object document, or an object with none of the three keys, hydrates to `defaultState()` |
| Loading.ToDocument | app.js:115-116 | the exported document holds the purchases, a log array with no null element and an inventory with a `brand_counts` object, so importing it cannot fail (ExportImportRoundTrip) |
| Loading.ExportImportRoundTrip | app.js:658-697 | importing an exported state always succeeds and gives it back with its log entries normalised, so a state whose entries are already normalised comes back unchanged |
| Stores.RestockEntry | app.js:78-86 | the restock log entry records the three brand counts, their sum as `capsules`, and the milk, with no brand |
| Stores.BlankBuyerRejected | app.js:96-106 | a missing or all-whitespace buyer, or an amount of 0 or less, is rejected |
| Stores.Store.constructor | app.js:640-656 | a store starts in `defaultState()` |
| Stores.Store.Restock | app.js:59-91 | the new snapshot holds the coerced counts, their sum and the milk; one entry goes in front of the log; purchases are unchanged |
| Stores.Store.AddPurchase | app.js:93-113 | accepted exactly when the trimmed buyer is non-empty and the amount above 0; then one trimmed entry goes in front, otherwise nothing changes |
| Stores.Store.Import | app.js:127-142 | a document that parses and hydrates replaces the whole state; otherwise the state is left as it was |
| Stores.Store.Clear | app.js:144-151 | the state returns to `defaultState()` |
| Stores.RestockEntryReloads | app.js:663-676 | a restock entry survives export and import with its counts intact, gaining only an empty brand |
| Aggregation.Keys | app.js:529-534 | the Map's keys are distinct and are exactly the keys some entry carries |
| Aggregation.KeysFirstSeenOrder | app.js:529-534 | the keys come in the order of first appearance: of two keys, the earlier one is carried by some entry before any entry carries the later one |
| Aggregation.Accumulate | app.js:528-534 | the Map loop yields the keys in first-seen order, each with the sum of the values of the entries under it |
| Aggregation.GroupsPartitionSum | app.js:527-539 | the per-key sums over all keys add up to the sum over all keyed entries |
| Aggregation.GroupByMonth | app.js:527-539 | the labels are exactly the months that occur, strictly ascending, each with its month's sum; undated purchases are skipped; the values add up to the keyed total |
| Aggregation.MonthlySeriesTotals | app.js:527-543 | the monthly counts add up to the number of dated purchases; when all are dated, the monthly spend adds up to `totalSpendValue` |
| Aggregation.TotalSpend | app.js:541-543 | when every amount is positive, the total is positive exactly when there is a purchase; MonthlySeriesTotals and SpendSplitsByBuyer relate it to the monthly and per-buyer series |
| Aggregation.SpendGrowsByPurchase | app.js:93-113 | a purchase put in front of the list raises the total spend by exactly its amount |
| Aggregation.InsertKeepsDescending | app.js:552 | inserting into a list sorted by descending total keeps it sorted |
| Aggregation.RankDescending | app.js:552 | the comparator sort by `b - a` is a permutation into descending totals |
| Aggregation.RankKeepsTies | app.js:552 | the sort is stable: buyers with equal totals keep their first-appearance order |
| Aggregation.RankBuyers | app.js:545-552 | the Map loop plus sort yields the ranking of buyer totals |
| Aggregation.RankingNamesBuyers | app.js:546-551 | a name is ranked exactly when some purchase has that non-empty buyer |
| Aggregation.RankingTotals | app.js:547-550 | each ranked total is the sum of that buyer's amounts |
| Aggregation.RankingNamesDistinct | app.js:546-551 | no buyer is ranked twice |
| Aggregation.RankingConservesSpend | app.js:545-552 | the ranked totals add up to the spend of the purchases that name a buyer |
| Aggregation.RankingExample | app.js:545-556 | A 10, B 30, A 5 ranks as B 30 then A 15 |
| Aggregation.TopSpenders | app.js:545-556 | labels and values are the first five of the ranking, with equal lengths and at most five |
| Aggregation.TopSpendersFacts | app.js:545-556 | at most five top spenders, distinct, in descending order, each a named buyer with the true sum of their purchases |
| Aggregation.TopSpendersCoverage | app.js:545-556 | a buyer is left out of the top spenders only when five are listed and their total is at most the fifth |
| Aggregation.BuyerRanked | app.js:546-552 | every buyer a purchase names is in the ranking, with the sum of their purchases |
| Aggregation.TopOfCovers | app.js:552 | whatever is cut off after the first n of a descending ranking is no larger than the last kept |
| Aggregation.SpendShare | app.js:558-578 | the first four buyers, plus "Other" with the rest's total when that is above 0; at most five slices |
| Aggregation.ShareOfConserves | app.js:566-575 | with positive totals there are min(5, buyers) slices that add up to the ranking's total, and the fifth is "Other" exactly when there are more than four buyers |
| Aggregation.ShareOfSixBuyers | app.js:566-575 | buyers at 50, 40, 30, 20, 10 and 5 give four slices plus "Other" at 15 |
| Aggregation.SpendShareConserves | app.js:558-578 | with positive amounts, the slices add up to the named spend, and "Other" appears exactly when there are more than four buyers |
| Aggregation.RankingLeader | app.js:552-553 | the head of the ranking is a named buyer with its true total; no buyer spent more; among equal totals it is the buyer seen first |
| Aggregation.TopSpender | app.js:580-584 | none exactly when no purchase names a buyer. Otherwise the top is a buyer with its true total, that total is the maximum, and ties go to the buyer seen first |
| Aggregation.SpendSplitsByBuyer | app.js:541-551 | when every purchase names a buyer, the buyer totals add up to `totalSpendValue` |
| Aggregation.FirstAvailable | app.js:315-328 | the first strategy that gives counts wins, and the fallback is used when none does |
| Aggregation.InventoryBrandShare | app.js:306-334 | labels are LOR, Illy, Other, and the values follow the fallback chain: snapshot counts, else the newest log entry, else all capsules as Other |
| Aggregation.BrandShareChainOrder | app.js:306-334 | the snapshot counts win when any is non-zero. Next come the newest entry's per-brand counts, then its legacy brand and capsules, then positive `beans_g` as Other; otherwise all zero |
| Aggregation.LowStockWarnings | app.js:229-238 | a reorder warning exactly when capsules are below 10, a milk warning exactly when milk is below 2, in that order |
| Charts.MaxWith | app.js:348 | `Math.max(...values, 1)`: at least the floor and every value, and equal to one of them |
| Charts.MinWith | app.js:347 | `Math.min(...values, 0)`: at most the floor and every value, and equal to one of them |
| Charts.ColorAt | app.js:411 | no colour exactly when the palette is empty, and otherwise a colour of the palette |
| Charts.PaletteCycles | app.js:512 | a palette of k colours repeats every k entries, and entry i below k takes the i-th colour |
| Charts.BuildLegend | app.js:506-525 | one legend item per label |
| Charts.LegendFaithful | app.js:506-525 | each item's caption decodes to its label and holds no markup; the value and colour come from the same position; no labels give no legend |
| Charts.LastN | app.js:363-368 | `slice(-4)`: the last n elements, or all when there are fewer |
| Charts.ValueRange | app.js:347-349 | the vertical range is at least 1, so the scaling never divides by zero |
| Charts.LinePointsInBox | app.js:342-356 | every point lies inside the padded 320 by 160 box |
| Charts.LinePoints | app.js:342-356 | one point per value; where the points lie is stated by LinePointsInBox, LinePointsSpan and LinePointsOrder |
| Charts.LinePointsSpan | app.js:350-353 | the first point is at x 20, the last at x 300, and x grows strictly |
| Charts.LinePointsOrder | app.js:352-356 | a larger value is never drawn lower than a smaller one |
| Charts.RenderLineChart | app.js:336-368 | the empty chart is drawn exactly when there are no values |
| Charts.LineLegendShowsLatest | app.js:363-368 | the line legend lists the latest four months with their values |
| Charts.BarWidth | app.js:404 | the width is at least 10; up to 16 bars fill the inner width exactly, and more get width 10 |
| Charts.BarsOnBaseline | app.js:406-412 | every bar ends on the baseline at y 140, all bars share one width, and bar i takes the palette colour of position i |
| Charts.BarLayout | app.js:400-412 | one bar per value; where the bars lie is stated by BarsOnBaseline, BarsSpaced, BarHeights and BarsFillInnerWidth |
| Charts.BarsSpaced | app.js:408-409 | the first bar starts at x 20 and each next bar starts 8 after the previous one ends |
| Charts.BarHeights | app.js:401-410 | a bar for a value of 0 or more is between 0 and 120 tall, and a larger value never gets a shorter bar |
| Charts.BarsFillInnerWidth | app.js:401-412 | with 1 to 16 bars, the last bar ends at x 300 |
| Charts.BarsOverflow | app.js:404-409 | with n > 16 bars the last bar ends at 12 + 18n, past x 300, and from 18 bars on past the view box at 320 |
| Charts.RenderBarChart | app.js:390-414 | the empty chart is drawn exactly when there are no values; otherwise one bar per value and one legend item per label |
| Charts.Shares | app.js:443-445 | each slice's share is its value over the total |
| Charts.DonutArcs | app.js:430-466 | three exclusive cases, each if and only if: no values or all zero give the empty chart; values not all zero that add up to 0 give the non-finite ring; otherwise a ring whose total is the sum and whose arcs, built with the running offset, are exactly the values' shares of the circumference. Whenever a chart is drawn, its legend is `buildLegend` of the labels, values and palette, one item per label |
| Charts.RingArcsChain | app.js:442-461 | the first arc starts at offset 0. Each dash is its share, and dash plus gap is the circumference. Each arc starts where the previous one ends, and the last ends at the sum of the shares |
| Charts.RingCloses | app.js:436-461 | the last arc ends exactly at the full circumference |
| Charts.DashesFillRing | app.js:436-461 | the dashes add up to the circumference |
| Charts.NonNegativeDonutIsFinite | app.js:431-447 | non-negative values that are not all zero always give a finite ring |
| Charts.CancellingValuesAreNonFinite | app.js:431-447 | values 5, -5, 0 pass the all-zero guard yet total 0 and divide by zero |
| Charts.GridSpecEvenlySpaced | app.js:483-490 | the lines are one band of innerHeight/(count+1) apart, the first one band below the top padding and the last one band above the bottom padding |
| Charts.GridLines | app.js:483-490 | the loop draws exactly the evenly spaced grid |
| Charts.ChartGridLines | app.js:483-490 | the charts' three grid lines sit at y 50, 80 and 110, from x 20 to 300 |

## Left out

- server.js (the static file server) is not part of this model.
- The DOM and rendering are not modelled: element lookup, `innerHTML`,
  SVG and legend markup strings, the empty-chart markup, table rows,
  metrics, sliders and `syncInventoryForm`. The model stops at the
  numbers and captions that go into the markup.
- Persistence is not modelled. `localStorage`, `saveData` and the
  startup `loadData` path are out of scope. At startup `hydrateState`
  assigns to `state` before that binding exists, so a stored document
  raises an error that `loadData` catches and answers with
  `defaultState()`. The `Store` therefore starts in the default state.
- File and download APIs (FileReader, Blob, object URLs) are not modelled.
  `JSON.parse` is a parameter of `Store.Import` that is None when parsing
  throws. `JSON.stringify` is `Loading.ToDocument`, with no text format.
- Number formatting with `Intl.NumberFormat` (legend values, donut centre
  text, the top-spender text) is not modelled. Legend values are the
  numbers themselves.
- `crypto.randomUUID` and `new Date()` are not modelled: ids, today's date
  and the timestamp are parameters. `Math.PI` is the parameter `pi` of the
  donut.
- `buildDemoState` and the seed-data button are left out; they are
  fixture generation.
- IEEE-754 rounding is not modelled: numbers are exact reals.
- `Number(text)` is abstracted as the `FormField` classification. A
  finite reading, a non-finite reading, blank and missing are each
  handled as in `toNumber`.
- Loosely typed documents are not modelled beyond the typed shapes:
  - Mistyped JSON fields are not modelled. A string where a number is
    expected, an explicit null in an inventory field and a null or
    field-less element inside `purchases` are examples.
  - A non-null primitive in `inventoryLog` behaves as an entry with no
    keys; a string's spread index keys are not modelled.
- Loading.Hydrate: a kept `brand_counts` object that lacks a brand key
  reads that brand as 0. Every reader of the counts applies `|| 0`, so
  nothing observable differs.
- Text.SortLabels: orders by Unicode code point where JavaScript compares
  UTF-16 code units. Likewise `slice(0, 7)` counts code points. The two
  agree on the ISO dates the dashboard stores.
- Aggregation.TopSpender: returns the buyer and total rather than the
  formatted "name (amount)" text, and None for the empty string.
- Charts.DonutArcs: a zero total is reported as `NonFinite`, with its
  legend, instead of NaN dash geometry.
- Charts.RenderLineChart and Charts.RenderBarChart: the point circles,
  path strings and gradient are not modelled; their geometry is stated by
  `LinePoints` and `BarLayout`.
