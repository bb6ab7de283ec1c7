# SalesAnalyst of black_thursday, in Dafny

This project models `SalesAnalyst`, the analytics layer of the black_thursday sales engine
(`lib/sales_analyst.rb`). The analyst holds a reference to an engine with six collections:
merchants, items, invoices, invoice items, transactions and customers. Every report joins
those collections by foreign key and filters, folds, groups, ranks or selects a maximum.
No report changes the engine, so the model is made of functions and lemmas over an `Engine`
value. The one exception is `item_ids_with_total_quantity`, which fills a Hash in a loop.
It is modelled as a method with a `while` loop over a `map`.

Modules, one file each:

- `Wrappers` (`wrappers.dfy`): `Option`, and `Result` with the one fault the analyst can
  raise, a method called on `nil`.
- `Seqs` (`seqs.dfy`): the Ruby Enumerable operations the analyst uses (`find_all`, `map`,
  `flatten`, `reduce`, `any?`, `all?`, `max`, the key order of `group_by`, `Hash#key`, and
  `to_h` keeping the last duplicate). Most carry their contract as `ensures`; the facts
  about `flatten`, `reduce`, `any?` and `all?` (`Flatten`, `SumOf`, `Reduce`, `Any`, `All`)
  are separate lemmas (`FlattenMembership`, `ReduceIsSum`, `AnyIffExists`,
  `AllIsNotAny`).
- `Ranking` (`ranking.dfy`): `sort_by` followed by `reverse`, and Ruby's `s[0..last]` slice.
- `Statistics` (`statistics.dfy`): float division that yields NaN or Infinity on a zero
  divisor, the sample variance inside `standard_deviation`, and the `mean ± k·sd` thresholds.
- `Records` (`records.dfy`): the records (`Status` comes from `lib/invoice.rb`), the engine,
  and the repository lookups. A `find_all_by_<key>` is a filter on that key. A `find_by_id`
  returns the first match, or `None`.
- `MerchantReports` (`merchant_reports.dfy`): averages, standard deviations and threshold
  reports on items per merchant, item prices, invoices per merchant and invoices per
  weekday; status percentages; merchants with only one item.
- `InvoiceReports` (`invoice_reports.dfy`): paid and pending invoices, invoice totals,
  revenue by date, and the revenue rankings of merchants and customers.
- `ItemReports` (`item_reports.dfy`): most sold and best item of a merchant; highest-volume
  items and top merchant of a customer; one-time buyers and their top item; items bought in
  a year; and the `item_ids_with_total_quantity` method.

Floats are exact reals. A float division by zero gives `Measure.Undefined`, which stands
for NaN or Infinity. The reports compare with `>` only against an upper threshold
(`mean + k·sd`, which is NaN or +Infinity when undefined) and with `<` only against a lower
threshold (`mean - k·sd`, NaN or -Infinity), so each such comparison with `Undefined` is
false. So a threshold report over fewer than two merchants returns nothing, as the Ruby
code does. `Math.sqrt` is a
parameter `sqrt` of every report that uses it. Where a property needs more of it, the
lemma requires `NonNegativeRoot(sqrt)`. Prices are integers (cents).

## Model

| member | source | states |
|---|---|---|
| Statistics.Divide | lib/sales_analyst.rb:13 | float division is finite exactly when the divisor is non-zero, and then the quotient times the divisor gives back the dividend |
| Statistics.Variance | lib/sales_analyst.rb:71-75 | no elements give 0 (integer 0 divided by -1); one element gives NaN or Infinity (a Float divided by 0); from two elements on, a finite average gives a finite, non-negative value whose product with `count - 1` is the sum of squared deviations |
| Statistics.StandardDeviation | lib/sales_analyst.rb:71-77 | no elements give `sqrt(0)` (the integer variance 0); one element gives NaN or Infinity; from two elements on, finite exactly when the average is, and then `sqrt` of the sum of squared deviations divided by `count - 1` |
| Statistics.StandardDeviationNonNegative | lib/sales_analyst.rb:71-77 | with a root that is non-negative on non-negative values, a finite standard deviation is non-negative |
| Statistics.SquaredDeviationsNonNegative | lib/sales_analyst.rb:72-74 | the sum of `(x - avg)²` is never negative |
| Statistics.SquaredDeviationsPositive | lib/sales_analyst.rb:72-74 | one element away from the average makes the sum of squared deviations positive |
| Statistics.SquaredDeviationsZero | lib/sales_analyst.rb:72-74 | when every element equals the average, the sum of squared deviations is 0 |
| Statistics.VarianceZeroIffConstant | lib/sales_analyst.rb:71-75 | with at least two elements, the variance is 0 exactly when every element equals the average |
| Statistics.ExceedsBySquares | lib/sales_analyst.rb:24-31 | with a genuine square root, `x > mean + k·sd` is the same as `x > mean` and `(x - mean)² > k²·variance` |
| Statistics.TopAndBottomDisjoint | lib/sales_analyst.rb:93-109 | no value is both above `mean + k·sd` and below `mean - k·sd` when sd is not negative |
| Records.FindById | lib/sales_analyst.rb:265 | `find_by_id` gives `None` exactly when no record has the id, and otherwise a record of the collection with that id |
| Ranking.RankDescending | lib/sales_analyst.rb:188-194 | `sort_by` then `reverse` gives a permutation of its input in non-increasing key order |
| MerchantReports.ItemCounts | lib/sales_analyst.rb:17-19 | one item count per merchant, in merchant order, each the number of items carrying that merchant id |
| MerchantReports.AverageItemsIsMeanOfCounts | lib/sales_analyst.rb:10-14 | when every item names exactly one merchant, items over merchants equals the mean of the per-merchant counts that the deviation is taken over |
| MerchantReports.MerchantsWithHighItemCount | lib/sales_analyst.rb:24-31 | exactly the merchants whose item count exceeds mean + 1·sd, in merchant order; none with fewer than two merchants |
| MerchantReports.EqualCountsHaveZeroVariance | lib/sales_analyst.rb:10-22 | when every merchant has the same item count `c` and there are two merchants or more, the average is `c` and the variance of the counts is 0 |
| MerchantReports.EqualCountsReportNoMerchant | lib/sales_analyst.rb:16-31 | when every merchant has the same item count, the variance is 0 (for two merchants or more) and no merchant is reported |
| MerchantReports.AveragePriceWithinBounds | lib/sales_analyst.rb:33-39 | a merchant's average price is finite exactly when it has items, and then it lies between any lower and upper bound of its prices |
| MerchantReports.SumOfAveragePrices | lib/sales_analyst.rb:41-46 | the sum of the per-merchant average prices is finite exactly when every merchant has at least one item |
| MerchantReports.AverageAveragePricePerMerchant | lib/sales_analyst.rb:41-47 | finite exactly when there are merchants and each has items; then it times the merchant count is the sum of the per-merchant averages |
| MerchantReports.AverageItemCostWithinBounds | lib/sales_analyst.rb:49-55 | the average item price is finite exactly when there are items, and then it lies between any bounds of all prices |
| MerchantReports.GoldenItems | lib/sales_analyst.rb:57-63 | exactly the items priced above mean + 2·sd, in item order; none with fewer than two items |
| MerchantReports.GoldenItemsAboveAverage | lib/sales_analyst.rb:57-69 | with a non-negative square root, every golden item is priced above the average item price |
| MerchantReports.GoldenBySquares | lib/sales_analyst.rb:57-77 | with a genuine square root and at least two items, an item is golden exactly when it is above the average and its squared distance from the average exceeds four times the variance |
| MerchantReports.InvoiceCounts | lib/sales_analyst.rb:86-88 | one invoice count per merchant, in merchant order |
| MerchantReports.AverageInvoicesIsMeanOfCounts | lib/sales_analyst.rb:79-83 | when every invoice names exactly one merchant, invoices over merchants equals the mean of the per-merchant invoice counts |
| MerchantReports.TopMerchantsByInvoiceCount | lib/sales_analyst.rb:93-100 | exactly the merchants whose invoice count exceeds mean + 2·sd, in merchant order; none with fewer than two merchants |
| MerchantReports.BottomMerchantsByInvoiceCount | lib/sales_analyst.rb:102-109 | exactly the merchants whose invoice count is below mean - 2·sd, in merchant order; none with fewer than two merchants |
| MerchantReports.TopAndBottomMerchantsDisjoint | lib/sales_analyst.rb:93-109 | with a non-negative square root, no merchant is in both the top and the bottom report |
| MerchantReports.GenerateDay | lib/sales_analyst.rb:137-144 | one `(weekday, count)` pair per weekday that has invoices, in the order weekdays first appear among the invoices, each count positive and equal to the invoices created on that weekday |
| MerchantReports.AverageDaysIsInvoicesOverSeven | lib/sales_analyst.rb:131-135 | the sum of the per-day counts, integer-divided by 7, is the number of invoices divided by 7 |
| MerchantReports.TopDays | lib/sales_analyst.rb:122-129 | exactly the days whose count exceeds the threshold, in the order of `days` and each once when the days of `days` are distinct (as Hash keys are); none when the threshold is NaN or +Infinity |
| MerchantReports.TopDaysByInvoiceCount | lib/sales_analyst.rb:111-120 | exactly the weekdays with invoices whose count exceeds average + 1·sd, each once, in the Hash order of first appearance among the invoices; none when all invoices fall on one weekday |
| MerchantReports.StatusCount | lib/sales_analyst.rb:153-156 | the count the status maps to is the number of invoices with that status, 0 for a status no invoice has |
| MerchantReports.InvoiceStatusIsPercentage | lib/sales_analyst.rb:152-159 | finite exactly when there are invoices; then 100 times the share of invoices with that status, between 0 and 100 |
| MerchantReports.AbsentStatusIsZeroPercent | lib/sales_analyst.rb:152-159 | a status no invoice has is 0 percent |
| MerchantReports.StatusCountsAddUp | lib/sales_analyst.rb:153-156 | the pending, shipped and returned counts add up to the number of invoices |
| MerchantReports.StatusPercentagesSumTo100 | lib/sales_analyst.rb:152-159 | with invoices, the three status percentages sum to 100 |
| MerchantReports.MerchantsWithOnlyOneItem | lib/sales_analyst.rb:221-225 | exactly the merchants with one item, in merchant order |
| MerchantReports.MerchantsWithOnlyOneItemRegisteredInMonth | lib/sales_analyst.rb:227-232 | nil exactly when no one-item merchant was created in the month; otherwise exactly those merchants, in merchant order |
| InvoiceReports.PendingIffNotPaid | lib/sales_analyst.rb:214-219 | an invoice is pending exactly when it is not paid in full |
| InvoiceReports.PaidIffSuccessfulTransaction | lib/sales_analyst.rb:161-166 | an invoice is paid in full exactly when the engine holds a successful transaction for it |
| InvoiceReports.NoTransactionsMeansPending | lib/sales_analyst.rb:214-219 | an invoice without transactions is pending and not paid |
| InvoiceReports.HasPendingIffUnpaidInvoice | lib/sales_analyst.rb:207-212 | a merchant has a pending invoice exactly when one of its invoices is not paid in full |
| InvoiceReports.MerchantsWithPendingInvoices | lib/sales_analyst.rb:201-205 | exactly the merchants with a pending invoice, in merchant order |
| InvoiceReports.InvoiceTotalIsSumOfLines | lib/sales_analyst.rb:168-173 | an invoice total is the sum of `unit_price * quantity` over the invoice's lines |
| InvoiceReports.InvoiceWithoutLinesTotalsZero | lib/sales_analyst.rb:168-173 | an invoice without lines totals 0 |
| InvoiceReports.InvoiceTotalNonNegative | lib/sales_analyst.rb:168-173 | with non-negative prices and quantities, an invoice total is not negative |
| InvoiceReports.RevenueByDateIsSumOfTotals | lib/sales_analyst.rb:175-182 | the revenue of a date is the sum of the totals of the invoices created at that date, paid or not |
| InvoiceReports.RevenueIsSumOfPaidTotals | lib/sales_analyst.rb:196-199 | folding `revenue_for_invoice` over invoices sums the totals of the paid ones only |
| InvoiceReports.MerchantsRankedByRevenue | lib/sales_analyst.rb:188-194 | every merchant exactly once, in non-increasing order of revenue |
| InvoiceReports.MerchantRevenueCountsPaidInvoices | lib/sales_analyst.rb:189-191 | the revenue a merchant is ranked by is the sum of the totals of its paid invoices |
| InvoiceReports.TopRevenueEarnersIsPrefix | lib/sales_analyst.rb:184-186 | for `num >= 1`, the prefix of the ranking of length `min(num, merchants)`; nobody left out earned more than anybody kept |
| InvoiceReports.TopRevenueEarnersOfZeroIsEveryone | lib/sales_analyst.rb:184-186 | as written, `num = 0` returns the whole ranking |
| InvoiceReports.TopRevenueEarnersCorrected | lib/sales_analyst.rb:184-186 | the ranking's prefix of length `min(num, merchants)`, empty for `num = 0` |
| InvoiceReports.CorrectedAgreesForPositiveNum | lib/sales_analyst.rb:184-186 | the corrected slice equals the code's for every `num >= 1` |
| InvoiceReports.CustomersRankedByRevenue | lib/sales_analyst.rb:273-279 | every customer exactly once, in non-increasing order of spending |
| InvoiceReports.CustomerRevenueCountsPaidInvoices | lib/sales_analyst.rb:274-276 | the amount a customer is ranked by is the sum of the totals of their paid invoices |
| InvoiceReports.TopBuyersIsPrefix | lib/sales_analyst.rb:269-271 | a prefix of the customer ranking of length `min(num, customers)` for `num >= 1`, the whole ranking for `num = 0` |
| InvoiceReports.TopBuyersCorrected | lib/sales_analyst.rb:269-271 | the ranking's prefix of length `min(num, customers)`, empty for `num = 0` |
| ItemReports.LinesOfInvoicesMembership | lib/sales_analyst.rb:326-332 | mapping kept invoices to their lines, then `flatten.compact`, collects exactly the lines of the kept invoices |
| ItemReports.InvoiceItemsFromMerchantMembership | lib/sales_analyst.rb:253-260 | a merchant's lines are exactly the lines of its invoices that are paid in full |
| ItemReports.FindMaximumValue | lib/sales_analyst.rb:262-267 | raises on no lines; otherwise a non-empty list of exactly the lookups of the items of the lines with the largest key, one lookup per such line, in line order (ties and repeats kept) |
| ItemReports.MostSoldItemForMerchant | lib/sales_analyst.rb:239-243 | raises when the merchant has no paid lines; otherwise exactly the items of the lines whose own quantity is the largest, one lookup per such line, in line order, so ties all appear |
| ItemReports.BestItemForMerchant | lib/sales_analyst.rb:245-251 | raises when the merchant has no paid lines; otherwise the item of the first line whose own `quantity * unit_price` is the largest |
| ItemReports.KeysInOrderMembership | lib/sales_analyst.rb:340-346 | an id is a key of the built Hash exactly when some pair carries it |
| ItemReports.TotalForAbsent | lib/sales_analyst.rb:341 | an id no pair carries totals 0, the Hash's default |
| ItemReports.TotalForNonNegative | lib/sales_analyst.rb:340-346 | with non-negative quantities every total is non-negative |
| ItemReports.ItemIdsWithTotalQuantity | lib/sales_analyst.rb:340-346 | the loop ends with exactly the ids of the pairs as keys, in first-appearance order, each mapped to the sum of its quantities, and every absent id sums to 0 |
| ItemReports.IdsWithMaxTotal | lib/sales_analyst.rb:366-371 | exactly the keys whose summed quantity is the largest, each once, in Hash order, never empty |
| ItemReports.ItemsWithMaxTotal | lib/sales_analyst.rb:364-375 | raises on no lines; otherwise exactly the lookups of the ids of largest summed quantity, one lookup per id, in Hash order |
| ItemReports.HighestVolumeItems | lib/sales_analyst.rb:359-375 | raises when the customer has no lines; otherwise exactly the lookups of the items whose quantity, summed over all the customer's lines, is the largest, one lookup per id, in Hash order |
| ItemReports.CustomerLinesMembership | lib/sales_analyst.rb:360-363 | the lines summed for a customer are exactly the lines of their invoices, paid or not |
| ItemReports.OneTimeBuyers | lib/sales_analyst.rb:305-309 | exactly the customers with one invoice, in customer order |
| ItemReports.GetInvoicesForCustomersMembership | lib/sales_analyst.rb:320-324 | an invoice is collected exactly when one of the given customers placed it |
| ItemReports.OneTimeBuyerLinesMembership | lib/sales_analyst.rb:311-313 | the lines behind the one-time buyers' top item are exactly the lines of paid invoices of customers with one invoice |
| ItemReports.TopItemId | lib/sales_analyst.rb:315-316 | nil exactly when there are no pairs; otherwise the first id, in Hash order, of the largest total |
| ItemReports.OneTimeBuyersTopItem | lib/sales_analyst.rb:311-318 | nil when no paid line of a one-time buyer exists; non-nil exactly when a top item id exists and an item with that id exists, and then that item |
| ItemReports.ItemsBoughtInYearMembership | lib/sales_analyst.rb:348-357 | exactly the lookups of the items on lines of the customer's paid invoices created in that year |
| ItemReports.TotalQuantityIsSumOfQuantities | lib/sales_analyst.rb:296-303 | the nested folds sum the quantities of all lines of all the invoices |
| ItemReports.TopMerchantIdForCustomer | lib/sales_analyst.rb:281-294 | nil exactly when the customer has no invoices; otherwise the last merchant, in grouping order, of largest total quantity |
| ItemReports.TopMerchantIsCustomersMerchant | lib/sales_analyst.rb:281-287 | the top merchant id is the merchant of one of the customer's invoices |
| ItemReports.TopMerchantForCustomer | lib/sales_analyst.rb:281-287 | nil for a customer without invoices; non-nil exactly when a top merchant id exists and a merchant with that id exists, and then that merchant |
| ItemReports.MostSoldItemForMerchantByTotal | lib/sales_analyst.rb:239-243 | exactly the lookups of the merchant's items whose units, summed over its paid lines, are the largest, one lookup per id, in Hash order; raises when there are no paid lines |
| ItemReports.MostSoldIgnoresRepeatSales | lib/sales_analyst.rb:239-243 | in a concrete engine, the code reports item 1 (one line of 5 units) and not item 2 (two lines of 3 units, 6 in all) |
| ItemReports.MostSoldByTotalCountsRepeatSales | lib/sales_analyst.rb:239-243 | in the same engine, the total-based selection reports item 2 and not item 1 |

## Left out

- Loading the CSV files and building the engine and its repositories. Each repository is a
  sequence with filter and first-match lookups.
- Rounding to two decimals (`round(2)`) and binary floating point. Values are exact reals.
  NaN and Infinity are assumed to pass through `round(2)` unchanged.
- `BigDecimal` and `revenue_by_merchant`, a stub that returns a constant.
- `Math.sqrt`: it is a function parameter. Where a lemma needs it, it requires only that
  the root of a non-negative value is non-negative, or (GoldenBySquares) that it is a
  genuine root. EqualCountsReportNoMerchant also requires `sqrt(0.0) == 0.0`.
- `Time`: its weekday, year and month name are fields beside the instant, assumed to agree
  with it. `total_revenue_by_date` compares whole `Time` values, which then means comparing
  instants.
- `Date::DAYNAMES` in `top_days_by_invoice_count`: the report returns weekday numbers
  (0 is Sunday), not names.
- `strftime('%B')`: a merchant's month name is an opaque string carried in its `Time`.
- Default arguments (`num = 20`): `num` is always passed.
- Tie order of `sort_by`, which is not stable. The rankings promise a permutation in
  non-increasing order of revenue, not which of two equal merchants comes first.
- `find_by_id(nil)`: the engine's repositories are not part of this model. The model takes
  it to find nothing.
- Record fields the analyst never reads, and `lib/invoice.rb` beyond its status symbol.
  The `update` there delegates to a mixin that is not part of this model.
- Integer overflow: Ruby integers are unbounded, like Dafny's.
- MerchantReports.AverageAveragePricePerMerchant: each merchant's average is summed before
  rounding, while the code sums the already rounded averages.

## Findings

| source | as written | input that shows it | evidently intended | confidence | as-written member | corrected member |
|---|---|---|---|---|---|---|
| lib/sales_analyst.rb:184-186 | slices the ranking from index 0 up to index `num - 1` inclusive | `num = 0`: the end index is -1, the last element, so every merchant is returned | `top_revenue_earners(0)` returns no merchant | medium; not executed | InvoiceReports.TopRevenueEarnersOfZeroIsEveryone | InvoiceReports.TopRevenueEarnersCorrected |
| lib/sales_analyst.rb:239-243 | groups the merchant's lines by their own quantity and reports the items of the largest single line | item 1 sold in one line of 5 units, item 2 in two lines of 3 units: item 1 is reported although item 2 sold 6 | the item with the most units sold in total | low; not executed | ItemReports.MostSoldIgnoresRepeatSales | ItemReports.MostSoldItemForMerchantByTotal |
