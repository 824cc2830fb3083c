# Point-of-sale dashboard core, in Dafny

A model of the computations behind the reports dashboard of a restaurant point-of-sale web client, and proofs about them:

- **Statistics for the selected date range.** The orders in the range are split into status views: completed, being served, cancelled and unpaid. Revenue follows the tax-inclusion rule. The dashboard then counts orders and customers, spreads the completed revenue over the days of the range, groups the completed orders by payment method, and rolls the items of the completed orders up per product. An order-level discount is shared among the order's items in proportion to their line totals, with the last item taking the remainder. Finally it ranks the five best-selling products and shows each one's share of their joint revenue.
- **Date-button caption.** The selected range is compared in a fixed order with the ranges of seven presets: today, yesterday, the day before, last week, this month, last month and this year. The first preset that equals it names it.
- **Change-password form check.** Each of the three fields gets its own error.
- **`fetch` interceptor.** It normalises the caller's headers and adds the tenant-domain and origin headers where the caller left them out. It keeps the last 100 request logs in a buffer that can be copied out and cleared.

The files:

- `wrappers.dfy` (`Option`) and `seqs.dfy` hold generic sequence folds, filters and their algebra.
- `grouping.dfy` groups records by key in first-seen order and sums per group.
- `calendar.dfy` has civil dates, day numbers and weekdays.
- `date_range_label.dfy` is the caption chain.
- `orders.dfy` has the records, the status views and the revenue rule.
- `discount_allocation.dfy` splits an order's discount.
- `payment_breakdown.dfy` is the payment-method grouping loop.
- `product_rollup.dfy` is the per-product rollup loop.
- `product_ranking.dfy` is the stable sort, the top five and the percentages.
- `dashboard.dfy` assembles the statistics record.
- `password_form.dfy` is the form check.
- `request_interceptor.dfy` has the headers and the log buffer.

Modelling choices:

- **Amounts.** Amounts are whole dong (`int`), already parsed from their strings. A missing amount is 0.
- **Rounding.**
  - `Math.round(a / b)` for `b > 0` is `(2a + b) / (2b)` with floor division. This also holds for negative `a`.
  - `toFixed(0)` rounds a half away from zero.
  - The daily average is an exact `real` quotient.
- **Dates.** A date is a civil `Date(year, month, day)` with a day number whose remainder modulo 7 is JavaScript's `getDay()`. The range's date-only strings parse to UTC midnight, so the day count is the difference of day numbers plus one, and never less than 1.
- **Grouping.** The payment and product dictionaries are maps updated in loops, with the keys kept in the order first met, as `Object.entries` lists non-numeric keys. A reference fold (`Rollup`, `Breakdown`) and group sums specify each loop.
- **Labels.**
  - Payment labels and caption presets are enumerations, not translated text.
  - The payment code `card` is shown as a transfer.
  - Any unknown or empty payment code is shown as cash.
- **Sort.** The product sort is a stable insertion sort. That matches what `Array.prototype.sort` guarantees for the comparator `b.revenue - a.revenue`.
- **Log buffer.** The log buffer is a class whose `seq` field the methods reassign. A ghost history records every push since the last clear.

## Model

| member | source | states |
|---|---|---|
| Orders.IsCompleted | client/src/components/reports/dashboard-overview.tsx:232-234 | the completed view's test: status `completed` or `paid`; plain definition; no contract of its own |
| Orders.IsUnpaid | client/src/components/reports/dashboard-overview.tsx:237-243 | the unpaid view's test: `pending`, `unpaid`, `served` or `preparing`; plain definition; no contract of its own |
| Orders.IsMarkedUnpaid | client/src/components/reports/dashboard-overview.tsx:240 | the `unpaid` disjunct of the unpaid view on its own; plain definition; no contract of its own |
| Orders.IsServing | client/src/components/reports/dashboard-overview.tsx:264-270 | the serving view's test: `served`, `preparing` or `pending`; plain definition; no contract of its own |
| Orders.IsCancelled | client/src/components/reports/dashboard-overview.tsx:272-274 | the cancelled view's test: status `cancelled`; plain definition; no contract of its own |
| Orders.IsActive | client/src/components/reports/dashboard-overview.tsx:277-282 | the active-order count's own test: `pending`, `preparing` or `served`; plain definition; no contract of its own |
| Orders.IsOtherStatus | client/src/components/reports/dashboard-overview.tsx:232-274 | an order in none of the completed, serving and cancelled views; plain definition; no contract of its own |
| Orders.CustomerPayment | client/src/components/reports/dashboard-overview.tsx:344-359 | what a customer paid is the charged total for a tax-inclusive order and total plus tax otherwise |
| Orders.Revenue | client/src/components/reports/dashboard-overview.tsx:285-295 | the revenue rule, defined without a contract of its own; TaxInclusionShiftsRevenueByTax states it |
| Orders.TotalRevenue | client/src/components/reports/dashboard-overview.tsx:285-316 | the `reduce` over a view, defined without a contract of its own; RevenueOfViews and RangeStats state what it sums |
| Orders.TotalCustomers | client/src/components/reports/dashboard-overview.tsx:366-368 | the headcount `reduce`, defined without a contract of its own; AtLeastOneCustomerPerOrder bounds it |
| Orders.TaxInclusionShiftsRevenueByTax | client/src/components/reports/dashboard-overview.tsx:285-295 | revenue is total minus tax when the price includes tax and the total otherwise, so toggling inclusion moves it by exactly the tax; revenue plus tax is the customer payment |
| Orders.Headcount | client/src/components/reports/dashboard-overview.tsx:366-368 | `customerCount \|\| 1`: exactly 1 when the order has no count, and the recorded count when there is one |
| Orders.AtLeastOneCustomerPerOrder | client/src/components/reports/dashboard-overview.tsx:366-368 | with no negative counts, the customer total is at least the number of orders |
| Orders.StatusViewsPartition | client/src/components/reports/dashboard-overview.tsx:232-273 | the completed, serving and cancelled views and the remaining orders account for every order exactly once |
| Orders.UnpaidIsServingOrMarkedUnpaid | client/src/components/reports/dashboard-overview.tsx:237-268 | the unpaid view has exactly the serving orders plus those marked unpaid |
| Orders.ActiveIsServing | client/src/components/reports/dashboard-overview.tsx:262-282 | the active-order filter selects exactly the serving view, in the same order |
| Orders.RevenueOfViews | client/src/components/reports/dashboard-overview.tsx:285-316 | the revenues of the views add up to the revenue of all orders in the range |
| Calendar.DayNumber | client/src/components/reports/dashboard-overview.tsx:460-467 | the day count behind `getTime()` differences between two dates and behind `getDay()`; plain definition; no contract of its own |
| Calendar.DaysInMonth | client/src/components/reports/dashboard-overview.tsx:602-606 | a month has 28 to 31 days; February has 29 exactly in a leap year |
| Calendar.Weekday | client/src/components/reports/dashboard-overview.tsx:579 | `getDay()` lies in 0..6 |
| Calendar.EpochIsThursday | client/src/components/reports/dashboard-overview.tsx:579 | 1970-01-01, the JavaScript time origin, has weekday 4 (Thursday) |
| Calendar.SubDays | client/src/components/reports/dashboard-overview.tsx:556-586 | `subDays(d, k)` of a valid date is a valid date exactly k day numbers earlier |
| Calendar.PrevDay | client/src/components/reports/dashboard-overview.tsx:622-626 | the day before a valid date, as `new Date(y, m, 0)` steps back from the first of a month, is valid and one day number earlier |
| DateRangeLabel.Label | client/src/components/reports/dashboard-overview.tsx:544-646 | a preset caption only for a selection equal to that preset's range; the literal dates only when no preset's range equals it |
| DateRangeLabel.LastWeekRange | client/src/components/reports/dashboard-overview.tsx:579-588 | for a valid today, two valid dates six day numbers apart |
| DateRangeLabel.ThisMonthRange | client/src/components/reports/dashboard-overview.tsx:597-608 | for a valid today, two valid dates enclosing today |
| DateRangeLabel.LastMonthRange | client/src/components/reports/dashboard-overview.tsx:617-628 | for a valid today, two valid dates, the last the day before this month's first |
| DateRangeLabel.YearToDateRange | client/src/components/reports/dashboard-overview.tsx:636-641 | ends today and, for a valid today, starts on a valid day of the same year no later than today |
| DateRangeLabel.PresetRange | client/src/components/reports/dashboard-overview.tsx:544-646 | the range each preset of the caption chain compares with; plain definition; no contract of its own |
| DateRangeLabel.FirstMatch | client/src/components/reports/dashboard-overview.tsx:544-646 | the first preset whose range equals the selection, no earlier preset matching it, or the literal dates of the selection exactly when none does |
| DateRangeLabel.LabelIsFirstMatch | client/src/components/reports/dashboard-overview.tsx:544-646 | the caption chain is the first-match rule over the presets in their fixed order |
| DateRangeLabel.SingleDayPresets | client/src/components/reports/dashboard-overview.tsx:549-576 | the single days today, yesterday and the day before are captioned as such |
| DateRangeLabel.LastWeekIsMondayToSunday | client/src/components/reports/dashboard-overview.tsx:579-588 | last week runs Monday to Sunday, six days apart, ending within the last seven days (today on a Sunday) |
| DateRangeLabel.LastWeekIsRecognised | client/src/components/reports/dashboard-overview.tsx:579-594 | the last-week range is captioned last week: no earlier preset equals it |
| DateRangeLabel.ThisMonthCoversMonth | client/src/components/reports/dashboard-overview.tsx:597-608 | this month runs from the 1st of today's month to that month's last day, as many days as the month has, and contains today |
| DateRangeLabel.ThisMonthIsRecognised | client/src/components/reports/dashboard-overview.tsx:597-614 | the this-month range is captioned this month |
| DateRangeLabel.LastMonthPrecedesThisMonth | client/src/components/reports/dashboard-overview.tsx:617-628 | last month runs from the 1st to the last day of one calendar month, and ends the day before this month starts |
| DateRangeLabel.LastMonthIsRecognised | client/src/components/reports/dashboard-overview.tsx:617-634 | the last-month range is captioned last month |
| DateRangeLabel.YearToDateOnJanuary31IsThisMonth | client/src/components/reports/dashboard-overview.tsx:597-644 | on 31 January the year-to-date range is captioned this month, because that preset is tried first |
| DiscountAllocation.LineTotal | client/src/components/reports/dashboard-overview.tsx:438 | an item's `unitPrice * quantity`; plain definition; no contract of its own |
| DiscountAllocation.Subtotal | client/src/components/reports/dashboard-overview.tsx:412-414 | the order's total before discount, the sum of its line totals; plain definition; no contract of its own |
| DiscountAllocation.SharesBefore | client/src/components/reports/dashboard-overview.tsx:422-434 | the sum of the shares of the first n items, which PreviousDiscounts computes; plain definition; no contract of its own |
| DiscountAllocation.RoundHalfUp | client/src/components/reports/dashboard-overview.tsx:429-433 | `Math.round(a / b)`: the integer nearest a/b, a half rounding up |
| DiscountAllocation.Share | client/src/components/reports/dashboard-overview.tsx:439-443 | an item's share is the rounded discount × line total / subtotal, and 0 when the subtotal is not positive |
| DiscountAllocation.ShareWithinDiscount | client/src/components/reports/dashboard-overview.tsx:439-443 | the share of a line within the subtotal lies between 0 and the discount |
| DiscountAllocation.FindIndexById | client/src/components/reports/dashboard-overview.tsx:417 | `findIndex` by id: the first position holding the id, or -1 when none does |
| DiscountAllocation.LastFoundLast | client/src/components/reports/dashboard-overview.tsx:417-420 | `findIndex` finds the last item at its own position exactly when no earlier item carries its id |
| DiscountAllocation.PreviousDiscounts | client/src/components/reports/dashboard-overview.tsx:422-434 | the loop sums the shares of every item but the last |
| DiscountAllocation.ItemDiscountAmount | client/src/components/reports/dashboard-overview.tsx:404-444 | an item's discount: the remainder for the last item, the share otherwise, 0 without a positive order discount |
| DiscountAllocation.ItemDiscount | client/src/components/reports/dashboard-overview.tsx:404-444 | the per-item rule, defined without a contract of its own; ItemDiscountAmount computes it and AllocationOfEarlierItems, LastItemTakesRemainder and ExactSum state it |
| DiscountAllocation.Allocation | client/src/components/reports/dashboard-overview.tsx:407-444 | one discount per item of the order |
| DiscountAllocation.AllocationOfEarlierItems | client/src/components/reports/dashboard-overview.tsx:436-443 | every item but the last gets its proportional share, whatever the ids |
| DiscountAllocation.LastItemTakesRemainder | client/src/components/reports/dashboard-overview.tsx:420-435 | the last item gets the discount minus the shares of the others |
| DiscountAllocation.ExactSum | client/src/components/reports/dashboard-overview.tsx:407-444 | the item discounts of an order with a positive discount add up to exactly that discount, whenever no earlier item shares the last item's id |
| DiscountAllocation.SingleItemTakesAll | client/src/components/reports/dashboard-overview.tsx:417-435 | a one-item order gives that item the whole discount |
| DiscountAllocation.ZeroSubtotalGoesToLastItem | client/src/components/reports/dashboard-overview.tsx:428-443 | with a zero subtotal every item but the last gets 0 and the last the whole discount |
| DiscountAllocation.NoDiscountNoAllocation | client/src/components/reports/dashboard-overview.tsx:404-407 | without a positive order discount no item is discounted |
| DiscountAllocation.ItemRevenuesAddUp | client/src/components/reports/dashboard-overview.tsx:446-447 | the items' revenues add up to the order's subtotal minus its discount |
| DiscountAllocation.ExampleSplit | client/src/components/reports/dashboard-overview.tsx:407-444 | 90 over lines of 300 and 700 splits as 27 and 63 |
| PaymentBreakdown.LabelsOfCodes | client/src/components/reports/dashboard-overview.tsx:318-332 | cash collects `cash`, the empty code and every unknown code; `card` and only `card` is shown as a transfer |
| PaymentBreakdown.PaymentLabelOf | client/src/components/reports/dashboard-overview.tsx:318-332 | the name lookup with cash as fallback, defined without a contract of its own; LabelsOfCodes states it |
| PaymentBreakdown.MethodLabel | client/src/components/reports/dashboard-overview.tsx:338-339 | the label of an order's payment code, a missing code being the empty one; plain definition; no contract of its own |
| PaymentBreakdown.Breakdown | client/src/components/reports/dashboard-overview.tsx:337-363 | the per-label tallies as group sums, defined without a contract of its own; GroupPayments computes it and BreakdownAddsUp states its totals |
| PaymentBreakdown.GroupPayments | client/src/components/reports/dashboard-overview.tsx:337-363 | the labels in first-met order; each label's count and total are its number of completed orders and the sum of their customer payments |
| PaymentBreakdown.BreakdownAddsUp | client/src/components/reports/dashboard-overview.tsx:337-363 | the counts add up to the number of completed orders, the totals to the completed revenue plus tax |
| PaymentBreakdown.PaymentsAreRevenuePlusTax | client/src/components/reports/dashboard-overview.tsx:344-359 | customer payments total the revenue plus the tax |
| PaymentBreakdown.ExampleTallies | client/src/components/reports/dashboard-overview.tsx:337-363 | orders paid 500, 330 and 0 by cash and an unknown code give cash 3 orders and 830 |
| ProductRollup.RelevantItems | client/src/components/reports/dashboard-overview.tsx:381-384 | an item takes part exactly when its order is a completed order of the range |
| ProductRollup.FindOrder | client/src/components/reports/dashboard-overview.tsx:400 | `find` by id: the first order with the id, or nothing when none has it |
| ProductRollup.ItemsOfOrder | client/src/components/reports/dashboard-overview.tsx:409-411 | the relevant items of one order, in their order; plain definition; no contract of its own |
| ProductRollup.ItemDiscountFor | client/src/components/reports/dashboard-overview.tsx:399-444 | the discount of an item is its share of its order's discount, among the relevant items of that order |
| ProductRollup.ItemDiscountIn | client/src/components/reports/dashboard-overview.tsx:399-444 | the discount of an item in its first completed order, defined without a contract of its own; ItemDiscountFor computes it |
| ProductRollup.ItemRevenue | client/src/components/reports/dashboard-overview.tsx:447 | line total minus the item's discount; plain definition; no contract of its own |
| ProductRollup.CurrentStat | client/src/components/reports/dashboard-overview.tsx:391-397 | the product's stat so far, or a fresh one with zero quantity and revenue; plain definition; no contract of its own |
| ProductRollup.WithItem | client/src/components/reports/dashboard-overview.tsx:391-451 | one item added to its product's stat, defined without a contract of its own; AddItem computes it |
| ProductRollup.Rollup | client/src/components/reports/dashboard-overview.tsx:386-452 | the stats after a run of items, defined without a contract of its own; RollupProducts computes it and ProductTotalsAddUp states its totals |
| ProductRollup.AddItem | client/src/components/reports/dashboard-overview.tsx:386-451 | one pass: a new name is appended; the product's quantity and revenue grow by the item's and its unit price becomes the item's |
| ProductRollup.RollupProducts | client/src/components/reports/dashboard-overview.tsx:386-452 | the products in first-seen order; per product, the summed quantity, the summed revenue and the last unit price seen |
| ProductRollup.OrderRevenueInRollup | client/src/components/reports/dashboard-overview.tsx:407-447 | an order's items contribute its subtotal minus its discount to product revenue |
| ProductRollup.ProductTotalsAddUp | client/src/components/reports/dashboard-overview.tsx:386-452 | the products' revenues and quantities add up to those of all relevant items |
| ProductRollup.RelevantItemsBelongToCompletedOrders | client/src/components/reports/dashboard-overview.tsx:381-400 | every relevant item finds its completed order |
| ProductRanking.ProductEntries | client/src/components/reports/dashboard-overview.tsx:454-455 | `{ name, ...stats }` for each product, in key order |
| ProductRanking.SortByRevenue | client/src/components/reports/dashboard-overview.tsx:456 | the stable sort by revenue, defined without a contract of its own; SortIsSortedPermutation, SortIsStable and SortKeepsTotal state it |
| ProductRanking.SortIsSortedPermutation | client/src/components/reports/dashboard-overview.tsx:456 | the sort returns the same entries ordered by non-increasing revenue |
| ProductRanking.SortIsStable | client/src/components/reports/dashboard-overview.tsx:456 | entries of equal revenue keep their first-seen order |
| ProductRanking.SortKeepsTotal | client/src/components/reports/dashboard-overview.tsx:456 | sorting keeps the total revenue |
| ProductRanking.TopProducts | client/src/components/reports/dashboard-overview.tsx:454-457 | the sorted entries cut to five, defined without a contract of its own; TopProductsAreTheHighest states it |
| ProductRanking.TopProductsAreTheHighest | client/src/components/reports/dashboard-overview.tsx:454-457 | at most five entries, highest revenue first, taken from the entries, none earning less than any entry left out |
| ProductRanking.SortedEntriesKeepItemRevenue | client/src/components/reports/dashboard-overview.tsx:386-457 | the sorted entries earn together what the relevant items earn |
| ProductRanking.Percentage | client/src/components/reports/dashboard-overview.tsx:1001-1004 | the whole percentage nearest revenue / total × 100, a half away from zero, and 0 when the total is not positive |
| ProductRanking.PercentageWithinBounds | client/src/components/reports/dashboard-overview.tsx:1001-1004 | a share of a revenue within the total lies in 0..100 |
| ProductRanking.TopShares | client/src/components/reports/dashboard-overview.tsx:997-1004 | each listed product's percentage of the listed products' joint revenue |
| ProductRanking.SharesWithinBounds | client/src/components/reports/dashboard-overview.tsx:997-1004 | with no negative revenue every listed share lies in 0..100 |
| ProductRanking.ExamplePercentages | client/src/components/reports/dashboard-overview.tsx:1001-1004 | 600, 300 and 100 of 1000 are 60, 30 and 10; 0.5 shows as 1 and -0.5 as -1 |
| Dashboard.EmptyStats | client/src/components/reports/dashboard-overview.tsx:204-222 | every revenue, count and the daily average 0, no payment labels or groups and no products, the range kept |
| Dashboard.DaysDiff | client/src/components/reports/dashboard-overview.tsx:460-467 | the days of the range, both ends included, and 1 for a backwards range |
| Dashboard.DailyAverage | client/src/components/reports/dashboard-overview.tsx:476 | the average earned on each day makes up the revenue over the range |
| Dashboard.SingleDayAverage | client/src/components/reports/dashboard-overview.tsx:460-476 | over a single day the daily average is the day's revenue |
| Dashboard.ExpectedStats | client/src/components/reports/dashboard-overview.tsx:231-484 | the statistics record as a function of the inputs, defined without a contract of its own; RangeStats computes it and the lemmas below relate its fields |
| Dashboard.RangeStats | client/src/components/reports/dashboard-overview.tsx:231-484 | the statistics record, field by field, from the views, the payment loop and the product loop |
| Dashboard.ComputeDashboardStats | client/src/components/reports/dashboard-overview.tsx:203-489 | the all-zero record when any of the three queries is missing, the range's statistics otherwise |
| Dashboard.EstimateIsSalesPlusServing | client/src/components/reports/dashboard-overview.tsx:316 | the estimated revenue is completed plus serving revenue; sales and subtotal agree |
| Dashboard.OrderCountsAgree | client/src/components/reports/dashboard-overview.tsx:469-482 | active equals processing; unpaid is processing plus marked unpaid; the view counts fit within the orders of the range |
| Dashboard.CustomersAtLeastOrders | client/src/components/reports/dashboard-overview.tsx:366-368 | the customer count is at least the number of orders in the range |
| Dashboard.BreakdownCountsEveryOrder | client/src/components/reports/dashboard-overview.tsx:337-363 | the payment counts add up to the completed-order count |
| PasswordForm.ValidatePasswordForm | client/src/components/reports/other-menu.tsx:80-105 | each field's error by its rule, the mismatch reported even for a short new password; valid iff no error, iff current is filled, new has at least 6 characters and confirm repeats it |
| RequestInterceptor.PairsToRecord | client/src/lib/request-interceptor.ts:53-60 | the keys are those of the pairs and each takes its last pair's value |
| RequestInterceptor.CopyPairs | client/src/lib/request-interceptor.ts:54-60 | the copying loop builds that record |
| RequestInterceptor.Normalized | client/src/lib/request-interceptor.ts:47-63 | the four header forms as one record, defined without a contract of its own; NormalizeHeaders computes it |
| RequestInterceptor.NormalizeHeaders | client/src/lib/request-interceptor.ts:47-63 | no headers, a `Headers` instance, a pair list or a plain record, as one plain record |
| RequestInterceptor.ResolveDomain | client/src/lib/request-interceptor.ts:40 | the stored domain, or `NOT_SET` when it is missing or empty |
| RequestInterceptor.Present | client/src/lib/request-interceptor.ts:66-72 | a header counts as set when it is there with a non-empty value, the negation of `!headersObj[k]`; plain definition; no contract of its own |
| RequestInterceptor.InjectsTenant | client/src/lib/request-interceptor.ts:66 | the guard of the tenant-domain injection; plain definition; no contract of its own |
| RequestInterceptor.InjectsOrigin | client/src/lib/request-interceptor.ts:72 | the guard of the origin injection; plain definition; no contract of its own |
| RequestInterceptor.BuildHeaders | client/src/lib/request-interceptor.ts:52-78 | the normalised caller headers with the two defaults added |
| RequestInterceptor.WithDefaults | client/src/lib/request-interceptor.ts:65-75 | the two guarded additions, defined without a contract of its own; DefaultsAddOnlyWhatIsMissing, DefaultsAreIdempotent and CallerHeadersWin state them |
| RequestInterceptor.DefaultsAddOnlyWhatIsMissing | client/src/lib/request-interceptor.ts:65-75 | the tenant header is set to the domain iff a domain is known and neither spelling is set; the origin likewise; every other caller header is kept and nothing else is added |
| RequestInterceptor.DefaultsAreIdempotent | client/src/lib/request-interceptor.ts:65-75 | adding the defaults twice is adding them once, for every origin and domain |
| RequestInterceptor.CallerHeadersWin | client/src/lib/request-interceptor.ts:65-75 | every header the caller set to a non-empty value keeps that value; a caller who set the tenant domain and the origin, under either spelling, gets the headers back unchanged |
| RequestInterceptor.RequestMethod | client/src/lib/request-interceptor.ts:37 | the given method, or `GET` when none is given |
| RequestInterceptor.MakeRequestLog | client/src/lib/request-interceptor.ts:81-88 | the log keeps the url, method, headers and domain of the request |
| RequestInterceptor.ErrorLog | client/src/lib/request-interceptor.ts:173-179 | a failed fetch is logged with status 0, `Network Error` and its message |
| RequestInterceptor.Newest | client/src/lib/request-interceptor.ts:22-25 | the last n entries, in order |
| RequestInterceptor.PushThenShift | client/src/lib/request-interceptor.ts:136-139 | pushing, then removing the oldest on overflow, keeps exactly the newest entries |
| RequestInterceptor.RequestLogStore.Push | client/src/lib/request-interceptor.ts:136-139 | the buffer stays within 100, in push order, the new entry last, the oldest dropped only on overflow |
| RequestInterceptor.RequestLogStore.RecordResponse | client/src/lib/request-interceptor.ts:127-139 | the success path logs the request with its status |
| RequestInterceptor.RequestLogStore.RecordError | client/src/lib/request-interceptor.ts:173-185 | the error path logs the request as a network error |
| RequestInterceptor.RequestLogStore.GetRequestLogs | client/src/lib/request-interceptor.ts:205-207 | a copy equal to the buffer, which is left unchanged |
| RequestInterceptor.RequestLogStore.ClearRequestLogs | client/src/lib/request-interceptor.ts:210-212 | the buffer is empty afterwards |

## Left out

- Fetching the orders, order items and tables, the react-query plumbing, React rendering and the component state: network I/O and UI. The three query results are parameters, with `None` for one that has not returned.
- `parseFloat` on amount strings, `NaN` and floating-point rounding: amounts are taken as parsed integers. The item's `unitPrice` string is kept as its parsed value in the product stats.
- The `console` logging throughout, the mock "compared to yesterday" factor, the table counts and the `Intl.NumberFormat` currency display: logging, mock data and formatting.
- The translated text of labels and messages (`t(...)`): labels and messages are enumerations, so two labels whose translations coincide are never merged here.
- The custom caption's text (`dd/MM/yyyy - dd/MM/yyyy` in the Vietnamese locale): the model returns the two dates.
- The statistics record's `dateRange` string: the record keeps the range itself.
- `Object.entries` listing integer-like keys first and prototype keys such as `constructor` in the plain lookup tables: property-order and prototype semantics of JavaScript objects.
- Years 0-99 reinterpreted by `new Date(y, m, d)`, local time zones and invalid date strings (`NaN` days): dates are valid civil dates.
- ItemDiscountAmount: when the order discount is not positive the source leaves the item discount as the result of `order?.items?.reduce` over an array the order records do not have (`undefined`, so the item revenue is `NaN`). The model uses 0 there.
- DiscountAllocation.ExactSum: proved when no item before the last carries the last item's id. The source recognises the last item by `findIndex` on the id, so with such a duplicate the last item gets its share rather than the remainder (LastFoundLast) and the sum need not be the discount; items before the last are unaffected (AllocationOfEarlierItems).
- Passwords are measured in Unicode scalar values, where JavaScript's `length` counts UTF-16 code units. `setPasswordErrors` (React state) and the password change request are not modelled.
- ProductRanking.Percentage: for a share between -0.5 and 0 the source's `toFixed(0)` gives the string `-0`; the model gives the integer 0. The source computes the share in binary floating point, so a share that is exactly a half in decimals may land just below it and round down: 29 of 200 is 14.5, which the model rounds to 15 while `toFixed(0)` of the float gives 14.
- The `Headers` class's own normalisation (lower-cased names, joined duplicate values): a `Headers` instance is given as the pairs its `forEach` visits.
- Request and response bodies, `responseData`, timing (`performance.now()` durations are parameters), the real `fetch` call, `exportRequestLogs` and the `window` globals: I/O, clocks and DOM.
- The invalid-range error a caller might expect: the code never raises one; a backwards range counts as one day.
