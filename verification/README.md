# Egg sales tracker — a verified model of the ledger and its views

EggSalesTracker is an iOS app in which a small egg seller records sales. Each sale has
a buyer's name, a date, a number of eggs, a price and optional notes. The app shows
per-buyer totals, an analytics screen and a filterable sales history. This project
models the three parts of the app that hold real logic, and proves properties of them:

- **The ledger** (`Models`, file `models.dfy`). `Sale` and `Buyer` are datatypes with
  their computed dozen and price-per-dozen properties. `SalesManager` is a class
  holding `sales` and `buyers`:
  - `buyers` is a cache of per-buyer totals. `UpdateBuyerStats` rebuilds it after
    every mutation that changes `sales`, and `ClearAllData` empties it directly;
  - the predicate `Valid()` (`IsBuyerStats`) says the cache has exactly one entry per
    distinct buyer name, carries that name's egg and price sums, and is ordered by
    amount paid, largest first;
  - every mutator (add, delete by id, update the first id match, delete a customer,
    clear, import) states the new `sales` exactly. `Valid()` holds after every mutator
    that changes `sales`, and after clearing. The no-op paths leave both `sales` and
    `buyers` untouched: an update whose id matches no record, and an import whose data
    does not decode. So a stale cache from loading stays stale until the next real
    change;
  - loading regenerates the cache when sales were stored without buyers;
  - the "today" and "this month" queries are functions over the ledger, each taking
    the calendar and the current time as parameters.
- **The analytics screen** (`Analytics`, file `analytics.dfy`). `AnalyticsView` holds
  a snapshot of the ledger, the selected timeframe, the calendar and the current time:
  - the window filter, and the totals, averages and counts over the window;
  - the best weekday, computed by a counting loop over a dictionary;
  - the customer ranking, the most active customer and the percentages in the top-five
    list;
  - `ChartView.ChartData`, which builds 7, 4 or 12 buckets in loops, newest first, and
    then reverses them.
- **The sales history screen** (`History`, file `history.dfy`). It covers the
  date-range filter, the exact-name customer filter, the sort by date (newest first),
  the totals, and the sorted list of distinct customers behind the sentinel "All
  Customers".

Supporting modules:
- `Wrappers` (`Option`);
- `Calendars`: Foundation's calendar as a value whose operations are uninterpreted
  functions. `Date` is an integer timestamp;
- `Seqs`: Swift's `filter`, `reduce`, `sorted(by:)` and `reversed()`, with their
  properties;
- `Strings`: lexicographic string order, and a sorted list of distinct names.

Money is `real`. The egg count is an unbounded `int`. Swift's truncating `Int / 12` is
written out in `WholeDozens`.

## Model

| member | source | states |
|---|---|---|
| Models.Sale.QuantityInDozens | EggSalesTracker/Models.swift:18-20 | twelve times the dozens is the egg count |
| Models.Sale.PricePerDozen | EggSalesTracker/Models.swift:22-25 | 0 whenever the quantity is ≤ 0 (not only 0); otherwise price-per-dozen times dozens is the price |
| Models.Buyer.TotalDozensPurchased | EggSalesTracker/Models.swift:34-36 | twelve times the dozens is the buyer's egg total |
| Models.WholeDozens | EggSalesTracker/Models.swift:148-150 | Swift's truncating division by 12: the largest number of whole dozens in a non-negative count, rounded toward zero for a negative one |
| Models.Since | EggSalesTracker/Models.swift:152-158 | keeps exactly the sales dated at or after the start, with no upper bound |
| Models.SinceKeepsOrder | EggSalesTracker/AnalyticsView.swift:206-221 | the date filter preserves ledger order: filtering a concatenation is the concatenation of the filtered parts |
| Models.TotalDozensIsEggsOverTwelve | EggSalesTracker/AnalyticsView.swift:236 | summed `quantityInDozens` times 12 is the summed egg count |
| Models.FirstIndexOf | EggSalesTracker/Models.swift:109 | `firstIndex(where:)`: a position holding the id with no earlier one, or none when no record has it |
| Models.WithoutId | EggSalesTracker/Models.swift:103 | `removeAll` by id keeps exactly the records with another id; nothing changes when the id is absent |
| Models.WithoutBuyer | EggSalesTracker/Models.swift:117 | `removeAll` by name keeps exactly the records of other buyers (character-by-character, case-sensitive match; see "## Left out" on Unicode equivalence); nothing changes when the name is absent |
| Models.SalesManager.Load | EggSalesTracker/Models.swift:67-92 | each collection is what storage held or empty; with sales but no stored buyers the cache is regenerated and valid, otherwise buyers are exactly what was stored |
| Models.SalesManager.UpdateBuyerStats | EggSalesTracker/Models.swift:122-135 | sales unchanged; buyers hold one entry per distinct name with that name's egg and price sums, ordered by amount paid, largest first |
| Models.AccumulateStats | EggSalesTracker/Models.swift:123-128 | the loop builds exactly the accumulated dictionary, which maps each buyer name of the ledger, and no other, to its egg and price sums |
| Models.StatsOfCorrect | EggSalesTracker/Models.swift:125-128 | the accumulated dictionary has the ledger's names as keys and each name's egg and price sums as values |
| Models.ListStats | EggSalesTracker/Models.swift:130-132 | one buyer per dictionary entry, no two with the same name, each carrying that name's sums |
| Models.SalesManager.AddSale | EggSalesTracker/Models.swift:96-100 | sales become the old sales followed by the new record; the cache is valid |
| Models.SalesManager.DeleteSale | EggSalesTracker/Models.swift:102-106 | sales lose every record with the sale's id and keep the rest in order; the cache is valid |
| Models.SalesManager.UpdateSale | EggSalesTracker/Models.swift:108-114 | only the first record with the id is replaced and the cache rebuilt; with no match, sales and buyers are untouched |
| Models.SalesManager.DeleteCustomer | EggSalesTracker/Models.swift:116-120 | sales keep exactly the records of other buyers, in order; the cache is valid |
| Models.SalesManager.ClearAllData | EggSalesTracker/Models.swift:170-176 | both collections are empty |
| Models.SalesManager.ImportData | EggSalesTracker/Models.swift:187-198 | on a decoding failure returns false and changes nothing; on success returns true, replaces the ledger (no merge) and rebuilds the cache |
| Models.SalesManager.TodaySales | EggSalesTracker/Models.swift:139-142 | keeps exactly the records on the same day as the start of today |
| Models.SalesManager.TodayIncome | EggSalesTracker/Models.swift:144-146 | the price sum of today's records: with the income of the other days it makes up the ledger's income, and it is 0 on a day without sales |
| Models.SalesManager.TodayDozens | EggSalesTracker/Models.swift:148-150 | whole dozens, by truncating division, of today's egg total |
| Models.SalesManager.MonthlyIncome | EggSalesTracker/Models.swift:152-158 | the price sum of the records since the start of the month (`now` if there is none): with the earlier records' income it makes up the ledger's; 0 when every record is earlier, the ledger's income when none is |
| Models.SalesManager.MonthlyDozens | EggSalesTracker/Models.swift:160-166 | whole dozens, by truncating division, of the eggs sold since the start of the month |
| Models.OneBuyerPerName | EggSalesTracker/Models.swift:122-132 | a valid cache has as many entries as distinct names, no two with the same name, and is empty exactly when the ledger is |
| Models.BuyerStatsUnique | EggSalesTracker/Models.swift:130-132 | the cache is determined by the ledger: any two valid caches hold the same buyers, differing at most in the order of ties |
| Models.BuyersAccountForAllSales | EggSalesTracker/Models.swift:122-132 | the buyers' amounts add up to the ledger's total price and their egg counts to its total quantity |
| Analytics.AnalyticsView.FilteredSales | EggSalesTracker/AnalyticsView.swift:206-221 | keeps exactly the sales at or after the start of the current week, month or year (`now` if there is none), with no upper bound |
| Analytics.AnalyticsView.TotalIncome | EggSalesTracker/AnalyticsView.swift:223-225 | the price sum of the window: 0 when every sale precedes the window start, the ledger's income when none does; `WindowSplitsLedger` relates it to the earlier sales |
| Analytics.AnalyticsView.TotalEggs | EggSalesTracker/AnalyticsView.swift:227-229 | the egg sum of the window: 0 when every sale precedes the window start, the ledger's egg count when none does; `WindowSplitsLedger` relates it to the earlier sales |
| Analytics.AnalyticsView.TotalSales | EggSalesTracker/AnalyticsView.swift:231-233 | the number of sales in the window: at most the ledger's size, 0 exactly when every sale precedes the window start, the ledger's size when none does |
| Analytics.AnalyticsView.WindowSplitsLedger | EggSalesTracker/AnalyticsView.swift:223-233 | the window's count, income and eggs plus those of the earlier sales are the ledger's |
| Analytics.AnalyticsView.AveragePricePerDozen | EggSalesTracker/AnalyticsView.swift:235-238 | 0 when the summed dozens are not positive; otherwise times the dozens it gives the income (no division by zero) |
| Analytics.AnalyticsView.AveragePriceInEggs | EggSalesTracker/AnalyticsView.swift:235-238 | with positive eggs, the average times the eggs is twelve times the income; otherwise the average is 0 |
| Analytics.AnalyticsView.AverageOrderSize | EggSalesTracker/AnalyticsView.swift:244-248 | 0 for an empty window; otherwise times the number of sales it gives the summed dozens |
| Analytics.AnalyticsView.AverageOrderSizeInEggs | EggSalesTracker/AnalyticsView.swift:244-248 | twelve times the average order size times the number of sales is the window's egg total |
| Analytics.MaxKey | EggSalesTracker/AnalyticsView.swift:261 | `max(by:)` on the counts: a key whose count no other key exceeds |
| Analytics.CountWeekdays | EggSalesTracker/AnalyticsView.swift:254-258 | the loop builds exactly the weekday dictionary, which maps each weekday index occurring in the sales to its number of sales and has no other key |
| Analytics.CountsOfCorrect | EggSalesTracker/AnalyticsView.swift:254-258 | every key of the weekday dictionary is an index 0 to 6 mapped to its positive count; an index that is not a key has no sales; a non-empty input gives a non-empty dictionary |
| Analytics.MaxCountIsBestDay | EggSalesTracker/AnalyticsView.swift:260-262 | a key with the largest count is a weekday with at least one sale and no fewer sales than any weekday |
| Analytics.AnalyticsView.BestSellingPeriod | EggSalesTracker/AnalyticsView.swift:250-265 | "Not enough data" for an empty window; otherwise the name of a weekday with at least one sale and no fewer sales than any other weekday |
| Analytics.AnalyticsView.TopCustomers | EggSalesTracker/AnalyticsView.swift:240-242 | all buyers, not only the window's, as a permutation ordered by amount paid, largest first |
| Analytics.AnalyticsView.TopCustomersOfStats | EggSalesTracker/AnalyticsView.swift:240-242 | over a valid cache the ranking is the cache itself |
| Analytics.AnalyticsView.MostActiveCustomer | EggSalesTracker/AnalyticsView.swift:267-269 | "No customers" for no buyers; otherwise the name of a buyer who paid at least as much as every other |
| Analytics.AnalyticsView.MostActiveCustomerSpentMost | EggSalesTracker/AnalyticsView.swift:267-269 | over a valid cache: a name from the ledger whose sales sum to at least any other name's, and "No customers" for an empty ledger (and for a buyer of that very name) |
| Analytics.AnalyticsView.TopCustomerRows | EggSalesTracker/AnalyticsView.swift:143-149 | at most five rows, ranked from 1, following the ranking, each compared with the first buyer's amount |
| Analytics.TopCustomerRow.Percentage | EggSalesTracker/AnalyticsView.swift:409-412 | 0 when the reference amount is not positive; otherwise percentage times reference is 100 times the customer's amount |
| Analytics.AnalyticsView.TopCustomerPercentages | EggSalesTracker/AnalyticsView.swift:147 | the percentages are relative to the leader: when the leader paid a positive amount, the first row shows 100 and a row with a non-negative amount shows between 0 and 100 |
| Analytics.MeanPricePerDozen | EggSalesTracker/AnalyticsView.swift:353 | 0 for no sales; otherwise the mean times the count is the summed price per dozen |
| Analytics.ChartView.DaySales | EggSalesTracker/AnalyticsView.swift:313-314 | keeps exactly the ledger's sales (not the window's) on the day `i` days before now |
| Analytics.ChartView.WeekSales | EggSalesTracker/AnalyticsView.swift:322-324 | keeps exactly the sales in `[now - i weeks, that + 7 days)` |
| Analytics.ChartView.MonthSales | EggSalesTracker/AnalyticsView.swift:332-334 | keeps exactly the sales in `[now - i months, that + 1 month)` |
| Analytics.ChartView.DailyIncomePoints | EggSalesTracker/AnalyticsView.swift:310-317 | seven points, point `i` being the income of the day `i` days before now, labelled by its weekday |
| Analytics.ChartView.WeeklyIncomePoints | EggSalesTracker/AnalyticsView.swift:319-327 | four points, point `i` being the income of the week starting `i` weeks before now, labelled `i + 1` |
| Analytics.ChartView.MonthlyIncomePoints | EggSalesTracker/AnalyticsView.swift:329-337 | twelve points, point `i` being the income of the month starting `i` months before now, labelled by its month |
| Analytics.ChartView.DailyQuantityPoints | EggSalesTracker/AnalyticsView.swift:339-346 | seven points, point `i` being the eggs sold on the day `i` days before now |
| Analytics.ChartView.DailyAveragePricePoints | EggSalesTracker/AnalyticsView.swift:348-355 | seven points, point `i` being the mean price per dozen of that day's sales, 0 for a day without sales |
| Analytics.ChartView.BucketPoints | EggSalesTracker/AnalyticsView.swift:309-356 | the points for the chart type and timeframe, current bucket first |
| Analytics.ChartView.ChartData | EggSalesTracker/AnalyticsView.swift:304-359 | 7, 4 or 12 points by chart type and timeframe, element 0 being the oldest bucket and the last the current one; each point sums price or quantity, or averages price per dozen, over its bucket |
| Analytics.ChartView.DailyChartsIgnoreTimeframe | EggSalesTracker/AnalyticsView.swift:339-355 | the quantity and average-price charts are the same seven daily points under every timeframe |
| Analytics.WithinSplit | EggSalesTracker/AnalyticsView.swift:324 | two adjacent half-open date intervals split the income of their union |
| Analytics.ChartView.WeeklyBucketsTile | EggSalesTracker/AnalyticsView.swift:319-327 | for exact week arithmetic, the four weekly buckets tile `[now - 3 weeks, now + 1 week)`, so their incomes add up to that span's |
| Analytics.ChartView.CurrentWeekBucketStartsNow | EggSalesTracker/AnalyticsView.swift:322-324 | the current weekly bucket starts at now: no sale dated before now is counted in it |
| History.SalesHistoryView.FilteredSales | EggSalesTracker/SalesHistoryView.swift:19-49 | ordered by date, newest first, and a permutation of the date- and customer-filtered ledger |
| History.SalesHistoryView.DateFilteredCount | EggSalesTracker/SalesHistoryView.swift:23-41 | today keeps same-day records; this week and this month keep records at or after the window start; custom keeps start ≤ date ≤ end inclusive; all time keeps everything |
| History.SalesHistoryView.FilteredSalesExactly | EggSalesTracker/SalesHistoryView.swift:19-49 | each sale appears as often as in the ledger when it is in the range and is the selected customer's (or the sentinel is selected), otherwise not at all: nothing is invented |
| History.SalesHistoryView.TotalIncome | EggSalesTracker/SalesHistoryView.swift:51-53 | the price sum of the date- and customer-selected sales in ledger order: listing them newest first does not change it |
| History.SalesHistoryView.TotalEggs | EggSalesTracker/SalesHistoryView.swift:55-57 | the egg sum of the date- and customer-selected sales in ledger order: listing them newest first does not change it |
| History.SalesHistoryView.AllTimeAllCustomersShowsLedger | EggSalesTracker/SalesHistoryView.swift:39-57 | with all time and all customers, the list is a permutation of the ledger and the totals are the ledger's |
| History.SalesHistoryView.AllTimeCustomerMatchesBuyerStats | EggSalesTracker/SalesHistoryView.swift:44-57 | with all time and one customer, the totals equal that customer's entry in a valid buyer cache |
| History.SalesHistoryView.AvailableCustomers | EggSalesTracker/SalesHistoryView.swift:59-61 | "All Customers" first, then every distinct buyer name of the ledger, strictly ascending and with no name twice |

## Left out

- Persistence is not modelled: JSON encoding and decoding, `UserDefaults`, `saveData` and `exportData`. `Load` takes each decoded collection as an `Option`, and `ImportData` takes the decoding outcome. There is no export/import round trip, because `Sale.id` and `Buyer.id` are regenerated by `UUID()` on decoding.
- `Buyer.id` is not modelled; nothing in the core reads it. `Sale.id` is an ordinary field chosen by the caller.
- Calendar arithmetic is not modelled: time zones, locale week starts, month lengths, and `date(byAdding:)` itself. Every `Calendar` operation is a parameter, so each property holds for any calendar whose weekday numbers lie in 1…7 (the `Weekday` type, as Foundation's calendars number them; `BestSellingPeriod` relies on this to index the weekday names), except where a lemma states what else it requires of one.
- Each screen is evaluated at one instant: `AnalyticsView`, `ChartView` and `SalesHistoryView` carry a single `now`. In Swift, `filteredSales` is a computed property that reads `Date()` on every access. `averagePricePerDozen` reads it twice (its own `filteredSales` and `totalIncome`), and `averageOrderSize` three times (the emptiness guard, the dozens sum and the count). If a week, month or year boundary passes between those reads, Swift combines two different windows, and `averageOrderSize` can divide by a zero count after its guard passed. `Analytics.AnalyticsView.AveragePricePerDozen` and `Analytics.AnalyticsView.AverageOrderSize` hold only for one instant.
- `Double` rounding and `String(format:)` output are not modelled: money and dozens are exact reals.
- Swift's `Int` overflow trap is not modelled. Egg counts and their sums are unbounded integers. Swift's `+` would trap past `Int.max` in the quantity sums (`updateBuyerStats`, `todayDozens`, `monthlyDozens`, the analytics `totalEggs`, the daily quantity chart's bucket sums) and in the history screen's totals.
- Swift's `String` comparison in `sorted()` is modelled as lexicographic order on characters, without Unicode canonical equivalence.
- Name equality and hashing are modelled as plain sequence equality, without Unicode canonical equivalence. In Swift, an NFC "José" and an NFD "Jose\u{301}" are `==` and are the same `Dictionary` key and `Set` element. The model treats them as two names in four places:
  - `updateBuyerStats`'s dictionary (`Names`, `SalesOf`, `IsBuyerStats`);
  - `deleteCustomer` (`WithoutBuyer`);
  - the history screen's customer filter (`BoughtBy`, `ForSelectedCustomer`);
  - `availableCustomers`' `Set` (`SortedDistinct`).
- Dictionary iteration order is not fixed, in `updateBuyerStats` and in `bestSellingPeriod`. The model picks keys with `:|`, so the contracts hold whatever the order.
- Models.SalesManager.UpdateBuyerStats: the order of buyers with equal amounts paid is left open, because the sort's input is listed in the dictionary's unspecified iteration order.
- Seqs.SortDesc: Swift's `sorted(by:)` is modelled as a stable sort (an insertion sort), although Swift's documentation does not promise stability. Analytics.AnalyticsView.TopCustomersOfStats relies on this: re-sorting a valid cache returns it unchanged, ties included. With an unstable sort, only the amounts position by position and the multiset of buyers would be guaranteed.
- Analytics.AnalyticsView.BestSellingPeriod: the choice among weekdays with equal counts is left open, because it depends on the dictionary's order.
- `loadSampleData` is not modelled: its only call is commented out. The empty `exportAsCSV`/`exportAsPDF` stubs are not modelled either.
- The SwiftUI `body` layouts are not modelled, and neither are the dashboard, settings, add-sale and customer-list screens.
- `SalesManager`'s `@Published` change notifications are not modelled.
