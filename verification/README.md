# Portfolio metrics dashboard — a Dafny model of its core

The dashboard shows a portfolio of nine holdings: equities, fixed income, cash
and alternatives. The model covers these parts of it:

- **The static portfolio.** The sample holdings table, with random-walk price
  histories. The headline metrics are total value, daily change and its
  percentage, and the horizon figures scaled from it. It also covers the
  allocation breakdowns by asset class and by equity sector, and the 30-day
  sample performance series.
- **The market-data service.** It reads a quote and a daily close history
  from a chart API reply. It also reprices one holding from them while
  keeping the number of shares.
- **The live portfolio.** It holds a five-minute cache of repriced holdings,
  with a fallback when the batch of requests fails. From whatever the cache
  serves it computes live metrics (an allocation-weighted average yield), the
  live allocations, and a day-by-day portfolio value series rebuilt from each
  holding's closes.
- **The holdings list view.** The sort-toggle state, the filter by asset
  class, and the sort comparator, where a missing yield sorts as 0.
- **The performance chart.** The time-range slices and repetitions of the
  series, and the change figures over the shown range.

Modules follow the source files:

- `PortfolioData`: `src/data/portfolioData.ts`.
- `YahooFinance`: `src/services/yahooFinanceService.ts`.
- `LivePortfolioData`: `src/data/livePortfolioData.ts`.
- `AssetList`: `src/components/AssetList.tsx`.
- `PerformanceChart`: `src/components/PerformanceChart.tsx`.
- `GroupBy`: the `forEach` loop that fills a dictionary of per-key totals.
  All four allocation functions share this loop.
- `Wrappers`: `Option`/`Result`.

JavaScript numbers are modelled as `real`. A dictionary keyed by strings is a
`map` plus its key order. `Object.keys` returns keys in insertion order, which
is the order of first occurrence.

The network is modelled as a parameter `net: Request -> Reply`. The current
time is a parameter. The random draws of `Math.random` are a sequence
parameter. Whether `Promise.all` settles or rejects is a `BatchOutcome`
parameter.

The functions in `portfolioData.ts` and `livePortfolioData.ts` read
module-level data. Here they take the holdings as a parameter instead. The
module-level cache `liveAssetsCache`/`lastFetchTime` is the class
`LivePortfolioData.LiveAssetCache`. Its methods are proved against the pure
step function `FetchStep`.

The allocation loops and the performance-series loops are methods with loop
invariants. Each is proved equal to a recursive specification function, and
the properties are proved as lemmas about that function.

Some behaviours of the code worth knowing when reading the model:

- `dailyChangePercent` divides by the total value without a guard against 0.
  The model requires a non-zero total.
- The live performance series takes its length from the **first** holding's
  history, not the longest one. A holding with a shorter history contributes
  nothing on the days it lacks.
- The live average yield weights each holding's yield by its
  `allocation / 100`, not by its value.
- `duration` is always 5.4, whether or not the portfolio holds fixed income.

## Model

| member | source | states |
|---|---|---|
| GroupBy.Accumulate | src/data/portfolioData.ts:224-231 | After the loop, the dictionary's keys, in insertion order, are the distinct keys in order of first occurrence. Each bucket holds the sum of the amounts under its key. |
| GroupBy.FirstOccurrences | src/data/portfolioData.ts:233 | The key order holds each key exactly once: a key appears iff some entry has it. |
| GroupBy.BucketsPartitionTotal | src/data/portfolioData.ts:224-237 | Summing every bucket once gives the total of all entries. |
| GroupBy.TotalsOverSnoc | src/data/portfolioData.ts:230 | One more entry adds its amount to the bucket sum exactly when its key is among the buckets. |
| PortfolioData.Percentage | src/data/portfolioData.ts:199 | `(part / whole) * 100` is the p with p · whole = 100 · part. |
| PortfolioData.DailyChangePercent | src/data/portfolioData.ts:191-199 | The daily change percentage times the total value is 100 times the summed daily change. |
| PortfolioData.TotalValueNonNegative | src/data/portfolioData.ts:192 | Holdings of non-negative value have a non-negative total value. |
| PortfolioData.TotalValueAppend | src/data/portfolioData.ts:192 | The total value of two lists joined is the sum of their totals. |
| PortfolioData.DailyChangeAmountBounds | src/data/portfolioData.ts:194-197 | If every holding has a non-negative value and a daily change in [lo, hi], the summed daily change lies between lo% and hi% of the total value. |
| PortfolioData.DailyChangePercentIsWeightedMean | src/data/portfolioData.ts:194-199 | With a positive total and non-negative values, if every holding's daily change lies in [lo, hi], so does the portfolio's daily change percentage: it is a value-weighted mean. |
| PortfolioData.ToFixed2 | src/data/portfolioData.ts:59 | `Number(x.toFixed(2))` is a whole number of cents, within half a cent of x. |
| PortfolioData.GenerateHistoricalPrices | src/data/portfolioData.ts:49-63 | The history has `dataPoints` prices (at least one) and starts at the start price. Each later price is the previous one times `1 + (draw - 0.5) · volatility`, rounded to cents. |
| PortfolioData.RandomWalkStepBounds | src/data/portfolioData.ts:57-59 | One step moves a non-negative price by at most half the volatility either way, plus half a cent of rounding. |
| PortfolioData.SampleHistories | src/data/portfolioData.ts:77-187 | The eight `generateHistoricalPrices(purchasePrice, volatility, 30)` calls give 30-point histories, each starting at its holding's purchase price and moving by the rounded random-walk rule with that holding's volatility (0.02, 0.015, 0.025, 0.005, 0.01, 0.007, 0.018, 0.02). |
| PortfolioData.SampleTable | src/data/portfolioData.ts:65-189 | Given histories of that shape, the table has 9 holdings. The cash holding is priced at 1 with no daily change and a flat 30-point history. Every history has 30 points and starts at the purchase price. The values total 375 000. |
| PortfolioData.BuildSampleAssets | src/data/portfolioData.ts:65-189 | The table as the module builds it: the cash reserve has a flat 30-point history, every other holding's history is its own 30-point random walk from its purchase price with its volatility, and the values total 375 000. |
| PortfolioData.SampleMetrics | src/data/portfolioData.ts:191-199 | On the sample table: total 375 000, daily change 1016.25, daily change percentage 0.271. |
| PortfolioData.OfType | src/data/portfolioData.ts:241 | The `filter` on type keeps exactly the holdings of that class. |
| PortfolioData.OfTypeAppend | src/data/portfolioData.ts:241 | Filtering a concatenation is the concatenation of the filtered parts, so the kept holdings stay in their original order. |
| PortfolioData.WithSector | src/data/portfolioData.ts:247 | Keeps exactly the holdings whose sector is truthy: present and non-empty. |
| PortfolioData.IndexOfFindsFirst | src/data/portfolioData.ts:234 | The search gives -1 iff the character is absent. Otherwise it gives the position of its first occurrence. |
| PortfolioData.ReplaceFirstChangesOnlyFirst | src/data/portfolioData.ts:234 | `replace('-', ' ')` keeps the length. It replaces only the first dash and changes nothing when there is none. |
| PortfolioData.TypeLabel | src/data/portfolioData.ts:234 | The label has the key's length and starts with the key's first letter upper-cased. |
| PortfolioData.TypeDisplayNames | src/data/portfolioData.ts:234 | The four class labels are "Equity", "Fixed income", "Cash" and "Alternative". |
| PortfolioData.TypeLabelReplacesFirstDashOnly | src/data/portfolioData.ts:234 | A key with two dashes keeps its second dash. |
| PortfolioData.TypeDisplayInjective | src/data/portfolioData.ts:234 | Different asset classes get different labels. |
| PortfolioData.CalculateAssetAllocation | src/data/portfolioData.ts:221-238 | The `forEach` plus `Object.keys(...).map` computes exactly the specification `AssetAllocationOf`. |
| PortfolioData.CalculateSectorAllocation | src/data/portfolioData.ts:240-260 | The same for `SectorAllocationOf`, over the equities that have a sector. |
| PortfolioData.TypeBucket | src/data/portfolioData.ts:226-231 | The bucket of a class holds the total value of the holdings of that class. |
| PortfolioData.SectorBucket | src/data/portfolioData.ts:246-253 | The bucket of a sector holds the total value of the holdings with that sector. |
| PortfolioData.SectorEntriesTotal | src/data/portfolioData.ts:246-253 | All sector buckets together hold the value of the holdings that have a sector. |
| PortfolioData.SlicesValues | src/data/portfolioData.ts:233-237 | The records' values add up to the sum of the buckets. |
| PortfolioData.SlicesPercentages | src/data/portfolioData.ts:233-237 | The records' percentages add up to the buckets' sum as a percentage of the whole. |
| PortfolioData.AssetAllocationValues | src/data/portfolioData.ts:221-238 | The class records' values add up to the total value. |
| PortfolioData.AssetAllocationPercentages | src/data/portfolioData.ts:221-238 | With a non-zero total, the class percentages add up to 100. |
| PortfolioData.AssetAllocationByType | src/data/portfolioData.ts:221-238 | There is a record labelled with a class iff some holding has that class. Its value is that class's total value. Its percentage is that value's share of the total. |
| PortfolioData.AssetAllocationDistinct | src/data/portfolioData.ts:233 | One record per class: no label repeats. |
| PortfolioData.SectorAllocationValues | src/data/portfolioData.ts:240-260 | The sector records' values add up to the value of the equities that have a sector. |
| PortfolioData.SectorAllocationPercentages | src/data/portfolioData.ts:240-260 | The sector percentages add up to that value's share of the total equity value. This is 100 when every equity has a sector. |
| PortfolioData.SectorAllocationBySector | src/data/portfolioData.ts:240-260 | There is a record for a sector iff some equity has that sector. Its value is those equities' total value. Its percentage is relative to the total equity value. |
| PortfolioData.SectorAllocationDistinct | src/data/portfolioData.ts:255 | One record per sector. |
| PortfolioData.PercentageAdds | src/data/portfolioData.ts:236 | Percentages of the same whole add like their parts. |
| PortfolioData.CalculatePortfolioMetrics | src/data/portfolioData.ts:191-219 | The total value and daily change are the sums. Every percentage figure is its change's share of the total. Weekly, monthly and yearly figures are 4.2×, 15.5× and 180× the daily ones. All-time is 35%. Volatility 12.8, Sharpe ratio 1.45, yield 3.2 and duration 5.4 are constants. |
| PortfolioData.GetPortfolioPerformanceData | src/data/portfolioData.ts:262-266 | 30 points, starting at 85% of the total value, each one a rounded 1%-volatility random-walk step from the previous. |
| YahooFinance.ReadChart | src/services/yahooFinanceService.ts:39-49 | A reply yields a chart result iff it is `ok`, has a body, has no `chart.error` and has a non-empty `result`. The result is `result[0]`. |
| YahooFinance.PriceChangePercent | src/services/yahooFinanceService.ts:52 | The daily change times the previous close is 100 times the price move. With a positive previous close it is positive iff the price rose, and 0 iff it did not move. |
| YahooFinance.FetchCurrentPrice | src/services/yahooFinanceService.ts:25-63 | It succeeds iff the chart is read. The quote is the regular market price and the previous close, with the daily change percentage between them. Otherwise it fails with the read's error. |
| YahooFinance.FilterCloses | src/services/yahooFinanceService.ts:96 | The kept closes are exactly the non-null ones. |
| YahooFinance.FilterClosesAppend | src/services/yahooFinanceService.ts:96 | Filtering keeps the order: it distributes over concatenation. |
| YahooFinance.FilterClosesKeepsPresent | src/services/yahooFinanceService.ts:96 | A series with no nulls comes back unchanged. |
| YahooFinance.FilterClosesDropsMissing | src/services/yahooFinanceService.ts:96 | A null at either end is dropped. |
| YahooFinance.HistoryWindow | src/services/yahooFinanceService.ts:68-69 | The end is the current time in whole seconds, rounded down. The start is `days` days of seconds earlier. |
| YahooFinance.FetchHistoricalPrices | src/services/yahooFinanceService.ts:65-101 | It succeeds iff the chart is read and carries a quote series. The result is that series' non-null closes. |
| YahooFinance.RequestsIssued | src/services/yahooFinanceService.ts:103-111 | A cash holding issues no request. Any other holding asks for its quote first. The 30-day history request for the window ending now is issued second, exactly when the quote arrived. |
| YahooFinance.UpdateDependsOnRequestsIssued | src/services/yahooFinanceService.ts:103-129 | Two networks that answer the issued requests alike give the same reconciled holding: the update reads nothing else from the network. |
| YahooFinance.Reprice | src/services/yahooFinanceService.ts:114-122 | The repriced holding keeps every descriptive field, takes the quote's price and daily change and the new history, and keeps its number of shares: new value · old price = old value · new price. |
| YahooFinance.SharesKept | src/services/yahooFinanceService.ts:114-115 | Repricing at the new price keeps the number of shares `value / currentPrice`. |
| YahooFinance.UpdateAssetWithLiveData | src/services/yahooFinanceService.ts:103-129 | Only price, daily change, history and value may change. Cash, or a failed quote or history fetch, leaves the holding as it was. On success the new price, change and history are set and the value is rescaled by new price / old price. |
| YahooFinance.RepriceExample | src/services/yahooFinanceService.ts:114-122 | The sample Apple holding (56 250 at 187.5) repriced to 200 is worth 60 000. |
| LivePortfolioData.RefreshAll | src/data/livePortfolioData.ts:25-27 | The refresh maps one to one over the sample holdings, in order, through the per-holding update. |
| LivePortfolioData.FetchStep | src/data/livePortfolioData.ts:15-41 | After any call the served list is the cache, or the sample holdings while the cache is still empty. The state either stays as it was or becomes the served list stamped with the current time. |
| LivePortfolioData.FreshCacheServed | src/data/livePortfolioData.ts:13-21 | Whatever the network answers, a cache younger than 300 000 ms is served as it is, and the state does not change. |
| LivePortfolioData.RefreshReplacesCache | src/data/livePortfolioData.ts:23-33 | A settled refresh stores the updated holdings and the current time, and serves exactly the new cache. |
| LivePortfolioData.RejectedBatchFallsBack | src/data/livePortfolioData.ts:34-40 | Whatever the network answers, a rejected batch leaves the state alone. It serves the old cache if there is one, even an expired one, else the sample holdings. |
| LivePortfolioData.RefreshReusedWithinWindow | src/data/livePortfolioData.ts:13-33 | After a settled refresh, every fetch within the next five minutes serves the same holdings. |
| LivePortfolioData.FetchStepKeepsCacheValid | src/data/livePortfolioData.ts:15-41 | The cache always lines up with the sample holdings, as repricings of them. A cache once filled is never cleared. The timestamp only moves to the current time. |
| LivePortfolioData.AverageYieldBounds | src/data/livePortfolioData.ts:71 | With non-negative allocations and every yield (missing counted as 0) in [lo, hi], the average yield lies between lo and hi times the allocation total / 100. |
| LivePortfolioData.SampleAverageYield | src/data/livePortfolioData.ts:71 | On the sample table the allocations add up to 100 and the average yield is 2.3055. |
| LivePortfolioData.LiveMetricsOf | src/data/livePortfolioData.ts:43-74 | Sums as in the static variant. Weekly, monthly and yearly figures are 5×, 22× and 252× the daily ones. The yield is the allocation-weighted one. Volatility 15, Sharpe ratio 1.2 and duration 5.4 are constants. |
| LivePortfolioData.PerformanceSeries | src/data/livePortfolioData.ts:119-148 | The nested day/holding loops compute exactly the specification `PerformanceSeriesOf`. |
| LivePortfolioData.ContributionIsScaledValue | src/data/livePortfolioData.ts:133-136 | A holding's contribution on a day is its value scaled by that day's close over its latest close. |
| LivePortfolioData.ContributionOnLatestDay | src/data/livePortfolioData.ts:133-136 | On its latest day a holding contributes its value. |
| LivePortfolioData.ShortHistoryAddsNothing | src/data/livePortfolioData.ts:133 | A holding whose history is too short for a day adds nothing to that day. |
| LivePortfolioData.LatestDayIsTotal | src/data/livePortfolioData.ts:128-140 | When all histories have the same length, the last day's total is the portfolio's total value. |
| LivePortfolioData.PerformanceSeriesShape | src/data/livePortfolioData.ts:124-147 | The series has the first holding's history length, or 30 points for the fallback. With equal-length histories the last point is the total value. The fallback runs from 90% of the total in steps of 1% of it. |
| LivePortfolioData.LiveAssetCache.constructor | src/data/livePortfolioData.ts:11-12 | The cache starts empty with timestamp 0. |
| LivePortfolioData.LiveAssetCache.FetchLiveAssets | src/data/livePortfolioData.ts:15-41 | The new cache fields and the served holdings are those of `FetchStep` on the old state. |
| LivePortfolioData.LiveAssetCache.CalculateLivePortfolioMetrics | src/data/livePortfolioData.ts:43-74 | It fetches through the cache and returns the live metrics of the served holdings. |
| LivePortfolioData.LiveAssetCache.CalculateLiveAssetAllocation | src/data/livePortfolioData.ts:76-94 | It fetches through the cache and returns the class allocation of the served holdings. |
| LivePortfolioData.LiveAssetCache.CalculateLiveSectorAllocation | src/data/livePortfolioData.ts:96-117 | It fetches through the cache and returns the sector allocation of the served holdings. |
| LivePortfolioData.LiveAssetCache.GetLivePortfolioPerformanceData | src/data/livePortfolioData.ts:119-148 | It fetches through the cache and returns the performance series of the served holdings. |
| AssetList.AfterSortClick | src/components/AssetList.tsx:15-22 | The clicked field becomes the sort field. Clicking the current field flips the order. Clicking another field sorts descending. |
| AssetList.SortClickTwiceRestores | src/components/AssetList.tsx:15-17 | Clicking the current field twice restores the order. |
| AssetList.NewFieldThenAgainIsAscending | src/components/AssetList.tsx:15-22 | Clicking a new field and then the same field again sorts ascending. |
| AssetList.AssetListView.constructor | src/components/AssetList.tsx:11-13 | The view starts sorted by value, descending, showing all holdings. |
| AssetList.AssetListView.HandleSort | src/components/AssetList.tsx:15-22 | It moves the sort state as `AfterSortClick` says and leaves the filter alone. |
| AssetList.AssetListView.SetAssetTypeFilter | src/components/AssetList.tsx:13 | It sets the filter and leaves the sort state alone. |
| AssetList.AssetListView.VisibleAssets | src/components/AssetList.tsx:24-41 | The shown cards are a permutation of the filtered holdings, ordered by the comparator for the current field and order. |
| AssetList.FilterAssets | src/components/AssetList.tsx:24-26 | "All" keeps every holding. A class filter keeps exactly the holdings of that class. |
| AssetList.FilterAssetsAppend | src/components/AssetList.tsx:24-26 | Filtering keeps the order of the holdings. |
| AssetList.FiltersPartition | src/components/AssetList.tsx:24-26 | The four class filters together show each holding exactly once. |
| AssetList.LexLessTotal | src/components/AssetList.tsx:38-39 | String `<` orders any two different names one way or the other. |
| AssetList.LexLessTransitive | src/components/AssetList.tsx:38-39 | String `<` is transitive. |
| AssetList.LexLessAsymmetric | src/components/AssetList.tsx:38-39 | String `<` never holds both ways. |
| AssetList.LexLessIrreflexive | src/components/AssetList.tsx:38-39 | A name is never `<` itself. |
| AssetList.Compare | src/components/AssetList.tsx:28-41 | The callback returns -1, 0 or 1. It is negative iff a sorts before b in the chosen direction, and positive iff after. |
| AssetList.CompareAntisymmetric | src/components/AssetList.tsx:38-40 | Swapping the two holdings negates the callback's result. |
| AssetList.NotAfterTotal | src/components/AssetList.tsx:38-40 | Any two holdings can be ordered. |
| AssetList.NotAfterTransitive | src/components/AssetList.tsx:38-40 | "Not after" is transitive, so the callback is a consistent comparator. |
| AssetList.SortAssets | src/components/AssetList.tsx:28 | The sort returns a permutation of its input. |
| AssetList.InsertSorted | src/components/AssetList.tsx:28-41 | Inserting a holding into a sorted list keeps it sorted. |
| AssetList.SortAssetsSorted | src/components/AssetList.tsx:28-41 | The sort's result is ordered by the callback. |
| AssetList.SortedByValue | src/components/AssetList.tsx:28-41 | Sorted by value, descending the values never increase and ascending they never decrease. |
| AssetList.MissingYieldSortsAsZero | src/components/AssetList.tsx:33-36 | For the yield sort, a missing yield compares equal to a yield of 0. |
| PerformanceChart.Points | src/components/PerformanceChart.tsx:24-30 | The points carry the series' values in order. Their dates move strictly towards today, from 30 days ago to 31 − n days ago. |
| PerformanceChart.ChartDataShowsDataPoints | src/components/PerformanceChart.tsx:32-45 | Every shown point is a point of the data, and a non-empty series never gives an empty view. |
| PerformanceChart.WeekOfThirtyPoints | src/components/PerformanceChart.tsx:33-34 | With the 30-point series, 1W shows the last seven values, dated 7 days ago down to yesterday. |
| PerformanceChart.ThreeMonthsDatesRestart | src/components/PerformanceChart.tsx:37-38 | With the 30-point series, 3M has 90 points and its dates jump back from yesterday to 30 days ago at the 31st point. |
| PerformanceChart.RepeatAt | src/components/PerformanceChart.tsx:37-42 | k copies of the data have k·n points, and point i is data point i mod n. |
| PerformanceChart.Take | src/components/PerformanceChart.tsx:38 | `slice(0, end)` is a prefix of length min(end, n). |
| PerformanceChart.ShortRanges | src/components/PerformanceChart.tsx:33-36 | 1W is the last min(7, n) points. 1M is the data unchanged. |
| PerformanceChart.ThreeMonthsRepeats | src/components/PerformanceChart.tsx:37-38 | 3M has min(90, 3n) points, and point i is data point i mod n. |
| PerformanceChart.ThreeMonthsOfThirtyPoints | src/components/PerformanceChart.tsx:37-38 | With 30 points, 3M is all three copies. |
| PerformanceChart.LongRangesRepeat | src/components/PerformanceChart.tsx:39-42 | 1Y and ALL are the same. They have min(365, 4n) points, and point i is data point i mod n. |
| PerformanceChart.ChangeIsSumOfMoves | src/components/PerformanceChart.tsx:51-53 | The change shown is the sum of the day-to-day moves of the view, so it is 0 for an empty view or a single point. |
| PerformanceChart.ChangePercent | src/components/PerformanceChart.tsx:54 | The percentage times the first value is 100 times the change. From a positive start it is positive iff the value rose. |
| PerformanceChart.LongerRangesShowSameChange | src/components/PerformanceChart.tsx:31-54 | For up to 30 points, the 1M, 3M, 1Y and ALL views start on the first point and end on the last. So they show the same change. |
| PerformanceChart.WeekChange | src/components/PerformanceChart.tsx:34-53 | For at least 7 points, the 1W change is the last point minus the seventh from the end. |

## Left out

- HTTP (`fetch`, headers, status text) and JSON decoding are not modelled. A reply is a value of `Reply`, and a body that is not valid JSON is `body == None`. `console.error` logging is also left out.
- `Promise.all` runs the per-holding updates in parallel. Here it is a sequential map. `updateAssetWithLiveData` catches every error, so in the source the batch never rejects. The model still keeps the `Rejected` outcome as a parameter so that the catch branch of `fetchLiveAssets` is covered.
- `Date.now()` and `Math.random()` become parameters: the current time, and a sequence of draws in [0, 1].
- IEEE-754 arithmetic is not modelled. Values are exact reals. Division by zero, which gives `NaN` or `Infinity` in JavaScript, is excluded by a precondition on each member that divides: total value, equity total, previous close, current price, latest close, and the chart's first value. The reconciliation needs a non-zero previous close only when the quote arrives and a non-zero price only when the history arrives too; the cache needs them only on a call that refreshes.
- Fields that the JSON lacks, which JavaScript reads as `undefined`, are not modelled. Every number in a reply is present.
- `toLocaleString`, `toLocaleDateString`, the axis and tooltip formatting, and all JSX and recharts rendering are left out. A chart point's date is kept only as its day offset.
- `toUpperCase` is modelled for ASCII letters only. The asset-class keys are ASCII.
- The dictionaries start as `{}`, which inherits `Object.prototype`. The model starts from an empty map, so it assumes no sector name is a key of `Object.prototype` (`constructor`, `toString`, `__proto__` and the like). For such a name the source would concatenate strings or lose the bucket; the allocation lemmas do not cover it.
- Names are compared by Unicode code point. JavaScript's `<` compares UTF-16 code units, which orders differently only for names holding characters outside the Basic Multilingual Plane.
- `Object.keys` puts keys that look like array indices first, in numeric order. This is not modelled: class keys are never numeric, and the model assumes sector names are not numeric either.
- SortAssets: the sort is an insertion sort proved to return a sorted permutation. The model does not claim to follow the engine's own algorithm, and it does not prove stability (equal holdings keeping their filtered order).
- GenerateHistoricalPrices: the prices are random. The contract states the length, the start price and the rounded step rule. It does not state any distribution.
- PortfolioData.SampleTable: the concrete class and sector allocation figures of the sample table are not stated. Its total value and the metrics are.
- The selected time range of the chart (`useState('1M')`) is the constant `InitialTimeRange`. The buttons only choose the `range` argument of `ChartData`.
