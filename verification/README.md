# Dashboard analytics, modelled in Dafny

This project models the analytics core of a small point-of-sale back end: the
dashboard controller that turns a snapshot of transactions into charts, cards
and forecasts. The database reads, the request form, the clock and the
random-forest library are parameters. What remains is pure processing of
sequences.

- **Records** (`records.dfy`) holds the entities:
  - categories, inventory items, order items and transactions;
  - the days counted from 1970-01-01, with 2023-07-09 as the epoch of every chart;
  - a `Calendar` that injects today and the truncation of a timestamp to its day;
  - chart points and the handlers' errors.
- **Sums** (`sums.dfy`) provides `Sum` and `Filter` over sequences, the algebra of sums the proofs use, and the exchange of a double sum.
- **Aggregation** (`aggregation.dfy`):
  - the completed-in-a-window filter;
  - transaction-level and order-item-level weights;
  - category selection by name (charts) or by id (quantities).
- **TimeSeries** (`time_series.dfy`) models `dataTimeSeries`, `dataTimeSeriesFilter` and `dataCategoryTimeSeries`. Each is a loop proved equal to a day-by-day reference series, `Buckets`, with conservation of the series' sum.
- **Decimal** and **Percent** (`decimal.dfy`, `percent.dfy`) model `percentage`: `toFixed(0)` with half-away-from-zero rounding, its text, and the `Number` coercion of that text.
- **Comparison** (`comparison.dfy`) covers the windows of `getCardData`, the per-category quantities, and the stable descending sort that picks the best seller.
- **Forecast** (`forecast.dfy`) models `randomForestModel`: sliding windows of three values and three rounds in which each prediction is fed back. The forest itself is an uninterpreted `Regressor`.
- **Prediction** (`prediction.dfy`) models the `slice`/`reverse` index arithmetic that cuts the actual and training series out of a daily series.
- **Dashboard** (`dashboard.dfy`) models the four handlers `getCardData`, `getIncomeProfitData`, `getCategoryData` and `getPredictionData`.

JavaScript numbers are modelled as exact reals.

Two behaviours of the code are easy to misread:
- `percentage(x, 0)` for negative `x` returns `"-Infinity%"`. Only `"Infinity"` and `"NaN"` are blanked, so it is not blanked.
- `randomForestModel` fails only for fewer than three values. That is where `new Array(length - 3)` gets a negative length.

## Model

| member | source | states |
|---|---|---|
| Percent.Percentage | controllers/dashboard.controller.js:63-73 | empty exactly when the prior total is 0 and the value is not negative; `"-Infinity%"` for a negative value over a zero total; otherwise the rounded percentage change, with a `+` exactly when it is positive, then `%` |
| Percent.RoundHalfAwayFromZero | controllers/dashboard.controller.js:64 | `toFixed(0)` rounding: the result is within one half of the number, and a tie goes away from zero |
| Percent.RoundingIsUnique | controllers/dashboard.controller.js:64 | the three rounding properties determine the rounded integer |
| Percent.RenderRoundTrip | controllers/dashboard.controller.js:64-68 | `ToFixed` is the number `toFixed(0)` formats (the rounded change, or `Infinity`, `-Infinity` or `NaN` for a zero total), `Render` its text and `NumberOf` the coercion `result > 0` applies; coercing the text back gives the rounded value, or the same infinity or NaN, so `result > 0` tests the sign of the rounded delta |
| Percent.PercentageExamples | controllers/dashboard.controller.js:63-73 | a doubling shows `+100%`, a halving `-50%`, a zero prior with a non-negative value shows nothing, and a zero prior with a negative value shows `-Infinity%` |
| Decimal.NatToString | controllers/dashboard.controller.js:64 | the decimal text of a natural number is non-empty, all digits, with no leading zero |
| Decimal.IntRoundTrip | controllers/dashboard.controller.js:64-68 | the text of any integer is integer text and reads back as that integer |
| TimeSeries.Buckets | controllers/dashboard.controller.js:77-86 | the daily series has `(today − epoch) + 2` points, newest first; point `k` is dated `today + 1 − k`, so the series runs from tomorrow down to 2023-07-09; each y is the weight summed over the completed transactions created that day |
| TimeSeries.DataTimeSeries | controllers/dashboard.controller.js:75-89 | the loop from `i = -1` produces exactly the daily series of the transaction field |
| TimeSeries.DataTimeSeriesFilter | controllers/dashboard.controller.js:91-115 | the loop produces the daily series whose weight is, for every entry of the name list in turn, the item field over the items of that category |
| TimeSeries.DataCategoryTimeSeries | controllers/dashboard.controller.js:117-139 | the loop produces the same series as the filtered series of `qty` for the one-name list `[name]` |
| TimeSeries.EmptyDayIsZero | controllers/dashboard.controller.js:81-83 | a day on which no completed transaction was created has a zero bucket |
| TimeSeries.RangeStep | controllers/dashboard.controller.js:81 | the total over a range of days is the first day's bucket plus the total over the rest |
| TimeSeries.BucketsPrefix | controllers/dashboard.controller.js:80-86 | the first `m` points of a series counting down from a day add up to the total of the `m` days ending there |
| TimeSeries.BucketsConserve | controllers/dashboard.controller.js:80-86 | the points of a series add up to the weight of every completed transaction dated from the epoch to tomorrow |
| TimeSeries.BucketsConserveAll | controllers/dashboard.controller.js:80-86 | when every completed transaction is dated from the epoch to tomorrow, the series adds up to the weight of all completed transactions |
| TimeSeries.FilteredBucket | controllers/dashboard.controller.js:99-109 | adding the per-name totals one name at a time equals summing the filtered weight over the day's transactions |
| TimeSeries.FullNameListConserves | controllers/dashboard.controller.js:101-109 | a list naming every sold item's category exactly once gives the same series as summing the item field over all items |
| Aggregation.PartitionWeight | controllers/dashboard.controller.js:101-108 | when every order item is kept by exactly one selector, the filtered weight of a transaction is its field summed over all its items |
| Aggregation.DuplicateNameCountsTwice | controllers/dashboard.controller.js:101-108 | a category name listed twice counts its items twice |
| Aggregation.NamesWeightAppend | controllers/dashboard.controller.js:101-108 | the filtered weight of a concatenated name list is the sum of the two lists' weights |
| Comparison.PeriodsAdjacent | controllers/dashboard.controller.js:186-190 | `DiffDays`, `CurrentPeriod` and `PriorPeriod` are `diffDays`, `transactionsFiltered` and `transactionsFilteredBefore`; for `start <= end`: both periods hold only completed transactions of their own window; the prior window `[start − diffDays, end − diffDays]` has the current window's length and ends the day before `start`; the periods share no transaction; and their counts and totals add up to those of the doubled window |
| Comparison.CategoryQuantities | controllers/dashboard.controller.js:192-204 | every category keeps its place and gets the `qty` of the period's order items whose category id matches |
| Comparison.CategoryQuantitiesConserve | controllers/dashboard.controller.js:192-204 | when the category ids are distinct and cover every sold item, the quantities add up to every unit sold in the period |
| Comparison.InsertDesc | controllers/dashboard.controller.js:218 | inserting into a descending sequence keeps it descending, adds exactly the inserted element, and puts it first exactly when it beats the old head |
| Comparison.SortByQtyDesc | controllers/dashboard.controller.js:218 | the sort is descending by quantity and a permutation of its input |
| Comparison.FirstMaxIndex | controllers/dashboard.controller.js:218 | the index has the largest quantity, and every earlier category has a strictly smaller one |
| Comparison.SortedHeadIsFirstMax | controllers/dashboard.controller.js:218 | the head of the stable descending sort is the first category of largest quantity, so ties go to the category listed first |
| Dashboard.FirstMaxIsBestSeller | controllers/dashboard.controller.js:192-218 | the category at the first maximum of the attached quantities is a best seller of the period |
| Dashboard.BestSeller | controllers/dashboard.controller.js:218 | fails, reading `dataValues` of nothing, exactly when there are no categories; otherwise names the first category of largest quantity |
| Dashboard.GetCardData | controllers/dashboard.controller.js:186-218 | fails exactly when there are no categories; otherwise the count, income and profit of the current period, each with its percentage against the prior period, and the best seller of the current period |
| Dashboard.GetIncomeProfitData | controllers/dashboard.controller.js:247-264 | an empty name list gives the daily series of the transactions' `total` and `total_profit`; a non-empty list gives the daily series of the items' `total` and `profit` over the listed categories |
| Dashboard.GetCategoryData | controllers/dashboard.controller.js:294-315 | every category in order with its quantity sold in the period; when the categories partition the sold items, the quantities add up to every unit sold |
| Forecast.TrainingSet | controllers/dashboard.controller.js:146-151 | `salesData.length − 3` examples, and none when there are fewer than three values |
| Forecast.Labels | controllers/dashboard.controller.js:151 | `predictions`: one label per example, `salesData.length − 3` of them |
| Forecast.Query | controllers/dashboard.controller.js:165 | `salesData.slice(-3)`: the last three values, or all of them when there are fewer |
| Forecast.ExamplesAreConsecutive | controllers/dashboard.controller.js:149-152 | example `i` followed by its label is the run of four consecutive values starting at `i` |
| Forecast.AppendExtendsTraining | controllers/dashboard.controller.js:146-168 | appending a forecast keeps the earlier examples and labels, and adds the previous query as one more example labelled with that forecast |
| Forecast.BuildTrainingSet | controllers/dashboard.controller.js:146-152 | the inner loop builds exactly the windows and their successors |
| Forecast.Round | controllers/dashboard.controller.js:146-165 | one round yields `Predict`: the forest trained on the windows (`TrainingSet`) and the values after them (`Labels`), applied to the last three values (`Query`, `slice(-3)`) |
| Forecast.Rollout | controllers/dashboard.controller.js:143-169 | `n` rounds give `n` forecasts |
| Forecast.RolloutFeedsBack | controllers/dashboard.controller.js:143-169 | forecast `k` is the prediction from the data followed by forecasts `0..k` |
| Forecast.ForecastPoints | controllers/dashboard.controller.js:167 | forecast point `k` is dated `today + k` and carries forecast `k` |
| Forecast.RoundStep | controllers/dashboard.controller.js:167-168 | pushing a round's point extends the dated forecasts by that round's prediction |
| Forecast.RandomForestModel | controllers/dashboard.controller.js:141-172 | fails with the invalid length `|data| − 3` exactly when there are fewer than three values; otherwise three points dated today, tomorrow and the day after, carrying the rolled-out forecasts |
| Prediction.Slice | controllers/dashboard.controller.js:330-331 | `slice` with both bounds clamped to the length; entry `k` is entry `lo + k` of the input |
| Prediction.Reverse | controllers/dashboard.controller.js:330-331 | entry `k` is entry `length − 1 − k` of the input |
| Prediction.ActualIndices | controllers/dashboard.controller.js:330 | `slice(1, 9).reverse()` keeps points `1..m` of a series in reverse order |
| Prediction.ActualSeriesShape | controllers/dashboard.controller.js:330 | `ActualSeries` is `slice(1, 9).reverse()`; the actual points are consecutive days, oldest first, ending today with each day's bucket; tomorrow is dropped and at most eight days are kept |
| Prediction.ActualSeriesWeek | controllers/dashboard.controller.js:330 | from a week after the epoch on, the actual points are exactly the eight days `today − 7 .. today` with their buckets |
| Prediction.TrainingSeriesShape | controllers/dashboard.controller.js:331 | `TrainingSeries` is `slice(2).reverse().map(item => item.y)`; the training values are the buckets of the epoch up to yesterday, oldest first; there are `today − epoch` of them |
| Dashboard.ForecastFollowsTraining | controllers/dashboard.controller.js:331 | the last training value is yesterday's bucket |
| Dashboard.ChartPrediction | controllers/dashboard.controller.js:329-332 | one chart's actual points and forecast; it fails with the training series' invalid length exactly when fewer than three days have passed since the epoch |
| Dashboard.GetPredictionData | controllers/dashboard.controller.js:327-388 | fails exactly when fewer than three days have passed since the epoch; otherwise income and the six categories Freebase, Saltnic, Pod, Mod, Coil and Accessories, each with its actual points and forecast |
| Dashboard.ExpectedForecastMeaning | controllers/dashboard.controller.js:329-332 | from a week after the epoch on, a chart shows the eight days ending today and three forecasts dated from today, the first on the last actual day; forecast `k` is the forest's prediction from every day's bucket, epoch to yesterday, followed by the earlier forecasts |

## Left out

- Database reads (`transactionData`, `categoryData`): their results are the input sequences.
- Each handler is modelled over a single snapshot of transactions and a single `today`. The source reads the database again in every series call (lines 78, 94, 120), so `getPredictionData` reads it seven times and `getIncomeProfitData` twice. It also reads the clock again at lines 77, 81, 85 and 167. A write or a midnight between those reads would give series over different snapshots or days, which is not modelled.
- Form parsing, HTTP status codes and JSON responses: every handler returns its payload or its error as a value.
- `getTransactionHistoryData` only returns the database read, so it has nothing to model.
- `controllers/transaction.controller.js` and `index.js` hold CRUD handlers and router wiring. They are not part of this model.
- The random-forest library's internals (options, seed, training): it is an uninterpreted function of the examples, labels and query.
- Forecast.RandomForestModel: for exactly three values the forest is trained on no examples. The model assumes the library still returns a prediction, because its behaviour there is not visible.
- `moment`, `Date` and `formattedDate` calendar and time-zone behaviour, daylight-saving time included: days are integers, and the day of a timestamp comes from the injected calendar.
- Comparison.PeriodsAdjacent: the adjacency and disjointness it states hold only where `formattedDate(startDate)` (line 188, `new Date` reading a date-only string as UTC midnight) and `moment(startDate)` (line 190, reading it as local midnight) give the same day, that is in UTC and time zones east of it. West of UTC the current window becomes `[start − 1, end − 1]`, and it shares the day `start − 1` with the prior window.
- Missing joins: every order item is assumed to have an inventory item, and every inventory item a category. The nested include is an outer join, so either can come back `null`. The source reads `orderItem.inventory.category` only for order items it visits, at lines 104, 129, 197 and 301. It throws a TypeError when an order item with a missing inventory item or category belongs to a completed transaction that the handler visits:
  - in `getCardData` and `getCategoryData`, one created in `[start, end]`, when there is at least one category;
  - in `getIncomeProfitData` with a non-empty name list, and in the category charts of `getPredictionData`, one created between the epoch and tomorrow.
  - Items of other transactions are never read, so they cause no failure. The model has no such input.
- Dashboard.GetCardData, Dashboard.BestSeller: "fails exactly when there are no categories" holds only under the joined-records assumption above. The source also fails, with a TypeError at line 197, when an order item with a missing inventory item or category belongs to a completed transaction created in `[start, end]` and there is at least one category.
- TimeSeries.BucketCount: `moment().diff(...)` truncates a fractional day count toward zero. Before the epoch that differs from the integer day difference used here. All dates of interest are after the epoch.
- IEEE-754 floating point: sums are exact, and `toFixed(0)` rounds the exact quotient. The `"-0"` text of a tiny negative change and exponent notation for huge values are not modelled.
- Field types: fields are taken as numbers. String DECIMAL columns concatenating under `+` are not modelled, because the model schemas are not visible.
- `formidable` may deliver `categories` as a string rather than a list. Here it is a list of names.
