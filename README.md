# Portfolio upload pipeline, modelled in Dafny

This project models the transaction-to-portfolio pipeline of the portfolio
upload view (`portfolio/views.py`). Up to three brokerage CSV files are
uploaded; each is checked for its required columns, its unparsable rows are
dropped, stock splits are applied, and every row is converted to INR, EUR
and GBP. The combined rows then give four things:

- a per-stock summary: net quantity, currency totals, a Buy/Sell/Neutral
  label, the stock's return and its holding value;
- each stock's cash-flow list for the return calculation;
- the holding value of each stock;
- a daily valuation series from the first to the last transaction date.

Dates are whole days (days since 1970-01-01), amounts are `real`, and the
split table, the rate table and the conversion factors are a `Config` value.
`Records.SourceConfig` holds the values the source runs with.

The modules follow the pipeline:

- `Records`: transactions, splits, the rate table and the rate lookup.
- `Normalize`: the column check, the header strip and the dropping of invalid rows.
- `Splits`: split adjustment, as functions and as the in-place array rewrite `ApplyStockSplits`.
- `Conversion`: the per-row currency columns.
- `Aggregate`: grouping, sums and labels.
- `Returns`: cash-flow lists and the return per stock.
- `Valuation`: holding values and the daily series, with the series loop as methods.
- `Upload`: the file loop, the error paths and the final report.

The imperative parts of the source are methods proved against the functions
that specify them:

- `Splits.ApplyStockSplits`: the in-place split rewrite.
- `Upload.ReadFiles` and `Upload.UploadFiles`: the loop that appends each file's rows.
- `Returns.XirrResults`: the loop that appends each stock's return.
- `Valuation.FillSeries` and `Valuation.DayTotal`: the per-day loop that fills the series map.

Two consequences of the source are worth knowing:

- Every stock's cash flows sum to zero. Each row contributes minus its INR
  total, and the terminal flow is plus the sum of those totals, so rate 0
  always solves the return equation (`Returns.ZeroRateSolvesCashFlows`).
  Which root the solver reports is outside this model.
- A file whose rows are all dropped fails the whole upload with
  "Error processing". After `dropna` the frame is empty, and pandas'
  `apply` at portfolio/views.py:99 then returns a frame with several columns.
  Assigning it to the single "INR Price" column raises, and lines 111-112
  catch that. So a single invalid row is dropped silently, but a file whose
  rows are all invalid fails, and a successful upload always has at least
  one row.

## Model

| member | source | states |
|---|---|---|
| Records.ExchangeRate | portfolio/views.py:30-32 | the lookup never fails: the table's entry for a day in the table, the default rate for every other day |
| Records.SourceRateLookup | portfolio/views.py:12-16 | with the source's table the rate is 74.0 on 2020-08-31, 79.0 on 2022-08-25 and 75.0 on every other day |
| Normalize.Message | portfolio/views.py:81-83 | the text shown for each error: the file name and the four required column names, "Error processing" with the file name, or the no-file message |
| Normalize.StartOfText | portfolio/views.py:71 | the first non-whitespace position at or after i; everything skipped is whitespace, in the sense of Python's `str.isspace` |
| Normalize.EndOfText | portfolio/views.py:71 | the end of the text before j; everything after it is whitespace |
| Normalize.Strip | portfolio/views.py:71 | a stripped column name is a contiguous part of the name that neither starts nor ends with whitespace, and everything removed around it is whitespace |
| Normalize.StripIdempotent | portfolio/views.py:71 | stripping twice is stripping once |
| Normalize.StripUnicodeSpace | portfolio/views.py:71 | a non-breaking space, a unit separator or an ideographic space around a name is stripped, as `str.strip` does |
| Normalize.HasRequiredColumnsIff | portfolio/views.py:80 | the header passes exactly when each of the four required names equals some stripped header entry |
| Normalize.ToTransaction | portfolio/views.py:85-90 | a valid row's symbol becomes the stock, and its parsed quantity, price and date are kept |
| Normalize.DropInvalid | portfolio/views.py:89 | dropping rows never adds any |
| Normalize.DropInvalidIsValidSubsequence | portfolio/views.py:86-89 | the surviving rows are the transactions of exactly the rows whose quantity, price and date all parsed, in input order (strictly increasing input positions) |
| Normalize.NormalizeFile | portfolio/views.py:73-90 | a file fails with MissingColumns(name) exactly when a required column is absent after stripping; otherwise it yields its valid rows |
| Splits.ApplySplit | portfolio/views.py:25-27 | one split keeps the row count and adjusts each row on its own |
| Splits.ApplySplits | portfolio/views.py:22-27 | the splits in turn keep the row count |
| Splits.ApplySplitChangesOnlyMatchingRows | portfolio/views.py:25-27 | one split changes exactly the rows of its stock dated strictly before its day: quantity times the ratio and price divided by it; stock, date and every other row unchanged |
| Splits.ApplySplitsRow | portfolio/views.py:22-27 | row i after all splits is row i adjusted by each split in turn |
| Splits.ScaleByOne | portfolio/views.py:26-27 | a ratio of one changes neither quantity nor price |
| Splits.ScaleCompose | portfolio/views.py:26-27 | two successive rescalings are one rescaling by the product of the ratios |
| Splits.AdjustRowAllFactor | portfolio/views.py:22-27 | after all splits a row's quantity is multiplied by the product of the ratios of the splits that apply to it, and its price divided by it |
| Splits.ApplySplitsAt | portfolio/views.py:22-27 | the same, for row i of the adjusted rows: stock and date unchanged |
| Splits.RescaleKeepsNotional | portfolio/views.py:26-27 | rescaling by any ratio keeps quantity times price |
| Splits.SplitsPreserveNotional | portfolio/views.py:22-27 | split adjustment keeps every row's quantity times price |
| Splits.UnitSplitsChangeNothing | portfolio/views.py:22-27 | splits with ratio 1 leave the rows unchanged |
| Splits.SourceSplitFactor | portfolio/views.py:7-28 | with the source's table AAPL rows before 2020-08-31 are scaled by 4, TSLA rows by 15 before 2020-08-31 and by 3 before 2022-08-25, all others by 1 |
| Splits.FactorWithout | portfolio/views.py:22-27 | removing one split from the list divides a row's factor by that split's contribution |
| Splits.FactorPermutation | portfolio/views.py:22-27 | a row's factor does not depend on the order of the splits |
| Splits.SplitOrderIrrelevant | portfolio/views.py:22-27 | applying the same splits in any order gives the same rows |
| Splits.ApplyStockSplits | portfolio/views.py:21-28 | the in-place rewrite leaves the array equal to the splits applied to its old contents |
| Conversion.Enrich | portfolio/views.py:99-107 | INR price is price times the day's rate, EUR and GBP prices use the fixed factors, each total is price times quantity (so factor times quantity times price), and the cash flow is minus the INR total |
| Conversion.EnrichAll | portfolio/views.py:95-107 | every row converted in order, with the quote of its stock and date as the adjusted close |
| Conversion.SameValueSameTotals | portfolio/views.py:99-107 | rows with the same date and the same quantity times price get the same totals and cash flow |
| Conversion.SplitsKeepTotals | portfolio/views.py:92-107 | split adjustment before conversion changes no row's totals or cash flow |
| Aggregate.Unique | portfolio/views.py:131 | the distinct stocks, each once, exactly the stocks of the rows |
| Aggregate.RowsOf | portfolio/views.py:132 | a stock's rows: only rows of that stock, and every row of that stock |
| Aggregate.RowsOfCounts | portfolio/views.py:132 | each row of the stock occurs as often as in the input, and no other row occurs |
| Aggregate.RowsOfNonEmpty | portfolio/views.py:131-132 | a stock has rows exactly when it occurs |
| Aggregate.MaxDate | portfolio/views.py:134 | the latest date: no row is later and some row has it |
| Aggregate.MinDate | portfolio/views.py:161 | the earliest date: no row is earlier and some row has it |
| Aggregate.Label | portfolio/views.py:126-128 | "Buy" exactly when the net quantity is positive, "Sell" exactly when negative, "Neutral" exactly when zero |
| Aggregate.Summarize | portfolio/views.py:119-128 | one entry per distinct stock, holding the sums of its rows' quantities and INR, EUR and GBP totals and the label of its net quantity |
| Aggregate.SumAppend | portfolio/views.py:119-124 | the sum over two parts is the sum of the parts |
| Aggregate.RowsOfSnoc | portfolio/views.py:132 | one more row extends its own stock's rows and no other's |
| Aggregate.SumSnoc | portfolio/views.py:119-124 | one more row adds its field to the sum |
| Aggregate.SumByStockSnoc | portfolio/views.py:119-124 | one more row adds its field to exactly one listed stock's total |
| Aggregate.NewStockGroup | portfolio/views.py:119-124 | a row of a new stock opens a group holding just that row |
| Aggregate.PeelLast | portfolio/views.py:119-124 | how the sum and the distinct stocks extend by one row |
| Aggregate.GroupingPreservesSums | portfolio/views.py:119-124 | grouping loses and duplicates nothing: the per-stock sums add up to the sum over all rows |
| Aggregate.CashflowsCancelTotals | portfolio/views.py:107 | rows whose cash flow is minus their INR total have cash flows summing to minus their INR totals |
| Aggregate.SummaryInrIsMinusCashflows | portfolio/views.py:119-124 | a stock's summary INR total is minus the sum of its cash flows |
| Returns.Flows | portfolio/views.py:133 | one (date, cash flow) pair per row, in row order |
| Returns.Amounts | portfolio/views.py:37 | the solver sees the amounts only, in order |
| Returns.CashFlows | portfolio/views.py:131-136 | a stock's list has one more entry than the stock has rows |
| Returns.FlowsTotal | portfolio/views.py:133 | the flows total the rows' cash flows |
| Returns.CashFlowsShape | portfolio/views.py:133-136 | the list is the stock's rows' flows in order, then one flow worth the stock's INR total and dated on its latest date |
| Returns.CashFlowsSumToZero | portfolio/views.py:131-136 | for converted rows every stock's cash flows sum to zero |
| Returns.Pow | portfolio/views.py:37 | a power of a positive base is positive, so every discount factor is defined |
| Returns.NpvAtZero | portfolio/views.py:37 | at rate zero the net present value is the plain total |
| Returns.ZeroRateSolvesCashFlows | portfolio/views.py:133-136 | rate zero solves every stock's return equation |
| Returns.Xirr | portfolio/views.py:34-40 | no return exactly when the solver fails; otherwise the solver's rate in percent |
| Returns.XirrIgnoresDates | portfolio/views.py:36-37 | flows that differ only in their dates have the same return |
| Returns.XirrResults | portfolio/views.py:130-138 | one result per distinct stock, in order of first occurrence, each the return of that stock's cash-flow list |
| Valuation.OnOrBefore | portfolio/views.py:168 | only rows dated on or before the day, and every such row |
| Valuation.OnOrBeforeCounts | portfolio/views.py:168 | each row dated on or before the day occurs as often as in the input, and no other row occurs |
| Valuation.LatestPriceIsLatestRow | portfolio/views.py:143 | the price of a row of the stock that no row of the stock postdates |
| Valuation.HoldingUsd | portfolio/views.py:143-147 | net quantity times that latest price; zero when the net quantity is zero |
| Valuation.DaySnapshot | portfolio/views.py:174-179 | the day's USD value, INR at that day's rate, EUR and GBP at the fixed factors |
| Valuation.LatestIndex | portfolio/views.py:170 | the latest row: none is later, and every row after it is strictly earlier |
| Valuation.LatestPriceOfUniqueLatest | portfolio/views.py:143-146 | when one row of a stock is dated later than all its others, the stock's latest price is that row's price |
| Valuation.TotalHoldingsStep | portfolio/views.py:169-173 | adding one stock to the total adds its holding |
| Valuation.InCurrencies | portfolio/views.py:174-179 | the USD amount, INR at the given rate, EUR and GBP at the fixed factors |
| Valuation.Holdings | portfolio/views.py:143-150 | one entry per stock, holding its USD holding value and its INR, EUR and GBP conversions, INR at the rate of the day the report is made |
| Valuation.SeriesDays | portfolio/views.py:164-179 | the series from lo to hi has exactly those days, each with that day's value |
| Valuation.ReportSeries | portfolio/views.py:160-179 | one entry per calendar day from the earliest to the latest transaction date inclusive, each that day's value in the four currencies, INR at that day's rate |
| Valuation.DateRange | portfolio/views.py:161-162 | the earliest and the latest transaction date: every row lies between them and each is some row's date |
| Valuation.BuildTimeSeries | portfolio/views.py:160-179 | the range is the earliest to the latest date and the map is the series over it |
| Valuation.FillSeries | portfolio/views.py:164-179 | the day loop builds the series from start to end |
| Valuation.SeriesCoversRange | portfolio/views.py:165-179 | the series holds exactly the days some row is dated on or before and some row on or after, each with its snapshot |
| Valuation.RangeIsMinMax | portfolio/views.py:161-162 | those bounds are the minimum and maximum dates |
| Valuation.DayTotal | portfolio/views.py:168-173 | one day of the loop yields that day's USD value |
| Valuation.TotalHoldingsAreStockWorths | portfolio/views.py:169-173 | the day's total is the sum of each stock's net quantity at its latest price |
| Valuation.QuantityStep | portfolio/views.py:169 | one more row changes the net quantity of its own stock by its quantity, and no other |
| Valuation.StockWorthStep | portfolio/views.py:169-172 | one more row changes its own stock's holding by its worth, and no other |
| Valuation.StockWorthsSnoc | portfolio/views.py:169-173 | one more row adds its worth to the holdings, if its stock is listed once |
| Valuation.NewStockWorth | portfolio/views.py:169-173 | a row of a new stock opens a holding worth just that row |
| Valuation.GroupedWorths | portfolio/views.py:169-173 | the per-stock holdings add up to the sum over the rows of each quantity at its stock's latest price |
| Valuation.GroupedWorthsStep | portfolio/views.py:169-173 | the last row adds its own worth to the grouped holdings |
| Valuation.UniqueWithin | portfolio/views.py:169-171 | the distinct stocks of some rows all have a latest price |
| Valuation.DayValueByRows | portfolio/views.py:168-173 | a day's USD value is the sum, over the rows dated on or before it, of quantity times the price of the stock's latest such row |
| Valuation.OnOrBeforeAll | portfolio/views.py:168 | up to a day no earlier than every row, all rows count |
| Valuation.OnOrBeforeQuietDay | portfolio/views.py:168 | a day with no transaction sees the rows of the day before |
| Valuation.QuietDayKeepsValue | portfolio/views.py:167-173 | a day with no transaction has the value of the day before |
| Valuation.LastDayIsTotalHolding | portfolio/views.py:167-173 | on the latest transaction date the day's USD value equals the sum of the per-stock USD holding values |
| Valuation.NothingBeforeFirstDay | portfolio/views.py:168-173 | before every transaction nothing is held and the value is zero |
| Upload.ProcessFile | portfolio/views.py:69-112 | a processed file that succeeds has at least one row |
| Upload.ProcessFileErrors | portfolio/views.py:80-112 | a file fails with MissingColumns exactly when a required column is absent, with EmptyFile exactly when it has the columns but no valid row, and with no other error |
| Upload.ProcessFileOk | portfolio/views.py:80-112 | a file succeeds exactly when it has the columns and a valid row |
| Upload.ProcessFileRows | portfolio/views.py:85-109 | a processed file holds one converted row per valid row, each the split-adjusted transaction of that row, in order |
| Upload.Collect | portfolio/views.py:66-112 | each collected file is nonempty |
| Upload.CollectOk | portfolio/views.py:66-112 | collecting succeeds exactly when every file present is well formed |
| Upload.CollectStep | portfolio/views.py:67-109 | one more file succeeds when the earlier files and that file do |
| Upload.CollectEmpty | portfolio/views.py:66-114 | a successful collection is empty exactly when no file is present |
| Upload.CollectConverted | portfolio/views.py:99-109 | every collected row is converted |
| Upload.CollectStops | portfolio/views.py:111-112 | once a file has failed, the upload fails with that file's error |
| Upload.CollectFirstError | portfolio/views.py:67-112 | a failed collection carries the error of the first file present that is not well formed, every earlier file present being well formed |
| Upload.LookupXirr | portfolio/views.py:140-141 | a return found by the left merge is one of the results for that stock |
| Upload.LookupFindsLast | portfolio/views.py:141 | the merge finds the last entry for the stock, when no later entry is for it |
| Upload.MergeFindsXirr | portfolio/views.py:140-141 | in the per-stock results the merge finds each stock's own return |
| Upload.FinalSummary | portfolio/views.py:141-156 | one summary row per stock |
| Upload.ReportSummary | portfolio/views.py:119-156 | one summary row per stock |
| Upload.XirrTable | portfolio/views.py:130-140 | one return per distinct stock in order, each of that stock's cash-flow list |
| Upload.ResultsAreTable | portfolio/views.py:130-140 | any results meeting that description are that table |
| Upload.SummaryRowContents | portfolio/views.py:119-156 | each stock's summary row holds its sums, the label of its net quantity, its own return and its holding values |
| Upload.ConcatNonEmpty | portfolio/views.py:117 | combining files the last of which is nonempty gives rows |
| Upload.Concat | portfolio/views.py:117 | every row of every file is among the combined rows |
| Upload.ConcatRows | portfolio/views.py:117 | every combined row comes from one of the files |
| Upload.Upload | portfolio/views.py:66-179 | a successful upload has rows, one summary row per stock, and a series over every day from the earliest to the latest date |
| Upload.ReadFile | portfolio/views.py:69-109 | reading one file with its rows split-adjusted in place in an array gives the processed file |
| Upload.ReadFiles | portfolio/views.py:66-112 | the file loop gives the collection of the files |
| Upload.BuildReport | portfolio/views.py:117-179 | the report of the combined rows: the summary with returns and holdings merged in, and the series over the date range |
| Upload.UploadFiles | portfolio/views.py:66-179 | the whole upload gives the first failing file's error, the no-file error, or the report of the combined rows |
| Upload.NoValidFilesIff | portfolio/views.py:114-115 | the upload reports that no file was given exactly when no file is present |
| Upload.UploadErrorNamesFile | portfolio/views.py:80-112 | any other failure names the first failing file, with MissingColumns when it lacks a column and EmptyFile when it keeps no valid row |
| Upload.UploadSucceeds | portfolio/views.py:66-124 | when some file is present and all present files are well formed, the upload succeeds with nonempty, converted rows and one summary row per stock |

## Left out

- Django request handling, `render`, `request.FILES`, reading the CSVs with `pd.read_csv` and HTML output (portfolio/views.py:60-64, 70, 181-188). A file is a name, a header and rows whose numeric and date cells are already parsed; a cell that did not parse is absent.
- The adjusted-close download (portfolio/views.py:42-58) is a network call; it is the parameter `quote`, which may return nothing.
- The rate solver `np.irr` (portfolio/views.py:37) is a foreign floating-point root finder; it is the parameter `irr`, which may fail. Which root it would report is not modelled.
- Returns.Xirr: does not round to two decimals (portfolio/views.py:38), since rounding is presentation only; the summary's `round(2)` (portfolio/views.py:158) is left out for the same reason.
- Upload.ReportSummary: the INR holding rate is looked up for a `today` parameter, because `datetime.now()` (portfolio/views.py:148) is a clock.
- Time of day is dropped: dates are whole days, so `Date < split_dt` compares days and `pd.date_range` steps through whole days.
- Valuation.LatestIndex: among rows of a stock sharing the latest date it picks the last in input order; `sort_values` is not a stable sort, so the source's choice among such rows is unspecified.
- Upload.BuildReport: the raw rows are kept in upload order and the summary is a map keyed by stock; the source's sort by date before display (portfolio/views.py:160) and pandas' sorted group order are presentation only.
- Normalize.RawRow: a blank Symbol cell is read as a name. In the source it is NaN: such a row survives `dropna` (portfolio/views.py:89) and still bounds the series' date range (portfolio/views.py:161-162), but `groupby` leaves it out of every summary row, holding and daily value (portfolio/views.py:119, 143, 169-170). The model has no row without a symbol.
- Valuation.LastDayIsTotalHolding: when a stock has two rows with different prices on its latest date, the source takes the holding's price (portfolio/views.py:143) and the last day's price (portfolio/views.py:170) from two separate unstable sorts, which may pick different rows. The lemma holds in that case only because both lookups share the model's single tie-break; with unique latest dates it is the source's equality.
- Normalize.Message: the "Error processing" text omits the exception's own message, which depends on pandas internals.
- Floating point: amounts are exact reals; rounding error and NaN are not modelled.
- The split table is a list of (stock, day, ratio) entries in the dictionary's order; its order is proved irrelevant. Ratios are reals of at least 1, as in the source's table.
- portfolio/apps.py holds only the Django app configuration and an unused table; it is not part of this model.
