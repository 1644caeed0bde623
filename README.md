# Sales KPI dashboard — a Dafny model

This project models the computational core of a small sales-analytics
dashboard written in Python with pandas:

- the KPI calculators: revenue, profitability, product and customer KPIs
  computed from a table of sales rows, and the merge of their four
  dictionaries into one;
- the interactive dashboard's sidebar row filter, the headline KPIs
  recomputed over the filtered rows, and the per-(date, region, channel)
  summary table;
- the spreadsheet connector: a class that fetches a sheet, turns it into a
  data frame, keeps it in a time-limited cache, and types the date and
  numeric columns.

A sales row is a `Sales.Record`. Money (`sales_amount`, `cost`) is an
integer number of cents, so every sum is exact. Means and percentages are
`real`. Where floating point would give NaN or an infinity (a mean of no
values, a division by a zero revenue), the model returns `None`.

A pandas grouped aggregate (a Series indexed by the group key) is a
`seq<Aggregate.Group<K>>`: distinct keys, each with its value.
`Aggregate.GroupSum` builds one in a single pass over the rows.
`Aggregate.GroupTotals` is the reference definition, one entry per key
holding the sum over that key's rows, and a lemma proves the two equal.

Modules:

| module | file | contents |
|---|---|---|
| `Base` | base.dfy | `Option`, `Result` |
| `Sales` | sales.dfy | dates, sales rows, column selectors, earliest and latest date |
| `Aggregate` | aggregate.dfy | sums, filtering, distinct keys, group-by sums and counts, descending ranking, top-n |
| `Kpi` | kpi.dfy | the four KPI calculators and their merge |
| `Dashboard` | dashboard.dfy | row filter, filtered KPIs, summary table |
| `Sheets` | sheets.dfy | data frames of cells, the cached connector class, column typing |

## Model

| member | source | states |
|---|---|---|
| Aggregate.Filter | streamlit_dashboard.py:56-61 | a boolean-mask selection keeps at most as many rows as it was given |
| Aggregate.FilterMembership | streamlit_dashboard.py:56-61 | a value is kept exactly when it is among the rows and passes the mask |
| Aggregate.FilterKeepsAll | streamlit_dashboard.py:56-61 | a mask that every row passes keeps the whole table |
| Aggregate.FilterIsSubsequence | streamlit_dashboard.py:56-61 | the kept rows are the input rows at increasing positions, and a position is kept exactly when its row passes the mask, so duplicated matching rows all survive |
| Aggregate.KeySetBound | kpi_calculations.py:101 | the number of distinct values in a column (`nunique`) is at most the number of rows |
| Aggregate.KeySetEmpty | kpi_calculations.py:101 | a column has no distinct values exactly when the table has no rows |
| Aggregate.KeysInOrder | kpi_calculations.py:46 | the index of a group-by holds each key occurring in the column exactly once, and nothing else |
| Aggregate.GroupSum | kpi_calculations.py:46 | `groupby(key)[col].sum()`: the index is the occurring keys; the values add up to the column total; each key's value is the sum over exactly that key's rows |
| Aggregate.GroupSumIsGroupTotals | kpi_calculations.py:46 | the single-pass group-by sum equals the per-key reference definition |
| Aggregate.GroupNUnique | kpi_calculations.py:111 | `groupby(key)[sub].nunique()`: one entry per occurring key, whose value is the number of distinct `sub` values among that key's rows, so between 1 and the distinct count of the whole table |
| Aggregate.SortDesc | kpi_calculations.py:85 | `sort_values(ascending=False)`: the result is non-increasing and a permutation of its input |
| Aggregate.Head | kpi_calculations.py:108 | `head(n)` is the prefix of the first `n` entries, or all of them when there are fewer |
| Aggregate.HeadOfRanking | kpi_calculations.py:108 | the head of a ranking is its prefix, still non-increasing, and nothing left out is larger than anything kept |
| Aggregate.TopOfRanking | kpi_calculations.py:108 | `sort_values(ascending=False).head(n)` keeps min(n, number of entries) entries drawn from the input, non-increasing, and no entry left out is larger than one kept |
| Kpi.AverageOrderValue | kpi_calculations.py:43 | the mean order value is defined exactly when there are rows, and times the row count gives total revenue |
| Kpi.ProfitMargin | kpi_calculations.py:66 | the margin is defined exactly when total revenue is non-zero, and times revenue gives 100 × (revenue − cost) |
| Kpi.ProductProfitIsRevenueMinusCost | kpi_calculations.py:91 | per-product profit has one entry per product, equal to that product's revenue minus its cost, and the entries add up to total revenue minus total cost |
| Kpi.AvgRevenuePerCustomer | kpi_calculations.py:104-105 | the mean of the per-customer revenues is total revenue over the number of distinct customers, defined exactly when there are rows |
| Kpi.TopCustomersAreTheLargest | kpi_calculations.py:108 | the top customers are ten, or all customers when there are fewer, non-increasing, drawn from the per-customer revenues with their true totals, and no customer left out spent more than one kept |
| Kpi.CustomersByRegion | kpi_calculations.py:111 | one entry per occurring region, holding the number of distinct customers among that region's rows |
| Kpi.GroupSumSplits | kpi_calculations.py:46 | a group-by sum has one entry per occurring key, each holding the sum over that key's rows, and the entries add up to the column total |
| Kpi.CalculateRevenueKpis | kpi_calculations.py:35-55 | total revenue is the sum of `sales_amount`; the average order value is as above; the by-region, by-channel and by-month revenues each have one entry per occurring key, holding that key's own sum, and add up to the total |
| Kpi.CalculateProfitabilityKpis | kpi_calculations.py:57-78 | total profit is revenue minus cost; the margin is as above; the by-region, by-channel and by-month profits each have one entry per occurring key, holding that key's own profit, and add up to total profit |
| Kpi.CalculateProductKpis | kpi_calculations.py:80-94 | the three product tables are non-increasing permutations of the per-product revenue, quantity and profit |
| Kpi.CalculateCustomerKpis | kpi_calculations.py:96-113 | unique customers is the distinct count, at most the row count; the average per customer, top customers and per-region distinct-customer counts are as above |
| Kpi.RevenueKpis.AsDict | kpi_calculations.py:37-55 | the revenue dictionary has exactly its five names |
| Kpi.ProfitabilityKpis.AsDict | kpi_calculations.py:59-78 | the profitability dictionary has exactly its five names |
| Kpi.ProductKpis.AsDict | kpi_calculations.py:82-94 | the product dictionary has exactly its three names |
| Kpi.CustomerKpis.AsDict | kpi_calculations.py:98-113 | the customer dictionary has exactly its four names |
| Kpi.KpiNamesDisjoint | kpi_calculations.py:119-123 | the four calculators use pairwise disjoint names |
| Kpi.GetAllKpis | kpi_calculations.py:115-125 | the merged dictionary holds all seventeen names, and every calculator's entries survive unchanged |
| Kpi.MergedKpis | kpi_calculations.py:119-123 | four dictionaries over the four disjoint name sets, merged in turn, each keep their entries |
| Sales.MinDate | streamlit_dashboard.py:50 | the earliest date occurs in the table and no row is earlier |
| Sales.MaxDate | streamlit_dashboard.py:50 | the latest date occurs in the table and no row is later |
| Dashboard.FilterRowsKeepsExactlyMatches | streamlit_dashboard.py:56-61 | a row is kept exactly when it is in the table and its region, channel and date all match; the kept rows keep their order, and every matching position is kept, duplicates included |
| Dashboard.DefaultSelectionKeepsAll | streamlit_dashboard.py:34-61 | with all regions, all channels and the full date range selected, the filter keeps the whole table |
| Dashboard.ComputeFilteredKpis | streamlit_dashboard.py:64-69 | revenue is the sum; profit is revenue minus cost; the margin is profit/revenue × 100 when revenue is positive and 0 otherwise; the average order value is revenue/rows, or 0 for no rows; unique customers is at most the row count |
| Dashboard.AggDataOneLinePerSlot | streamlit_dashboard.py:196-200 | the summary table has exactly one line per (date, region, channel) occurring in the rows |
| Dashboard.AggDataSplitsTotals | streamlit_dashboard.py:196-203 | each line's sales, cost and quantity are the sums over the rows of its (date, region, channel), its profit is its own sales minus its own cost and the sum of its rows' profits, and the sales and profit columns add up to the headline revenue and profit |
| Dashboard.AggDataLineSums | streamlit_dashboard.py:196-203 | each line holds the sums of `sales_amount`, `cost` and `quantity` over the rows of its slot, and its profit is its own sales minus its own cost |
| Dashboard.AggDataProfitPerLine | streamlit_dashboard.py:203 | each line's profit equals the summed profit of the rows in that line |
| Dashboard.AggDataSalesSum | streamlit_dashboard.py:196-200 | the summary's sales column adds up to total revenue |
| Dashboard.AggDataProfitSum | streamlit_dashboard.py:203 | the summary's profit column adds up to revenue minus cost |
| Dashboard.AggDataMarginPerLine | streamlit_dashboard.py:204 | each line's margin is its profit as a percentage of its sales, undefined exactly when its sales are 0 |
| Dashboard.MarginOf | streamlit_dashboard.py:204 | a margin is defined exactly when sales are non-zero, and times sales gives 100 × profit |
| Sheets.BuildFrame | sheets_integration.py:88 | the header row names the columns and the other rows follow in order, short ones padded with missing cells; the frame is refused exactly when the widest data row is not as wide as the header |
| Sheets.BuildFrameRoundTrip | sheets_integration.py:88 | the sheet values can be read back from the frame built from them |
| Sheets.GetDataStep | sheets_integration.py:72-94 | the cache is served exactly when caching is asked for, data and time are set, and the cache is strictly younger than its duration; an empty fetch answers an empty frame (`pd.DataFrame()`, via `Reply.Frame`); a non-empty fetch that builds is answered with the built frame, which replaces the cache stamped with the call's time; one that does not build is answered with the constructor's error and leaves the cache alone; the cache invariant is kept |
| Sheets.FirstCallFetches | sheets_integration.py:22-23 | a connector that has never fetched does not serve from its cache |
| Sheets.RefreshThenServe | sheets_integration.py:75-94 | after a refresh, a call strictly within the duration gets the same frame and one at or after it does not |
| Sheets.FetchThenHit | sheets_integration.py:61-94 | on a new connector, the first call fetches and a second call within the duration gets the frame the first built |
| Sheets.SheetsConnector.constructor | sheets_integration.py:12-24 | the duration, 60 minutes unless given, is the minutes in the clock's unit, and nothing is cached |
| Sheets.SheetsConnector.GetData | sheets_integration.py:61-94 | the call answers and changes the cache as `GetDataStep` says, keeping the cache invariant |
| Sheets.SheetsConnector.GetSalesData | sheets_integration.py:96-115 | the call fetches through the cache, then converts the date column and coerces each numeric column in turn, writing every change to the cached frame, as `AfterFetch` says |
| Sheets.SheetsConnector.CoerceCachedColumns | sheets_integration.py:110-113 | the numeric loop, run on the cached frame, leaves in the cache and returns what `CoerceColumns` computes, and keeps the cache time |
| Sheets.AfterFetch | sheets_integration.py:104-115 | a frame that could not be built raises its error and an empty sheet fails on the missing date column, both leaving the cache alone; otherwise the cache holds the frame as `TypeFrame` leaves it, the call succeeds exactly when `TypeFrame` raises nothing and then returns that frame, and the cache time is unchanged |
| Sheets.TypeFrame | sheets_integration.py:106-115 | the conversions succeed exactly when the date column converts and no numeric name is shared by two columns; a date failure leaves the frame as it was; once the dates convert the frame is the numeric loop's, so a shared numeric name leaves the converted dates and the earlier coerced numeric columns in place; on success every date cell is its parsed date, every numeric cell its coerced number, and every other cell unchanged |
| Sheets.TypedAfterConversion | sheets_integration.py:107-113 | a frame whose date column was converted and whose numeric columns were then coerced has every cell typed |
| Sheets.TypeFrameIdempotent | sheets_integration.py:104-113 | typing a frame that was typed without an error succeeds and changes nothing |
| Sheets.TypedFrameIsStable | sheets_integration.py:104-113 | a frame typed from one whose conversions succeeded types to itself |
| Sheets.RetypedDatesParse | sheets_integration.py:107 | the date column of a typed frame holds no text, so it converts again |
| Sheets.RetypedFrameUnchanged | sheets_integration.py:107-113 | typing a typed frame again leaves every cell as it is |
| Sheets.SalesDataRepeatsWithinTtl | sheets_integration.py:72-115 | a second `get_sales_data` within the cache duration is served the frame the first returned, and returns it again without changing the cache |
| Sheets.Positions | sheets_integration.py:112 | the positions of the columns carrying a name; none exactly when the name is not a column |
| Sheets.PositionsIncreasing | sheets_integration.py:112 | each column carrying the name is listed once, in column order, so the number of positions is the number of such columns |
| Sheets.PositionsShared | sheets_integration.py:112 | a name has more than one position exactly when two different columns carry it, the case in which `df[col]` is a frame and the coercion raises |
| Sheets.ToNumeric | sheets_integration.py:113 | text becomes its number, or missing when it does not parse; other cells are unchanged; no text remains |
| Sheets.CoerceNamed | sheets_integration.py:112-113 | an absent column leaves the frame alone; a single column with the name is coerced cell by cell and every other column is untouched; it fails only when two columns share the name |
| Sheets.FirstShared | sheets_integration.py:110-113 | the index of the first listed name carried by more than one column, or the number of names when there is none |
| Sheets.CoerceColumns | sheets_integration.py:110-113 | the loop keeps the column names and row count; it fails exactly at the first name shared by two columns, with that name; every column whose name comes before that point is coerced cell by cell and every other column is unchanged |
| Sheets.CoerceColumnsFailsOnlyOnShared | sheets_integration.py:110-113 | the loop succeeds exactly when no listed name is shared by two columns, and a failure names a listed column that is shared |
| Sheets.ToDate | sheets_integration.py:107 | a non-text cell is kept; empty text becomes missing; other text becomes its parsed date, or fails with that text exactly when it does not parse; no text remains |
| Sheets.ToDateColumn | sheets_integration.py:107 | every cell of the column is converted, or the failure is the error of the first cell that does not parse |
| Sheets.ConvertDates | sheets_integration.py:107 | a missing or duplicated date column fails; with one date column it succeeds exactly when every cell of it converts, and otherwise fails with the first failing cell's error; on success the date column holds the converted cells and every other column is unchanged |

## Left out

- The KPI functions work on rows passed in. `get_all_kpis` also generates its own sample data, and that generator is not part of this model.
- Group keys are kept in order of first occurrence. pandas sorts a group-by index; only that order differs.
- Monthly resampling is a group-by on (year, month). The month-end index labels and the empty months pandas fills between the first and last month are not modelled.
- Aggregate.SortDesc: keeps equal values in input order. pandas does not promise any particular tie order, so the model fixes one it may not match.
- `calculate_profitability_kpis` adds a `profit` column to its input frame in place. The model computes profit per row instead and does not model that side effect on the caller's frame.
- Floating point is not modelled. Money is exact integer cents, and NaN and infinity are `None`.
- Kpi.ProfitMargin: returns `None` where the source divides by a zero revenue and yields NaN or infinity. The model does not tell NaN from +∞ or −∞.
- Dates are calendar days. The time of day the source carries does not appear in the filter comparisons or in the summary table's date key.
- The date picker can return a single date while the user is still choosing a range. The dashboard then indexes past the end of that tuple, and that case is not modelled.
- The dashboard's charts, layout and number formatting, the `dashboard.py` plotting script, and the requirements file are not part of this model.
- OAuth credentials, the token file and the Sheets API call are not modelled. The fetched values are the `sheet` parameter, and the clock reading is the `now` parameter in microseconds.
- The connector's `SCOPES` constant only configures the network client, so it is not modelled.
- `setup_sheets_connection` reads a configuration file and is not part of this model.
- String parsing by `pd.to_datetime` and `pd.to_numeric` is passed in as the `parseDate` and `parseNumber` functions. The model does not fix which strings parse.
- Sheets.ToDate: an empty string becomes a missing date, and any other string is handed to the parser. A freshly fetched sheet delivers only text, but a cached frame was already converted in place, so a later call served from the cache (sheets_integration.py:79) sees timestamps and missing values there; they pass through unchanged, as `pd.to_datetime` leaves a datetime column. The parser is applied to each cell on its own, so two behaviours of `pd.to_datetime` are not captured: strings such as "NaT" or "nan" that it reads as a missing date can only parse to a date or fail here, and from pandas 2.0 it infers one format from the first non-missing string and applies it to the whole column, so whether a cell parses, and which cell is the first failure, can depend on the other cells.
- Sheets.ToNumeric: numbers already coerced by an earlier call on the cached frame pass through unchanged. A timestamp cannot reach a numeric column, because those columns are never date-converted; it is passed through unchanged too.
- Kpi.CalculateProductKpis: on a table with no rows, pandas' `groupby(...).apply` has no groups and returns an empty DataFrame rather than a Series, and `sort_values(ascending=False)` on a DataFrame without `by` raises. The model returns three empty rankings there instead of that error.
- Sheets.SheetsConnector.constructor: the duration is a whole number of minutes. `timedelta` also accepts fractional minutes, and those are not modelled.
