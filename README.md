# Daily AWS cost report: the report computation, modelled in Dafny

This project models the report computation of `cost_explorer.py`. That is the part of the
cost-report Lambda that turns "today" and two Cost Explorer `get_cost_and_usage` responses
into the day-over-day / month-over-month comparison table.

- **Period calculator** (`Periods`, `Dates`, and the constructor of
  `Explorer.CostExplorer`): the start of the current month, which moves back a month
  on the 1st. The start of the previous month. Today minus one calendar month, with
  the day clamped to the month's length. The one-day lookback on the 2nd. The
  `second_day_of_month` flag. The two query windows, as ISO 8601 `YYYY-MM-DD` strings.
- **Monthly aggregator** (`Billing`, `CostExplorer.CalculateMonthlyCost`): one service's
  total over a response, where a day without the service adds 0. When the flag is set
  and the month is `"current"`, the lookback day is dropped.
- **Comparison table builder** (`Report`, `CostExplorer.FormatAsTable`,
  `CostExplorer.CreateDataframe`): one row per group of the current response's last
  day. Each row gets its previous-day cost, its two month totals, and the DoD and MoM
  differences. The rows are sorted by MoM, rounded to cents, and followed by a Total row.
- **Cell colour** (`Report.ColorCell`).

A response is a `seq<Day>`. Each `Day` holds its ISO start date and its `seq<Group>`.
Each `Group` holds a service key and an exact `real` amount. The pandas DataFrame is a
`Table`: column titles plus a sequence of `ReportRow` records. The record fields follow
the table's final column order.

Three points where a quick reading of the source can mislead; the model follows what the code computes:

- Final column order: the `data` dictionary lists [this month, cost on day, previous day,
  last month] (cost_explorer.py:185-187). The DoD and MoM columns are appended after them.
  The code then ends with `reindex(columns=round_columns_titles)` (cost_explorer.py:265-266, 279),
  so the finished table's columns are
  [Total cost this month, Total cost last month, MoM Cost Diff, Cost on <day>, DoD Cost Diff].
- Previous window for 2021-09-15: the comment at cost_explorer.py:84 calls the end
  exclusive. `relativedelta(months=+1)` gives 2021-08-15 as that end, so the last day
  fetched is 2021-08-14 (`Periods.Example20210915`).
- Colour: the docstring of `color_cell` (cost_explorer.py:34-38) says red for negative values.
  The code returns red exactly when the value is positive (cost_explorer.py:39), and
  `Report.ColorCell` follows the code.

## Model

| member | source | states |
|---|---|---|
| `Dates.DaysInMonth` | cost_explorer.py:75-77 | a month has 28 to 31 days; February has 29 exactly in leap years |
| `Dates.MinusMonth` | cost_explorer.py:71-77 | `- relativedelta(months=+1)` lands exactly one calendar month earlier, on the same day or, when that month is shorter, on its last day, never later than the original day |
| `Dates.MinusDay` | cost_explorer.py:108 | `- relativedelta(days=+1)` gives a valid date whose day number is exactly one less |
| `Dates.MonthBackFromFirst` | cost_explorer.py:71-72 | from a first of month, one month back is again a first of month, and the gap is the earlier month's length |
| `Dates.IsoFormat` | cost_explorer.py:52-55 | `isoformat()` yields 10 characters: four digits, `-`, two digits, `-`, two digits |
| `Dates.IsoRoundTrip` | cost_explorer.py:52-55 | the ISO text of every date reads back as that date |
| `Dates.IsoCanonical` | cost_explorer.py:52-55 | any text that reads as a date is exactly that date's ISO text |
| `Periods.FirstOfCurrentMonth` | cost_explorer.py:67-71 | day 1 of today's month, or of the month before when today is the 1st; always strictly before today |
| `Periods.FirstOfPreviousMonth` | cost_explorer.py:72 | day 1 of the month before the current month's start |
| `Periods.RelativePrevMonthDate` | cost_explorer.py:75-77 | today minus one calendar month is a valid date. `PreviousWindowEndsOneMonthBack` pins it as that month with the day clamped |
| `Periods.PreviousWindow` | cost_explorer.py:84-90 | the previous-month query runs from the previous month's start to the relative date and yields valid dates. `PreviousWindowNonEmpty` and `PreviousWindowEndsOneMonthBack` state its shape |
| `Periods.CurrentWindow` | cost_explorer.py:101-110 | the current-month query runs from the current month's start (a day earlier on the 2nd) to today and yields valid dates. `CurrentWindowSpansTwoDays` and `LookbackIsLastDayOfPreviousMonth` state its shape |
| `Periods.PreviousWindowNonEmpty` | cost_explorer.py:67-90 | the previous-month window is non-empty: its start comes strictly before its end, including on the 1st of a month |
| `Periods.CurrentWindowSpansTwoDays` | cost_explorer.py:67-109 | the current-month window spans at least two days, so the two days the table compares both exist, as the comment at lines 104-107 requires |
| `Periods.LookbackIsLastDayOfPreviousMonth` | cost_explorer.py:104-108 | on the 2nd, the current window starts on the last day of the previous month |
| `Periods.PreviousWindowEndsOneMonthBack` | cost_explorer.py:75-77 | the previous window ends one calendar month before today, with the day clamped to that month's length |
| `Periods.ExampleUnequalSpans` | cost_explorer.py:67-110 | the two windows can differ in length: 2021-03-31 compares 30 March days with 27 February days, and 2021-10-01 compares 30 September days with 31 August days |
| `Periods.Example20210902` | cost_explorer.py:104-108 | 2021-09-02 gives the windows 2021-08-31..2021-09-02 and 2021-08-01..2021-08-02 |
| `Periods.Example20210915` | cost_explorer.py:84-110 | 2021-09-15 gives the windows 2021-09-01..2021-09-15 and 2021-08-01..2021-08-15 |
| `Periods.Example20210901` | cost_explorer.py:69-72 | 2021-09-01 gives the windows 2021-08-01..2021-09-01 and 2021-07-01..2021-08-01 |
| `Periods.ExampleMonthEnd` | cost_explorer.py:75-77 | 2021-03-31 gives 2021-02-28, 2024-03-31 gives 2024-02-29, and 2022-01-15 gives 2021-12-15 |
| `Billing.FirstIndex` | cost_explorer.py:223-228 | the linear scan stops at the first group with the service's key, or runs off the end when there is none |
| `Billing.CostOnAbsent` | cost_explorer.py:168-174 | a day with no group for the service contributes 0 |
| `Billing.SumCostAppend` | cost_explorer.py:220-228 | the monthly sum over consecutive stretches of days is the sum of their sums |
| `Billing.SumCostAbsent` | cost_explorer.py:210-229 | a service that never appears totals 0 |
| `Billing.CostOn` | cost_explorer.py:168-173 | a service's cost on a day is the amount of its first group with that key, or 0 when the day has none |
| `Billing.SumCostFirstDay` | cost_explorer.py:212-228 | the sum over the days is the first day's cost plus the sum over the remaining days |
| `Billing.MonthlyCost` | cost_explorer.py:210-229 | with the lookback day dropped, the monthly total is the full sum minus exactly the first day's cost. `SumCostAppend` and `SumCostAbsent` state the rest |
| `Billing.ExampleLookback` | cost_explorer.py:212-217 | days 08-31 {A: 5} and 09-01 {A: 10} total 10 when the lookback is dropped, and 15 otherwise |
| `Report.Rows` | cost_explorer.py:185-187 | `pd.DataFrame(data)` gives one row per entry of the service-name list, in list order |
| `Report.WithDeltas` | cost_explorer.py:252-259 | keeps the row's name and its this-month, last-month and day cells. MoM is positive exactly when this month exceeds last month, and DoD is positive exactly when today exceeds yesterday. The dropped previous-day cost equals the day cost minus DoD, and last month's total equals this month's total minus MoM, so DoD and MoM are exactly the two differences |
| `Report.InsertByMoM` | cost_explorer.py:262 | inserting into rows sorted by MoM keeps them sorted and adds exactly that row |
| `Report.SortByMoM` | cost_explorer.py:262 | `sort_values` output is ascending by MoM and a permutation of its input |
| `Report.RoundHalfEven` | cost_explorer.py:267 | the nearest integer, with ties going to the even one |
| `Report.Round2` | cost_explorer.py:267 | `round(2)` gives a whole number of cents and moves a value by at most half a cent |
| `Report.Round2Monotone` | cost_explorer.py:262-267 | rounding never reverses the order of two values |
| `Report.RoundKeepsSorted` | cost_explorer.py:262-267 | rounding after the sort leaves the rows sorted by MoM |
| `Report.ColumnSum` | cost_explorer.py:276 | `sum(numeric_only=True)` is labelled Total. `ColumnSumAppend` and `ColumnSumPermutation` state that it adds columns and ignores row order |
| `Report.SetTotal` | cost_explorer.py:276 | `loc['Total'] =` replaces every row labelled Total with the sum and leaves other rows unchanged. It appends the sum as a last row only when no row is labelled Total |
| `Report.ColumnSumAppend` | cost_explorer.py:276 | the column sum of two stretches of rows is the sum of their column sums |
| `Report.ColumnSumPermutation` | cost_explorer.py:262-276 | the Total row does not depend on the order of the rows it sums |
| `Report.RoundAllPermutation` | cost_explorer.py:262-267 | rounding preserves "is a permutation of" |
| `Report.TableShape` | cost_explorer.py:243-279 | with no service named Total, the table has n service rows and then one Total row. The service rows are sorted by MoM and are a permutation of the built rows with their differences, rounded. The Total row is their column sum. The columns are in reindex order |
| `Report.TableLabels` | cost_explorer.py:262-276 | every service row of the table is one of the built rows, with its differences and rounded |
| `Report.ColorCell` | cost_explorer.py:33-39 | `'color: red'` exactly when the value is positive, and `'color: green'` exactly when it is zero or negative |
| `Explorer.GetTimePeriod` | cost_explorer.py:42-55 | both strings of the time period read back as the given start and end dates |
| `Explorer.BuildData` | cost_explorer.py:156-187 | the five column lists have one entry per group of the last day, with that group's key as the service name, in order. `BuiltRow` pins every cell |
| `Explorer.ExampleDeltas` | cost_explorer.py:159-267 | responses with yesterday {A: 10.0} and today {A: 12.005, B: 3.0} give a DoD of 2.005 for A, which rounds to 2.00. B is absent yesterday, so its previous-day cost is 0 and its DoD is 3.0 |
| `Explorer.BuiltRow` | cost_explorer.py:159-182 | the j-th built row has the j-th group's key and amount, the first same-key amount of the day before (else 0), and the two month totals |
| `Explorer.ReportRowsComeFromLastDay` | cost_explorer.py:149-189 | with no service named Total, there is one table row per group of the last day plus the final Total row. Every service row is the rounded, delta-extended row of some group of the last day, so services seen only earlier get no row |
| `Report.ServiceNamedTotalIsOverwritten` | cost_explorer.py:273-276 | when a service row is labelled Total, `loc['Total']` overwrites it and appends nothing, so the table has exactly one row per service. Each row labelled Total holds the column sum, so that service's own figures are lost. Every other row stays as it was |
| `Explorer.LastDayServiceNamedTotal` | cost_explorer.py:149-189 | a group keyed Total on the last day gives a table with exactly one row per group of that day, and no separate Total row |
| `Explorer.PreviousDayCost` | cost_explorer.py:168-173 | the previous-day scan yields the amount of the first group with the service's key, or 0.0 when that day has no such group |
| `Explorer.CostExplorer.constructor` | cost_explorer.py:62-119 | sets the flag exactly when today is the 2nd, and builds the two queries over the previous and current windows, daily, grouped by service |
| `Explorer.CostExplorer.CalculateMonthlyCost` | cost_explorer.py:198-229 | the loop returns the service's monthly sum, without the first day exactly when the month is `"current"` and the flag is set. Popping from an empty response raises IndexError |
| `Explorer.CostExplorer.FormatAsTable` | cost_explorer.py:139-189 | a current response of fewer than two days raises IndexError. Otherwise the column-building loop and the table steps produce the comparison table of the two responses |
| `Explorer.CostExplorer.CreateDataframe` | cost_explorer.py:231-280 | applies the DoD, drop, MoM, sort, round and Total steps to the rows of `data`. The columns are in reindex order |

## Left out

- Billing API calls: the boto3 client and the `get_cost_and_usage` calls
  (cost_explorer.py:81, 132-135) are network I/O. `FormatAsTable` takes the two
  responses as inputs, and `generate_report` is not modelled beyond that.
- Logging (`self.logger.info`, `json_logger`) has no logic.
- Clock: `datetime.utcnow().date()` becomes the constructor's `today` parameter.
- `Explorer.CostExplorer.constructor`: requires a date after 0001-02-01. For earlier
  dates, `relativedelta` at line 71 or 72 raises ValueError, which the model does not
  represent. The clock never yields such dates.
- HTML rendering: the pandas Styler chain (`format(precision=2)`, `applymap`,
  `set_table_styles`, `render`) and the CSS tables (cost_explorer.py:11-30, 193-195)
  are a library black box. `FormatAsTable` returns the table itself, and only the
  colour decision `ColorCell` is modelled.
- Floating point: amounts are exact reals. The string-to-float parsing
  (`float(...)`, `pd.to_numeric`) is not modelled.
- `Report.Round2`: rounds exact values half to even, as numpy's `rint` does on the
  scaled value. It does not model binary float representation, where, for example,
  2.005 is stored slightly below 2.005.
- The `-0.00 → 0.00` replacement (cost_explorer.py:270) has no counterpart, because reals
  have no signed zero.
- `Report.SortByMoM`: pandas' default quicksort is not stable, so the model promises no
  order among rows with equal MoM. Insertion order is one admissible outcome.
- Group keys are modelled as the service name `Keys[0]`. A group with an empty `Keys`
  list would raise IndexError, and that case is not modelled.
- Column titles of the intermediate frame are not tracked. The `Service Name`
  column, the previous day's date column and their drop/`set_index` are implicit in
  the record types. Only the final titles are.
- The deep copy before `pop(0)` is implicit: responses are values, so the caller's
  response cannot change.
- aws_secret.py (secret retrieval), ses_email.py and sendgrid_email.py (mail transport and
  recipient selection) and lamda_function.py (orchestration and status codes) are not
  part of this model.
