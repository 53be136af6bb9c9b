# Stock data quality checks and feature pipeline, in Dafny

This project models the two components of the stock-volatility MLOps project that hold its own logic. It proves what they promise.

- **`DataQualityChecker`** validates a timestamp-indexed OHLCV frame (open, high, low, close, volume) before processing. It runs six independent checks: schema, null ratio, column types, value ranges, temporal order and row count. Each check records a pass/fail flag under its name and appends zero or more issue messages to the checker's state. `run_all_checks` clears that state, runs all six checks and returns their conjunction. `generate_report` renders a full run as text.
- **`StockDataTransformer`** turns the frame into features for volatility prediction, step by step:
  - returns and log returns;
  - rolling volatility of the returns;
  - lags of `close`, `returns` and `volume`;
  - rolling mean, deviation, minimum, maximum and Bollinger bands;
  - RSI, MACD, momentum and volume averages;
  - hour and calendar encodings;
  - future-volatility targets.

  Every step extends the instance list `feature_names`. `transform` resets that list, runs the steps in order and drops every row that has a missing value anywhere.

## How the model is built

- **Frames (`Frames`).** A frame is an index plus an ordered list of named columns.
  - The index is either a DatetimeIndex without NaT, whose timestamps carry their calendar fields, or an index without calendar fields, of which only the length matters.
  - Every column holds `seq<Option<real>>`; `None` is pandas' NaN.
  - Every column carries a dtype tag saying whether pandas counts it as numeric.
  - Writing a column replaces it in place or appends it at the end, as `df[name] = ...` does.
  - `dropna` keeps, in order, the rows at which every column holds a value.
- **Column operations (`Series`, `SeriesFacts`).** These are pure functions over columns: `shift`, `pct_change`, `diff`, `where`, `abs`, `rolling(w).mean/min/max/std`, `ewm` and the RSI formula.
- **Floating-point routines.** The routines whose values the model does not fix are fields of a `Numerics` value: the sample deviation of a window, `log`, the exponential mean, and `sin`/`cos` of a fraction of a turn. Every lemma holds whatever these fields are. That is what lets the model prove which rows a value depends on without making numeric claims.
- **Checker, pure part (`QualityCheck`, `Report`).** Each check is a pure verdict function: its flag and the issues it appends. Issues are a datatype (`Issue`) that `Report.IssueText` renders as the source's messages. The report is built by a `Layout` function.
- **Checker object (`Checker`).** The object is a class. Every check method updates `checksPassed`, an ordered list of name/flag pairs that keeps the insertion order of the Python dict, and appends to `issues`. Each method is proved equal to its verdict function. `RunAllChecks` and `GenerateReport` are proved equal to `RunAll` and `ReportText`.
- **Transformer steps (`Transform`).** Each step of the transformer is a function returning the new frame (or the error the step raises) together with the names it appends to `feature_names`.
- **Transformer object (`Transformer`).** `StockDataTransformer` is a class whose methods compute each step with the source's loops over windows, columns and lags. They extend `featureNames` in place, and are proved equal to the step functions.
- **Transformer properties.** `TransformFacts`, `StepValues`, `FeatureNames` and `PipelineFacts` state what the steps promise:
  - which columns each step writes and that it leaves the others alone;
  - the value of every feature at every row;
  - the exact, duplicate-free list of feature names;
  - which rows survive `dropna`.
- **No look-ahead (`Causality`).** Every feature step, run on the first `m` rows of a frame (`df.iloc[:m]`), gives the first `m` rows of what it gives on the whole frame. So no feature of row `t` reads a row after `t`; only the targets do.
- **Copies.** Every step starts with `df.copy()`. Frames are Dafny values, so the caller's frame is never changed.

Where pandas returns an infinity, the model uses `None`. This happens in a division by zero, such as `pct_change` after a zero price or `gain / loss` with no loss. The RSI keeps the value pandas produces:
- 100 when the average loss is zero and the average gain is positive;
- NaN when both are zero.

`pct_change` is modelled with pandas' default `fill_method='pad'`: missing prices are forward-filled before dividing.

On a frame with no cells, the null percentage is 0/0, which is NaN in pandas. `NaN > threshold` is false, so the null check passes; the model states this explicitly.

## Model

| member | source | states |
|---|---|---|
| Checker.DataQualityChecker.constructor | src/data/quality_check.py:15-26 | The threshold is stored; an empty list of required columns selects the default `open, high, low, close, volume`; flags and issues start empty. |
| QualityCheck.Missing | src/data/quality_check.py:30 | The missing columns are exactly the required ones absent from the frame, each listed once. |
| QualityCheck.SchemaVerdict | src/data/quality_check.py:28-38 | The schema check appends at most one issue, and passes exactly when it appends none. |
| QualityCheck.SchemaPassed | src/data/quality_check.py:30-38 | The schema check passes iff every required column is present. |
| QualityCheck.SchemaIssue | src/data/quality_check.py:32-35 | On failure, the single issue names exactly the required columns that are absent. |
| Checker.DataQualityChecker.CheckSchema | src/data/quality_check.py:28-38 | Returns the schema verdict, appends its issues and stores its flag under `schema`. |
| QualityCheck.CountMissing | src/data/quality_check.py:43 | A column never has more missing cells than rows. |
| QualityCheck.PercentageAbove | src/data/quality_check.py:44-46 | On a frame with cells, the percentage exceeds the threshold iff the null count exceeds threshold times cells. |
| QualityCheck.NullVerdict | src/data/quality_check.py:40-54 | The null check appends at most one issue, and passes exactly when it appends none. |
| QualityCheck.NullPassed | src/data/quality_check.py:42-54 | The null check passes iff the frame has no cells or `nulls <= threshold * cells`, counting nulls in every column; a ratio exactly at the threshold passes. |
| QualityCheck.NullIssue | src/data/quality_check.py:46-51 | A failing null check has cells, and appends one issue quoting the percentage and the threshold times 100. |
| Checker.DataQualityChecker.CheckNullValues | src/data/quality_check.py:40-54 | Returns the null verdict, appends its issues and stores its flag under `null_values`. |
| QualityCheck.FirstNonNumeric | src/data/quality_check.py:60-65 | The column reported is one of the scanned columns. |
| QualityCheck.FirstNonNumericNone | src/data/quality_check.py:60-68 | No column is reported iff no scanned column is present with a non-numeric dtype. |
| QualityCheck.FirstNonNumericFirst | src/data/quality_check.py:60-65 | The column reported is present and non-numeric, and every column scanned before it is absent or numeric. |
| QualityCheck.DataTypesVerdict | src/data/quality_check.py:56-68 | The type check appends at most one issue, and passes exactly when it appends none. |
| QualityCheck.DataTypesPassed | src/data/quality_check.py:58-68 | The type check passes iff none of `open, high, low, close, volume` is present with a non-numeric dtype; absent columns are skipped. |
| QualityCheck.DataTypesIssue | src/data/quality_check.py:60-65 | On failure, the single issue names the first non-numeric column in `open, high, low, close, volume` order. |
| Checker.DataQualityChecker.CheckDataTypes | src/data/quality_check.py:56-68 | The loop stops at the first non-numeric column; the method returns the type verdict, appends its issues and stores its flag under `data_types`. |
| QualityCheck.CountNegative | src/data/quality_check.py:78 | A column never has more negative cells than rows. |
| QualityCheck.CountNegativePositive | src/data/quality_check.py:78-79 | The negative count is positive iff some present value is below zero; missing values are not counted. |
| QualityCheck.CountInverted | src/data/quality_check.py:92 | The count of `high < low` rows is at most the number of rows counted. |
| QualityCheck.CountInvertedPositive | src/data/quality_check.py:92-93 | The count of `high < low` rows is positive iff some row has both values present with high below low. |
| QualityCheck.PriceIssue | src/data/quality_check.py:77-81 | One price column yields at most one value-range issue. |
| QualityCheck.PriceIssues | src/data/quality_check.py:75-81 | The price loop appends at most one issue per column, all of them value-range issues. |
| QualityCheck.PriceIssuesSnoc | src/data/quality_check.py:76-81 | The issues of one more price column are those of the earlier columns followed by that column's. |
| QualityCheck.PriceIssuesNamed | src/data/quality_check.py:79-80 | Every price issue names one of the scanned columns and a positive negative-count. |
| QualityCheck.PriceIssueEmpty | src/data/quality_check.py:77-81 | A price column yields no issue iff it is absent or has no negative value. |
| QualityCheck.PriceIssuesEmpty | src/data/quality_check.py:75-81 | The price loop yields no issue iff every scanned column is absent or has no negative value. |
| Checker.DataQualityChecker.CheckPrices | src/data/quality_check.py:74-81 | The price loop appends exactly the price issues in column order, reports whether any was found, and leaves the flags alone. |
| Checker.DataQualityChecker.CheckPriceColumn | src/data/quality_check.py:77-81 | One price column appends its issue, if any, and reports whether it did. |
| QualityCheck.VolumeIssue | src/data/quality_check.py:84-88 | The volume check yields at most one issue. |
| QualityCheck.VolumeIssueEmpty | src/data/quality_check.py:84-88 | The volume check yields no issue iff `volume` is absent or has no negative value. |
| Checker.DataQualityChecker.CheckVolume | src/data/quality_check.py:84-88 | Appends the volume issue, if any, and reports whether it did. |
| QualityCheck.InvertedCount | src/data/quality_check.py:92 | The `high < low` count is at most the number of rows of `high`. |
| QualityCheck.RangeIssue | src/data/quality_check.py:91-95 | The high/low check yields at most one issue. |
| QualityCheck.RangeIssueEmpty | src/data/quality_check.py:91-95 | The high/low check yields no issue iff a column is missing or no row has high below low. |
| Checker.DataQualityChecker.CheckHighLow | src/data/quality_check.py:91-95 | Appends the high/low issue, if any, and reports whether it did. |
| QualityCheck.ValueRangesVerdict | src/data/quality_check.py:70-98 | The value-range check appends at most six issues, and passes exactly when it appends none. |
| QualityCheck.ValueRangesPassed | src/data/quality_check.py:72-98 | The value-range check passes iff no present price column and no volume column has a negative value and no row has high below low. |
| QualityCheck.ValueRangesOrder | src/data/quality_check.py:74-96 | The sub-checks all run, without stopping: the issues of `open`, `high`, `low` and `close` in that order, each naming its column with a positive count, then the volume issue, and the high/low issue last. |
| QualityCheck.JoinParts | src/data/quality_check.py:72-97 | The joined sub-check issues are empty iff each part is, and their count is the sum of the parts' counts. |
| Checker.DataQualityChecker.CheckValueRanges | src/data/quality_check.py:70-98 | Returns the value-range verdict, appends its issues and stores its flag under `value_ranges`. |
| QualityCheck.DuplicateCountZero | src/data/quality_check.py:108-109 | `duplicated().sum()` is zero iff the timestamps are pairwise distinct. |
| QualityCheck.SortedDistinctIsStrict | src/data/quality_check.py:108-118 | Non-decreasing and distinct timestamps are exactly strictly increasing ones. |
| QualityCheck.NonDecreasingSpan | src/data/quality_check.py:115 | In distinct, non-decreasing timestamps, every earlier row is strictly before every later one. |
| QualityCheck.TemporalVerdict | src/data/quality_check.py:100-121 | The temporal check appends at most one issue, and passes exactly when it appends none. |
| QualityCheck.TemporalPassed | src/data/quality_check.py:102-121 | The temporal check passes iff the index is a DatetimeIndex with strictly increasing timestamps. |
| QualityCheck.TemporalIssue | src/data/quality_check.py:102-118 | The checks run in order and stop at the first failure: a non-datetime index, else a positive duplicate count, else unsorted data. |
| Checker.DataQualityChecker.CheckTemporalConsistency | src/data/quality_check.py:100-121 | Returns the temporal verdict, appends its issue and stores its flag under `temporal`. |
| QualityCheck.SufficientVerdict | src/data/quality_check.py:123-131 | The row-count check passes iff the frame has at least `min_rows` rows, and otherwise appends exactly one issue. |
| Checker.DataQualityChecker.CheckSufficientData | src/data/quality_check.py:123-131 | Returns the row-count verdict, appends its issue and stores its flag under `sufficient_data`. |
| QualityCheck.DictKeys | src/data/quality_check.py:156-158 | The keys of the flags, in insertion order. |
| QualityCheck.DictGet | src/data/quality_check.py:156 | A flag is found iff its key was stored. |
| QualityCheck.DictPutKeys | src/data/quality_check.py:34-37 | Storing a flag appends its key when new and keeps the key order otherwise. |
| QualityCheck.DictPutGet | src/data/quality_check.py:34-37 | Storing a flag makes it readable under its key and leaves every other key's flag unchanged. |
| QualityCheck.AllValues | src/data/quality_check.py:156 | `all(checks_passed.values())` holds iff every stored flag is true. |
| QualityCheck.FlagsInOrder | src/data/quality_check.py:144-153 | Storing the six flags into the cleared dict lists them in running order. |
| QualityCheck.Listed | src/data/quality_check.py:148-156 | The flags have exactly the six keys, in the order schema, null_values, data_types, value_ranges, temporal, sufficient_data, and their conjunction is the conjunction of the six. |
| QualityCheck.RunAll | src/data/quality_check.py:144-158 | A full run appends at most eleven issues. |
| QualityCheck.RunAllFlags | src/data/quality_check.py:144-158 | Each of the six flags of a run is set exactly when the frame meets that check's condition. |
| QualityCheck.RunAllPassed | src/data/quality_check.py:156 | `all_passed` holds iff the frame meets all six conditions, and iff no issue was appended. |
| QualityCheck.RunAllOrdered | src/data/quality_check.py:148-153 | Issues appear grouped by check, in check order. |
| Checker.DataQualityChecker.RunAllChecks | src/data/quality_check.py:133-158 | The flags and issues are cleared first, so the result depends on the frame and the configuration alone, and a second run repeats it; the state afterwards is that result. |
| Report.IssueTextQuotesCount | src/data/quality_check.py:80-110 | Every counting message starts `Found ` followed by the digits of the count, which read back as the count. |
| Report.Messages | src/data/quality_check.py:33-126 | One message per issue. |
| Report.Render | src/data/quality_check.py:164-186 | The report built line by line with `+=` equals the fixed layout. |
| Report.CheckLinesEach | src/data/quality_check.py:172-174 | The check section is one `NAME: status` line per flag, in flag order. |
| Report.IssueLinesNumbered | src/data/quality_check.py:178-179 | The issue lines are the messages numbered from 1, in order. |
| Report.IssuesSectionEmpty | src/data/quality_check.py:176-181 | The section is the "No issues found!" line iff there are no issues. |
| Report.LayoutBanner | src/data/quality_check.py:164-166 | Every report starts with the `DATA QUALITY REPORT` banner. |
| Report.FootersDiffer | src/data/quality_check.py:183-184 | The PASSED and FAILED footers differ and have the same length. |
| Report.LayoutStatus | src/data/quality_check.py:183-184 | The report ends with `OVERALL STATUS: PASSED` and the rule iff the run passed. |
| Report.ReportOfRun | src/data/quality_check.py:160-186 | The report of a run lists the six checks' conditions in check order, the run's messages and the overall conjunction. |
| Checker.DataQualityChecker.GenerateReport | src/data/quality_check.py:160-186 | Runs all checks with 100 minimum rows and returns their rendering; the state afterwards is that run's. |
| Text.NatToStringRoundTrip | src/data/quality_check.py:80 | The decimal digits of a count read back as the count. |
| Text.NatToStringInjective | src/data/quality_check.py:80 | Different counts print differently. |
| Text.Upper | src/data/quality_check.py:174 | `check.upper()` maps every ASCII lower-case letter to its upper-case letter and keeps every other character. |
| Text.UpperChar | src/data/quality_check.py:174 | A character is never upper-cased to an ASCII lower-case letter, and an ASCII lower-case letter becomes an upper-case one. |
| Text.UpperIdempotent | src/data/quality_check.py:174 | Upper-casing leaves no ASCII lower-case letter, so upper-casing twice is upper-casing once. |
| Report.CheckHeadings | src/data/quality_check.py:172-174 | The six flags are headed SCHEMA, NULL_VALUES, DATA_TYPES, VALUE_RANGES, TEMPORAL and SUFFICIENT_DATA in the report. |
| Transformer.StockDataTransformer.constructor | src/data/transform.py:16-24 | The target column is stored and the feature list starts empty. |
| SeriesFacts.PctChangeValue | src/data/transform.py:31 | `returns[t] = close[t]/close[t-1] - 1` when both prices are present and the earlier is not zero; NaN at row 0 and after a zero price. |
| SeriesFacts.FFillPresent | src/data/transform.py:31 | Forward filling keeps every present value. |
| StepValues.ReturnsColumns | src/data/transform.py:26-37 | `returns` is the percent change of the target, and `log_returns` the log of its ratio to the previous row. |
| StepValues.RatioValue | src/data/transform.py:34 | The ratio to the previous row is NaN at row 0 and the quotient of the two rows otherwise. |
| StepValues.LogReturnsValues | src/data/transform.py:34 | `log_returns[t]` is the log of the ratio of two present prices; NaN at row 0, after a missing price and after a zero price. |
| TransformFacts.ReturnsWrites | src/data/transform.py:26-37 | Returns succeed iff the target column is present, and otherwise raise on it with no name appended; on success they write exactly `returns, log_returns` and append those names. |
| Transformer.StockDataTransformer.CalculateReturns | src/data/transform.py:26-37 | Returns the returns step's frame or error and extends the feature list by the names it reports. |
| TransformFacts.VolatilityWrites | src/data/transform.py:39-56 | Volatility succeeds iff `returns` or the target is present, computing the returns first when `returns` is absent; it writes only the names it appends. |
| StepValues.VolatilityValues | src/data/transform.py:51-53 | `volatility_w` is the rolling deviation of the returns, defined at row t iff `2 <= w <= t+1` and the w returns ending at t are present, and then the deviation of that window. |
| StepValues.VolatilityNameInjective | src/data/transform.py:52 | Different windows give different column names. |
| Transformer.StockDataTransformer.CalculateVolatility | src/data/transform.py:39-56 | The window loop returns the volatility step's frame or error and extends the feature list by its names, in window order. |
| SeriesFacts.ShiftValue | src/data/transform.py:72 | A lag of k: the value k rows earlier, NaN for the first k rows. |
| StepValues.LagsOfRows | src/data/transform.py:70-73 | `col_lag_k[t] = col[t-k]` for `t >= k`, NaN before. |
| StepValues.LagsValues | src/data/transform.py:68-73 | Every present source column gets each of its lags as the shifted column. |
| StepValues.LagSourcesValues | src/data/transform.py:68-73 | With distinct lags, each lag of `close`, `returns` and `volume` is the shifted source, and the sources are unchanged. |
| StepValues.LagsSkipAbsent | src/data/transform.py:69 | An absent column creates no lag. |
| StepValues.LagsWithoutVolume | src/data/transform.py:69 | Without a `volume` column, its lags are neither created nor named. |
| FeatureNames.LagsAllPresent | src/data/transform.py:68-73 | When every column is present, the appended names are every column's lags, columns first and lags second. |
| TransformFacts.LagsWrites | src/data/transform.py:68-73 | The lag step writes only the names it appends. |
| Transformer.StockDataTransformer.CreateLagFeatures | src/data/transform.py:58-75 | The nested column and lag loops return the lag step's frame and extend the feature list by its names. |
| SeriesFacts.RollingBetween | src/data/transform.py:88-95 | The rolling mean, minimum and maximum are defined at exactly the rows with w present values ending there, and there `min <= mean <= max`. |
| SeriesFacts.RollingStdDefined | src/data/transform.py:91 | The rolling deviation is defined iff a window of at least two present values ends at the row, and then it is the deviation of that window (pandas' default `min_periods`). |
| SeriesFacts.MeanBetween | src/data/transform.py:88 | The mean of a window lies between its minimum and maximum. |
| StepValues.WindowRows | src/data/transform.py:86-99 | Row by row, the six window columns are defined where a full window is, `close_min_w <= close_ma_w <= close_max_w`, and `bb_upper_w - close_ma_w = close_ma_w - bb_lower_w = 2 * close_std_w`. |
| StepValues.RollingValues | src/data/transform.py:77-110 | The rolling step succeeds on a present target, and each window's six columns are the statistics of the target. |
| StepValues.WindowNamesDiffer | src/data/transform.py:101-108 | The six names of one window are pairwise distinct. |
| TransformFacts.RollingWrites | src/data/transform.py:77-110 | The rolling step succeeds iff there is no window or the target is present, raising before appending any name; it writes only the names it appends. |
| Transformer.StockDataTransformer.CreateRollingFeatures | src/data/transform.py:77-110 | The window loop returns the rolling step's frame or error and extends the feature list by six names per window. |
| SeriesFacts.GainsLossesValues | src/data/transform.py:117-119 | Gain and loss are present and at least zero at every row, one of them is zero, their difference is the change, and a NaN change gives 0 and 0. |
| SeriesFacts.FirstGainLoss | src/data/transform.py:117-119 | The first row's change is NaN, so its gain and loss are both 0. |
| StepValues.AverageRows | src/data/transform.py:118-119 | The 7-row average gain and loss are defined from row 6 on and are at least zero there. |
| SeriesFacts.RsiRange | src/data/transform.py:120-121 | With a positive average loss, the RSI is `100 - 100/(1 + gain/loss)` and lies in [0, 100); with no loss it is 100 after a gain and NaN when nothing moved. |
| StepValues.RsiRows | src/data/transform.py:116-121 | The `rsi` column is NaN for the first 6 rows; after that it is as the previous row states, row by row. |
| StepValues.MomentumRows | src/data/transform.py:131-132 | `momentum_k[t] = close[t] - close[t-k]` where both are present, NaN for the first k rows. |
| StepValues.IndicatorsValues | src/data/transform.py:116-132 | The indicator columns are the RSI, MACD, signal, difference and momenta of the target column. |
| StepValues.TechnicalVolumeValues | src/data/transform.py:135-138 | With a volume column, `volume_ma_5`, `volume_ma_10` and `volume_ratio` are its averages and its ratio to the 10-row average. |
| StepValues.TechnicalKeeps | src/data/transform.py:134-138 | The volume columns do not overwrite the indicators. |
| TransformFacts.TechnicalWrites | src/data/transform.py:112-147 | The technical step succeeds iff the target is present, and otherwise raises with no name appended; it writes only the names it appends. |
| Transformer.StockDataTransformer.CreateTechnicalIndicators | src/data/transform.py:112-147 | Returns the technical step's frame or error and appends the volume names before `rsi ... momentum_5`. |
| StepValues.HourDefaults | src/data/transform.py:154-167 | When no timestamp has a nonzero hour, every row has `hour = 0`, `hour_sin = 0.0` and `hour_cos = 1.0`. |
| StepValues.HourFromStamps | src/data/transform.py:156-160 | With intraday timestamps, each row's hour and its sine and cosine over 24 hours. |
| StepValues.HourBranchesAgree | src/data/transform.py:154-167 | If `sin(0) = 0` and `cos(0) = 1`, both branches give each row its own hour encoding, so the branch taken does not change the values. |
| StepValues.CalendarRows | src/data/transform.py:170-177 | Each row's day of week, day, month, quarter and the day-of-week sine and cosine over 7 days. |
| StepValues.CalendarKeeps | src/data/transform.py:170-177 | The calendar columns leave every other column unchanged. |
| StepValues.TimeShape | src/data/transform.py:149-184 | On a DatetimeIndex, the time step writes the hour columns, then the calendar columns, and names the hour names followed by the calendar names. |
| TransformFacts.TimeWrites | src/data/transform.py:149-184 | The time step succeeds iff the index is a DatetimeIndex without NaT; otherwise it raises, after naming the three hour names that both branches append. |
| Transformer.StockDataTransformer.CreateTimeFeatures | src/data/transform.py:149-184 | Returns the time step's frame or error and extends the feature list by the names it reports. |
| SeriesFacts.LeadValue | src/data/transform.py:196 | A shift by `-h` gives the value h rows later, NaN for the last h rows. |
| StepValues.TargetColumns | src/data/transform.py:193-207 | The target step succeeds when `returns` exists, keeps it, and writes the future returns, their absolute value, and the realized deviation or the absolute value. |
| StepValues.FutureRows | src/data/transform.py:196-199 | `future_returns[t] = returns[t+h]`, NaN for the last h rows; `target_volatility` is present exactly where the future return is, at least zero, and plus or minus it. |
| StepValues.RealizedRows | src/data/transform.py:203-204 | For h > 1, `target_realized_vol[t]` is defined iff `h <= t+1`, `t+h` is a row and `returns[t+1..t+h]` are present, and is then the deviation of those h returns. |
| TransformFacts.TargetWrites | src/data/transform.py:186-209 | The target step appends no feature name, succeeds iff `returns` exists, and writes only the three target columns. |
| Transformer.StockDataTransformer.CreateTargetVariable | src/data/transform.py:186-209 | Returns the target step's frame or error; the feature list is unchanged. |
| PipelineFacts.FeaturesWrites | src/data/transform.py:226-248 | The feature steps succeed iff the target is present and the index is a DatetimeIndex without NaT; a missing target raises first, with no names; the result extends the input by exactly the appended names. |
| PipelineFacts.PipelineWrites | src/data/transform.py:226-256 | The pipeline succeeds under the same condition (the target is present and the index is a DatetimeIndex without NaT), raises the feature steps' error otherwise, and on success is `dropna` of the features plus targets. |
| PipelineFacts.FirstColumnsKept | src/data/transform.py:231-252 | The returns and volatility columns are not overwritten by any later step. |
| PipelineFacts.LabelledColumns | src/data/transform.py:227-252 | Before `dropna`, `future_returns` is the target's percent change shifted by `-h`, and `volatility_w` the rolling deviation of that percent change. |
| PipelineFacts.WarmUpDropped | src/data/transform.py:231-256 | Rows 0 to 9 never survive `dropna` when 10 is a volatility window. |
| PipelineFacts.TailDropped | src/data/transform.py:196-256 | The last h rows never survive `dropna`. |
| PipelineFacts.KeptRowsWithin | src/data/transform.py:231-256 | With the default windows and lags, every row that survives `dropna` lies between row 10 and `h` rows before the end. |
| PipelineFacts.DropNaOfExtended | src/data/transform.py:255-256 | After `dropna`, every column holds a value at every row, and each untouched input column is the input's values at the kept rows. |
| PipelineFacts.TransformRows | src/data/transform.py:211-262 | The output of `transform` is `dropna` of the labelled frame: its rows are the input's rows, kept in order, from row 10 up to `h` rows before the end, with no missing value, and every untouched input column is selected at the kept rows. |
| Transformer.StockDataTransformer.Transform | src/data/transform.py:211-262 | The feature list is reset first; the result is the pipeline's, with the name list it reports. |
| Transformer.StockDataTransformer.RunSteps | src/data/transform.py:226-256 | The steps run in order, stopping at the first that raises, then targets and `dropna`. |
| Transformer.StockDataTransformer.ComputeFeatures | src/data/transform.py:226-248 | The feature steps run in order and stop at the first that raises, keeping the names of the steps that ran. |
| FeatureNames.PipelineAdded | src/data/transform.py:250-256 | The target step and `dropna` append no feature name. |
| FeatureNames.FeaturesAdded | src/data/transform.py:36-182 | With the target, `close` and `volume` present on a DatetimeIndex, the names are returns, volatilities, lags of close, returns and volume, six names per rolling window, volume names before indicator names, then hour and calendar names. |
| FeatureNames.FeatureNamesLength | src/data/transform.py:36-182 | The list has `20 + 7 * windows + 3 * lags` names. |
| FeatureNames.FeatureNamesDistinct | src/data/transform.py:36-182 | With distinct windows and lags, the names are pairwise distinct and none is a target column. |
| FeatureNames.DefaultNames | src/data/transform.py:39-77 | With the default windows `[3, 5, 10]` and lags `[1, 2, 3]`, that is 50 distinct names, none a target column. |
| FeatureNames.DefaultFeatureNames | src/data/transform.py:211-252 | `transform` with the default target names exactly that list. |
| SeriesFacts.PctChangeCausal | src/data/transform.py:31 | The percent change of the first m rows is the first m rows of the percent change. |
| SeriesFacts.ShiftCausal | src/data/transform.py:72 | A lag of the first m rows is the first m rows of the lag. |
| SeriesFacts.RollingCausal | src/data/transform.py:88-95 | Rolling statistics of the first m rows are the first m rows of the statistics. |
| SeriesFacts.EwmCausal | src/data/transform.py:124-127 | The exponential mean reads no later row. |
| SeriesFacts.GainsLossesCausal | src/data/transform.py:117-119 | Gains and losses read no later row. |
| Causality.ReturnsCausal | src/data/transform.py:26-37 | The returns step on the first m rows raises when it raises on the whole frame, appends the same names, and otherwise gives the first m rows of its frame. |
| Causality.VolatilityOverCausal | src/data/transform.py:51-54 | The volatility columns of the first m rows are the first m rows of the volatility columns, for every list of windows. |
| Causality.VolatilityCausal | src/data/transform.py:39-56 | The volatility step, returns included when they are missing, commutes with keeping the first m rows, error and names included. |
| Causality.LagsOfCausal | src/data/transform.py:70-73 | For non-negative lags, the lags of one column of the first m rows are the first m rows of its lags. |
| Causality.LagsCausal | src/data/transform.py:58-75 | For non-negative lags, the lag step on the first m rows appends the same names and gives the first m rows of its frame. |
| Causality.RollingWindowCausal | src/data/transform.py:88-99 | The six columns of one window, the bands read back from the frame, are causal together. |
| Causality.RollingOverCausal | src/data/transform.py:86-108 | The rolling columns of every window list are causal. |
| Causality.RollingStepCausal | src/data/transform.py:77-110 | The rolling step commutes with keeping the first m rows, its missing-target error and names included. |
| Causality.IndicatorsCausal | src/data/transform.py:117-132 | RSI, MACD, its signal and difference, and both momenta of the first m rows are the first m rows of the indicators. |
| Causality.VolumeCausal | src/data/transform.py:136-138 | The two volume means and the volume ratio are causal. |
| Causality.TechnicalCausal | src/data/transform.py:112-147 | The indicator step commutes with keeping the first m rows, error and names included, whether or not there is a volume column. |
| Causality.MidnightColumns | src/data/transform.py:154-166 | When no timestamp of a stretch has an hour, the hour column is the default 0 and, given `sin(0) = 0` and `cos(0) = 1`, its encodings are the defaults 0.0 and 1.0. |
| Causality.HourColumnsCausal | src/data/transform.py:154-166 | The hour columns are causal, also when the first hour appears after row m and the first m rows take the default branch. |
| Causality.CalendarCausal | src/data/transform.py:170-177 | The day of week, day of month, month, quarter and the day encodings of the first m timestamps are the first m rows of those columns. |
| Causality.TimeCausal | src/data/transform.py:149-184 | The time step commutes with keeping the first m rows, its error and names included. |
| Causality.FeaturesCausal | src/data/transform.py:227-248 | For non-negative lags, all feature steps of `transform` run on the first m rows raise when they raise on the whole frame, append the same names, and otherwise give the first m rows of the whole frame's features: no feature of row t reads a row after t. |
| Causality.TransformFeaturesCausal | src/data/transform.py:227-248 | The same for the windows, lag columns and lags `transform` passes. |
| Causality.FeatureColumnCausal | src/data/transform.py:227-248 | Every column of the features of the first m rows, each appended feature included, is the first m rows of that column of the whole frame's features. |

## Left out

- The float-only statistics are parameters of every lemma, with no numeric claim about them: the sample deviation (`std`), `np.log`, the EWM behind MACD, and `sin`/`cos`.
- Floating point: all arithmetic is exact `real`. Where pandas produces an infinity (a division by zero), the model gives `None`. Infinities that `dropna` would keep are therefore dropped here.
- Report.IssueText: `{null_percentage:.2f}` and `{self.null_threshold * 100}` are both rendered with two decimals. Python prints the second as a shortest float (`1.0`). The percentage is an exact value rounded half up (`Text.Fixed2`); Python rounds the nearest binary double to nearest, so a tie can print one hundredth lower (`0.125` gives `0.12`).
- Report.SetDisplay: the missing columns print in the order of the required list. Python prints a set in hash order.
- The clock: `generate_report` takes the `Generated:` timestamp as a parameter.
- Calendar extraction: timestamps are records carrying their instant, hour, day of week, day, month and quarter. How pandas derives these fields is not modelled.
- The dtype of a column is a tag. `is_numeric_dtype` is not modelled beyond it, and the columns the transformer writes are tagged numeric. A column tagged `NonNumeric` still holds numbers or NaN: it stands for an object column of numbers. A column of strings or datetimes is not modelled.
- QualityCheck.ValueRangesVerdict, QualityCheck.CountNegative, QualityCheck.CountInverted: on a price or volume column of strings or datetimes, `df[col] < 0` and `df['high'] < df['low']` raise `TypeError`; that error path is not modelled.
- Checker.DataQualityChecker.CheckValueRanges, Checker.DataQualityChecker.RunAllChecks, QualityCheck.RunAll: a run on such a column raises `TypeError` at the value-range check, after the first three checks; the model always completes the run.
- Transform.Returns, Transformer.StockDataTransformer.CalculateReturns: `pct_change` on a target column of strings raises `TypeError`; the model has no such column, so the step raises only on a missing target.
- Transform.Time, Transform.HasHour: an index with calendar fields other than a DatetimeIndex, such as a PeriodIndex, is not modelled. `create_time_features` succeeds on a PeriodIndex; the model's only other index kind has no calendar fields and raises `NoCalendar`.
- QualityCheck.TemporalVerdict, Transform.Time: NaT timestamps are not modelled. Every timestamp has an instant and calendar fields, so the special treatment of NaT by `duplicated`, `is_monotonic_increasing` and `index.hour` (NaN) is not captured.
- Text.Upper: only ASCII letters are upper-cased; Python also upper-cases other letters. The check names are ASCII.
- Negative window sizes are excluded by the type `nat`; pandas raises on them.
- `save_processed_data`, the `main` demos and the `print` calls are I/O and are left out.
- StepValues.HourBranchesAgree: it assumes `sin(0) = 0` and `cos(0) = 1` of the `Numerics` parameter, which numpy gives exactly.
- PipelineFacts.TailDropped: it assumes what pandas guarantees of every frame: each column has one value per row (`WellFormed`). It also assumes at least one volatility window.
- PipelineFacts.TransformRows: it assumes `WellFormed` and a non-negative horizon. For a negative horizon the model still computes the shift, but the row bounds are not stated.
- PipelineFacts.KeptRowsWithin: stated for the default windows and lags, the ones `transform` uses.
- Causality.FeaturesCausal: it assumes non-negative lags (a negative lag reads later rows) and `sin(0) = 0`, `cos(0) = 1` of the `Numerics` parameter. It covers the feature steps; the target columns read later rows by design (`SeriesFacts.LeadValue`), and `dropna` is not causal, since whether row `t` survives depends on later targets.
