# Flu dashboard pipeline, modelled in Dafny

`streamlit_app.py` is a Streamlit dashboard for flu case counts. A user uploads a
CSV of case counts. The script finds the date column and the case column among
fixed lists of accepted names, then cleans the table. It asks the Open-Meteo archive
for the daily weather over the table's date range, builds a weather frame, and
inner-merges the two frames on `Date`. It adds a rule-based `Predicted_Cases`
column and, when the upload has a `Barangay` column, narrows the plotted rows to the
chosen Barangay.

This project models that pipeline on values. A frame is a column list plus a
sequence of rows (`Tables`). Each stage is a module:

- `ColumnAliases`: first-match alias detection.
- `Cleaning`: renaming, date parsing, dropping rows with a bad date, coercing counts.
- `DateRange`: the request range.
- `Weather`: turning the archive response into a frame.
- `Merging`: the inner merge.
- `Projection`: the prediction rule.
- `Barangay`: the selection list and the plot filter.
- `Dashboard`: the script from upload to plot rows.

Two helper modules support them:

- `Seqs`: order-keeping filtering, used for `dropna`, boolean masks and merge matches.
- `StringOrder`: Python's string order and `sorted`.

Modelling choices:

- A `Date` is an integer, since only the order of timestamps matters.
- pandas' `to_datetime` and `to_numeric` are parameters of type `string -> Option<_>`.
  A missing cell never parses.
- The HTTP call is a parameter `fetch: Range -> FetchOutcome`.
- Temperatures and rainfall are `real`.
- `astype(int)` is written out as truncation toward zero.
- `Series.round()` is written out as rounding half to even.
- Every `st.stop()` becomes a `Stop` value.
- Formatting the minimum date of an empty table raises an uncaught exception in the
  script. That also becomes a `Stop` (`NoDatedRows`).
- The two `st.warning` conditions become flags of the returned `Report`.

Behaviour of the script that the model keeps:

- The code stops when either column is missing. Detection runs in order: the date
  column first, then the case column.
- The code merges on `Date` only, never on `(Date, Barangay)`.
- The code has no unknown-region error. The selection comes from a closed list, and
  a value not in the data just selects no rows.
- Weather times that do not parse make `pd.to_datetime` raise. That stops the run;
  the rows are not dropped.
- Counts are not forced to be non-negative. A negative number in the case column
  stays negative. Only the prediction is clipped at 0.
- The coefficients 0.02, 0.5 and 28 are constants, not configuration.
- An upload whose dates all fail to parse is cleaned into an empty table. The run
  then stops, because the script crashes when it builds the request range.

## Model

| member | source | states |
|---|---|---|
| `ColumnAliases.FirstPresent` | streamlit_app.py:19-40 | absent exactly when no alias is among the columns; otherwise the earliest alias in list order that is present |
| `ColumnAliases.FirstPresentUnique` | streamlit_app.py:23-27 | at most one alias is the first present one, so first-match detection has one answer |
| `ColumnAliases.DetectColumn` | streamlit_app.py:23-27 | the `for ... break` scan returns exactly the first present alias, or none |
| `ColumnAliases.AliasListsDisjoint` | streamlit_app.py:19-20 | no name is both a date alias and a case alias, so the two detected columns differ |
| `ColumnAliases.DetectionExample` | streamlit_app.py:19-27 | alias order decides, not column order: `date` is chosen over a `DATE` column listed earlier |
| `Dashboard.LoadFlu` | streamlit_app.py:19-49 | stops with a date-column error exactly when no date alias is present; stops with a case-column error exactly when a date alias is present and no case alias is; otherwise yields the cleaned rows for the two first-matching columns |
| `Cleaning.RenameAndParseDates` | streamlit_app.py:43-45 | keeps every row and its position; `Date` is the parsed date cell; `Cases` is the raw case cell; every other column is unchanged |
| `Cleaning.DropUnparsedDates` | streamlit_app.py:47 | drops exactly the rows without a date, so the length is the input length minus that count; the k-th survivor keeps the values of the k-th dated row |
| `Cleaning.TruncTowardZero` | streamlit_app.py:49 | the integer part of x, rounded toward zero, for both signs |
| `Cleaning.TruncOfWhole` | streamlit_app.py:49 | casting a whole number to int leaves it unchanged |
| `Cleaning.CoerceCount` | streamlit_app.py:49 | an unparseable or missing count becomes 0; a parsed count is truncated toward zero |
| `Cleaning.CoerceCounts` | streamlit_app.py:49 | removes no row; changes only `Cases`; `Date` and the other columns stay as they were |
| `Cleaning.Clean` | streamlit_app.py:43-49 | the whole cleaning of lines 43-49: never more rows than the upload, and no cleaned row keeps the detected date or case column among its other columns |
| `Cleaning.UnparsedCountAgrees` | streamlit_app.py:45-47 | the rows whose parsed `Date` is NaT are exactly the upload rows whose date cell fails to parse |
| `Cleaning.CleanLength` | streamlit_app.py:43-49 | cleaned length = upload length − number of upload rows whose date does not parse |
| `Cleaning.CleanOrigin` | streamlit_app.py:43-49 | each cleaned row comes from one upload row: its parsed date, its coerced count, its other columns; origins strictly increase; every row with a parseable date is an origin |
| `Cleaning.BadCountBecomesZero` | streamlit_app.py:49 | a row with a good date and a bad count is kept, with `Cases` 0 and its other fields unchanged |
| `DateRange.Earliest` | streamlit_app.py:57 | a date of the table that is ≤ every date of the table |
| `DateRange.Latest` | streamlit_app.py:58 | a date of the table that is ≥ every date of the table |
| `DateRange.RequestRange` | streamlit_app.py:57-58 | absent exactly for an empty table; otherwise start ≤ end, every cleaned date lies in [start, end], and both ends occur in the table |
| `Weather.ParseAll` | streamlit_app.py:74 | succeeds exactly when every time string parses; entry i is then the parse of time i |
| `Weather.Zip` | streamlit_app.py:73-78 | row i carries `time[i]`, `temperature_2m_max[i]`, `temperature_2m_min[i]` and `precipitation_sum[i]` |
| `Weather.BuildWeather` | streamlit_app.py:73-78 | fails on a missing `time` exactly; fails exactly when some time does not parse; fails on a length mismatch exactly when the arrays (absent ones read as empty) differ in length; never gives an HTTP or `daily` failure; succeeds exactly when `time` is present, every time parses and the lengths agree, and then row i holds entry i of each array |
| `Weather.WeatherFrom` | streamlit_app.py:68-84 | an HTTP failure and a response without `daily` are each their own failure; otherwise the result of building the frame |
| `Weather.AbsentArrayNeedsEmptyTime` | streamlit_app.py:74-78 | with a non-empty `time`, a missing temperature or rainfall array makes the frame fail |
| `Merging.Merge` | streamlit_app.py:87 | the inner merge on `Date`: every merged row's date is the date of some flu row and of some weather row |
| `Merging.MatchesOf` | streamlit_app.py:87 | one flu row yields one merged row per weather row of the same date, in weather order, and no others |
| `Merging.MergeSound` | streamlit_app.py:87 | every merged row is the combination of a flu row and a weather row with equal dates |
| `Merging.MergedDateInBoth` | streamlit_app.py:87 | every merged date occurs in the cleaned flu table and in the weather table |
| `Merging.MergeComplete` | streamlit_app.py:87 | every (flu row, weather row) pair with equal dates appears in the merge |
| `Merging.MergeAppend` | streamlit_app.py:87 | merging concatenated flu tables concatenates their merges, so output follows flu-row order |
| `Merging.MergeOne` | streamlit_app.py:87 | a single flu row merges into exactly its weather matches |
| `Merging.MergeSize` | streamlit_app.py:87 | the merge has one row per matching pair: the sum, over flu rows, of their same-date weather rows |
| `Merging.MergeEmptyIff` | streamlit_app.py:87-89 | the merge is empty exactly when no flu date equals a weather date |
| `Projection.RoundHalfEven` | streamlit_app.py:97-98 | an integer within 1/2 of x, the even one on a tie |
| `Projection.RoundHalfEvenUnique` | streamlit_app.py:97-98 | any integer that is nearest to x, even on a tie, equals the rounding |
| `Projection.PredictedCases` | streamlit_app.py:95-99 | always ≥ 0; equals Cases + round(0.02·Rainfall) + round(0.5·(Temp_Max − 28)) when that sum is ≥ 0; 0 otherwise |
| `Projection.AddPredicted` | streamlit_app.py:95-99 | keeps every merged row in place, adds its prediction, and every prediction is ≥ 0 |
| `Projection.ExampleOfRule` | streamlit_app.py:95-99 | 5 cases, 10 mm of rain and 30 °C predict 6 |
| `Projection.ExampleOfTies` | streamlit_app.py:97-98 | round(0.5) = 0 and round(1.5) = 2 in the rule |
| `Projection.ExampleOfClip` | streamlit_app.py:99 | a negative rule value (−4) is clipped to 0 |
| `Barangay.FluBarangays` | streamlit_app.py:110 | holds exactly the `Barangay` values of the cleaned flu rows |
| `Barangay.BarangayOptions` | streamlit_app.py:110-111 | `All`, then every Barangay value of the flu table exactly once, in increasing order, and nothing else |
| `Barangay.PlotRows` | streamlit_app.py:109-117 | with no Barangay column, or with `All`, the merged rows unchanged; otherwise only rows of the selected Barangay |
| `Barangay.PlotRowsOfSelected` | streamlit_app.py:112-113 | with a Barangay selected, a merged row is plotted exactly when it belongs to that Barangay; kept rows keep their merged order, and their number is the count of such rows |
| `Barangay.PlotRowsAreMerged` | streamlit_app.py:109-117 | every plotted row is a merged row |
| `Barangay.PlotRowsOfOnlyBarangay` | streamlit_app.py:113 | if every merged row belongs to the selected Barangay, no row is lost |
| `StringOrder.LessIrreflexive` | streamlit_app.py:110 | no string sorts before itself |
| `StringOrder.LessTransitive` | streamlit_app.py:110 | the order `sorted` uses on strings is transitive |
| `StringOrder.LessTotal` | streamlit_app.py:110 | any two different strings are ordered one way or the other |
| `StringOrder.Insert` | streamlit_app.py:110 | inserting into a strictly sorted list keeps it strictly sorted and adds exactly the new value |
| `StringOrder.SortedDistinct` | streamlit_app.py:110 | strictly increasing, with exactly the values of the input |
| `StringOrder.StrictlySortedDistinct` | streamlit_app.py:110 | a strictly sorted list has no repeats, so each option appears once |
| `StringOrder.StrictlySortedUnique` | streamlit_app.py:110 | two strictly sorted lists with the same elements are equal, so the option list is determined |
| `Seqs.Filter` | streamlit_app.py:47 | keeps only elements that satisfy the condition, and never more than the input |
| `Seqs.KeptIndices` | streamlit_app.py:47 | the kept elements are the input's elements at strictly increasing satisfying positions |
| `Seqs.KeptIndicesCover` | streamlit_app.py:47 | every satisfying position is kept |
| `Seqs.FilterLength` | streamlit_app.py:47 | kept count = input length − number of dropped elements |
| `Seqs.FilterMembership` | streamlit_app.py:113 | a value is kept exactly when it is in the input and satisfies the condition |
| `Seqs.FilterKeepsAll` | streamlit_app.py:113 | when every element satisfies the condition, the filter is the identity |
| `Dashboard.PlottedPredictionsNonNegative` | streamlit_app.py:95-117 | for any Barangay selection, every plotted prediction is ≥ 0 |
| `Dashboard.Assemble` | streamlit_app.py:86-120 | merged rows with predictions; the empty-merge warning exactly when no dates overlap; Barangay options exactly when the column exists; plot rows as selected; the no-rows warning exactly when nothing is plotted; every plotted prediction ≥ 0 |
| `Dashboard.Run` | streamlit_app.py:10-120 | each stop happens exactly under its condition: no date column; then no case column; then no dated rows; then a failed fetch for the cleaned range. Otherwise it returns the cleaned rows, their range, the weather fetched for that range, the merge with predictions, the options and the plot rows |

## Left out

- Streamlit widgets, page layout, messages, samples shown with `head()`, and the plot (lines 7-15, 51-56, 79-81, 90-92, 101-107, 119-133). These are UI. The selected Barangay is a parameter.
- `pd.read_csv` (line 13). The upload arrives already parsed, as a column list plus rows of cell text.
- The HTTP request, the URL text, `raise_for_status` and JSON decoding (lines 61-71). They are network I/O. They become the `fetch` parameter and its `RequestFailed` outcome. Formatting the range dates as `%Y-%m-%d` belongs to the URL and is left out with it.
- How `pd.to_datetime` and `pd.to_numeric` parse text. They are foreign library code, modelled as arbitrary `Option`-valued parsers. The same date parser serves the upload and the weather times. The model applies the parser to each cell on its own. `pd.to_datetime` on a whole column may instead infer one format from the first valid entry, so in pandas one cell's result can depend on other rows. That dependence is not modelled.
- Floating-point behaviour. Weather values and parsed counts are exact reals. `0.02 * Rainfall` is computed exactly, with no IEEE rounding. Infinite counts make `astype(int)` raise. A finite count beyond the int64 range, such as `1e30`, silently gives a wrong int64. The model covers neither: `TruncTowardZero` returns the exact integer part.
- JSON `null` entries in the weather arrays, which pandas reads as NaN. They are not modelled, and neither is the uncaught cast error they would cause at line 99.
- Column-name collisions. pandas adds `_x`/`_y` suffixes in the merge when the upload already has a `Temp_Max`, `Temp_Min` or `Rainfall` column. The rename at line 43 makes duplicate columns when the upload already has `Date` or `Cases` beside a different alias. Neither is modelled: this is pandas-specific, and the code does not handle it.
- Missing or non-text Barangay cells. Sorting them with strings raises in Python. The model simply skips rows without a Barangay value. A Barangay column that `read_csv` reads as numbers is sorted numerically by the script. The model always orders the cell text with `StringOrder.Less`, so it puts "10" before "2".
- Projection.AddPredicted: returns a new table instead of adding the column to `combined` in place. Nothing else refers to `combined`, so no alias could see the difference.
- Merging.Merge: assumes that pandas' inner merge keeps the order of the left (flu) rows, with each row's matches in weather order. pandas documents this order from version 2.2 on. Earlier versions may group the output by key, which gives a different order when flu rows with the same date are not adjacent.
