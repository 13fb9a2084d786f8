# Retail Financial Automator: the cleaning-and-conversion pipeline

This project models the data logic of `app.py`, a Streamlit app. The app loads a retail
sales table and takes it through four stages:

1. It trims the column names.
2. It fills a missing `Category` with `"Uncategorized"` and a missing `Sales Per` with 0.
3. It cleans the `Sales Per` and `Profit` amounts with `clean_currency`.
4. It parses `Order Date`, drops the rows whose date does not parse, and converts each kept
   row from USD to INR at the year's rate from `get_ibr_rate`.

It then projects every kept row into a 12-field record and sums `Quantity` over the kept rows
to get the "Items Sold" figure. The first exception raised anywhere ends the run with one error
message. A run that keeps no row fails too. `Series.apply` on an empty column keeps the column's
date type, so the product at app.py:62 raises a TypeError. The model ends such a run with
`NoDatedRows`.

The project is organised as follows:

- `values.dfy`: cells (missing, number, text), the error kinds, and `Option`/`Result`.
- `strings.dfy`: Python's `str.strip()`, removal by `str.replace(c, '')`, and decimal digits.
- `amounts.dfy`: `float()` on a decimal-literal subset, proved against a reference `Literal`
  type. It also holds `clean_currency` (`CleanCurrency`) and its examples.
- `calendar.dfy`: the dates a parsed `Order Date` can hold, and the `YYYY-MM` key of
  `.dt.to_period('M')`.
- `rates.dfy`: the rate table of `get_ibr_rate`.
- `pipeline.dfy`: each stage as a specification function over rows, plus a method with a loop
  that rebinds its row sequence stage by stage. `Process` is the whole run; the first error
  ends it.
- `properties.dfy`: what the stages promise:
  - trimming is idempotent and the fills are right;
  - a failing amount ends the run whatever the dates, with the first failing row's error;
  - each missing column ends it with a KeyError naming that column.
- `run.dfy`: what a successful run produces, stated against the raw table:
  - the record count;
  - where each record comes from;
  - the items-sold sum.
- `scenarios.dfy`: four worked runs.
  - An order of 2023-06-15 gives one record, converted at 82.5.
  - An order whose date does not parse is dropped.
  - A table whose only order has no readable date fails with `NoDatedRows`.
  - A `Profit` of `"free"` ends the run with `InvalidAmount`.

The stages are proved for any *cleaner*: a function that leaves a non-text cell as it is and
turns text into a number or an error. `CleanCurrency` is one such cleaner, and `Process`
applies it. Date parsing is a parameter (`DateParser`). It returns one optional date per cell
of the column, and a missing cell never parses.

## Model

| member | source | states |
|---|---|---|
| Strings.Remove | app.py:18 | `str.replace(c, '')`; its meaning is stated by `RemoveChars` and `RemoveConcat` |
| Strings.RemoveChars | app.py:18 | `replace(c, '')` keeps exactly the characters other than `c` and never lengthens the text |
| Strings.RemoveConcat | app.py:18 | removing a character from a concatenation is removing it from each part |
| Strings.Strip | app.py:18 | Python's `str.strip()`, used on amounts (line 18) and column names (line 41); its meaning is stated by `StripShape`, `StripSplits`, `StripPadding` and `StripIdempotent` |
| Strings.StripShape | app.py:18 | the stripped text is no longer than the input and neither starts nor ends with whitespace |
| Strings.StripSplits | app.py:18 | the input is whitespace, then the stripped text, then whitespace: strip removes only surrounding whitespace |
| Strings.StripPadding | app.py:18 | text with non-whitespace ends, padded on both sides with whitespace, strips back to itself |
| Strings.StripIdempotent | app.py:41 | stripping twice is stripping once |
| Strings.DigitsValueConcat | app.py:18 | the value of concatenated digit strings is the first part shifted by the second part's length, plus the second part |
| Amounts.DropMarks | app.py:18 | the three `replace` calls of line 18 in order; its meaning is stated by `DropMarksChars`, `DropMarksIgnoresMark` and `DropMarksIdempotent` |
| Amounts.Residue | app.py:18 | the text line 18 hands to `float()`: the marks removed, then stripped; used by the `CleanCurrency` lemmas below |
| Amounts.DropMarksChars | app.py:18 | the three replacements keep exactly the characters that are not `$`, `₹` or `,` |
| Amounts.DropMarksIgnoresMark | app.py:18 | a currency mark anywhere in the text does not change what the replacements leave |
| Amounts.DropMarksIdempotent | app.py:18 | removing the marks twice is removing them once |
| Amounts.ParseFloat | app.py:18 | the modelled `float()`; its meaning is stated by `ParseFloatReadsLiteral` and `ParseFloatOnlyLiterals` |
| Amounts.ParseFloatReadsLiteral | app.py:18 | `float()` of the spelling of a valid decimal literal is that literal's value |
| Amounts.ParseFloatOnlyLiterals | app.py:18 | the modelled `float()` accepts only text that spells a valid decimal literal, and returns that literal's value |
| Amounts.CleanCurrency | app.py:15-19 | a non-string cell is returned unchanged; text becomes a number or an error; an error arises only from text and names the stripped residue |
| Amounts.CleanCurrencyReadsLiteral | app.py:17-18 | text whose residue, after the marks are deleted and the text is stripped, spells a decimal literal cleans to that literal's number |
| Amounts.CleanCurrencyRefusesNonLiteral | app.py:17-18 | text whose residue lies outside the modelled decimal-literal subset raises in the model, naming the residue |
| Amounts.CleanCurrencyRefusesText | app.py:18 | an empty residue raises; so does, in the model, a residue with a character outside the decimal-literal subset |
| Amounts.CleanCurrencyIgnoresMark | app.py:18 | inserting `$`, `₹` or `,` anywhere in the text does not change the result |
| Amounts.CleanCurrencyOfDropped | app.py:18 | cleaning text is cleaning it with its marks already removed |
| Amounts.CleanCurrencyIdempotent | app.py:15-19 | cleaning a value that cleaned changes nothing further |
| Amounts.FormattedAndPlainAgree | app.py:15-19 | `"$1,200.50"` and the number 1200.50 both clean to 1200.5 |
| Amounts.NonAmountsRefused | app.py:18 | `""`, `"$"`, `" "`, `"abc"` and `"free"` all raise |
| Amounts.WordRefused | app.py:18 | in the model, mark-free text with non-whitespace ends that contains a character outside the decimal-literal subset raises |
| Calendar.PadDigits | app.py:65 | zero-padding gives exactly `width` digits whose value is the number |
| Calendar.YearMonth | app.py:65 | the key is a well-formed `YYYY-MM` whose year and month are the date's |
| Calendar.YearMonthSameMonth | app.py:65 | two dates share a key exactly when they share year and month |
| Rates.RateForYear | app.py:21-29 | 74.1, 78.6, 82.5, 83.4 and 84.5 for 2021 to 2025, 83.0 for every other year, always positive |
| Rates.IbrRate | app.py:21-29 | `get_ibr_rate` itself: the rate of a date's year; its values are stated by `RateForYear`, and `IbrRateByYear` and `RecordRate` use it |
| Rates.IbrRateByYear | app.py:26-29 | a consequence of `RateForYear`'s contract: dates of the same year have the same rate |
| Pipeline.TrimNames | app.py:41 | the same number of names, each one stripped |
| Pipeline.IndexOf | app.py:44 | the position of the first column with the name |
| Pipeline.Lookup | app.py:44-49 | `df[name]` finds a column exactly when the name is present, and otherwise fails with a KeyError naming it |
| Pipeline.FillCell | app.py:44-45 | the filled cell takes the default only if it was missing; every other cell is unchanged |
| Pipeline.Filled | app.py:44-45 | one row per input row, each with the column filled |
| Pipeline.FillMissing | app.py:44-45 | the loop that fills the column in place yields the filled rows |
| Pipeline.CleanCell | app.py:48-49 | the column's cell becomes its cleaned value; every other cell is unchanged |
| Pipeline.Cleaned | app.py:48-49 | the column cleans exactly when every row's cell cleans, and then each row is that row with its cell cleaned |
| Pipeline.CleanedFailsAt | app.py:48-49 | when a column does not clean, the error is that of the first row whose cell fails |
| Pipeline.CleanAmounts | app.py:48-49 | the loop that applies the cleaner row by row yields the cleaned column or the first error |
| Pipeline.ColumnOf | app.py:52 | the column holds, in order, each row's cell at that position |
| Pipeline.KeptRows | app.py:53 | `dropna(subset=['Order Date'])`, pairing each kept row with its date; its meaning is stated by `KeptRowsFollowIndices` and `ParsedIndices` |
| Pipeline.ParsedIndices | app.py:52-53 | the kept positions are increasing, are exactly the positions whose date parsed, and number the rows less the failures |
| Pipeline.KeptRowsFollowIndices | app.py:53 | the kept rows are, in order, the rows at the kept positions, each with its parsed date |
| Pipeline.DropUndated | app.py:53 | the filtering loop yields the kept rows |
| Pipeline.Absent | app.py:71-72 | the absent names are exactly the wanted names that are not present |
| Pipeline.SelectColumns | app.py:71-72 | the projection succeeds exactly when every exported input column is present; otherwise a KeyError lists the absent ones; on success each field points at its column |
| Pipeline.ConvertAtRate | app.py:62-63 | an amount times a positive rate converts back exactly and keeps its sign |
| Pipeline.EnrichRow | app.py:56-72 | the record's rate and month key come from the row's date, its USD amounts are the cleaned amounts, its INR amounts are those at the rate, and the pass-through fields are the row's cells |
| Pipeline.RecordAt | app.py:59-72 | the record of one row for a given month key and rate: the key and rate as given, the USD amounts the cleaned cells, the INR amounts the USD amounts times the rate, the pass-through fields the row's cells |
| Pipeline.RecordAtConsistent | app.py:56-65 | a record built with a date's month key and rate is consistent: its rate is the table rate of its key's year, and its INR amounts convert back exactly with their sign |
| Pipeline.RecordRate | app.py:56-65 | a record's rate is the table's rate for the year of its own month key |
| Pipeline.RecordAmounts | app.py:59-63 | the INR amounts are the USD amounts at the rate, sign preserved, and a missing profit stays missing in both currencies |
| Pipeline.Enriched | app.py:56-72 | one record per kept row, in order |
| Pipeline.Enrich | app.py:56-72 | the loop over the kept rows yields those records |
| Pipeline.QuantityTotal | app.py:109 | the sum exists exactly when no quantity is text, and otherwise fails |
| Pipeline.QuantityColumn | app.py:109 | the kept rows' `Quantity` cells, in order |
| Pipeline.TotalQuantity | app.py:109 | the summing loop yields that sum or the error |
| Pipeline.QuantityPrefixFails | app.py:109 | a text quantity anywhere fails the whole sum |
| Pipeline.Normalized | app.py:41-49 | on success, every row is its raw row with the fills and both cleanings applied (category, sales and profit settled, every other cell kept) |
| Pipeline.StagesOfRow | app.py:44-49 | fill, fill, clean and clean applied to one row give a row of that shape |
| Pipeline.KeptAreConverted | app.py:48-53 | every kept row has a numeric `Sales Per` and a `Profit` that is a number or missing |
| Pipeline.Normalize | app.py:41-49 | the method for steps A to C yields the normalized table or the first error, in the source's order |
| Pipeline.Processed | app.py:35-72 | the whole run as a function, steps A to C then `Finished`; its meaning is stated by `RunCount`, `RunRecord`, `RunItemsSold`, `NormalizedExactly` and the failure lemmas |
| Pipeline.Finished | app.py:52-62 | steps D and E after steps A to C; no kept row gives `NoDatedRows`; its meaning is stated by `UndatedRunFails`, `FinishedQuantityFails` and `FinishedQuantityAdds` |
| Pipeline.Exported | app.py:56-72 | the projection and the items sold over the kept rows; its meaning is stated by `RunRecord`, `RunItemsSold` and `MissingExportFails` |
| Pipeline.Finish | app.py:52-72 | the method for the date filter, the conversion, the projection and the items sold of line 109 yields the report or the first error, including the TypeError of line 62 when no row is kept |
| Pipeline.Process | app.py:35-72 | the whole run with `clean_currency`, through the items sold of line 109: the report, or the one error that lines 160-161 display |
| PipelineProperties.TrimNamesIdempotent | app.py:41 | trimming the column names twice is trimming them once |
| PipelineProperties.PaddedNameFound | app.py:41-44 | a column whose name carries surrounding whitespace is still found under its bare name, and with distinct trimmed names it is that column that is found |
| PipelineProperties.FilledNoMissing | app.py:44-45 | a fill leaves a column with no missing cell untouched |
| PipelineProperties.CleanerKeeps | app.py:17-19 | a consequence of the cleaner contract, which `CleanCurrency` meets: a non-text cell is returned unchanged |
| PipelineProperties.CleanedNoText | app.py:48-49 | cleaning a column without text leaves the rows as they were |
| PipelineProperties.NormalCellsSettled | app.py:44-49 | after steps A to C: no category is missing, every sales amount is a number, no profit is text, and the names are trimmed |
| PipelineProperties.NormalizeIdempotent | app.py:41-49 | running steps A to C on their own output gives the same output |
| PipelineProperties.BadSalesAborts | app.py:48-53 | a `Sales Per` cell that does not clean ends the run, whatever the dates, with the error of the first failing row |
| PipelineProperties.NormalizedExactly | app.py:41-49 | steps A to C succeed exactly when `Category`, `Sales Per` and `Profit` exist and every raw sales and profit cell cleans, which makes the abort rules above the only ways they fail |
| PipelineProperties.BadProfitAborts | app.py:49-53 | once every sales cell cleans, a `Profit` cell that does not clean ends the run, whatever the dates, with the first failing row's error |
| PipelineProperties.FailureSurvivesFill | app.py:44-48 | the fills do not move or alter the first sales cell that fails |
| PipelineProperties.SalesCellsClean | app.py:45-48 | when every raw sales cell cleans, so does the filled sales column |
| PipelineProperties.FirstFailureExists | app.py:48-49 | a failing cell has a first failing cell at or before it |
| PipelineProperties.MissingCategoryFails | app.py:44 | without a `Category` column the run fails with a KeyError naming it |
| PipelineProperties.MissingSalesFails | app.py:45 | without a `Sales Per` column the run fails with a KeyError naming it |
| PipelineProperties.MissingProfitFails | app.py:49 | without a `Profit` column, and once the sales clean, the run fails with a KeyError naming it |
| PipelineProperties.MissingOrderDateFails | app.py:52 | after steps A to C, without an `Order Date` column the run fails with a KeyError naming it |
| PipelineProperties.MissingExportFails | app.py:71-72 | once a date column exists and some row keeps its date, a missing export column fails the run with a KeyError listing every absent export column |
| PipelineProperties.QuantityTotalConcat | app.py:109 | the items-sold sum of two parts exists exactly when both parts' sums exist, and is then their total |
| RunProperties.Col | app.py:41-72 | the position of a column under its trimmed name |
| RunProperties.RawDates | app.py:52 | one parse outcome per input row |
| RunProperties.KeptPositions | app.py:52-53 | the input positions the date filter keeps |
| RunProperties.UntouchedColumn | app.py:44-49 | a column other than the three the cleaning touches is the raw column throughout |
| RunProperties.RunHasColumns | app.py:44-72 | a successful run has every column it reads |
| RunProperties.RunCount | app.py:52-67 | the processed count is the input rows less the rows whose date did not parse, it is positive, and there is one record per kept row |
| RunProperties.UndatedRunFails | app.py:53-62 | once steps A to C succeed, a run that keeps no row fails with the TypeError of line 62, whatever export columns exist |
| RunProperties.RunKeptSomeRow | app.py:53-62 | conversely, a run that succeeds kept at least one row |
| RunProperties.RunRecord | app.py:44-72 | record `j` comes from the `j`th row whose raw date parsed. Its month key and rate come from that date. Its category is filled and its amounts are the raw amounts cleaned. Its INR amounts are the converted USD amounts, and its other fields are that raw row's cells |
| RunProperties.RunItemsSold | app.py:109 | once steps A to C succeed, every column is there and some row keeps its date, the run succeeds exactly when no kept row's quantity is text, and the items sold are the sum of the kept rows' raw quantities |
| RunProperties.FinishedQuantityFails | app.py:109 | a text quantity among the kept rows fails the run |
| RunProperties.FinishedQuantityAdds | app.py:109 | with some row kept and no text quantity, the run's items-sold figure is the kept quantities' sum |
| Scenarios.DollarsClean | app.py:18 | `"$"` followed by digits cleans to the number the digits spell |
| Scenarios.FreeIsInvalid | app.py:18 | `"free"` raises, naming `"free"` |
| Scenarios.June15Key | app.py:65 | 2023-06-15 has the key `"2023-06"` |
| Scenarios.OrdersNormalize | app.py:41-49 | a table of orders with a missing category and `$` amounts gets through steps A to C |
| Scenarios.DatedOrderReported | app.py:41-72 | an order of 2023-06-15 with a missing category, sales `"$100"` and profit `"$20"` gives one record: `"Uncategorized"`, 2023-06, rate 82.5, 100 and 8250, 20 and 1650, and 2 items sold |
| Scenarios.UndatedOrderDropped | app.py:52-53 | adding an order dated `"not-a-date"` gives the same report: that order has no record and its quantity is not counted |
| Scenarios.LoneUndatedOrderFails | app.py:52-62 | a table whose only order is dated `"not-a-date"` fails with `NoDatedRows` instead of reporting 0 records |
| Scenarios.FreeProfitAborts | app.py:49-53 | an order with profit `"free"` ends the run with `InvalidAmount("free")`, whatever the dates parse to |

## Left out

- The Streamlit UI, the file upload and `pd.read_csv`/`pd.read_excel` (app.py:1-12, 31-37) are not modelled. A run starts from a loaded table: column names and rows of cells.
- The notices shown during a run (app.py:67-68), the HTML/JavaScript dashboard (app.py:76-155), `json.dumps` (app.py:118) and the download button (app.py:158) are not modelled. A run ends in a `Report` or in the one error that app.py:160-161 displays.
- A run that fails on `Quantity` (app.py:109), or on a missing export column in the projection (app.py:71-72), has already shown "Successfully processed" and the preview (app.py:67-68). The model treats it simply as a failed run and does not model the notices already on screen.
- `pd.to_datetime(errors='coerce')` (app.py:52) is a parameter. It is any column function that gives one optional date per cell, and no date for a missing cell. Which texts parse is left open. The year range of pandas timestamps (1677 to 2262) bounds the dates.
- Amounts.CleanCurrency: `float()` is modelled on decimal literals only: an optional sign, ASCII digits and at most one point. `float()` also accepts exponents, `nan`, `inf`, underscores and non-ASCII digits, and the model refuses those. Binary floating-point rounding is also left out: amounts and rates are exact reals.
- Pipeline.Process: it requires the trimmed column names to be distinct. With duplicate names, pandas selects several columns at once, and that behaviour is not modelled.
- Column labels are always strings in the model. When only some labels are strings, `str.strip` turns the others into NaN. When none is, `df.columns.str` raises AttributeError (app.py:41) and the run ends in the error notice. Neither case is modelled.
- A cell is missing, a number or text. `read_excel` can also produce booleans and datetimes. `clean_currency` returns a boolean unchanged, and app.py:62 multiplies it as 0 or 1. Those cell kinds are not modelled.
- `Sales Per` and `Profit` are cleaned by any cleaner in the stage functions and lemmas, and by `clean_currency` in `Process` and the scenarios. Nothing about `clean_currency` beyond its contract is needed for the stage properties.
- `Quantity` is summed to a number, with missing cells skipped. Any text quantity makes the sum fail, where pandas would raise `TypeError` or fail later when `:,` formats a concatenated string; the two errors are not told apart.
- app.py:18 deletes the marks before it strips the text, and the model does the same.
- A missing `Profit` is not defaulted. It stays missing, because `clean_currency` returns NaN unchanged (app.py:17-19). The row goes through with a missing profit in both currencies (app.py:60-63).
- The Python code computes no dropped-row count. The distinct-order count is computed only in the dashboard script (app.py:127), which is not modelled. The model reports rows processed (`len(df)` after the filter), the records and the items sold. The dropped count follows from `RunProperties.RunCount`.
- The one-order scenarios use a table with every column the export needs: `Segment`, `State`, `Quantity`, `Order ID` and `Customer ID`. Without them, the projection at app.py:71-72 raises, as `MissingExportFails` states.
