# Expense tracker: report aggregation, signup check and report range

A model of the decision logic of a personal expense-tracking web application
(`app.py`). The application records a user's expenses and shows two charts for
a chosen date range: spending per day and spending per category. The model
covers three pieces:

- **Report aggregation** (`plot_expenses_charts`, module `ExpenseReport`, its
  properties in `ReportProperties`). The user's stored rows get their column
  names from the column count: 6 columns include a leading `id` and 5 do not.
  Any other count is a shape error that carries the count. Date fields are
  coerced, and rows whose date does not parse are dropped. The rows inside the
  inclusive range are kept. The amounts are then summed per date, which gives
  the bar-chart series in ascending date order, and per category, which gives
  the pie-chart series. Empty input and "nothing left after filtering" are two
  distinct outcomes.
- **Signup validation** (`signup_page`, module `Signup`). The username is
  stripped of surrounding whitespace. Then three rules are tried in order: a
  blank field, different passwords, a password shorter than 6 characters. The
  first rule that fails picks the message.
- **Report range** (`expense_tracker`, module `ReportRange`). The default start
  is the earlier of "30 days ago" and the date of the last expense added in the
  session. The default end is today. A range whose start is after its end is
  refused before any aggregation.

Module `Series` holds the grouped series both aggregates use: a list of
(key, total) entries. `Insert` keeps the entries in ascending key order. `Add`
keeps them in no particular order.

Dates are day numbers. Amounts are integers, for example cents, so every sum is
exact. A stored value is a `Cell`: SQL NULL (pandas' missing value), a number,
or text. Date parsing (`pd.to_datetime(..., errors='coerce')`) is a parameter
`parse: Cell -> Option<Day>`, and a missing value never parses.

Two behaviours of the code are easy to miss; both are modelled as written:

- The column count is the length of the *longest* row. pandas builds the frame
  that way and pads shorter rows with missing values. `Width` and `At` model
  the padding.
- `groupby('category')` drops rows whose category is missing. The daily series
  still counts their amounts. So the two series have the same total only when
  every kept row has a category. `ReportProperties.CrossTotals` proves exactly
  that: the category total is the kept total minus the amounts of the rows
  with no category.

## Model

| member | source | states |
|---|---|---|
| `ExpenseReport.Width` | app.py:89-91 | the column count is at least every row's length and equals some row's length (the frame is as wide as its longest row) |
| `ExpenseReport.LayoutOf` | app.py:91-98 | 6 columns select the layout with `id`, 5 the layout without it, any other count selects none |
| `ExpenseReport.Label` | app.py:89-94 | with the `id` layout the cells after the first, otherwise all cells, are the five fields in column order; fields past the end of a short row, or of an empty one, are missing values |
| `ExpenseReport.Parsed` | app.py:91-103 | every surviving row's date parsed to its day, so none has a missing date; every surviving row comes from an input row; every input row whose date parses survives with that day; each (record, day) survives exactly as many times as input rows give it |
| `ExpenseReport.InRange` | app.py:105 | a row is kept exactly when it was a candidate and `start <= day <= end`, and it is kept as many times as it was a candidate |
| `ExpenseReport.DailyTotals` | app.py:111 | the per-date series is strictly ascending, its keys are exactly the kept dates, each date's total is the sum of that date's rows, and its grand total is the sum of all kept amounts |
| `ExpenseReport.CategoryTotals` | app.py:113 | the per-category series has distinct keys, exactly the kept rows' non-missing categories, each total is the sum of that exact category's rows, and its grand total is the kept total minus the rows with no category |
| `ExpenseReport.PlotExpensesCharts` | app.py:83-113 | "no expenses" exactly for empty input; a shape error exactly when the column count is neither 5 nor 6, and it carries that count; a report always has at least one date |
| `Series.Insert` | app.py:111 | adding a row's amount to an ascending series keeps it ascending, adds the row's date to the keys, adds the amount to that date's total only, and adds it to the grand total |
| `Series.Add` | app.py:113 | adding a row's amount to a series keeps keys distinct, adds the row's category to the keys, adds the amount to that category's total only, and adds it to the grand total |
| `ReportProperties.LabelWithId` | app.py:91-94 | a 6-column row and the same row without its `id` give the same named record |
| `ReportProperties.ShapeInvariance` | app.py:89-94 | 5-column rows and the same rows with a leading `id` column give the same outcome |
| `ReportProperties.UnparseableRowIgnored` | app.py:100-103 | adding, to non-empty input of 5 or 6 columns, a row whose date does not parse on its own leaves the outcome unchanged, as long as the column count is unchanged |
| `ReportProperties.NothingKept` | app.py:100-109 | when every row's date fails to parse or falls outside the range, the outcome is "none in range": not an error and not "no expenses" |
| `ReportProperties.OutOfRangeRowIgnored` | app.py:105 | adding, to non-empty input of 5 or 6 columns, a row whose date parses on its own to a day before the start or after the end leaves the outcome unchanged, as long as the column count is unchanged |
| `ReportProperties.ReversedRange` | app.py:105-109 | with the start after the end, well-shaped input always gives "none in range" |
| `ReportProperties.InclusiveBounds` | app.py:105-111 | in input of 5 or 6 columns, a row dated from the start to the end, both days included, gives a report whose daily series has that date |
| `ReportProperties.DailySeries` | app.py:111 | for any report: dates strictly ascending, one entry per distinct kept date, every date inside the range, each total the sum of the kept rows of that date |
| `ReportProperties.CategorySeries` | app.py:113 | for any report: one entry per distinct exact category of the kept rows, each total the sum of that category's kept rows |
| `ReportProperties.MissingAmountSkipped` | app.py:111-113 | a row with a missing amount changes neither the total nor any date's or category's sum |
| `ReportProperties.CrossTotals` | app.py:111-113 | for any report: the daily series sums to the kept total; the category series sums to it less the rows with no category; the two agree when every kept row has a category |
| `Signup.Strip` | app.py:277 | the result is empty exactly when the input is all whitespace; otherwise it begins and ends with non-whitespace and is the input with only whitespace removed at the two ends |
| `Signup.Validate` | app.py:287-292 | a blank field (after stripping the username) wins first; otherwise different passwords; otherwise a password under 6 characters; accepted exactly when all three rules pass |
| `Signup.Message` | app.py:287-292 | a verdict has an empty message exactly when it is "accepted" |
| `Signup.MessageShown` | app.py:287-292 | the form shows a validation error exactly when the username is blank after stripping, the passwords differ, or the password is under 6 characters; different refusals show different messages |
| `Signup.BlankUsernameRefused` | app.py:277-288 | a username of whitespace only is refused as a blank field, whatever the passwords |
| `Signup.LeadingSpaceIgnored` | app.py:277-292 | a leading whitespace character of any kind in the username never changes the verdict |
| `ReportRange.DefaultStart` | app.py:224-228 | the default start is at most 30 days before today and at most the last added date (today when there is none), and it is one of the two |
| `ReportRange.DefaultEnd` | app.py:228-229 | the default end is today, so it is never before the default start, whatever the last added date |
| `ReportRange.ViewExpenses` | app.py:231-239 | a range is refused exactly when its start is after its end; otherwise the view shows the aggregation of that range |
| `ReportRange.DefaultRangeShown` | app.py:228-235 | the default range is never refused, even when the last added date is after today |
| `ReportRange.DefaultRangeCoversLookback` | app.py:228-229 | every day from 30 days before today to today, both included, lies inside the default range |

## Left out

- Page rendering, routing and query-parameter navigation (`update_url`, page layout, app.py:307-312) are UI glue.
- The login page (app.py:241-269) is left out. Its only logic is a blank-field check followed by a bcrypt comparison.
- Chart rendering (app.py:115-134) is a plotting-library call. The model ends at the two series.
- Text extraction with the language model (`extract_expense_from_text`, app.py:39-81) and OCR of uploaded images (app.py:183-184) are external services.
- Password hashing, `insert_user` and their outcome messages (app.py:294-301) are library and storage calls. `Signup.Validate` ends at "accepted".
- The `database` module is not part of this model. Its rows are the input of the aggregation.
- `pd.to_datetime` is not modelled. It is the `parse` parameter.
- The `dtype == object` test (app.py:100) is taken as always true: the stored dates are text. A column of all-native values that skips coercion is not modelled.
- Converting the session's last-added date from text (app.py:226) is not modelled. `ReportRange.DefaultStart` takes it as a day already, so the exception an unparseable string raises there is not modelled.
- ReportProperties.UnparseableRowIgnored and ReportProperties.OutOfRangeRowIgnored hold with each date parsed on its own. pandas may infer one date format for the whole column, so an added row could change how the other rows parse; that inference is not modelled.
- Amounts are integers, not floats, so rounding is not modelled.
- ExpenseReport.Amount: a text amount adds 0 to every sum. pandas would concatenate such values or raise.
- ExpenseReport.CategoryTotals: the order of the category series is not stated. pandas sorts the category keys. The daily series' ascending order is stated and proved.
- Messages shown on screen (`st.error`, `st.warning`, `st.write(df.head())`) become the outcome constructors. `Signup.Message` keeps the three signup texts.
