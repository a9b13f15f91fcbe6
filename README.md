# Tips dashboard: the filter-and-aggregate pipeline

This project models the data logic behind the "Análise das Gorjetas" dashboard
(`App.py`), which explores seaborn's `tips` dataset of restaurant bills, and
proves properties of that model. The dataset is a sequence of bills. Each bill
has a total, a tip, the payer's sex, smoker status, weekday, meal time and party
size. The dashboard does the following:

1. It builds one sidebar option list per categorical column. Each list is the
   sentinel `"Todos"` ("all") followed by the column's distinct values, in order
   of first appearance.
2. It narrows a copy of the dataset through four optional equality filters:
   sex, smoker, day and time.
3. It reports three headline means over the selected bills: bill, tip and party
   size.
4. It adds a `tip_percent` column.
5. It groups the selection twice:
   - mean tip per smoker status;
   - a (day, time) table of mean tip, mean bill and number of bills.

Modules:

- `Tips`: the record and the four categorical types. Their order is the
  dataset's categorical order: Male < Female, Yes < No, Thur < Fri < Sat < Sun,
  Lunch < Dinner. The module also has the text each value displays, and the rank
  of a (day, time) pair.
- `Filter`: `Criteria` (one `Option` per selector, where `None` is "Todos").
  Also the selection `Select` with its algebra (fusion, commutation,
  idempotence), and the method `ApplyFilters`, which performs the four-stage
  narrowing step by step.
- `Sidebar`: the option lists (`Distinct` is pandas' `unique()`). It also
  decodes the four chosen strings into `Criteria`, and proves that the decoded
  criteria admit exactly the rows that the dashboard's string comparison admits.
- `Stats`: sums, means (undefined, i.e. `None`, over no rows, where pandas
  gives NaN), the three-figure summary, and the tip percentage.
- `Grouping`: the smoker grouping and the (day, time) table. Both report only
  non-empty groups, in categorical order.
- `Dashboard`: one rendering pass. It starts from the selectors' strings and
  returns every derived view.

Arithmetic is on exact `real`s, so floating-point rounding plays no part.

## Model

| member | source | states |
|---|---|---|
| Sidebar.Distinct | App.py:35-47 | the distinct values of a column: no duplicates, every value of the column occurs, nothing else occurs, and they come in order of first appearance |
| Sidebar.Options | App.py:35-48 | an option list is the sentinel first, then each value of the column exactly once, then nothing else, in order of first appearance |
| Sidebar.OptionList | App.py:35-48 | the option list of a dataset column starts with "Todos", has no duplicates, contains every record's value of that column and only values that occur in the column, in order of first appearance |
| Sidebar.SentinelIsNoLabel | App.py:35-48 | "Todos" is never one of a column's values, so it cannot be confused with a data value |
| Sidebar.ParseSex | App.py:55-56 | decoding a sex choice yields the value with exactly that text, or nothing when no value has that text |
| Sidebar.ParseSmoker | App.py:58-59 | decoding a smoker choice yields the value with exactly that text, or nothing when no value has that text |
| Sidebar.ParseDay | App.py:61-62 | decoding a day choice yields the value with exactly that text, or nothing when no value has that text |
| Sidebar.ParseTime | App.py:64-65 | decoding a time choice yields the value with exactly that text, or nothing when no value has that text |
| Sidebar.SexRoundTrip | App.py:35-36 | decoding the displayed text of a sex value gives that value back |
| Sidebar.SmokerRoundTrip | App.py:39-40 | decoding the displayed text of a smoker value gives that value back |
| Sidebar.DayRoundTrip | App.py:43-44 | decoding the displayed text of a day gives that day back |
| Sidebar.TimeRoundTrip | App.py:47-48 | decoding the displayed text of a meal time gives it back |
| Sidebar.ChoiceWitness | App.py:35-48 | every option other than "Todos" is the text, in that column, of a record that belongs to the dataset |
| Sidebar.SelectionDecodes | App.py:55-65 | when each choice is "Todos" or a value's text, the string test `choice == "Todos" or row value == choice` agrees with the decoded criteria on every row |
| Sidebar.SelectionAsCriteria | App.py:35-65 | for choices taken from the option lists, a row passes the dashboard's four string tests if and only if it matches the decoded criteria |
| Filter.Select | App.py:55-65 | a boolean-mask selection: never longer than its input, every kept row matches, every matching row is kept |
| Filter.SelectIsSubseq | App.py:52-65 | the selection is an order-preserving subsequence of its input, and holds each matching row exactly as many times as the input does and no other row |
| Filter.NoFilterKeepsAll | App.py:52-65 | with every selector at "Todos" the result is the dataset itself, same rows in the same order |
| Filter.Meet | App.py:55-65 | the conjunction of two compatible criteria admits exactly the rows both admit |
| Filter.SelectFuse | App.py:55-65 | two successive selections equal one selection by the conjunction of their criteria |
| Filter.SelectCommutes | App.py:55-65 | the order in which two selections are applied does not change the result |
| Filter.SelectIdempotent | App.py:55-65 | applying the same selection again changes nothing |
| Filter.SelectEmpty | App.py:55-65 | the selection is empty exactly when no row matches; an empty result is a value, not an error |
| Filter.ApplyFilters | App.py:52-65 | the four conditional narrowings of `df_filtered`, applied in turn, produce exactly the single conjunctive selection: an order-preserving subsequence of the dataset no longer than it, sound and complete for the criteria |
| Dashboard.FilterBySelection | App.py:52-65 | starting from the four selector strings, the filtered frame is an order-preserving subsequence of the dataset; every row it keeps passes the dashboard's string tests, and every dataset row that passes them is kept |
| Stats.SumAppend | App.py:73-75 | a column total over two concatenated row sequences is the sum of their totals |
| Stats.SumBounds | App.py:73-75 | a total of n values within [lo, hi] lies within [n·lo, n·hi] |
| Stats.MeanOf | App.py:73-75 | the mean of a non-empty set of rows is the value whose row-count multiple is the column total |
| Stats.Mean | App.py:73-75 | the column mean is undefined exactly when there are no rows; otherwise it times the row count is the column total |
| Stats.MeanBounds | App.py:73-75 | a mean lies between the smallest and the largest value averaged |
| Stats.Summarize | App.py:73-75 | the three headline figures are all undefined on an empty selection and otherwise are the arithmetic means of bill, tip and party size |
| Stats.TipPercent | App.py:120 | the tip percentage is undefined exactly when the bill is zero; otherwise the percentage times the bill is 100 times the tip |
| Stats.TipPercentRange | App.py:120 | a non-negative tip on a positive bill gives a non-negative percentage, at most 100 when the tip does not exceed the bill |
| Stats.WithTipPercent | App.py:120 | adding the `tip_percent` column keeps the row count and every original field in place, and gives each row its own percentage |
| Grouping.GroupBySmoker | App.py:153 | at most one entry per smoker status; each entry's group is non-empty and its tip is the mean tip of exactly the rows with that status; every status present has an entry; entries come in categorical order (Yes before No) |
| Grouping.SmokerPartition | App.py:153 | the two smoker groups split the selected rows between them: their sizes and their column totals add up to those of the selection |
| Tips.Slot | App.py:173-177 | each (day, time) pair has a rank below 8 from which the pair can be recovered |
| Tips.SlotIsLexicographic | App.py:173-177 | rank order is day order first and then time order |
| Grouping.TableOrdered | App.py:173-177 | the table rows built from a rank on have that rank or a later one, in strictly ascending rank |
| Grouping.TableDescribes | App.py:173-177 | every row built from a rank on describes its own (day, time) group |
| Grouping.TableComplete | App.py:173-177 | every (day, time) pair at or after a rank with at least one selected bill has a row |
| Grouping.GroupByDayTime | App.py:173-177 | each table row is the non-empty group of its (day, time): its count is the number of selected bills in it, its means are over exactly those bills. Every pair that occurs has a row, and rows are strictly ascending by day and then time |
| Grouping.TableFromTotals | App.py:173-177 | the rows built from a rank on account for exactly the bills at or after that rank, in count and in tip and bill totals |
| Grouping.DayTimeTotals | App.py:173-177 | the table's counts add up to the number of selected bills, and each mean times its count adds up to the selection's tip total and bill total |
| Dashboard.Render | App.py:52-177 | one rendering pass: the frame with its tip percentage, the summary, the smoker grouping and the (day, time) table are all computed over the selection that the selector strings decode to, and every shown row passes the string tests |
| Dashboard.AllTodosShowsEverything | App.py:52-65 | with all four selectors at "Todos" the page shows the whole dataset |
| Dashboard.NonSmokerExample | App.py:52-120 | a worked example: of two bills, filtering on non-smokers keeps the one non-smoking bill; its summary is its own bill, tip and size, and its tip percentage is 20 |

## Left out

- Page setup, titles, the sidebar widgets, columns, markdown, subheaders, the expander and `st.dataframe` (App.py:16, 26-29, 69-71, 78, 84-88, 184-202) are user interface and are not modelled. A selectbox returns one of the options it offers; the model states this as the precondition `FromOptions`.
- Loading the dataset with `sns.load_dataset` (App.py:22) is external I/O. The dataset is a parameter (`tips`) of every operation.
- The Altair charts (App.py:90-165) are rendering, and so are the Vega-Lite histogram binning and density estimate (App.py:106, 136-139). Those two are also floating-point numerics computed outside the program.
- Display formatting is presentation and is not modelled: rounding to two decimals, the `$` and "pessoas" decorations, and the replacement of the mean columns by strings (App.py:73-75, 180-181). The model returns the exact means.
- Floating point: bills and tips are exact `real`s. `tip / total_bill` on a zero bill, which gives an infinity or NaN in the data frame, is the undefined value `None`. A NaN mean over an empty selection is also `None`.
- Grouping.GroupBySmoker: reports only smoker values that have rows. With a pandas version whose categorical `groupby` also emits unobserved categories, those extra entries would carry a NaN mean, and the model does not produce them.
- Grouping.GroupByDayTime: reports only the (day, time) pairs that have rows. Zero-count rows for unobserved pairs, which depend on the pandas `observed=` default, are not produced. The count-sum property holds either way.
- Grouping.GroupByDayTime: the count is the size of the group. The source counts non-null tips, and the dataset has no missing values, so the two agree.
- Stats.WithTipPercent: returns the new frame rather than adding a column to `df_filtered` in place. No other alias of the frame is read afterwards, so the difference is not observable.
