# Legislature bill tracking dashboard: filter and timeline engine

This project models the one piece of logic in the bill tracking dashboard
(`app.py`). It is the callback `update_tables_and_progress`, which runs
whenever one of the three dropdowns (bill number, title, relevancy) changes.
The model also covers the relevancy join done at load time and the reset
button's callback.

- **Relevancy join** (`Tables`). Every row of the four tables (bill info,
  history, progress, calendar) gets `relevant` set to the label the relevancy
  map holds for its bill number. A bill without an entry gets NaN (`None`).
- **Filter engine** (`FilterEngine`).
  - Each of the info, calendar and history tables goes through the same three
    `isin` passes, each starting from its own full table: bill number, then
    title, then relevancy. A dropdown that is `None` or empty imposes no
    constraint.
  - The info table then renders its `source` column as a markdown link.
  - The progress rows are picked by bill number only, and there are none when
    no bill is selected.
  - The bill-number dropdown offers the distinct bill numbers of the info rows
    that pass the title and relevancy dropdowns, in first-appearance order.
- **Timeline builder** (`Timeline`).
  - The selected progress rows get their dates parsed; an unparseable date
    becomes NaT (`None`).
  - The rows are sorted by date, NaT last, and given heights `N-1 .. 0`.
  - Each row is coloured by its event label: the k-th distinct label gets
    `palette[k % |palette|]`.
  - A baseline at y = 0 runs from the earliest to the latest date.
  - The plotly figure is a class, built by `AddShape`, `AddTrace` and
    `UpdateLayout` as the callback builds it.
- **Dispatch** (`Dashboard.UpdateTablesAndProgress`). With no bill selected the
  figure is an empty "Progress Timeline". With selected bills that have
  progress rows the figure is the full timeline, titled
  `"Progress Timeline for " + ", ".join(bill_numbers)`. With selected bills and
  no progress rows it is a bare "Bill Progress" figure.

Points where the code's behaviour is easy to misread:

- `sort_values` uses pandas' default quicksort, which is not stable. The model
  promises a sorted permutation and no order among equal dates.
- The test that sends the callback to the "Bill Progress" figure
  (`dff_progress.empty`, app.py:268) runs before the dates are parsed. Rows
  whose dates are all unparseable still take the timeline branch. Their
  markers carry NaT dates and the baseline's ends are NaT (pandas' `min` and
  `max` of an all-NaT column).
- Rows with NaT dates stay in the trace, at their sorted positions (NaT
  last). Plotly does not draw a point without an x value.
- The `if bill_numbers:` at app.py:257 lies inside the `not bill_numbers`
  branch, so it never runs. The empty figure's title is always
  "Progress Timeline".

Files: `wrappers.dfy` (Option), `sequences.dfy` (mask selection, `unique`,
`arange`, reversal, `join`), `tables.dfy`, `filter_engine.dfy`,
`timeline.dfy`, `dashboard.dfy`.

## Model

| member | source | states |
|---|---|---|
| `Tables.JoinRelevancy` | app.py:28-31 | the join keeps the row count and order, and keeps bill number, title and every other column; a row's `relevant` is present exactly when its bill number is a key of the map, and is then the map's label for it |
| `Sequences.Filter` | app.py:212 | a boolean-mask selection keeps only elements of the table, exactly those that pass the mask, and never grows the table |
| `Sequences.Unique` | app.py:250 | `unique()` has no duplicates, never grows the column, and holds exactly the values that occur in the column |
| `Sequences.UniqueInFirstAppearanceOrder` | app.py:250 | `unique()` lists the distinct values in the order of their first appearance |
| `Sequences.Range` | app.py:271 | `np.arange(n)` is `0, 1, ..., n-1` |
| `Sequences.Reverse` | app.py:271 | `[::-1]` keeps the length and puts element `k` at position `n-1-k` |
| `Sequences.JoinAppend` | app.py:304-305 | `', '.join` of one bill number is that number, and each further number is appended after one separator, which fixes the timeline title for every selection |
| `FilterEngine.NarrowKeepsAdmitted` | app.py:211-216 | one `if sel: df = df[df[col].isin(sel)]` pass keeps exactly the rows whose cell is selected, or every row when the dropdown is `None` or empty |
| `FilterEngine.ThreePassesIsConjunction` | app.py:210-235 | the bill-number, title and relevancy passes in sequence equal one pass with the AND of the three conditions |
| `FilterEngine.ThreePassesSelectsPassingRows` | app.py:210-235 | a row is in the info, calendar or history view iff it is in the full table and satisfies every set dropdown; it keeps its multiplicity, and the view keeps the table's order |
| `FilterEngine.UnsetSelectionKeepsTable` | app.py:210-235 | with no dropdown set, a view is its full table |
| `FilterEngine.UnknownBillNumbersSelectNothing` | app.py:211-212 | selecting only bill numbers that no row has gives an empty view, without any error |
| `FilterEngine.LinkSources` | app.py:217 | the rendering keeps the row count; a URL `x` becomes `[link](x)` and NaN becomes the empty string; every other column is unchanged |
| `FilterEngine.HyperlinkIsInjective` | app.py:217 | different sources, NaN included, render as different cells |
| `FilterEngine.ProgressViewSelectsBills` | app.py:238-241 | with no bill selected there are no progress rows; otherwise the progress rows are exactly the mask selection of the rows whose bill number is selected: each such row with its multiplicity, in table order |
| `FilterEngine.ProgressViewIgnoresTitlesAndRelevancies` | app.py:238-241 | the title and relevancy dropdowns do not affect the progress rows |
| `FilterEngine.OfferedBillNumbersSpec` | app.py:244-250 | the offered bill numbers have no duplicates; a bill number is offered iff some info row with that number passes the title and relevancy dropdowns; the numbers appear in first-appearance order |
| `FilterEngine.OfferedIgnoresBillNumbers` | app.py:244-250 | changing the bill-number selection never changes the offered bill numbers |
| `FilterEngine.Choices` | app.py:251 | one dropdown entry per offered number, in order, with label and value both equal to it |
| `FilterEngine.ResetFilters` | app.py:329-330 | the reset leaves all three dropdowns unset, whatever the click count |
| `FilterEngine.ResetShowsEverything` | app.py:329-330 | after a reset, views are full tables (info with rendered sources), there are no progress rows, and every distinct bill number is offered |
| `Timeline.ParseDates` | app.py:269 | parsing keeps one stamp per progress row, in order: the parsed date (NaT as `None`) and the event label |
| `Timeline.InsertByDate` | app.py:270 | inserting into a date-sorted sequence keeps it sorted (NaT last) and adds exactly the one row |
| `Timeline.SortByDate` | app.py:270 | `sort_values('date')` gives a permutation of its input, sorted ascending with NaT last |
| `Timeline.MinDate` | app.py:280 | the minimum skips NaT; it is NaT iff every date is NaT, and otherwise it is a date of some row, no later than any date |
| `Timeline.MaxDate` | app.py:281 | the maximum skips NaT; it is NaT iff every date is NaT, and otherwise it is a date of some row, no earlier than any date |
| `Timeline.EndpointsIgnoreOrder` | app.py:270-281 | sorting moves neither end of the baseline |
| `Timeline.BaselineSpansDates` | app.py:278-285 | the baseline has dated ends iff some date parsed; then its start is no later than its end, and every date lies between them |
| `Timeline.YPositionsCountDown` | app.py:271 | the i-th sorted row gets height N-1-i; the heights are exactly 0 .. N-1, each once |
| `Timeline.ColoursFollowLabels` | app.py:273-275 | under the colour rule, equal labels get equal colours and every colour is a palette entry |
| `Timeline.TimelineMarkers` | app.py:269-301 | one marker per progress row; earlier markers have earlier dates (NaT last) and greater heights; heights lie in 0 .. N-1, the earliest at N-1 and the latest at 0; equal labels share a colour from the palette |
| `Timeline.TimelineBaseline` | app.py:278-285 | when some date parses, the single shape runs at y0 = y1 = 0 from the minimum to the maximum date, x0 <= x1, with every parsed date on its span |
| `Timeline.ThreeEventsNewestAtZero` | app.py:270-271 | events dated 2024-03-01, 2024-01-10 and 2024-02-15 get heights 0, 2 and 1 |
| `Timeline.Figure.constructor` | app.py:277 | a new figure has no title, shapes or traces |
| `Timeline.Figure.AddShape` | app.py:278-285 | appends one shape and changes nothing else |
| `Timeline.Figure.AddTrace` | app.py:287-301 | appends one trace and changes nothing else |
| `Timeline.Figure.UpdateLayout` | app.py:306-314 | sets the title and changes nothing else |
| `Timeline.ColourMap` | app.py:273-275 | the colour map has exactly the distinct labels as keys; the k-th label maps to `palette[k % len(palette)]` |
| `Timeline.MarkerColours` | app.py:294 | one colour per row, in row order: the colour map's entry for the row's label |
| `Timeline.PlaceMarkers` | app.py:271-297 | the markers are the sorted rows in order; the i-th sits at height N-1-i; the k-th distinct label in marker order gets `palette[k % len(palette)]` |
| `Timeline.BuildTimeline` | app.py:268-314 | title `Progress Timeline for <joined bills>`; one shape from the min to the max parsed date at y = 0; one trace of the rows sorted by date (a permutation, NaT last), with heights N-1-i and colours by first appearance of labels |
| `Dashboard.LinkSourceColumn` | app.py:217 | rewriting the `source` column in place leaves the frame equal to the rendered rows |
| `Dashboard.TitledFigure` | app.py:316-317 | a figure with the given title and no shape or trace |
| `Dashboard.UpdateTablesAndProgress` | app.py:208-319 | the three tables are the filtered views and the options those of the title and relevancy dropdowns; the figure is an empty "Progress Timeline" with no bill selected, the timeline when selected bills have progress rows, and an empty "Bill Progress" otherwise |

## Left out

- Loading the CSV files and the relevancy JSON (app.py:12-26) is file I/O. The tables and the map are inputs of the model.
- The column selections at load time (app.py:13-22) are not modelled. Each table is a record type with those columns.
- The page layout, the styling, the initial dropdown options (app.py:34-194) and `DataTable`'s own sorting, filtering and paging are user interface.
- The Dash callback wiring (`@app.callback`) is not modelled. The callback is a method of its three selections and the loaded tables.
- The CSV download callbacks (app.py:340-359) wrap `DataFrame.to_csv` and `dcc.send_data_frame`, whose behaviour is not visible here.
- Date parsing by `pd.to_datetime(..., yearfirst=True, errors='coerce')` is a library call. It is the parameter `parse` from a date string to a day number or NaT.
- ParseDates: parses each cell on its own. Without a `format`, pandas infers one format from the column's first non-null string and coerces strings that do not match it to NaT, so in the code whether a row's date parses can depend on which other bills are selected.
- The layout settings (axis titles, grid, margins, height), the marker style (size, outline, text position, hover template) and the baseline's colour and width are presentation. The contents of `px.colors.qualitative.Plotly` are library data and are the parameter `palette`.
- `to_dict('records')` and Dash's JSON encoding are not modelled. Views are sequences of rows.
- pandas treats NaN specially inside `isin`. In the model a NaN cell matches no selected value. Bill numbers, titles and progress event labels are never NaN. A NaN event in bills_progress.csv would be one more `color_map` key (app.py:275, 294), which the model does not represent.
- ColourMap: requires distinct labels. The dict comprehension at app.py:275 only ever runs over `unique()`.

