# Chemical Equipment Parameter Visualizer — desktop dashboard model

This project models the data side of the PyQt5 desktop client of the Chemical
Equipment Parameter Visualizer (`desktop/main.py` and `desktop/charts.py`).

- **Formatting** (`formatting.dfy`) covers the two display helpers:
  - `safe` renders a KPI scalar, using a "-" placeholder for a missing value and two decimals for a float.
  - `format_datetime` renders an upload timestamp, and falls back to the raw text when it cannot be parsed.
- **Charts** (`charts.dfy`) covers the themed `MplCanvas`.
  - Its figure and axes are abstracted to a `Scene`: the two background colours, the title, the marks drawn (bars, lines, pie wedges), and the grid, legend and equal-aspect switches.
  - The pure functions `Cleared`, `AfterBar`, `AfterLines` and `AfterPie` state what `clear`, `bar`, `lines` and `pie` leave on screen.
  - The `Canvas` class performs the same steps on mutable fields and is proved to reach exactly those scenes. `Lines` does this with a loop over the series.
- **History** (`history.dfy`) states what `Dashboard.load_data` derives from the upload history:
  - the KPI texts of the latest summary;
  - the table, with up to five rows, newest first;
  - the latest type distribution;
  - the five-record trend, oldest first.

  `Refreshed` is the whole refresh, written as one function from the previous view and the history to the next view.
- **Desktop** (`desktop.dfy`) has the stateful widgets:
  - a `Table` that stands for `QTableWidget`;
  - the `Dashboard` window, whose constructor, `LoadData` and `DoUpload` are proved to leave the view that `Refreshed` describes;
  - the `LoginDialog` input guard.
- **Python** (`python.dfy`) holds the part of the Python runtime that the client relies on:
  - JSON scalars;
  - `str()`, with a decimal rendering of integers and its parse-back;
  - `str.replace(c, "")`;
  - `str.strip()`.

  Library calls whose behaviour is not modelled are parameters, gathered in a `Runtime` value:
  - `str` and `f"{x:.2f}"` of a float;
  - `datetime.fromisoformat`;
  - `strftime`.

The server calls are also parameters. `get_history` becomes the `history` argument. The outcomes of `upload_csv` and `login` are `Result` values that are either `Ok` or `Raised(str(e))`.

Three behaviours of the code are easy to misread; the model follows the code:
- `load_data` draws the distribution on the "pie" canvas with `bar`, not with `pie` (`desktop/main.py:385`). Both distribution canvases therefore show identical bars.
- `pie` on empty input returns before any title is set (`desktop/charts.py:81-83`). The axes are left cleared and untitled.
- `format_datetime` deletes every "Z" in the timestamp before parsing (`desktop/main.py:28`), not only a trailing zone designator.

## Model

| member | source | states |
|---|---|---|
| Python.NatToDecimal | desktop/main.py:389 | The decimal text of a natural number is a non-empty digit string. It starts with '0' only for zero, so there are no leading zeros. |
| Python.ParseNat | desktop/main.py:389 | Reading a digit string gives zero exactly when every digit is '0'. |
| Python.ParseInt | desktop/main.py:389 | Reading an integer literal gives a negative number only when the literal has a minus sign. Without one, the result is non-negative. |
| Python.NatDecimalRoundTrip | desktop/main.py:389 | Reading back the decimal text of a natural number gives that number. Proved by induction on the number. |
| Python.IntToDecimal | desktop/main.py:389 | `str(i)` of an int is an integer literal: an optional minus sign, then digits. It starts with '-' exactly when i is negative. |
| Python.IntDecimalRoundTrip | desktop/main.py:389 | Reading back the decimal text of any integer gives that integer. |
| Python.IntToDecimalInjective | desktop/main.py:389 | Distinct integers print differently. |
| Python.Str | desktop/main.py:23 | `str(x)` of a JSON scalar: "None", "True"/"False", the decimal rendering of an int, the runtime's float text, or the string itself. |
| Python.RemoveAll | desktop/main.py:28 | `s.replace(c, "")` contains no c. It keeps every other character with its multiplicity. It is the identity when c does not occur. |
| Python.RemoveAllConcat | desktop/main.py:28 | Deletion distributes over concatenation. A c anywhere in the text is removed and nothing else moves. |
| Python.LStrip | desktop/main.py:150 | `lstrip()` is a suffix of its input. Everything dropped is whitespace, and the result does not start with whitespace. |
| Python.RStrip | desktop/main.py:150 | `rstrip()` is a prefix of its input. Everything dropped is whitespace, and the result does not end with whitespace. |
| Python.Strip | desktop/main.py:150 | `strip()` neither starts nor ends with whitespace. |
| Python.StripEmptyIffBlank | desktop/main.py:150 | `not s.strip()` holds exactly when s is empty or consists only of whitespace. |
| Formatting.Safe | desktop/main.py:18-23 | None gives "-". A float gives its two-decimal rendering. Every other scalar gives `str(x)`. |
| Formatting.MissingIsNotZero | desktop/main.py:18-20 | A missing KPI shows "-", where plain `str` would show "None". It is never shown like any integer. |
| Formatting.ParseStamp | desktop/main.py:27-30 | Parsing succeeds exactly when `fromisoformat` accepts the text with every "Z" removed. A failure carries the original text. |
| Formatting.FormatDatetime | desktop/main.py:26-31 | A parseable timestamp is rendered by `strftime`. Any other text is returned unchanged. No input makes it fail. |
| Formatting.FormatIgnoresZ | desktop/main.py:28 | Inserting a "Z" anywhere into a parseable timestamp does not change its rendering. |
| Charts.PaletteColor | desktop/charts.py:8-16 | `COLORS[i % len(COLORS)]` is defined for every index and is always a palette entry. |
| Charts.PaletteColorsCoincide | desktop/charts.py:8-16 | Two indexes get the same colour exactly when they are congruent modulo 7. The seven colours are pairwise distinct. |
| Charts.ColorList | desktop/charts.py:48 | The colour list has one entry per label, and entry i is `COLORS[i % 7]`. |
| Charts.Bars | desktop/charts.py:47-49 | There is one bar per label. Bar i carries label i, value i and colour i mod 7. |
| Charts.Wedges | desktop/charts.py:85-95 | There is one wedge per value. Wedge i carries label i, value i and colour i mod 7. |
| Charts.LineMarks | desktop/charts.py:60-69 | There is one line per series, in order. Line i is named after series i, is plotted over the shared x-labels, and has colour i mod 7. |
| Charts.AxesCleared | desktop/charts.py:38 | `ax.clear()` empties the title and marks and switches off grid, legend and equal aspect. Both face colours are kept. |
| Charts.Cleared | desktop/charts.py:37-41 | `clear(t)` leaves no marks, title t and the themed axes. The grid, legend and aspect are reset. The figure colour is kept. |
| Charts.AfterBar | desktop/charts.py:43-54 | `bar` themes and titles the axes in every case. It draws bars only when both lists are non-empty, then one per label with cycling colours. There is no grid, legend or equal aspect. |
| Charts.AfterLines | desktop/charts.py:56-75 | `lines` draws one line per series with cycling colours, turns on the grid and legend, and titles the themed axes. |
| Charts.AfterPie | desktop/charts.py:77-100 | `pie` themes the figure. On empty input it leaves the axes cleared and untitled. Otherwise it draws one wedge per value with cycling colours, sets the title and makes the aspect equal. |
| Charts.ClearIdempotent | desktop/charts.py:37-41 | Clearing twice with the same title equals clearing once. |
| Charts.NoResidue | desktop/charts.py:38-100 | Each drawing operation starts from `ax.clear()`. Two scenes with the same background colours lead to the same result, so the previous title, marks, grid, legend and aspect have no influence. |
| Charts.ThemeKept | desktop/charts.py:37-100 | A themed canvas stays themed after `clear`, `bar`, `lines` or `pie`. |
| Charts.Canvas.constructor | desktop/charts.py:20-29 | A new canvas has both faces in the theme colour and nothing drawn. |
| Charts.Canvas.ClearAxes | desktop/charts.py:38 | `ax.clear()` resets title, marks, grid, legend and aspect. It keeps the face colours. |
| Charts.Canvas.Style | desktop/charts.py:31-35 | `_style(t)` sets the title to t and changes nothing else that is modelled. |
| Charts.Canvas.Clear | desktop/charts.py:37-41 | The canvas reaches exactly the scene `Cleared` describes. |
| Charts.Canvas.Bar | desktop/charts.py:43-54 | The canvas reaches exactly the scene `AfterBar` describes. |
| Charts.Canvas.Lines | desktop/charts.py:56-75 | The loop over the series appends one line per iteration. The canvas reaches exactly the scene `AfterLines` describes. |
| Charts.Canvas.Pie | desktop/charts.py:77-100 | The canvas reaches exactly the scene `AfterPie` describes, including the early return on empty input. |
| History.Window | desktop/main.py:375-376 | `data[:5]` has min(5, len(data)) records, the first ones of the history. |
| History.Kpis | desktop/main.py:368-373 | There are four KPI texts: total, flow, pressure and temperature. A missing scalar shows the "-" placeholder. |
| History.TableRow | desktop/main.py:377-381 | A history row has four filled cells. The first cell is the filename. A missing total or flow shows as "None", because the table uses `str`, not `safe`. |
| History.TableRows | desktop/main.py:375-381 | The table has one row per windowed record. Row r shows record r's filename, formatted upload time, and `str` of total and average flow. |
| History.Distribution | desktop/main.py:383 | An absent `type_distribution` gives an empty distribution. A present one gives its pairs in insertion order. |
| History.Keys | desktop/main.py:384 | The keys of the distribution in insertion order, one per entry. |
| History.Values | desktop/main.py:384 | The values of the distribution in insertion order, one per entry. |
| History.Reversed | desktop/main.py:387 | `reversed` keeps the length. |
| History.ReversedAt | desktop/main.py:387 | Element i of the reversal is element n-1-i of the input. |
| History.ReversedAll | desktop/main.py:387 | For every position i at once, element i of the reversal is element n-1-i. |
| History.Chronological | desktop/main.py:387 | `list(reversed(data[:5]))` has one record per windowed record. Record i is history record n-1-i, so the list runs oldest first. |
| History.Column | desktop/main.py:391-393 | A metric's series has one reading per record, taken from that record's summary. |
| History.TrendLabels | desktop/main.py:389 | There is one x-label per trend point. |
| History.TrendLabelsNumbered | desktop/main.py:389 | Label i is "#" followed by the decimal text of i+1, so no two labels coincide. |
| History.TrendSeries | desktop/main.py:387-395 | There are three series, and each has exactly as many points as there are x-labels. |
| History.TrendPoint | desktop/main.py:387-393 | Point i of each metric's series is that metric's reading from record n-1-i of the history. |
| History.Refreshed | desktop/main.py:363-396 | `load_data` as a whole. An empty history leaves the view unchanged. Otherwise there are four KPIs and min(5, n) table rows, both distribution canvases show the same marks under "Equipment Distribution", and the trend has three lines under "Trends". Themed canvases stay themed. |
| History.EmptyHistoryKeepsView | desktop/main.py:364-366 | An empty history leaves the whole view unchanged. |
| History.KpisFromLatestOnly | desktop/main.py:368-373 | The KPIs are `safe` of the latest summary's four scalars, and records after the first do not influence them. |
| History.TableNewestFirst | desktop/main.py:375-381 | The table holds min(5, len(data)) rows, and row r shows record r. |
| History.DistributionParallel | desktop/main.py:383-385 | The bar and pie canvases show identical bars titled "Equipment Distribution". The bar for key i shows value i in colour i mod 7. |
| History.TrendLine | desktop/main.py:388-395 | On any scene, the trend draws three lines. The line for a metric is named after it, drawn in palette colour 0, 1 or 2 in Flow, Pressure, Temp order, and plotted over the trend labels with that metric's series. |
| History.TrendOldestFirst | desktop/main.py:387-396 | The trend chart has three lines (Flow, Pressure, Temp) in colours 0, 1 and 2 over labels "#1".."#n". Point i is record n-1-i. |
| History.OppositeOrders | desktop/main.py:375-393 | The table's first row and the trend's last point are both the latest record. The table's last row and the trend's first point are both the oldest windowed record. |
| History.RefreshIdempotent | desktop/main.py:363-396 | Loading the same history twice gives the view that loading it once gives. |
| Desktop.NoFile | desktop/main.py:348 | `not self.file_path` fails exactly when a non-empty path is selected. |
| Desktop.EmptyRow | desktop/main.py:375 | A new row has one empty cell per column. |
| Desktop.Resized | desktop/main.py:375 | `setRowCount(n)` keeps the first n rows and appends empty rows up to n. |
| Desktop.Table.constructor | desktop/main.py:286 | `QTableWidget(0, 4)` has four columns and no rows. |
| Desktop.Table.SetRowCount | desktop/main.py:375 | The row list becomes `Resized(old rows, n)`, and every row keeps the column count. |
| Desktop.Table.SetItem | desktop/main.py:378-381 | Exactly the addressed cell takes the new text. A position outside the grid changes nothing. |
| Desktop.Dashboard.constructor | desktop/main.py:162-241 | The KPIs start at "-", the table is empty, the canvases are themed and no file is selected. After the start-up load, the view is `Refreshed(initial view, history)`. |
| Desktop.Dashboard.LoadData | desktop/main.py:363-396 | The new view is exactly `Refreshed(old view, history)`, covering KPIs, table and all three canvases. Status, file label and file path are unchanged. |
| Desktop.Dashboard.ShowKpis | desktop/main.py:368-373 | The four KPI texts are `safe` of the latest summary's total, flow, pressure and temperature. |
| Desktop.Dashboard.FillTable | desktop/main.py:375-381 | After the row count is set and the loop has run, the table holds exactly `TableRows(history)`. |
| Desktop.Dashboard.WriteRow | desktop/main.py:377-381 | The four `setItem` calls replace row r with that record's row. Nothing else changes. |
| Desktop.Dashboard.DrawDistribution | desktop/main.py:383-385 | Both the bar and the pie canvas reach `AfterBar` of the distribution's keys and values. |
| Desktop.Dashboard.DrawTrend | desktop/main.py:387-396 | The line canvas reaches `AfterLines` of the labels "#1".."#n" and the chronological series. |
| Desktop.Dashboard.DoUpload | desktop/main.py:347-360 | With no file: asks for one, view unchanged. If the upload raises: the status shows the error, file and view unchanged. If the upload succeeds: the file selection is cleared. The status is then either "Uploaded successfully ✓" with the view refreshed from the new history, or the history error with the view unchanged. |
| Desktop.LoginDialog.constructor | desktop/main.py:110-138 | Both line edits and the status line start empty. The dialog is not accepted. |
| Desktop.LoginDialog.Type | desktop/main.py:124-131 | The user's typing replaces the texts of the two line edits. Status and acceptance are untouched. |
| Desktop.LoginDialog.DoLogin | desktop/main.py:149-157 | The server is contacted exactly when both fields are non-blank after stripping. Otherwise the status asks for credentials. A successful login accepts the dialog, and a failed one shows the error. |

## Left out

- The Qt widgets beyond the values they hold are not modelled: layout, style sheets, the navigation stack, headers and message boxes.
- `qss`, `Card`, `make_kpi`, the page builders, `pick_file` and `download_report_file` are not modelled.
- The entry point is not modelled.
- `frontend/src/App.jsx`, the web client, is not part of this model.
- The `api_client` calls (`login`, `upload_csv`, `get_history`, `download_report`) are network I/O. They appear only as parameters that carry their results or exceptions.
- Python.Str: the float case delegates to the `Runtime` parameter, because `repr` of a float is not modelled. The same holds for `f"{x:.2f}"`, `datetime.fromisoformat` and `strftime`, which are not specified.
- Desktop.Dashboard.constructor: an exception from the start-up `get_history` call is not modelled. It would abort construction of the window.
- Desktop.Dashboard.LoadData: the history is assumed to be a list of records that carry every key the code indexes.
  - A missing `summary`, `filename`, `uploaded_at` or metric key would raise `KeyError`, and that is not modelled.
  - A `None` history is covered only in the form of an empty list.
  - `type_distribution` may be absent.
- Charts.Canvas.Bar: requires `Drawable`, meaning that non-empty label and value lists are equally long. Matplotlib raises or broadcasts on unequal lengths, and that is not modelled. The dashboard always passes a dictionary's keys and values, which are equally long.
- Charts.Canvas.Pie: requires `Drawable`, for the same reason as `Bar`.
- Charts.Canvas.Lines: requires each series to be as long as the x-labels, because matplotlib refuses mismatched lengths. The dashboard's trend series always satisfy this.
- Charts.Canvas.Style: tick colours, spine colours, font size and weight are not represented in the scene.
- The scene does not represent bar edge colours, x-tick rotation, line width and markers, legend colours, pie percentages and start angle, `tight_layout` or `draw`. It represents only what is drawn, in which colour, and with which title.
- Charts.Canvas.Pie: wedge sizes are the raw values. Normalisation to fractions is left to matplotlib.
- Charts.AxesCleared: it assumes that matplotlib's `ax.clear()` resets the aspect set by `axis("equal")` and everything else `pie` changes on the axes, such as the frame. The source text does not show this. If it were otherwise, `Charts.NoResidue` would overclaim for a canvas that has drawn a pie. The dashboard never calls `pie`, so its view is unaffected.
- Desktop.LoginDialog.Type: typing happens in Qt, outside the program. It is modelled as a step that sets both texts at once; keystrokes and focus are not modelled.
- Python.IsSpace: it covers the characters that `str.isspace` accepts, as listed in the model. Case folding and Unicode normalisation play no part in the client.
