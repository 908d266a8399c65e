# Water-quality TMS sensor dashboard — data preparation, modelled in Dafny

The dashboard takes a spreadsheet export of discharge-gate telemetry (TOC, SS, T-N, T-P, pH)
and draws, for each measurement item, one chart of its signal channels. Each channel can be
scaled by a multiplier for display. This project models the data preparation between the
upload and the chart:

- the localized headers are renamed to English (`Headers`);
- a cleaned copy of the measurement time is added, with the hour marker '시' and the minute
  marker '분' deleted (`TimeText`);
- the `Date` column is required and the `Datetime` column is moved out of the columns into the
  index (`Dashboard.DatetimeIndexed`); the index values themselves are not modelled;
- the rows of each item are selected (`Category`);
- each item's ordered list of signal columns is resolved (`SensorSet`);
- the signal columns are projected and multiplied by the chosen multipliers (`Scaling`);
- the columns are relabelled `"<sensor> X<multiplier>"` (`Labels`);
- and `Dashboard` runs these steps, with the error that stops the page.

The uploaded frame is a `Dashboard.DataFrame` object. Its methods change it in place, as the
script's `inplace=True` rename and its column assignments do. The per-item steps are
functions, each paired with the method that does the same job step by step:
`ResolveSensors` builds the list by appends, `CollectMultipliers` fills the dict in a loop,
`ApplyScaling` overwrites columns in a loop, and `RenderItems` loops over the five items.
Every method is proved equal to its function, and the lemmas state what the functions
guarantee.

Cells are `Null` (pandas' NaN for an empty cell), `Num(real)` or `Text(string)`. A frame is
a list of column labels plus rows of cells aligned with those labels. A label selects the
first column that carries it. Python exceptions become `Dashboard.Error` values:

- `MissingColumn` is the KeyError for `Time`, `Date` or `Measurement Item`;
- `MissingSensorColumns` is the KeyError of `df_item[sensors]`, listing the missing sensors in order.

As in the script, an error ends the page: the items before it have been drawn, the ones after
it are not.

The time cleaning is modelled as written: "1시30분" becomes "130". The model does not correct
this. `TimeText.CleanMergesHourAndMinute` shows what it costs: "13시0분" cleans to the same
text, so the boundary between hours and minutes is lost.

## Model

| member | source | states |
|---|---|---|
| `Table.RenameColumns` | wtms_analysis_info.py:17-27 | `rename(columns=d)`: the header count is kept, a label that is a key of `d` becomes its value, any other label is kept |
| `Headers.Canonicalize` | wtms_analysis_info.py:17-27 | the header row after the rename: as long as before, with no localized header left |
| `Dashboard.Renamed` | wtms_analysis_info.py:17-27 | the frame after the rename keeps its rows untouched and its number of columns |
| `Headers.CanonicalizeRenames` | wtms_analysis_info.py:17-27 | each of the nine localized headers becomes its English name, every other header is kept, the header count is unchanged, and no localized header remains |
| `Headers.NamesAreNotHeaders` | wtms_analysis_info.py:17-27 | no English name is itself one of the localized headers |
| `Headers.CanonicalizeIdempotent` | wtms_analysis_info.py:17-27 | renaming an already renamed header row changes nothing |
| `Headers.CanonicalizeNoopIff` | wtms_analysis_info.py:17-27 | the rename leaves a header row unchanged exactly when it holds no localized header |
| `Headers.CanonicalizeExample` | wtms_analysis_info.py:17-27 | a typical export header row is renamed, and the `MSIG` header passes through |
| `Table.RenameIdempotent` | wtms_analysis_info.py:17-27 | `rename(columns=d)` is idempotent when no key of `d` is mapped to a key |
| `Table.RenameIdentityIff` | wtms_analysis_info.py:17-27 | when no key maps to itself, `rename` changes nothing exactly when no label is a key |
| `Dashboard.DataFrame.RenameHeaders` | wtms_analysis_info.py:17-27 | the in-place rename: the new labels are the renamed old ones and the rows are untouched |
| `Dashboard.TimeColumnAfterRename` | wtms_analysis_info.py:17-30 | a `Time` column exists after the rename exactly when the upload has `Time` or `측정시간` |
| `TimeText.RemoveChar` | wtms_analysis_info.py:30 | `str.replace(c, '')` leaves no `c` and never lengthens the text |
| `TimeText.Clean` | wtms_analysis_info.py:30 | the two chained replacements: the result holds neither '시' nor '분' and is never longer than the input |
| `Table.CellText` | wtms_analysis_info.py:30 | `astype(str)` on one cell: an empty cell prints as `nan`, a text cell as its text, a number as `numText` prints it |
| `Dashboard.CleanTimes` | wtms_analysis_info.py:30 | one cleaned text per row, each free of both markers |
| `Dashboard.WithCleanTime` | wtms_analysis_info.py:30 | the assignment fails exactly when there is no `Time` column; otherwise the frame stays rectangular and keeps every row |
| `TimeText.CleanIsKeepNonMarkers` | wtms_analysis_info.py:30 | the two successive replacements equal one pass that keeps exactly the non-marker characters |
| `TimeText.CleanKeepsOthers` | wtms_analysis_info.py:30 | the cleaned text is a subsequence of the input and holds every other character exactly as often as the input does |
| `TimeText.CleanIdempotent` | wtms_analysis_info.py:30 | cleaning twice is cleaning once |
| `TimeText.CleanFixedIff` | wtms_analysis_info.py:30 | cleaning leaves a text unchanged exactly when it holds no marker |
| `TimeText.CleanExample` | wtms_analysis_info.py:30 | "1시30분" is cleaned to "130" (no separator is inserted) |
| `TimeText.CleanMergesHourAndMinute` | wtms_analysis_info.py:30 | two different times, "13시0분" and "1시30분", clean to the same text |
| `Table.WithColumn` | wtms_analysis_info.py:30 | `df[name] = values` overwrites the first `name` column or appends one; the new cells are the values, every other cell is kept and no row is lost |
| `Dashboard.CleanTimeOutcome` | wtms_analysis_info.py:30 | a KeyError exactly when there is no `Time` column; otherwise every row is kept, every other cell is kept, and each row's `Time_clean` cell is the marker-free cleaned text of its time |
| `Dashboard.DataFrame.AddCleanTime` | wtms_analysis_info.py:30 | the in-place column assignment, or the KeyError with the frame unchanged |
| `Table.RemoveColumn` | wtms_analysis_info.py:32 | dropping one column keeps every row and every other column in order |
| `Dashboard.DatetimeIndexed` | wtms_analysis_info.py:31-32 | the step fails exactly when there is no `Date` column; otherwise the frame stays rectangular and keeps every row |
| `Dashboard.DatetimeIndexOutcome` | wtms_analysis_info.py:31-32 | a KeyError exactly when there is no `Date` column; otherwise every row is kept, the frame is unchanged when it has no `Datetime` column, and else exactly its first `Datetime` column leaves: the other labels stay in order and every other cell is kept |
| `Dashboard.DataFrame.SetDatetimeIndex` | wtms_analysis_info.py:31-32 | the in-place index step, or the KeyError with the frame unchanged |
| `Dashboard.Ingest` | wtms_analysis_info.py:17-32 | the frame after the steps run before the failing one (or all of them) is well-formed |
| `Dashboard.IngestKeepsRows` | wtms_analysis_info.py:17-32 | preparing the frame never drops a row, whatever its dates and times |
| `Category.Matches` | wtms_analysis_info.py:41 | `df['Measurement Item'] == item` on one row: the row's item cell is the text `item` |
| `Seqs.IndexOf` | wtms_analysis_info.py:41 | a label lookup finds the first column with that label, or none exactly when no column carries it |
| `Category.SelectItem` | wtms_analysis_info.py:41 | the selection is no longer than the input and each selected row is an input row of the item |
| `Category.SelectIsSubseq` | wtms_analysis_info.py:41 | the selected rows keep their original order |
| `Category.SelectCounts` | wtms_analysis_info.py:41 | each row of the item is kept as often as it occurs and no other row is kept |
| `Category.SelectIsLongest` | wtms_analysis_info.py:41 | no order-preserving choice of the item's rows is longer than the selection |
| `Category.SelectIsUnique` | wtms_analysis_info.py:41 | the selection is the only order-preserving choice of the item's rows of its length |
| `Category.SelectIdempotent` | wtms_analysis_info.py:41 | selecting the same item twice gives the same rows |
| `Category.SelectEmptyIff` | wtms_analysis_info.py:41-45 | the selection is empty exactly when no row carries the item |
| `Dashboard.ItemNoDataIff` | wtms_analysis_info.py:41-45 | an item shows the no-data notice (not an error) exactly when the item column exists and no row carries the item; no sensor column is looked up then |
| `SensorSet.SensorColumns` | wtms_analysis_info.py:48-55 | the list of signal columns of an item; its shape is stated by `SensorSet.SensorColumnsShape` |
| `SensorSet.SensorColumnsShape` | wtms_analysis_info.py:48-55 | the list starts with MSIG, MSAM and ends with Measured Value; MFC is in it exactly for TOC, right after MSAM; MTM1 exactly for pH and MTM2 exactly otherwise; its length is 5 for TOC and 4 otherwise; no column appears twice |
| `SensorSet.ResolveSensors` | wtms_analysis_info.py:48-55 | the successive appends build exactly that list |
| `Table.MissingLabels` | wtms_analysis_info.py:71 | the sensors a KeyError names are exactly those the frame lacks, in sensor order |
| `Table.Project` | wtms_analysis_info.py:71 | `df_item[sensors]` has one column per sensor, each as long as the selection |
| `Dashboard.ItemMissingSensors` | wtms_analysis_info.py:41-71 | the sensor-column error arises only for an item with rows and names exactly its missing sensors, in order |
| `Scaling.Repeat` | wtms_analysis_info.py:73 | a text cell times `n` is `n` times as long as the text |
| `Scaling.RepeatCopies` | wtms_analysis_info.py:73 | `n` copies of a text begin with the text and repeat it with period its length, so they are exactly `n` copies |
| `Scaling.ScaleCell` | wtms_analysis_info.py:73 | one cell times the multiplier keeps its kind: empty stays empty, a number stays a number, text stays text |
| `Scaling.ScaleColumn` | wtms_analysis_info.py:73 | scaling a column keeps its length |
| `Scaling.ScaleColumnCells` | wtms_analysis_info.py:73 | every number becomes number times multiplier, and a cell is empty after scaling exactly when it was empty before |
| `Scaling.ScaleByOne` | wtms_analysis_info.py:73 | multiplier 1 leaves a column unchanged |
| `Scaling.UnscaleAfterScale` | wtms_analysis_info.py:73 | on numbers and empty cells, dividing by the multiplier gives back the original column |
| `Scaling.ScaledColumns` | wtms_analysis_info.py:72-73 | the table after the scaling loop: as many columns as the projection, each as long as before |
| `Scaling.ApplyScaling` | wtms_analysis_info.py:72-73 | after the loop, column `j` is the original column `j` times the multiplier of sensor `j` |
| `Scaling.ColumnsScaleIndependently` | wtms_analysis_info.py:72-73 | a scaled column depends only on its own sensor's multiplier |
| `Scaling.AllOnesIsIdentity` | wtms_analysis_info.py:72-73 | with every multiplier at 1 the scaled table is the projected one |
| `Scaling.WidgetKey` | wtms_analysis_info.py:67 | the selector key `{item}_{sensor}_scale`; that it names one selector is `Scaling.WidgetKeyInjective` |
| `Scaling.Chosen` | wtms_analysis_info.py:62-67 | what one selector returns: the stored choice for its key, or the first option when there is none |
| `Scaling.ScaleSelection` | wtms_analysis_info.py:36-68 | one multiplier per sensor of the list, each from the six options |
| `Scaling.CollectMultipliers` | wtms_analysis_info.py:58-68 | the dict the loop fills holds, for each sensor, that sensor's selector value, or the first option (1) when nothing was chosen |
| `Scaling.DefaultSelection` | wtms_analysis_info.py:62-67 | without any stored choice, every multiplier is 1 |
| `Scaling.WidgetKeyInjective` | wtms_analysis_info.py:67 | for items without '_', a selector key determines its item and its sensor |
| `Dashboard.PageWidgetKeysDistinct` | wtms_analysis_info.py:35-67 | no two selectors of the page share a key |
| `Labels.Decimal` | wtms_analysis_info.py:75 | `str(m)` is a non-empty string of decimal digits, without a leading zero unless `m` is 0 |
| `Labels.DecimalRoundTrip` | wtms_analysis_info.py:75 | reading the digits back gives the number |
| `Labels.OptionTexts` | wtms_analysis_info.py:36-75 | the six multipliers print as 1, 2, 5, 10, 20 and 100 |
| `Labels.Label` | wtms_analysis_info.py:75 | the label `f'{sensor} X{m}'`; that it determines its sensor and multiplier is `Labels.LabelInjective` |
| `Labels.LabelInjective` | wtms_analysis_info.py:75 | a label `"<sensor> X<m>"` determines both its sensor and its multiplier |
| `Labels.LabelMap` | wtms_analysis_info.py:75 | the dict given to `rename`: one entry per sensor, and no other |
| `Labels.Relabel` | wtms_analysis_info.py:75 | the renamed columns are `sensor + " X" + multiplier`, one per sensor, in sensor order |
| `Labels.RelabelDistinct` | wtms_analysis_info.py:75 | distinct sensors get distinct labels |
| `Dashboard.ChartOf` | wtms_analysis_info.py:71-75 | the chart of the selected rows: the sensor columns projected, scaled and relabelled; stated by `Dashboard.ChartOfShape` |
| `Dashboard.ChartOfShape` | wtms_analysis_info.py:71-75 | the chart has one series per sensor, in order; each series is labelled with its sensor and multiplier and holds the sensor's selected cells, in row order, times that multiplier |
| `Dashboard.ItemChart` | wtms_analysis_info.py:41-75 | an item's chart has one distinctly labelled series per resolved sensor, each holding the item's rows' cells of that sensor times the chosen multiplier |
| `Dashboard.ItemResult` | wtms_analysis_info.py:41-75 | the view of one item or the KeyError that stops the page; stated by `Dashboard.ItemNoDataIff`, `Dashboard.ItemMissingSensors` and `Dashboard.ItemChart` |
| `Dashboard.PrepareItem` | wtms_analysis_info.py:41-75 | the steps for one item, performed in order, give the item's view or its error |
| `Dashboard.ShownInOrderStep` | wtms_analysis_info.py:39 | appending the next item's view keeps the drawn views in page order |
| `Dashboard.RenderItems` | wtms_analysis_info.py:35-45 | the loop draws the items in page order and stops at the first item that raises; it reports that error, or none after all five |
| `Dashboard.Run` | wtms_analysis_info.py:12-75 | one pass of the page: the frame ends as the preparation left it; a preparation error ends the page before any item; otherwise the items are drawn as above |

## Left out

- Page setup, title, file uploader, headers, subheaders, column layout and the rendering of the
  selectors (lines 6-10, 40, 44, 59-66) are Streamlit UI. The selectors' stored values are an
  input map from selector key to multiplier.
- `pd.read_excel(..., header=1)` (line 14) is file I/O. The model starts from the frame it returns.
- The timestamps themselves: `pd.to_datetime(..., errors='coerce')` (line 31) is library
  parsing. The model keeps the KeyError for a missing `Date` column, the fact that no row is
  dropped, and the removal of the `Datetime` column by `set_index`. It does not model the
  index values, which only serve as the chart's x-axis.
- The Plotly figure and `st.plotly_chart` (lines 78-90) are an external plotting library. The
  model stops at the labelled, scaled series handed to it.
- IEEE floating point: numbers are exact `real`s, and NaN is the `Null` cell.
- How pandas prints a float in `astype(str)` is the parameter `numText`.
- Cell types other than empty, number and text (dates, booleans) are not modelled.
- Repeated column labels: pandas returns a sub-frame for a repeated label, or assigns to every
  column that carries it. The model uses the first column with the label.
- Scaling.ApplyScaling: selects column `j` by position rather than by the label
  `sensors[j]`. The two agree because the projected frame's labels are the sensor list, which
  has no repetition (`SensorSet.SensorColumnsShape`).
- Streamlit reruns the whole script on every interaction. `Dashboard.Run` is one such pass.
  Caching and session state across passes are not modelled.
