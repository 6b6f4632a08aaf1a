# Time-series forecasting workbench: a verified model of its core

The system is a small web application for forecasting time series. A user
creates a project and uploads a CSV file. They pick a target column and some
feature columns, preprocess the target (change-point detection and a
change-duration curve), then train a neural network and forecast the next
values. The server (Python, Flask) keeps a list of project records and one
session snapshot per project. Each step adds its own key to the snapshot.
Upload is the exception: it starts a fresh snapshot. The browser (JavaScript)
parses time stamps, draws the data, marks the workflow steps done, and rebuilds
the page from the snapshot when it is reopened.

This project models that core in Dafny and proves properties of the model.
Each module corresponds to one source file:

- `parsers.dfy` (`Parsers`): the strftime-like format compiler, the anchored
  matcher, the defaults of `parseByFormat`, and the fixed compact parser.
- `plot.dfy` (`Plot`): x-axis resolution from the time meta, series
  selection, the forecast continuation and the preprocessing figures.
- `steps.dfy` (`Steps`): the six done flags, the active step, and the class
  update.
- `restore_state.dfy` (`RestoreState`): the snapshot merge of `setCurrentSnap`
  and the staged `restore`, both as written and corrected.
- `project_view.dfy` (`ProjectView`): the earlier single-file page script,
  with its own drawPlot, button handlers and restore.
- `preprocess.dfy` (`Preprocess`): last segment, CUSUM bounds, CUSUM
  segment, change-duration curve, pipeline.
- `tf_models.dfy` (`TfModels`): configuration defaults, the sliding-window
  dataset, model dispatch, and the guards of training.
- `projects.dfy` (`Projects`): the project store as a class whose fields
  stand for `projects.json` and the per-project `snapshot.json` files.
- `project_page.dfy` (`ProjectPage`): the five route handlers (view, upload,
  select, preprocess, train) as methods on that store.
- `chaos_logic.dfy` (`ChaosLogic`): the argmax scans, `get_more_points`, the
  last point, and the windows of the local fractal dimension.

Shared modules hold the common data: `wrappers.dfy` (Option, Result),
`python.dfy` (Python slicing, negative indexing, `strip`, `lower`, NaN-aware
floats), `data.dfy` (cells, records, samples, JavaScript numbers), and
`snapshot.dfy` (the session snapshot and its shallow merge). `dom.dfy` holds
the page as the scripts see it. It is a `Page` class with widget values,
tables, the step class lists, and the figure last drawn into each Plotly
element.

The forms follow the source. Loops become methods with loop invariants,
proved equal to a specification function. Objects updated in place become
classes with `modifies` clauses. Pure expressions become functions and
lemmas. Numeric library code is a function parameter, so the model states
what happens around it:

- the CUSUM and information statistics, the Hurst exponent, missing-value
  filling;
- pandas reading and sampling;
- TensorFlow fitting and prediction.

## Model

| member | source | states |
|---|---|---|
| Parsers.CompilePattern | static/js/utils/Parsers.js:22-30 | the loop building reStr yields exactly `Compile(fmt)`: a `%` followed by Y, m, d, H, M or S becomes a named digit group and advances two characters; every other character becomes an escaped literal and advances one |
| Parsers.CompileLossless | static/js/utils/Parsers.js:22-30 | compiling drops no character of the format: reading the pattern back gives the format |
| Parsers.CompileLiterals | static/js/utils/Parsers.js:24-29 | a format with no `%` before a token letter compiles to one literal per character (a trailing `%` or an unknown `%x` is escaped, not a token) |
| Parsers.MatchShape | static/js/utils/Parsers.js:13-20 | a match of the anchored expression consumes exactly the pattern's width (four digits for `%Y`, two for the others), captures exactly the pattern's groups, and every capture fits its digit count |
| Parsers.MatchAnchored | static/js/utils/Parsers.js:31 | the expression is anchored by `^` and `$`: extra text before or after a matching string makes it fail |
| Parsers.AssembleInRange | static/js/utils/Parsers.js:34-40 | the defaults and the `|| 1` fallbacks keep every date component within what its digits can hold (month index 0..98, day 1..99) |
| Parsers.ParseByFormat | static/js/utils/Parsers.js:10-41 | an empty format or a null/undefined input gives null; a format repeating a token throws (a duplicate group name in `new RegExp`), and only such a format throws; a parsed date is in range |
| Parsers.NoTokenNoDate | static/js/utils/Parsers.js:33 | a format without any token never yields a date: the match has no `groups`, so the result is null |
| Parsers.Defaults | static/js/utils/Parsers.js:34-39 | a field the format has no token for takes its default: year 1970, month index 0, day 1, hour, minute and second 0 |
| Parsers.MatchRender | static/js/utils/Parsers.js:13-32 | matching the string made by writing each group's value zero-padded recovers exactly those values, field by field |
| Parsers.FormatRoundTrip | static/js/utils/Parsers.js:10-41 | for a format with each token at most once and at least one token, writing components zero-padded in place of the tokens parses back to exactly those components, absent ones defaulted and the month shifted to a 0-based index |
| Parsers.CompactShape | static/js/utils/Parsers.js:3-6 | the compact parser accepts only 13-character strings with `T` at position 8, and returns year 0..9999, month index -1..98, day 0..99 and second 0 |
| Parsers.CompactRoundTrip | static/js/utils/Parsers.js:2-7 | writing year, month, day, hour and minute zero-padded around the `T` gives a string the compact parser reads back as those components with the month shifted by one |
| Parsers.CompactPattern | static/js/utils/Parsers.js:3-18 | the format `%Y%m%dT%H%M` compiles to the same expression the compact parser uses |
| Parsers.CompactAgreement | static/js/utils/Parsers.js:2-41 | with format `%Y%m%dT%H%M` the two parsers accept exactly the same inputs; they agree on the date except that parseByFormat turns month 00 into January and day 00 into 1 where the compact parser passes month index -1 or day 0 on |
| Plot.IndexAxis | static/js/components/Plot.js:10 | the default axis is 0, 1, …, rows.length - 1 |
| Plot.Axis | static/js/components/Plot.js:10-30 | the x axis has one point per row; it fails (throws) exactly when a named format of a `datetime_format` time column makes parseByFormat throw on some row |
| Plot.AxisIndex | static/js/components/Plot.js:10-30 | without a time column that is among the sample's columns, or for an unknown kind, the axis stays the row index |
| Plot.AxisFromColumn | static/js/components/Plot.js:13-28 | each row's x is its time cell read as the kind says: seconds times 1000 or milliseconds as a timestamp, the named format or else the compact parser with the raw cell as fallback, new Date(text) for `iso_date`/`rfc_2822`, the cell itself for `human_readable` |
| Plot.SecondsAreThousandMillis | static/js/components/Plot.js:16 | an integer `timestamp_sec` cell is the instant of v * 1000 milliseconds |
| Plot.AxisRowLocal | static/js/components/Plot.js:13-28 | with a time column, a row's x depends on that row alone, so equal rows get equal x in any sample with the same columns |
| Plot.InColumns | static/js/components/Plot.js:40-41 | the features kept are exactly those among the columns, never more than given |
| Plot.InColumnsAppend | static/js/components/Plot.js:40-49 | filtering features distributes over concatenation, so their order is kept |
| Plot.SeriesNames | static/js/components/Plot.js:32-49 | every drawn series is a column of the sample |
| Plot.SeriesOrder | static/js/components/Plot.js:32-49 | the target comes first exactly when it is set and a column, followed by the features that are columns in their order; a feature other than the target is drawn iff it is a column |
| Plot.ColumnY | static/js/components/Plot.js:35-44 | y holds each row's cell of the column, row by row |
| Plot.TracesShape | static/js/components/Plot.js:33-47 | trace i shares the axis x, is named after series i, is drawn as lines, and has that column's cell of every row as y |
| Plot.TracesSnoc | static/js/components/Plot.js:40-49 | pushing one more series appends exactly its trace |
| Plot.BuildTraces | static/js/components/Plot.js:31-49 | the pushes of the target and the forEach over features build exactly the traces of SeriesNames |
| Plot.DrawPlot | static/js/components/Plot.js:6-57 | the page afterwards is `Drawn(old page)`: the element shows the selected series over the axis, or nothing changes when the axis throws |
| Plot.Forecast | static/js/components/Plot.js:60-77 | two traces: the last segment plot's first trace, or empty arrays when there is none, named after the target; then the prediction at x = start, start + 1, … where start is the history's length, named `Прогноз` |
| Plot.ForecastContinues | static/js/components/Plot.js:68-69 | when the history's x is the index axis, the forecast's x continues it without gap or overlap |
| Plot.DrawForecast | static/js/components/Plot.js:60-77 | the page afterwards differs from before only by `forecast_plot` showing the forecast figure |
| Plot.Markers | static/js/components/Plot.js:93-100 | one vertical line per boundary (none when bounds are missing) at x = the boundary, spanning Math.min to Math.max of the target values |
| Plot.MarkersSpan | static/js/components/Plot.js:97-98 | over integer target values each line's span is from the least to the greatest of them, both attained |
| Plot.SegmentFigure | static/js/components/Plot.js:82-101 | `pp_plot` shows the segment's target column over the index axis, with the boundary lines |
| Plot.CurveFigure | static/js/components/Plot.js:102-110 | `pp_curve` shows the curve's x and y as lines and markers, a missing list drawn as empty |
| Plot.DrawPP | static/js/components/Plot.js:81-111 | the page afterwards is `PPDrawn(old page)`: a throw when there is no segment, otherwise `pp_plot` and `pp_curve` redrawn |
| Steps.Done | static/js/components/Steps.js:6-26 | six done flags, the export step's never set |
| Steps.ActiveIndex | static/js/components/Steps.js:40 | `findIndex(v => !v)`: the first false flag, all before it true; -1 exactly when all are true |
| Steps.ActiveAlwaysExists | static/js/components/Steps.js:25-43 | since flag 5 is always false, some step between 0 and 5 is always active |
| Steps.FlagImplications | static/js/components/Steps.js:20-23 | upload done implies data info done; preprocessing or training done implies model choice done |
| Steps.NothingDone | static/js/components/Steps.js:6-26 | without a snapshot, or with `{}`, no flag is set and step 0 is active |
| Steps.MarkedClasses | static/js/components/Steps.js:29-43 | after the update exactly the done steps carry `step-done`, exactly the active index carries `step-active`, at most one step is active, and every other class is kept |
| Steps.NoSteps | static/js/components/Steps.js:4-5 | with no step elements nothing is marked |
| Steps.UpdateSteps | static/js/components/Steps.js:2-47 | the page afterwards is the old page with every step's classes as MarkedClasses describes, and nothing else changed |
| Steps.ClearMarks | static/js/components/Steps.js:29-32 | every step loses `step-done` and `step-active` and keeps its other classes; nothing else on the page changes |
| Steps.MarkDone | static/js/components/Steps.js:35-37 | exactly the existing steps whose flag is set gain `step-done`; flags past the last step are ignored; nothing else changes |
| RestoreState.Current | static/js/utils/RestoreState.js:11-13 | `Object.assign({}, snap \|\| {}, partial \|\| {})`: every key the partial sets takes the partial's value, every other key keeps the embedded snapshot's, and a missing side counts as `{}` |
| RestoreState.SetCurrentSnap | static/js/utils/RestoreState.js:11-15 | only the step bar changes, marked from the merged snapshot; the embedded snapshot is not updated |
| RestoreState.TableData | static/js/utils/RestoreState.js:28-31 | always five rows: `records[i]` where it exists, undefined past the end |
| RestoreState.FillTableData | static/js/utils/RestoreState.js:28-31 | the loop pushing `records[i]` for i < 5 builds exactly TableData |
| RestoreState.FirstRows | static/js/utils/RestoreState.js:28-31 | the corrected table: the first min(5, n) records, each defined |
| RestoreState.FillFirstRows | static/js/utils/RestoreState.js:28-31 | the loop bounded by the record count builds exactly FirstRows |
| RestoreState.TablesAgree | static/js/utils/RestoreState.js:28-31 | with five records or more the written and the corrected tables are the same |
| RestoreState.AfterPreview | static/js/utils/RestoreState.js:23-26 | the corrected preview stage (renderPreview of `Preview.js`, and renderSelectors with `labelWrap` in scope) leaves the step bar and the embedded snapshot alone; without `preview.info` nothing changes; with it the selectors are rebuilt from `column_names`, and the preview table shows `head` whenever `head` is present (a list of records never makes the table throw) and is left as it was when `head` is missing |
| RestoreState.AfterPreviewAsWritten | static/js/components/Selector.js:2-13 | as written, the preview stage throws exactly when `preview.info` is present, leaving the step bar and the snapshot alone; then the page is the corrected stage's page with `#selectors` emptied (no `#target`, no feature boxes); otherwise nothing changes |
| RestoreState.RestorePreviewAsWritten | static/js/utils/RestoreState.js:23-26 | the page afterwards, and whether it threw, are AfterPreviewAsWritten of the old page |
| RestoreState.RestorePreview | static/js/components/Preview.js:3-7 | renders the preview table only when `head` is present (`if(data)`), then the selectors; the page afterwards is AfterPreview of the old page |
| RestoreState.SameValuesFirstBox | static/js/utils/RestoreState.js:35 | `features.find(el => el.value == h)` depends only on the boxes' values, not on which are checked |
| RestoreState.CheckAll | static/js/utils/RestoreState.js:33-37 | checking the selected features changes only the checkboxes' checked flags; it finishes exactly when every selected feature has a box (otherwise `elem.checked` on undefined throws) |
| RestoreState.CheckAllMarks | static/js/utils/RestoreState.js:34-37 | a checked box stays checked, and after a full run the first box of every selected feature is checked |
| RestoreState.CheckFeatures | static/js/utils/RestoreState.js:33-37 | the loop over `selection.features` leaves the page as CheckAll describes, and reports whether it threw |
| RestoreState.WithTime | static/js/utils/RestoreState.js:51-58 | each time control that exists takes the corresponding non-empty field of `snap.time`; nothing else changes |
| RestoreState.RestoreTime | static/js/utils/RestoreState.js:51-58 | the page afterwards is WithTime of the old page |
| RestoreState.AfterSample | static/js/utils/RestoreState.js:27-59 | the sample stage leaves the step bar and the embedded snapshot alone |
| RestoreState.RestoreSample | static/js/utils/RestoreState.js:27-59 | the page afterwards, and whether the stage threw, are AfterSample of the old page: feature boxes, table, sample plot, target dropdown, time controls, in that order |
| RestoreState.SampleDrawn | static/js/utils/RestoreState.js:40-58 | drawing the sample and restoring the target dropdown and the time controls redraws only `plot`: the tables, the loss text, the step bar and the snapshot are left as they were |
| RestoreState.SegmentPlot | static/js/utils/RestoreState.js:62-72 | the segment plot leaves the step bar and the embedded snapshot alone |
| RestoreState.RestoreSegmentPlot | static/js/utils/RestoreState.js:62-72 | the page afterwards is SegmentPlot of the old page: `pp_plot` drawn from the segment with the selected target and the sample's time meta |
| RestoreState.AfterPreprocessAsWritten | static/js/utils/RestoreState.js:61-76 | as written the preprocess stage always throws (drawPP gets `preprocess.curve`, which has no `segment`), leaving the step bar and the embedded snapshot alone |
| RestoreState.AfterPreprocess | static/js/utils/RestoreState.js:61-76 | the corrected preprocess stage leaves the step bar and the embedded snapshot alone |
| RestoreState.RestorePreprocessAsWritten | static/js/utils/RestoreState.js:61-76 | the page afterwards is AfterPreprocessAsWritten of the old page |
| RestoreState.RestorePreprocess | static/js/utils/RestoreState.js:61-76 | the page afterwards is AfterPreprocess of the old page: segment plot, then drawPP on the preprocess record |
| RestoreState.AfterTrain | static/js/utils/RestoreState.js:77-83 | the train stage leaves the step bar and the embedded snapshot alone |
| RestoreState.RestoreTrain | static/js/utils/RestoreState.js:77-83 | the page afterwards is AfterTrain of the old page: the loss text, then the forecast when the target is set |
| RestoreState.RestoredAsWritten | static/js/utils/RestoreState.js:18-85 | restore as written never changes the embedded snapshot; it stops at the as-written preview stage whenever `preview.info` is present (PreviewInfoAborts) |
| RestoreState.Restored | static/js/utils/RestoreState.js:18-85 | the corrected restore never changes the embedded snapshot |
| RestoreState.RestoreAsWritten | static/js/utils/RestoreState.js:18-85 | the page afterwards is RestoredAsWritten of the old page: the stages run in order and stop at the first throw |
| RestoreState.PreviewInfoAborts | static/js/utils/RestoreState.js:23-26 | as written, a snapshot with `preview.info` (every snapshot saved after an upload) stops restore with the selectors emptied: the page is the corrected preview stage's page without `#target` or boxes, and the step bar is untouched |
| RestoreState.Restore | static/js/utils/RestoreState.js:18-85 | the page afterwards is Restored of the old page |
| RestoreState.NothingToRestore | static/js/utils/RestoreState.js:19-21 | without a snapshot restore changes nothing and finishes |
| RestoreState.StepsFromWholeSnapshot | static/js/utils/RestoreState.js:84 | whenever restore finishes the step bar shows the done flags of the whole snapshot; when it throws the bar is untouched |
| RestoreState.PreprocessKeyAborts | static/js/utils/RestoreState.js:75 | as written, a snapshot holding `preprocess` never finishes: the step bar is untouched and the loss text is whatever the earlier stages left |
| RestoreState.AfterSampleKeepsTrainInfo | static/js/utils/RestoreState.js:27-59 | the sample stage does not touch the loss text |
| RestoreState.ShortSampleAborts | static/js/utils/RestoreState.js:28-39 | as written, a sample of fewer than five records with a column makes the table throw, so restore does not finish and the step bar is untouched |
| RestoreState.CorrectionAgrees | static/js/utils/RestoreState.js:18-85 | where none of the three errors occurs (no `preview.info`, no `preprocess`, and no sample or one of five records or more), the corrected restore does exactly what the written one does |
| RestoreState.ShortSampleShown | static/js/utils/RestoreState.js:28-39 | corrected, a short sample's table shows exactly its records |
| RestoreState.StageGuards | static/js/utils/RestoreState.js:27-83 | each stage runs only for its key: without `train` the loss and the forecast, without `preprocess` the duration curve, without `sample` the sample table are left as they were |
| RestoreState.TrainGuard | static/js/utils/RestoreState.js:77-83 | without `train` the loss text and the forecast plot are left as they were |
| RestoreState.PreprocessGuard | static/js/utils/RestoreState.js:61-76 | without `preprocess` the duration curve is left as it was |
| RestoreState.SampleGuard | static/js/utils/RestoreState.js:27-59 | without `sample` the sample table is left as it was |
| RestoreState.SampleFigures | static/js/utils/RestoreState.js:27-59 | the sample stage redraws only `plot` and leaves the loss text alone |
| RestoreState.PreprocessFigures | static/js/utils/RestoreState.js:61-76 | the preprocess stage redraws only `pp_plot` and `pp_curve`, and leaves the tables and the loss text alone |
| RestoreState.ForecastAfterSegment | static/js/utils/RestoreState.js:61-83 | after a corrected restore with `preprocess`, `train` and a target, the forecast's history is the segment's index axis and the prediction continues right after it |
| ProjectView.DrawPlot | static/js/project_view.js:152-181 | the page afterwards differs only by `plot` showing the selected series over row positions |
| ProjectView.DraftIsTimeless | static/js/project_view.js:152-181 | the page script's drawPlot is the component's drawPlot without time meta: it never throws and uses the row index as x |
| ProjectView.Selection | static/js/project_view.js:102-116 | a request is sent exactly when `#target` exists, carrying its value and the checked features in page order; a reply without `data` throws at `data.data.records` and changes nothing |
| ProjectView.ApplySelection | static/js/project_view.js:102-116 | the request sent and the page afterwards are those Selection gives for the old page and the reply |
| ProjectView.SelectionShortSampleAborts | static/js/project_view.js:107-115 | a reply of fewer than five records with a column throws inside the table after it was cleared, before the plot is drawn |
| ProjectView.TrainRun | static/js/project_view.js:204-226 | without a selected target the page shows the "select a target" alert and nothing is sent; with one, a missing `#mdl`, `#win`, `#hor` or `#ep` throws before anything is sent or changed; otherwise (exactly then) the request carries the target, the model text and `parseInt` of the three numeric fields, and an error reply alerts its message (or `Ошибка`) while a success shows the loss and draws the forecast |
| ProjectView.RunTrain | static/js/project_view.js:204-226 | the request sent, whether it threw, and the page afterwards are those TrainRun gives |
| ProjectView.TrainFieldsAsNumbers | static/js/project_view.js:210-218 | numeric fields holding plain digits are sent as their decimal values |
| ProjectView.PPRun | static/js/project_view.js:230-248 | a missing `#pp_method` throws before the target is checked; without a target the page alerts and sends nothing; a request is sent exactly with both, carrying the target and the method; an error reply alerts its message |
| ProjectView.RunPP | static/js/project_view.js:230-248 | the request sent and the page afterwards are those PPRun gives |
| ProjectView.DraftSample | static/js/project_view.js:291-314 | the page script's sample stage leaves the embedded snapshot and the step bar alone |
| ProjectView.DraftRestoreSample | static/js/project_view.js:291-314 | the page afterwards is DraftSample of the old page: the box of every sample column checked, the five-entry table, the plot, the target dropdown |
| ProjectView.DraftTrain | static/js/project_view.js:318-324 | the train stage leaves the embedded snapshot and the step bar alone |
| ProjectView.DraftRestored | static/js/project_view.js:284-325 | the page script's restore never touches the embedded snapshot or the step bar |
| ProjectView.DraftRestore | static/js/project_view.js:284-325 | the page afterwards is DraftRestored of the old page |
| ProjectView.DraftNothingToRestore | static/js/project_view.js:285-286 | without a snapshot the restore changes nothing |
| ProjectView.DraftChecksEveryColumn | static/js/project_view.js:297-301 | after the sample stage every sample column (not only the selected features) has a box, and it is checked |
| ProjectView.DraftShortSampleAborts | static/js/project_view.js:292-303 | a sample of fewer than five records with a column stops this restore at the table too |
| ProjectPage.ChosenTarget | modules/web/project_page.py:70 | `payload.get("target") or project.get("target")`: a non-empty requested target wins, otherwise the stored one; there is none exactly when neither is a non-empty string |
| ProjectPage.KeptFeatures | modules/web/project_page.py:55 | `[c for c in features if c and c != target]`: exactly the non-empty features other than the target, drawn from the features |
| ProjectPage.KeptFeaturesAppend | modules/web/project_page.py:55 | the comprehension distributes over concatenation, so order is kept |
| ProjectPage.KeptFeaturesAll | modules/web/project_page.py:55 | when no feature is empty or the target, every feature is kept in order |
| ProjectPage.Columns | modules/web/project_page.py:52-55 | the columns sampled are a non-empty target first, then the kept features; the target never appears again after position 0, and no column is empty |
| ProjectPage.SelectedColumns | modules/web/project_page.py:52-55 | the append and extend build exactly Columns |
| ProjectPage.UploadedSnap | modules/web/project_page.py:40 | an upload replaces the whole snapshot by one holding only `preview` |
| ProjectPage.SelectedSnap | modules/web/project_page.py:58-59 | `selection` and `sample` take the new values; every other key of the loaded snapshot is kept |
| ProjectPage.PreprocessedSnap | modules/web/project_page.py:81-82 | `preprocess` takes the new record; every other key is kept |
| ProjectPage.TrainedSnap | modules/web/project_page.py:112-115 | `train` takes the new record; every other key is kept |
| ProjectPage.PathJoin | modules/data/ingest.py:7-9 | `os.path.join` ends with its second part, keeps the first as a prefix unless the second is absolute, and an absolute second part replaces the first |
| ProjectPage.SavedPath | modules/data/ingest.py:6-11 | the saved file's path ends with the uploaded file name, is never empty for a non-empty name, and is the name itself when the name is an absolute path |
| ProjectPage.View | modules/web/project_page.py:18-24 | 404 without a project of that id; otherwise the page gets the first such project and its snapshot, `{}` when none was saved |
| ProjectPage.Upload | modules/web/project_page.py:27-41 | 404 without the project, 400 "file not found" without a file part, 400 "CSV expected" unless the lower-cased name ends in `.csv`, and nothing is written then; otherwise the project gets `data_path` and status `uploaded` first, and then either pandas fails to read the file and its error escapes with the old snapshot kept, or the snapshot becomes `{"preview": …}` |
| ProjectPage.SelectColumns | modules/web/project_page.py:44-61 | 400 "no data" without the project or its `data_path`, nothing written; an explicit `"features": null` raises a TypeError while the columns are gathered, nothing written; otherwise (a missing `features` reads as []) the sample of the chosen columns is returned, the project gets target, features and status `selected`, and the snapshot gets `selection` and `sample` with the other keys kept |
| ProjectPage.PreprocessEntry | modules/web/project_page.py:79-82 | the snapshot's `preprocess` entry holds the segment's columns and records, the bounds and the curve |
| ProjectPage.RunPreprocess | modules/web/project_page.py:64-89 | 400 "no data", then 400 "no target" when neither payload nor project give one, nothing written; otherwise the as-written pipeline runs on the sampled target column with the method (default `cusum`), the project is marked preprocessed and the snapshot gets `preprocess` with the other keys kept |
| ProjectPage.TrainParams | modules/web/project_page.py:99-109 | model `mlp`, window 32, horizon 12 and epochs 5 unless the payload gives them; batch size and learning rate stay the ModelConfig defaults |
| ProjectPage.RunTrain | modules/web/project_page.py:92-117 | 400 "no data", then 400 "no target", nothing written; a training error propagates and writes nothing; otherwise the project gets model, horizon and status `trained`, the snapshot gets `train` (loss, prediction, cfg) with the other keys kept, and the reply carries loss and prediction |
| Projects.FirstIndex | modules/storage/projects.py:38-41 | the position of the first record whose id matches, or the length when none does: every record before it differs |
| Projects.FoundIffExists | modules/storage/projects.py:38-41 | the search finds a record exactly when some record has the id |
| Projects.ProjectName | modules/storage/projects.py:48 | `name.strip() or "Новый проект"`: the stripped name unless it is blank, then the default; never empty |
| Projects.Record | modules/storage/projects.py:46-52 | a new record has exactly the keys id, name, description, thumb and status, with thumb None and status `new` |
| Projects.Merged | modules/storage/projects.py:62 | `p.update(fields)`: the keys of both, the given fields winning, the other keys keeping their values |
| Projects.Without | modules/storage/projects.py:71 | the filter keeps exactly the records whose id differs, drawn from the list; it keeps the length exactly when no record matches |
| Projects.WithoutNone | modules/storage/projects.py:71-72 | without a match the filter returns the list unchanged |
| Projects.WithoutAppend | modules/storage/projects.py:71 | the filter distributes over concatenation, so kept records stay in order |
| Projects.ProjectStore.constructor | modules/storage/projects.py:7-8 | a store over the given projects file and snapshots |
| Projects.ProjectStore.Items | modules/storage/projects.py:16-24 | `_read_all`: the stored list, `[]` when the file is missing or unreadable |
| Projects.ProjectStore.GetProject | modules/storage/projects.py:37-41 | the first record with the id, whenever one exists; None exactly when none does |
| Projects.ProjectStore.CreateProject | modules/storage/projects.py:44-55 | the new record (fresh id, stripped name or default, stripped description) is written first, before all earlier records; snapshots untouched |
| Projects.ProjectStore.UpdateProject | modules/storage/projects.py:58-66 | the fields are merged into the first matching record only and the list written; without a match None and nothing written |
| Projects.ProjectStore.DeleteProject | modules/storage/projects.py:69-75 | every matching record is dropped and the list written, returning true, exactly when some record matched; otherwise false and nothing written |
| Projects.ProjectStore.SaveSnapshot | modules/storage/projects.py:85-89 | the project's snapshot becomes the data; the others and the projects file are unchanged |
| Projects.ProjectStore.LoadSnapshot | modules/storage/projects.py:92-97 | the saved snapshot, None exactly when there is none |
| Projects.Loaded | modules/storage/projects.py:92-97 | a snapshot is read back exactly when one was saved for that project |
| Projects.SaveThenLoad | modules/storage/projects.py:85-97 | loading after saving gives back the data, and other projects' snapshots are unaffected |
| Preprocess.Column | modules/data/preprocess.py:62 | `df[target].astype(float)`: one value per row |
| Preprocess.SelectLastSegment | modules/data/preprocess.py:21-24 | the columns are kept; at most `length` rows give the whole frame, otherwise exactly the last `length` rows |
| Preprocess.LastSegmentIsSuffix | modules/data/preprocess.py:21-24 | for a positive length the segment is the last min(length, rows) rows |
| Preprocess.CusumScan | modules/data/preprocess.py:30-41 | after n iterations the positive sum is ≥ 0, the negative sum ≤ 0, the bounds are strictly increasing indices below n, and a bound at the last index leaves both sums reset to 0 |
| Preprocess.Bounds | modules/data/preprocess.py:27-42 | cusum_bounds returns strictly increasing indices of the series |
| Preprocess.CusumBounds | modules/data/preprocess.py:27-42 | the loop, with its max/min accumulation, recording, reset and recomputed mean over the last 101 values, returns exactly Bounds |
| Preprocess.NaNRecordsNoBound | modules/data/preprocess.py:35-37 | a NaN value resets both sums (Python's max(0.0, nan) is 0.0) and with a non-negative threshold records no bound |
| Preprocess.TargetBounds | modules/data/preprocess.py:48 | the bounds are row indices of the window, none when the window lacks the target column |
| Preprocess.SelectCusumSegment | modules/data/preprocess.py:45-54 | the segment keeps the frame's columns; without the target column there are no bounds |
| Preprocess.CusumSegmentIsSuffix | modules/data/preprocess.py:45-54 | the segment is a suffix of the frame of at most back_window rows, non-empty when the frame has rows; with bounds it starts at the last bound of the window, without them it is the last 200 rows of the window |
| Preprocess.SegmentAfterIsSuffix | modules/data/preprocess.py:49-53 | cutting a suffix window at its last bound, or taking its last 200 rows, gives a suffix of the frame, non-empty when the window has rows |
| Preprocess.WindowIsSuffix | modules/data/preprocess.py:47 | the window is the last min(back_window, rows) rows with the same columns |
| Preprocess.RunEnd | modules/data/preprocess.py:72-74 | the inner scan stops at the first index from j that is NaN or outside [limit_low, limit_high], every value before it being inside |
| Preprocess.SpansOrdered | modules/data/preprocess.py:65-82 | the runs start at non-NaN values in strictly increasing order, each end is where its inner scan stops, and each next run starts no earlier than the previous run's end |
| Preprocess.CurveShape | modules/data/preprocess.py:80-81 | the curve's x and y have equal length, every x is an index of the series, and x never decreases |
| Preprocess.CurveValues | modules/data/preprocess.py:75-81 | each y is the run's sign times its length, and the sign is 0 exactly when the run reaches the end of the series or stops at a NaN |
| Preprocess.NegativeStartEmptyRun | modules/data/preprocess.py:70-73 | as written, from a negative start with a positive pct the band is empty, so the run has length 0 |
| Preprocess.NegativeSeriesAsWritten | modules/data/preprocess.py:57-83 | as written, [-1.0, -2.0] gives x = [0, 1] and y = [0, 0] |
| Preprocess.NegativeSeriesOrdered | modules/data/preprocess.py:57-83 | with the band's limits ordered, [-1.0, -2.0] gives x = [1, 1] and y = [-1, 0] |
| Preprocess.OrderedRunsNonEmpty | modules/data/preprocess.py:70-75 | with ordered limits every run contains at least its start, so no length is 0 |
| Preprocess.StartInOrderedBand | modules/data/preprocess.py:70-71 | a start value always lies in its ordered band |
| Preprocess.ChangeDurationCurve | modules/data/preprocess.py:57-83 | the two nested while loops return exactly CurveOf the series for the band read either way |
| Preprocess.EmitRun | modules/data/preprocess.py:70-82 | one pass of the outer loop from a non-NaN start moves on to a later index no further than the end, and the runs emitted so far followed by the runs from there are still all the runs of the series |
| Preprocess.PreprocessPipeline | modules/data/preprocess.py:86-98 | `last` takes the last 200 filled rows with no bounds, any other method the CUSUM segment; the curve is the as-written change duration curve (pct 0.05) of the segment's target column, empty when the segment lacks the target |
| Preprocess.BandsAgreeAt | modules/data/preprocess.py:70-71 | for a non-negative start and pct the as-written band limits equal the ordered ones |
| Preprocess.SpansAgree | modules/data/preprocess.py:65-82 | two limit functions that agree on every finite value of the series yield the same runs |
| Preprocess.CurveBandsAgree | modules/data/preprocess.py:57-83 | over a series with no negative value the as-written curve equals the ordered-band curve |
| Preprocess.PipelineCurveNonNegative | modules/data/preprocess.py:86-98 | when the segment's target column has no negative value the pipeline's curve is also the ordered-band curve |
| Preprocess.PipelineNegativeSeries | modules/data/preprocess.py:86-98 | with `last` and the filled frame [-1.0, -2.0] the pipeline's curve is x = [0, 1], y = [0, 0], as the program computes it |
| TfModels.NewConfig | modules/models/tf_models.py:10-17 | the given model type, window and horizon, epochs 10 unless given, batch size 32 and learning rate 0.001 |
| TfModels.Inputs | modules/models/tf_models.py:22-23 | one input window per sample, len(series) - window - horizon + 1 of them (none when that is not positive) |
| TfModels.Targets | modules/models/tf_models.py:22-24 | one target window per sample, as many as inputs |
| TfModels.MakeDataset | modules/models/tf_models.py:20-27 | the loop appends exactly the inputs and targets, sample by sample |
| TfModels.DatasetWindows | modules/models/tf_models.py:22-24 | with a non-negative window and horizon, sample i is the window series[i:i+window] of length window followed by the horizon series[i+window:i+window+horizon] of length horizon |
| TfModels.BuildModel | modules/models/tf_models.py:63-70 | `mlp`, `cnn` and `rnn` build that architecture with the configuration's window, horizon and learning rate; any other name raises `unknown model_type` |
| TfModels.TrainAndPredict | modules/models/tf_models.py:73-84 | fewer than two samples raise "not enough data" before the model is built; otherwise it succeeds exactly when the model type is known, fitting on all samples with the configured epochs and batch size and predicting from the last window |
| TfModels.PredictionInput | modules/models/tf_models.py:74-79 | when training goes ahead with a positive window the series is longer than the window, so the prediction input is exactly its last `window` values; a window of 0 reads `series[-0:]`, the whole series |
| ChaosLogic.ArgMax | modules/ChaosLogic/chaos_logic.py:14-18 | the index the running argmax ends on: 0 for no scores, otherwise a position of B |
| ChaosLogic.ArgMaxFirstMax | modules/ChaosLogic/chaos_logic.py:14-18 | over finite scores the scan finds the first position of the largest absolute score: nothing is larger, and every earlier score is strictly smaller |
| ChaosLogic.LeadingNaNSticks | modules/ChaosLogic/chaos_logic.py:18 | a NaN first score is never beaten (numpy comparisons with NaN are false), so the index stays 0 |
| ChaosLogic.Scores | modules/ChaosLogic/chaos_logic.py:13-17 | one score per position of A |
| ChaosLogic.Cusum | modules/ChaosLogic/chaos_logic.py:10-19 | B holds the statistic of every position and indMax is the running argmax over all of B |
| ChaosLogic.InfoScores | modules/ChaosLogic/chaos_logic.py:22-29 | the statistic at every position but the last two, which stay 0 |
| ChaosLogic.MinInfoError | modules/ChaosLogic/chaos_logic.py:21-31 | B is InfoScores and indMax is the running argmax over the written positions only |
| ChaosLogic.InfoTailZero | modules/ChaosLogic/chaos_logic.py:22-25 | with at least two values the last two scores are 0, and indMax is a written position (0 when there are none) |
| ChaosLogic.Matching | modules/ChaosLogic/chaos_logic.py:43-46 | the indices whose value lies strictly between minus and plus, exactly those, in strictly increasing order |
| ChaosLogic.GetMorePoints | modules/ChaosLogic/chaos_logic.py:33-48 | IndexError exactly when pointnow is out of range (negative indices count from the end); otherwise exactly the Matching indices for the point's bounds, swapped when plus < 0 |
| ChaosLogic.PointItself | modules/ChaosLogic/chaos_logic.py:34-46 | for a positive percentage a finite point is among its own matches exactly when it is non-zero |
| ChaosLogic.DefaultDataRaises | modules/ChaosLogic/chaos_logic.py:33-35 | with the default `points_data = []` every index is out of range, so the call raises IndexError |
| ChaosLogic.DefaultBandHoldsPoint | modules/ChaosLogic/chaos_logic.py:33-46 | with the default `procents = 0.1` a finite non-zero point is among its own matches |
| ChaosLogic.NaNPointMatchesNothing | modules/ChaosLogic/chaos_logic.py:34-46 | a NaN point has NaN bounds and matches nothing |
| ChaosLogic.GetPointWithMaxIndex | modules/ChaosLogic/chaos_logic.py:50-51 | the last element, and IndexError exactly for an empty list |
| ChaosLogic.Windows | modules/ChaosLogic/chaos_logic.py:66-67 | len(signal) - window_size + 1 windows, none when that is not positive |
| ChaosLogic.LocalFractalDimension | modules/ChaosLogic/chaos_logic.py:54-71 | one Hurst exponent per window, in window order |
| ChaosLogic.FullWindows | modules/ChaosLogic/chaos_logic.py:66-67 | for a positive window size every window is signal[i:i+window_size], of exactly window_size values |
| Snapshot.Merge | modules/web/project_page.py:58-60 | the merged snapshot has the keys of both; the partial's keys take its values and the others keep the base's (`Object.assign` and `dict.update`) |
| Snapshot.Extensional | modules/web/project_page.py:58-60 | snapshots agreeing on every key are equal |
| Snapshot.MergeEmpty | static/js/utils/RestoreState.js:13 | `{}` is a unit of the merge on both sides, as `snap \|\| {}` and `partial \|\| {}` rely on |
| Snapshot.MergeIdempotent | modules/web/project_page.py:58-60 | merging a snapshot into itself, or the same partial twice, changes nothing |
| Snapshot.MergeAssociative | modules/web/project_page.py:58-60 | successive partial updates compose: merging is associative |
| Snapshot.MergeDisjoint | modules/web/project_page.py:58-60 | partials with disjoint keys can be applied in either order |
| Snapshot.GetSnapshot | static/js/utils/DOMUtils.js:9-17 | a snapshot is returned exactly when the element holds a JSON document, and it is that document; a missing element, blank text, bad JSON or `null` give null |
| Data.ColumnValues | static/js/components/Plot.js:35-44 | `rows.map((r) => r[col])`: one cell per row, undefined where the row lacks the column |
| Data.Extremes | static/js/components/Plot.js:97-98 | over finite numbers Math.min and Math.max are attained and bound every argument |
| Data.ExtremesOrdered | static/js/components/Plot.js:97-98 | over finite numbers Math.min is at most Math.max |
| Data.DigitPrefix | static/js/project_view.js:211-213 | the digit run `parseInt` reads is a prefix of digits, followed by the end or a non-digit |
| Data.ParseIntDigits | static/js/project_view.js:211-213 | `parseInt(s, 10)` of white space, an optional sign, digits and a rest not starting with a digit is the signed value of the digits |
| Data.ParseIntNaN | static/js/project_view.js:211-213 | `parseInt(s, 10)` is NaN when no digit follows the white space and the optional sign |
| Data.ParseIntPlain | static/js/project_view.js:211-213 | a field holding only digits reads as their decimal value |
| Data.NatToString | static/js/utils/Parsers.js:12 | `String(n)` of a non-negative integer is a run of decimal digits whose value is n, with no leading zero |
| Data.IntTextRoundTrip | static/js/utils/Parsers.js:12 | `Number(String(i))` is i for every integer cell, negative ones included |
| Dom.Present | static/js/components/Table.js:21-30 | one table row per given row |
| Dom.WithChecked | static/js/utils/RestoreState.js:35-36 | checking the box of a name changes only the boxes' checked flags, and finishes exactly when some box has that value |
| Dom.FirstBox | static/js/utils/RestoreState.js:35 | `find(el => el.value == h)`: the first box with that value, or none past the end |
| Dom.CheckedValues | static/js/project_view.js:104 | the values of the checked boxes, exactly those |
| Dom.Page.constructor | static/js/project_view.js:1-7 | a page in the given state |
| Dom.Page.TargetValue | static/js/project_view.js:103 | `#target`'s value, present exactly when the element is |
| Dom.Page.NewPlot | static/js/components/Plot.js:52 | `Plotly.newPlot(id, …)`: only that element's figure changes, to the one given |
| Dom.Page.RenderTable | static/js/components/Table.js:2-33 | the host is emptied first; the table is shown unless a column is read from an undefined row, which throws and leaves the host empty |
| Dom.Page.RenderSelectors | static/js/project_view.js:57-88 | renderSelectors with `labelWrap` in scope (the page script's copy, and the correction of `Selector.js`): a fresh `#target` with one option per column and the first selected, and one unchecked box per column in order |
| Dom.Page.RenderSelectorsUnbound | static/js/components/Selector.js:2-13 | `Selector.js`'s renderSelectors as written: `#selectors` is emptied, so no `#target` and no boxes remain, and it always throws at the unbound `labelWrap` |
| Dom.Page.SetTarget | static/js/utils/RestoreState.js:45-48 | `tgtSel.value = t` on an existing select |
| Dom.Page.CheckFeature | static/js/utils/RestoreState.js:35-36 | the box of the name gets checked; it throws exactly when no box has that value |
| Dom.Page.Alert | static/js/project_view.js:207 | the message is appended to the alerts shown |
| Dom.Page.ShowLoss | static/js/project_view.js:224 | `#train_info` shows the loss |
| Py.Index | modules/ChaosLogic/chaos_logic.py:34-51 | Python indexing: defined exactly for -len ≤ i < len, negative indices counting from the end |
| Py.SliceLast | modules/models/tf_models.py:79 | `s[-k:]` is the last k values, the whole sequence for k = 0 or k > len |
| Py.StripBlank | modules/storage/projects.py:48 | `str.strip()` is empty exactly when every character is whitespace |
| Py.Lower | modules/web/project_page.py:35 | `str.lower()` maps each character |

## Left out

- Floating-point numerics are function parameters: the statistic of each position in `cusum` and `min_info_error`, `hurst_exponent` with `np.polyfit`, `fill_missing`, and TensorFlow model building, `fit` and `predict` (the `Learner`). Python floats are NaN or a real; infinities are not modelled.
- `np.mean` in `cusum_bounds` is the exact mean over reals, NaN when a value is NaN; rounding is not modelled.
- pandas and CSV I/O are function parameters: `sample_columns` (`sampler`), `dataframe_preview` (`previewOf`, which may fail with pandas's error), `pd.DataFrame(records)` (`frameOf`), `to_dict(orient="records")` (`recordsOf`) and the `read_csv(...)[target].astype(float)` of training (`readSeries`). The `size` field of a sample is not modelled. A non-numeric column that makes `astype(float)` raise is not modelled.
- The file system is the two fields of `ProjectStore`: `projects.json` and the snapshots. `ensure_data_dir`, `project_dir`, directory creation, and the write of the uploaded file are not modelled. `SavedPath` stands for the path `save_uploaded_csv` returns, joined as POSIX `os.path.join` joins.
- ProjectPage.SelectColumns, ProjectPage.RunPreprocess, ProjectPage.RunTrain: the sampler and `readSeries` are total. So the `ValueError` that `pd.read_csv(usecols=…)` raises for a column the CSV does not have is not modelled. That covers `sample_columns` in select and preprocess, and the `read_csv(data_path, usecols=[target])` of training. Flask answers such a request with 500 and writes nothing; the model answers with the sampler's value and writes the result. A `features` list whose items are not strings is not modelled either.
- Projects.ProjectStore.LoadSnapshot: a `snapshot.json` that exists but is not valid JSON makes `json.load` raise; the model has no unreadable-snapshot case.
- `list_projects` is `ProjectStore.Items` (`_read_all`).
- Projects.ProjectStore.CreateProject: `uuid.uuid4()` is the `id` parameter.
- The model artifacts that `train_and_predict` saves under `save_dir` (`model.keras`, `train_meta.txt`) are not modelled.
- Flask plumbing (routes, `abort(404)`, `jsonify`, status codes) is reduced to the `Response` datatype. `request.get_json(silent=True) or {}` is a typed `Payload`.
- ProjectPage.TrainParams: an explicit JSON `null` for `model`, `window`, `horizon` or `epochs` is treated as missing (the source would pass None on, or fail in `int`). `int()` of a non-integer string is not modelled.
- ProjectPage.ChosenTarget: a target that is not a string (a number, a list) is not modelled; targets and `data_path` are strings or missing.
- RestoreState.AfterSample: that the target dropdown is set only for a truthy target, and that the segment plot uses an empty feature list with the sample's time meta, are stated in the stage functions' bodies rather than in separate lemmas.
- Dom: the host elements the scripts write into are assumed to exist: `preview-table`, `seleted-table`, `#selectors`, `#train_info`, and the plot elements `plot`, `pp_plot`, `pp_curve` and `forecast_plot`. A missing host, which would make `getElementById(...)` return null and the script throw, is not modelled. `#target`, the time controls and `#pp_method` are modelled as possibly missing.
- Dom.Page.RenderSelectorsUnbound: the feature boxes and `#target` are taken to live inside `#selectors`, as renderSelectors builds them there.
- DOM construction, styling, labels, `Plotly.purge` and layout colours are not modelled. A table is its column list and rows, a figure its traces and marker shapes.
- JavaScript `Date` is a plain record: from milliseconds, from components, or from text. Month and day normalisation, time zones and parsing by `new Date(string)` are not modelled.
- Data.ToNumber: `Number` of a text cell reads only an empty string or an optionally signed run of decimal digits. Fractions, exponents, whitespace and hex give NaN in the model, and cells never hold fractional numbers.
- Data.ParseInt: JavaScript numbers lose precision past 2^53, so `parseInt` of a longer digit run is rounded; the model keeps the exact integer. `-0` is the integer 0, which is also what `JSON.stringify` sends.
- Py.Lower: `str.lower()` is modelled for ASCII letters only. `Py.IsSpace` follows Python's `str.isspace` list of whitespace code points.
- The `toFixed(6)` text of `#train_info` is the number shown.
- The `fetch` calls are replaced by their replies, given as parameters. Responses arriving out of order, and the async timing, are not modelled.
- Event wiring is not modelled: `bind`, `handleDrop`, `handleDrag`, `uploadCsv` and the PDF export button.
- `getProjectIdFromAppRoot` and `appendTrainLog` are not modelled.
- `static/js/handlers/*.js` and `main.js` are not part of this model. The handlers are an earlier draft whose imports do not resolve. `Preview.js` (renderPreview) is modelled inside `RestoreState.AfterPreview` and the page script's restore.
- The third argument `utils/RestoreState.js` passes to `drawForecast` is ignored there, as it is here.
- `console.log` is not modelled.
- `Plot.js` calls `parseByFormat` and `parseCompactYYYYMMDDTHHMM` without importing them. The model assumes they are in scope.
- ChaosLogic.LocalFractalDimension: the result is a sequence rather than a numpy array.

## Findings

| source | as written | input that shows it | evidently intended | confidence | as-written member | corrected member |
|---|---|---|---|---|---|---|
| static/js/components/Selector.js:13 | renderSelectors calls `labelWrap`, which `Selector.js` neither defines nor imports, so it throws a ReferenceError after emptying `#selectors` | any snapshot with `preview.info`, as every upload saves: restore stops with no `#target` and no boxes, before the sample, preprocess and train stages and the step bar | the `labelWrap` helper the page script defines (`project_view.js:90`), in scope | not executed | RestoreState.PreviewInfoAborts | RestoreState.AfterPreview |
| static/js/utils/RestoreState.js:75 | `drawPP(snap.preprocess.curve)` hands drawPP the curve, which has no `segment`, so reading `data.segment.records` throws | a snapshot with a `preprocess` key and no `preview.info` (with `preview.info` the row above stops restore first): the train stage and the step bar are never reached | `drawPP(snap.preprocess)`, as `project_view.js:316` does | not executed | RestoreState.PreprocessKeyAborts | RestoreState.Restored |
| static/js/utils/RestoreState.js:29-31 | the table is always given `records[0]`..`records[4]`, undefined past the end, and `Table.js:25` reads `r[c]` from each | a snapshot without `preview.info` whose sample has 3 records and one column: the table throws, and restore stops before the sample plot | stop at the number of records | not executed | RestoreState.ShortSampleAborts | RestoreState.ShortSampleShown |
| modules/data/preprocess.py:70-73 | the band `start*(1-pct) <= v <= start*(1+pct)` is empty for a negative start | the series [-1.0, -2.0] with pct 0.05 gives x = [0, 1], y = [0, 0] | the band between the two limits in increasing order: x = [1, 1], y = [-1, 0] | not executed | Preprocess.NegativeSeriesAsWritten | Preprocess.NegativeSeriesOrdered |

The preprocess route (`Preprocess.PreprocessPipeline`, `ProjectPage.RunPreprocess`) keeps the band as the program computes it. `Preprocess.PipelineCurveNonNegative` shows that its curve is the ordered-band curve whenever the target column has no negative value. `Preprocess.PipelineNegativeSeries` shows where the two part.
