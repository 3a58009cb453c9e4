# IEC62209 service: a Dafny model of its sequential core

The IEC62209 service helps validate SAR (specific absorption rate) measurement systems. It has two halves:

- a FastAPI server that keeps sample tables, renders them as CSV-like text and LaTeX report fragments, and wraps a numerical package;
- a qooxdoo single-page client that walks the user through seven steps:
  1. Training Set Generation
  2. Load Training Data / Analysis & Creation
  3. Load Model
  4. Test Set Generation
  5. Confirm Model
  6. Explore Space
  7. Verify

This project models the deterministic parts of both halves and proves what they do. The numerical package, plotting, the transport and the browser are inputs or left out.

## Server

- **Sample tables.** `SampleData.DataSet` and `RouterCommon.DataSet` are classes whose `headings` and `rows` fields the methods reassign, just as `DataSetInterface` in `utils/common.py` and `routers/common.py` updates its attributes in place. Both model clearing, numbering a generated sample with 1-based ids under a `no.` heading, padding columns, and rebuilding a table from a column-major frame. The per-row acceptance scan |ΔSAR| ≤ mpe is written as a loop and proved equal to a predicate.
- **Model guards.** `SampleData.ModelInterface` and `RouterCommon.ModelInterface` are guards over an abstract model slot.
- **Routers.** `TrainingRouter`, `TestRouter` and `Api.TrainingSetGeneration` model the endpoints that reset, read, generate and export the shared sets:
  - the export of the training router pads the stored table in place on every call;
  - the export of `api.py` pads it only once;
  - the test router's export leaves the table alone.
- **Reports.** `Latex`, `TexWriter` and `Tables` build the LaTeX report fragments as sequences of lines:
  - the Pass/Fail cells;
  - the stage-dependent sentences and captions;
  - the line counts that the missing commas in the Python code change;
  - the required-column checks;
  - the per-row Y/N verdict of the sample table.
- **Package metadata.** `Meta` models the version tag, the `Summary:` line and the centred banner.
- **Shared values.** `Cells`, `Text` and `Wrappers` hold the value types and string functions the rest shares: a cell is an integer or a string, and exceptions become `Result`.

## Client

- **Registry and fetch.** `Resources` holds the constant registry of REST endpoints and the outcome of `fetch`: resolve, reject, and how the error message and status are extracted.
- **Widgets.** `Widgets` models the Pass/Fail label, the image viewer, `StepButton` (`isActive`) and `FetchButton` (`fetching`). Each is a class whose property setters run the apply hook only when the value changes, as qooxdoo properties do.
- **Step helpers.** `StepUtils` holds the column aliases, the data table, the model viewer layout, the model editor form, `{timestamp}` substitution and tab pages.
- **Main view.** `MainView.View` holds the seven step tiles, the one active tile, and the gating of four steps on `modelSet`.
- **Steps.** `LoadData`, `ConfirmModel`, `AnalysisCreation`, `SearchSpace` and `ExploreSpace` model the step classes. Each button handler is one method:
  - the reply of the server is a parameter;
  - the request resolves or rejects through `Resources.Fetch`;
  - the busy flag of the button is set before the request and cleared after it.

## Model

| member | source | states |
|---|---|---|
| SampleData.NumberedRoundTrip | server/src/iec62209_service/utils/common.py:120-126 | taking the id column off the numbered rows gives back exactly the value rows, and the ids are 1, 2, ... in row order |
| SampleData.RowAtSpec | server/src/iec62209_service/utils/common.py:142-146 | reading row n succeeds exactly when every column reaches n, and then position k holds column k's n-th value; otherwise an IndexError |
| SampleData.RowsUpToSpec | server/src/iec62209_service/utils/common.py:141-146 | reading the first n rows succeeds exactly when every column has those n values, and then yields them transposed |
| SampleData.TransposeSpec | server/src/iec62209_service/utils/common.py:135-146 | the rows are the columns transposed, as many as the first column is long; no column raises the ill-formed-data error and a shorter column an IndexError |
| SampleData.RowsUpToStep | server/src/iec62209_service/utils/common.py:142-146 | one more pass of the row loop appends exactly the next row, or fails when that row cannot be read |
| SampleData.RowsUpToStaysErr | server/src/iec62209_service/utils/common.py:142-146 | once a row cannot be read, every longer read fails with the same error |
| SampleData.ScanVerdict | server/src/iec62209_service/utils/common.py:337-347 | on rows whose two cells are numbers, the scan accepts exactly when every row's absolute SAR deviation is within its mpe |
| SampleData.BreakHidesLaterError | server/src/iec62209_service/utils/common.py:343-346 | the loop stops at the first rejected row, so a later row that cannot be compared raises nothing |
| SampleData.DataSet.constructor | server/src/iec62209_service/utils/common.py:72-77 | a new dataset has no sample, no headings, no rows and the default config |
| SampleData.DataSet.Clear | server/src/iec62209_service/utils/common.py:79-83 | clearing restores no sample, no headings, no rows and the default config |
| SampleData.DataSet.ToDict | server/src/iec62209_service/utils/common.py:85-89 | the dictionary carries exactly the stored headings and rows |
| SampleData.DataSet.AddColumns | server/src/iec62209_service/utils/common.py:91-98 | without a sample it raises and changes nothing; otherwise the names are appended to the headings, every row gains that many zeros and the sample gains zero columns |
| SampleData.DataSet.Generate | server/src/iec62209_service/utils/common.py:100-127 | the config is reset first; a package error changes nothing else; a non-list sample keeps the new sample but not its rows; otherwise headings and rows are the sample numbered from 1 and the config is the one given |
| SampleData.DataSet.FromDataframe | server/src/iec62209_service/utils/common.py:129-152 | fails exactly when the columns cannot be transposed; otherwise the headings are the keys, the rows the transposed columns, and the config holds twice the area bounds and the row count |
| SampleData.ModelInterface.constructor | server/src/iec62209_service/utils/common.py:185-188 | the interface starts without a model, residuals or fit result |
| SampleData.ModelInterface.Clear | server/src/iec62209_service/utils/common.py:190-196 | clearing forgets the model, the residuals and the fit result |
| SampleData.ModelInterface.MakeModel | server/src/iec62209_service/utils/common.py:327-329 | a fitted model becomes the loaded one; residuals and fit result are kept |
| SampleData.ModelInterface.HasModel | server/src/iec62209_service/utils/common.py:206-211 | true exactly when a model is stored; a lookup that raises answers false |
| SampleData.ModelInterface.RaiseIfNoModel | server/src/iec62209_service/utils/common.py:213-216 | succeeds exactly when a model is loaded, else raises "No model loaded" |
| SampleData.ModelInterface.ComputeResiduals | server/src/iec62209_service/utils/common.py:369-373 | with a model the residuals are the computed ones and the answer is true; without one it raises and keeps them |
| SampleData.ModelInterface.ResidualsTest | server/src/iec62209_service/utils/common.py:375-381 | answers the package's verdicts exactly when a model is loaded and residuals exist; otherwise the no-model or no-residuals error, in that order |
| SampleData.ModelInterface.PlotResiduals | server/src/iec62209_service/utils/common.py:383-388 | a plot exactly when residuals exist, else the no-residuals error (no model check) |
| SampleData.ModelInterface.PlotResidualsImpliesModel | server/src/iec62209_service/utils/common.py:369-388 | residuals only exist beside a model, so a residual plot implies a loaded model |
| SampleData.ModelInterface.DumpModelGuard | server/src/iec62209_service/utils/common.py:312-317 | dumping succeeds exactly when a model exists; no model raises "no model has been created", and an exception of the unguarded lookup propagates unchanged |
| SampleData.ModelInterface.GoodfitTest | server/src/iec62209_service/utils/common.py:349-360 | without a model it raises and keeps the fit result; otherwise the result pairs the training set's acceptance with the package's fit verdict and is stored, or the acceptance scan's error is raised |
| SampleData.ModelInterface.ExploreSpace | server/src/iec62209_service/utils/common.py:390-401 | without a model it raises; otherwise the critical set's headings are the keys plus "sar10g" and "u10g" and its rows the transposed columns with two zeros each |
| SampleData.ReadRow | server/src/iec62209_service/utils/common.py:142-146 | the inner loop builds exactly the row the row function specifies, or its error |
| SampleData.AcceptanceCriteria | server/src/iec62209_service/utils/common.py:337-347 | the loop with its early break answers exactly the specified acceptance of the dataset (true for no dataset) |
| RouterCommon.GenerateResponse | server/src/iec62209_service/routers/training_set_generation.py:56-66 | status 200 with an empty message exactly when generation succeeded, otherwise 500 with the package-exception message |
| RouterCommon.DataSet.constructor | server/src/iec62209_service/routers/common.py:45-48 | a new dataset interface has no headings and no rows |
| RouterCommon.DataSet.Clear | server/src/iec62209_service/routers/common.py:50-52 | clearing empties headings and rows |
| RouterCommon.DataSet.ToDict | server/src/iec62209_service/routers/common.py:54-55 | the dictionary carries exactly the stored headings and rows |
| RouterCommon.DataSet.Generate | server/src/iec62209_service/routers/common.py:57-75 | a valid sample is stored with "no." and 1-based numbers added when absent; a package error or a non-list sample raises and leaves the dataset unchanged |
| RouterCommon.PadAndExport | server/src/iec62209_service/routers/training_set_generation.py:48-53 | the export loop pads each row with k zeros and its text is the headings line followed by one line per padded row |
| RouterCommon.PadRowsZero | server/src/iec62209_service/routers/test_set_generation.py:49-52 | exporting without padding leaves the rows as stored |
| RouterCommon.ModelInterface.constructor | server/src/iec62209_service/routers/common.py:86-87 | the shared work object starts without a model |
| RouterCommon.ModelInterface.HasModel | server/src/iec62209_service/routers/common.py:108-113 | true exactly when a model is loaded |
| RouterCommon.ModelInterface.RaiseIfNoModel | server/src/iec62209_service/routers/common.py:115-118 | succeeds exactly when a model is loaded, else raises "No model loaded" |
| RouterCommon.ModelInterface.GoodfitTest | server/src/iec62209_service/routers/common.py:164-174 | raises without a model; otherwise exactly the two keys, "Pass" iff the fit is good, and the error text ending in "< 25%" or "> 25%" to match |
| RouterCommon.ModelInterface.PlotModel | server/src/iec62209_service/routers/common.py:153-162 | an exception of the unguarded lookup propagates; otherwise a plot comes back exactly when a model is loaded, and without one the method answers None instead of raising |
| RouterCommon.LoadInitSample | server/src/iec62209_service/routers/common.py:120-130 | answers the loaded headings and rows exactly when a non-empty sample was kept; otherwise the package error, "Empty sample" or the empty-file message, in that order |
| TrainingRouter.Reset | server/src/iec62209_service/routers/training_set_generation.py:20-22 | the training set is emptied |
| TrainingRouter.Distribution | server/src/iec62209_service/routers/training_set_generation.py:25-33 | the shared set, a routers/common.py DataSetInterface, has no plot_distribution, so the endpoint always answers 500 with the error text |
| TrainingRouter.Data | server/src/iec62209_service/routers/training_set_generation.py:36-38 | the reply carries exactly the stored headings and rows |
| TrainingRouter.Xport | server/src/iec62209_service/routers/training_set_generation.py:41-53 | the stored headings and rows become the padded ones (in place), and the text lists them line by line |
| TrainingRouter.XportNotIdempotent | server/src/iec62209_service/routers/training_set_generation.py:44-51 | as written, a second export pads again: headings gain "sar10g", "u10g" twice and rows four zeros |
| TrainingRouter.PaddedFixedIdempotent | server/src/iec62209_service/routers/training_set_generation.py:44-51 | with the presence test on the column that is added, exporting twice pads only once |
| TrainingRouter.XportFixed | server/src/iec62209_service/routers/training_set_generation.py:41-53 | the corrected export stores the padded table and lists it line by line |
| TrainingRouter.Generate | server/src/iec62209_service/routers/training_set_generation.py:56-66 | 200 exactly when a list sample was produced, and then the numbered sample is stored; otherwise 500 with the package message and the set unchanged |
| TestRouter.Generate | server/src/iec62209_service/routers/test_set_generation.py:19-28 | 200 exactly when a list sample was produced, and then the numbered sample is stored; otherwise 500 with the package message and the set unchanged |
| TestRouter.Data | server/src/iec62209_service/routers/test_set_generation.py:31-33 | the reply carries exactly the stored headings and rows |
| TestRouter.Distribution | server/src/iec62209_service/routers/test_set_generation.py:36-44 | the shared set, a routers/common.py DataSetInterface, has no plot_distribution, so the endpoint always answers 500 with the error text |
| TestRouter.Xport | server/src/iec62209_service/routers/test_set_generation.py:47-52 | the text is the headings line followed by one line per stored row, unpadded |
| TestRouter.Reset | server/src/iec62209_service/routers/test_set_generation.py:55-57 | the test set is emptied |
| Api.PaddedIdempotent | server/src/iec62209_service/api.py:104-113 | this export tests the column it adds, so padding an already padded table changes nothing |
| Api.TrainingSetGeneration.constructor | server/src/iec62209_service/api.py:81-84 | the store starts with no headings and no rows |
| Api.TrainingSetGeneration.GetData | server/src/iec62209_service/api.py:94-99 | the reply carries exactly the stored headings and rows |
| Api.TrainingSetGeneration.Export | server/src/iec62209_service/api.py:102-114 | the store becomes the padded table (four columns, four zeros per row, only when "sar_1g" is absent) and the text lists it |
| Api.TrainingSetGeneration.Generate | server/src/iec62209_service/api.py:117-151 | the store is emptied first; no config gives 400 "Malformed parameters"; a package error or non-list sample gives 500; otherwise 200 and the numbered sample |
| Meta.ApiPrefixPathTagRoundTrip | server/src/iec62209_service/_meta.py:42-45 | the tag is "v" followed by decimal digits that read back as the major version |
| Meta.FirstSummaryLine | server/src/iec62209_service/_meta.py:54 | the first line starting with "Summary:", none before it, or None when no line does |
| Meta.LastField | server/src/iec62209_service/_meta.py:54 | the colon-free tail of the line that directly follows a colon, so the part after the last colon |
| Meta.LastFieldIsLastPart | server/src/iec62209_service/_meta.py:54 | that tail is the last part of splitting the line on ':' |
| Meta.GetSummary | server/src/iec62209_service/_meta.py:47-55 | the summary from METADATA, from PKG-INFO when METADATA is missing, or "" when reading fails; it never holds a colon |
| Meta.SummaryRoundTrip | server/src/iec62209_service/_meta.py:47-55 | a colon-free summary written after lines without the key is read back exactly |
| Meta.SummaryLosesEarlierFields | server/src/iec62209_service/_meta.py:54 | a summary containing a colon is read back as only its part after the last colon |
| Meta.FinishedBanner | server/src/iec62209_service/_meta.py:57-60 | the message centred in 100 '=' characters: padding on both sides, the right at most one longer |
| Cells.Escape | server/src/iec62209_service/routers/training_set_generation.py:52 | an escaped string holds no line break, so a quoted cell stays on its export line |
| Cells.Repr | server/src/iec62209_service/routers/training_set_generation.py:52 | the repr of any cell is free of line breaks |
| Cells.ListText | server/src/iec62209_service/routers/training_set_generation.py:48-52 | a row's text (its reprs joined by ", ") is one line |
| Cells.IndexOf | server/src/iec62209_service/reports/texwriter.py:202-207 | list.index: the first position holding the value, or none exactly when it is absent |
| Cells.ColumnIndex | server/src/iec62209_service/reports/texwriter.py:202-203 | a heading's first position exactly when it is present, else the ValueError "'x' is not in list" |
| Cells.Exceeds | server/src/iec62209_service/reports/texwriter.py:227 | defined exactly when both cells exist and are numbers, and then true iff the absolute deviation exceeds the mpe |
| Cells.ExportTextJoin | server/src/iec62209_service/routers/test_set_generation.py:49-52 | the export text is the headings line and the row lines joined by line breaks |
| Cells.ExportLines | server/src/iec62209_service/routers/test_set_generation.py:49-52 | splitting the export on line breaks gives back the headings line and one line per row: rows + 1 lines |
| Text.FindFromSpec | client/source/class/sar/steps/Utils.js:442 | the search from a position answers the first occurrence at or after it, or none when there is none |
| Text.FindSpec | client/source/class/sar/steps/Utils.js:442 | indexOf answers the first occurrence, and none exactly when the pattern never occurs |
| Text.NatStr | client/source/class/sar/steps/SearchSpace.js:146-157 | the decimal text of a count is non-empty and all digits |
| Text.NatStrRoundTrip | client/source/class/sar/steps/SearchSpace.js:146-157 | parsing the decimal text of n gives back n |
| Text.LastIndexOf | server/src/iec62209_service/_meta.py:54 | the position of the last occurrence of the separator |
| Text.LastSeparator | server/src/iec62209_service/_meta.py:54 | a separator with none after it is the last one |
| Text.SplitJoin | server/src/iec62209_service/routers/training_set_generation.py:48-53 | lines without the separator, joined by it, split back into exactly those lines |
| Text.JoinSplit | server/src/iec62209_service/_meta.py:54 | joining the parts of a split with the separator gives back the string |
| Text.SplitNonEmpty | server/src/iec62209_service/_meta.py:54 | a split always has a part, so its last part exists |
| Text.JoinCount | server/src/iec62209_service/reports/texwriter.py:237 | n separator-free lines joined hold exactly n - 1 separators |
| Text.Repeat | server/src/iec62209_service/_meta.py:58 | n copies of the fill character |
| Text.CenterLayout | server/src/iec62209_service/_meta.py:58 | a centred text is as wide as asked (or the text), holds the text at the left padding, the fill elsewhere, and the right padding is the left one or one more |
| Latex.PassFailReads | server/src/iec62209_service/reports/texwriter.py:47-49 | "Pass" exactly for true, "Fail" exactly for false, so the word determines the verdict |
| Latex.VerdictAt | server/src/iec62209_service/reports/texwriter.py:54-55 | a row ends in "Pass" and its tail, and reads "Pass" at the verdict position, exactly when the verdict is true; it ends in "Fail" and its tail exactly when it is false |
| Latex.BoldVerdictEnd | server/src/iec62209_service/reports/texwriter.py:54 | a row ends in the bold Pass cell exactly when the verdict is true |
| Latex.MetadataRowRoundTrip | server/src/iec62209_service/reports/texwriter.py:34-38 | the value of a measurement-system row reads back from the row |
| Latex.ModelMetadataShape | server/src/iec62209_service/reports/texwriter.py:30-44 | the table has ten lines, rows 2 to 6 read back the five metadata fields, and line 7 is the tabular end fused with the caption (no comma between them) |
| Latex.FormatCell | server/src/iec62209_service/reports/texwriter.py:213-225 | braces take only strings (a number raises the concatenation TypeError); fixed and percent formats take only numbers (a string raises the format error); plain formatting prints either |
| Latex.RowCells | server/src/iec62209_service/reports/texwriter.py:213-225 | a row's cells format exactly when every cell exists and takes its format; otherwise some cell is missing or refuses it |
| Latex.RowLineVerdict | server/src/iec62209_service/reports/texwriter.py:213-231 | a row line exists exactly when its cells format and its verdict cells compare, and it ends in N exactly when the deviation exceeds the mpe, Y otherwise |
| Latex.RowLines | server/src/iec62209_service/reports/texwriter.py:212-231 | the rows format exactly when each does, one line per row; otherwise the error is the first failing row's |
| Latex.FirstMissing | server/src/iec62209_service/reports/texwriter.py:204-211 | the first required column that is absent, with all earlier ones present, or none when all are present |
| Latex.Positions | server/src/iec62209_service/reports/texwriter.py:204-211 | for present columns, one position per name, each holding that name |
| Latex.LocateColumns | server/src/iec62209_service/reports/texwriter.py:201-211 | succeeds exactly when every required column is present, and then locates them; a missing mpe10g or sard10g raises the list error first, any other the builder's own message for the first missing one |
| Latex.SampleTableLines | server/src/iec62209_service/reports/texwriter.py:183-237 | a missing column is raised unchanged; a table has 17 fixed lines plus one per row, opening with the centre environment and closing the longtable and centre |
| Latex.FindColumns | server/src/iec62209_service/reports/texwriter.py:204-211 | the lookup loop answers the positions of the required columns exactly when all are present, else the message for the first missing one |
| Latex.FirstMissingIs | server/src/iec62209_service/reports/texwriter.py:205-210 | the first absent required column is the one reported |
| Latex.FormatRows | server/src/iec62209_service/reports/texwriter.py:212-231 | the row loop produces exactly the specified row lines, or the first row's error |
| Latex.WriteSampleTable | server/src/iec62209_service/reports/texwriter.py:177-237 | the builder answers exactly the specified table text |
| Latex.SampleTableVerdicts | server/src/iec62209_service/reports/texwriter.py:212-231 | the table is built exactly when the columns are present and every row formats, and then line 15 + i is row i's line, ending in N exactly when that row fails the acceptance test |
| TexWriter.StageMember | server/src/iec62209_service/reports/texutils.py:6-9 | only CREATION, CONFIRMATION and VALIDATION name a stage; any other name raises the AttributeError |
| TexWriter.NoVerificationStage | server/src/iec62209_service/reports/texwriter.py:22 | ReportStage.VERIFICATION raises the AttributeError |
| TexWriter.VerbDistinct | server/src/iec62209_service/reports/texwriter.py:17 | success and failure read differently |
| TexWriter.WriteOneLineSummary | server/src/iec62209_service/reports/texwriter.py:15-28 | as written, the summary raises exactly for the third stage, whose test names the missing VERIFICATION member; for the other stages it is the intended sentence |
| TexWriter.OneLineSummary | server/src/iec62209_service/reports/texwriter.py:15-28 | the sentence opens with the lead and the success verb and closes with the braces and a line break |
| TexWriter.OneLineSummaryValidated | server/src/iec62209_service/reports/texwriter.py:22-27 | the sentence claims the system validated exactly for a successful third stage |
| TexWriter.CreationSummaryVerdicts | server/src/iec62209_service/reports/texwriter.py:46-61 | nine lines; the acceptance row reads Pass exactly when the data were accepted and the fitting row exactly when the fit is good |
| TexWriter.SimilarityRowVerdicts | server/src/iec62209_service/reports/texwriter.py:74 | the location cell reads Pass exactly when location is ok, the scale cell exactly when scale is ok |
| TexWriter.ConfirmationSummaryVerdicts | server/src/iec62209_service/reports/texwriter.py:63-78 | eight lines; acceptance and normality rows read Pass exactly on their verdicts, and the similarity row is the two-verdict row |
| TexWriter.VerificationSummaryVerdict | server/src/iec62209_service/reports/texwriter.py:80-90 | six lines; the acceptance row reads Pass exactly when accepted and Fail exactly when not |
| TexWriter.StageWordDistinct | server/src/iec62209_service/reports/texwriter.py:93 | each stage has its own caption word |
| TexWriter.MetadataAttribute | server/src/iec62209_service/utils/common.py:47-55 | reading a ModelMetadata attribute fails exactly for names the class does not declare, with the AttributeError |
| TexWriter.WriteSampleParametersTex | server/src/iec62209_service/reports/texwriter.py:92-111 | as written, the builder raises for every input: modelAreaX is not an attribute of ModelMetadata |
| TexWriter.SampleParametersShape | server/src/iec62209_service/reports/texwriter.py:92-111 | with the area given, the table has the size row exactly outside the third stage, the stage's caption and the area row |
| TexWriter.OutcomeCriticalCount | server/src/iec62209_service/reports/texwriter.py:113-125 | the critical-case row holds the count in decimal digits that read back as the count |
| TexWriter.SampleAcceptanceVerdict | server/src/iec62209_service/reports/texwriter.py:127-137 | six lines; the acceptance row reads Pass (not bold) exactly when accepted |
| TexWriter.ModelFittingVerdict | server/src/iec62209_service/reports/texwriter.py:139-150 | six lines; the fitting row reads Pass exactly when the fit is good |
| TexWriter.NormalityVerdict | server/src/iec62209_service/reports/texwriter.py:152-162 | six lines; the normality row reads Pass exactly when normality holds |
| TexWriter.SimilarityVerdicts | server/src/iec62209_service/reports/texwriter.py:164-175 | six lines; the similarity row reads Pass at its location cell exactly when the location test passed, and at its end exactly when the scale test passed |
| TexWriter.WriteSampleTableTex | server/src/iec62209_service/reports/texwriter.py:177-237 | the sample table of a dataset, with the stage's caption and the "Dataset must contain" message for a missing column |
| Tables.FittingComparatorAlwaysLess | server/src/iec62209_service/reports/tables.py:33 | as written, the fitting row shows "<" whatever the verdict, even on a row reading Fail |
| Tables.FittingRowAsWrittenReads | server/src/iec62209_service/reports/tables.py:33 | as written, the fitting row still reads Pass exactly when the fit is good |
| Tables.FittingRowConsistent | server/src/iec62209_service/reports/tables.py:33 | with the comparator taken from the verdict, "<" appears exactly when the fit is good and exactly when the row reads Pass |
| Tables.CreationSummaryVerdicts | server/src/iec62209_service/reports/tables.py:24-39 | as written: nine lines; the acceptance and fitting rows read Pass exactly on their own verdicts, and the fitting row shows "<" whatever the fit |
| Tables.CreationSummaryIntendedVerdicts | server/src/iec62209_service/reports/tables.py:24-39 | as intended, with the comparator taken from the verdict: the same nine lines and verdicts, and "<" exactly when the fit is good |
| Tables.SampleParametersShape | server/src/iec62209_service/reports/tables.py:41-54 | nine lines: the size row and the tabular end fuse on one line (no comma between them) and the caption says "relevant" |
| Tables.CreationAcceptanceVerdict | server/src/iec62209_service/reports/tables.py:56-66 | six lines; the acceptance row reads Pass exactly when accepted |
| Tables.ModelFittingVerdict | server/src/iec62209_service/reports/tables.py:68-79 | as written: six lines; the row reads Pass exactly when the fit is good, and shows "<" whatever the fit |
| Tables.ModelFittingIntendedVerdict | server/src/iec62209_service/reports/tables.py:68-79 | as intended: six lines; the row reads Pass and shows "<" exactly when the fit is good |
| Tables.WriteSampleTableTex | server/src/iec62209_service/reports/tables.py:81-134 | the sample table with this builder's caption and label, formats, and the list error for a missing column |
| Resources.Route | client/source/class/sar/io/Resources.js:54-75 | a route keeps its verb, and its URL lies under the resource's path and ends with the leaf |
| Resources.RouteWellFormed | client/source/class/sar/io/Resources.js:54-75 | a GET or POST route is well formed: a known verb and an absolute URL |
| Resources.SetGenerationWellFormed | client/source/class/sar/io/Resources.js:54-79 | every endpoint of a set-generation resource is well formed |
| Resources.LoadWellFormed | client/source/class/sar/io/Resources.js:81-94 | every endpoint of a load resource is well formed |
| Resources.AnalysisCreationWellFormed | client/source/class/sar/io/Resources.js:96-129 | every analysis-creation endpoint is well formed |
| Resources.ConfirmModelWellFormed | client/source/class/sar/io/Resources.js:188-213 | every confirm-model endpoint is well formed |
| Resources.RegistryEntry | client/source/class/sar/io/Resources.js:48-243 | each registered resource is one of the set-generation, load, analysis or confirm families, or empty |
| Resources.RegistryWellFormed | client/source/class/sar/io/Resources.js:48-243 | every endpoint of every registered resource is well formed |
| Resources.EmptyResources | client/source/class/sar/io/Resources.js:215-243 | searchSpace and verify register no endpoint, and they are the only resources that do not |
| Resources.GetEndPoints | client/source/class/sar/io/Resources.js:319-321 | the endpoints of a registered resource; reading them for an unknown one throws the read-of-undefined TypeError |
| Resources.EndPointUrl | client/source/class/sar/io/Resources.js:319-321 | a URL exactly when resource and endpoint are both registered; an unknown resource or endpoint throws on reading endpoints or url |
| Resources.ConfirmPlotUrls | client/source/class/sar/io/Resources.js:194-201 | the QQ and deviations plots are served from /confirm-model/qqplot and /confirm-model/deviations |
| Resources.AnalysisCreationRegistered | client/source/class/sar/io/Resources.js:96-129 | analysisCreation is registered with its seven endpoints |
| Resources.SemivariogramRoute | client/source/class/sar/io/Resources.js:106-109 | the semivariogram is served from /analysis-creation/variogram |
| Resources.VariogramUrls | client/source/class/sar/io/Resources.js:96-129 | analysisCreation has no getVariogram (reading its url throws) but has getSemivariogram |
| Resources.DistributionUrl | client/source/class/sar/io/Resources.js:215-218 | searchSpace has no getDistribution, so reading its url throws |
| Resources.ErrorOutcome | client/source/class/sar/io/Resources.js:293-313 | a failed request rejects with the first log message or the response, or the fallback text when empty, and a status only when non-zero |
| Resources.Extracted | client/source/class/sar/io/Resources.js:293-304 | without an error payload the request's response and status; with one, its status, and a non-empty message only from its first log entry |
| Resources.Fetch | client/source/class/sar/io/Resources.js:262-317 | a fetch resolves only on a successful reply, with its response unchanged, and always does so for a registered resource and endpoint; every rejection carries a non-empty message |
| Resources.FetchOutcomes | client/source/class/sar/io/Resources.js:262-317 | a fetch resolves exactly when resource and endpoint are registered and the request succeeds, with its response; an unknown resource rejects as not defined; a rejection always has a message |
| Resources.UnregisteredCallsReject | client/source/class/sar/io/Resources.js:315 | search and export of searchSpace, and create of trainingSetGeneration, reject with the not-a-function TypeError whatever the reply |
| Resources.AnalysisRequestsResolve | client/source/class/sar/io/Resources.js:96-105 | a successful create or export of analysisCreation resolves with the reply's response |
| Widgets.PassFailRule | client/source/class/sar/steps/Utils.js:395-411 | a decorated label turns blue exactly when its value contains "Pass", and red exactly when it contains "Fail" but not "Pass" |
| Widgets.Label.constructor | client/source/class/sar/steps/Utils.js:395-400 | a new label is empty with the default colour, decorated or not |
| Widgets.Label.SetValue | client/source/class/sar/steps/Utils.js:401-410 | the value is set; a decorated label takes the Pass/Fail colour of it, a plain one keeps its colour |
| Widgets.Label.ResetValue | client/source/class/sar/steps/Utils.js:401-410 | the value is cleared; a decorated label returns to the default colour |
| Widgets.Image.constructor | client/source/class/sar/steps/Utils.js:429-438 | a viewer created without a source shows nothing |
| Widgets.Image.SetSource | client/source/class/sar/steps/ConfirmModel.js:237-245 | the viewer shows exactly the URL given |
| Widgets.Image.ResetSource | client/source/class/sar/steps/ConfirmModel.js:251-253 | the viewer shows nothing |
| Widgets.IconOffset | client/source/class/sar/widget/StepButton.js:47 | 5 exactly when the icon is an svg, 0 otherwise |
| Widgets.StepButton.constructor | client/source/class/sar/widget/StepButton.js:17-74 | inactive, white and enabled; an image exactly when an icon is given, 100 - offset by 52 - offset; a label exactly when a text is given, 100 wide |
| Widgets.StepButton.SetIsActive | client/source/class/sar/widget/StepButton.js:76-89 | the flag is set and the background is purple exactly when active; enablement is kept |
| Widgets.StepButton.SetEnabled | client/source/class/sar/widget/MainView.js:178 | the tile's enablement is set; its active mark and background are kept |
| Widgets.FetchButton.constructor | client/source/class/sar/widget/FetchButton.js:17-24 | a new button is idle and enabled with its icon and no spinner |
| Widgets.FetchButton.SetFetching | client/source/class/sar/widget/FetchButton.js:29-52 | setting the same value changes nothing; becoming busy saves the icon and shows the rotating spinner; becoming idle restores the saved icon and stops the rotation; an attached button is enabled exactly when idle |
| Widgets.FetchButton.SetEnabled | client/source/class/sar/steps/ConfirmModel.js:228 | the button's enablement is set; its busy flag, icons and rotation are kept |
| Widgets.FetchButton.FetchCycle | client/source/class/sar/widget/FetchButton.js:29-52 | a busy-then-idle cycle leaves the button idle, with its own icon and no rotation, and enabled when attached |
| StepUtils.FirstAlias | client/source/class/sar/steps/Utils.js:94-95 | the first alias entry listing the id, none before it, or none at all |
| StepUtils.AliasIn | client/source/class/sar/steps/Utils.js:94-99 | an id no entry lists is shown as itself; otherwise as the caption of the first entry listing it |
| StepUtils.NumberAliases | client/source/class/sar/steps/Utils.js:23-99 | "number" and "no." are both shown as "no.", and an unknown id as itself |
| StepUtils.AliasLabels | client/source/class/sar/steps/Utils.js:115-119 | the heading loop yields exactly the alias of each heading, in order |
| StepUtils.DataTable.constructor | client/source/class/sar/steps/Utils.js:102-110 | a new table has no model, no columns and no rows |
| StepUtils.DataTable.Populate | client/source/class/sar/steps/Utils.js:112-128 | a fresh model with the aliased columns, each 70 wide, and the reply's rows or none |
| StepUtils.DataTable.Empty | client/source/class/sar/steps/Utils.js:130-134 | the rows are cleared exactly when the table has a model; columns are kept |
| StepUtils.SetTimestampOnQuery | client/source/class/sar/steps/Utils.js:441-443 | a URL without "{timestamp}" is unchanged; otherwise its first occurrence is replaced by the time in decimal |
| StepUtils.TimestampOnlyFirst | client/source/class/sar/steps/Utils.js:441-443 | with no brace before the mark, exactly that mark is replaced and the rest, later marks included, is kept |
| StepUtils.ViewerFields | client/source/class/sar/steps/Utils.js:286-314 | six fields, and two more (acceptance and error) in the long form |
| StepUtils.PlaceFieldStep | client/source/class/sar/steps/Utils.js:315-335 | placing one more field keeps the grid a correct viewer grid of the fields so far |
| StepUtils.PlaceFields | client/source/class/sar/steps/Utils.js:315-335 | the field loop builds a grid with each field's caption in column 0 at its row after the title, and a value label, decorated for the two result fields, exactly when the model has a non-empty value |
| StepUtils.ModelViewer | client/source/class/sar/steps/Utils.js:269-337 | the viewer grid of the short or long field list for the model |
| StepUtils.NewViewer | client/source/class/sar/steps/Utils.js:269-337 | a panel showing that viewer for the model |
| StepUtils.Form.constructor | client/source/class/sar/steps/Utils.js:225 | a new form has no items |
| StepUtils.Form.Add | client/source/class/sar/steps/Utils.js:226-250 | adding appends exactly that item |
| StepUtils.Form.AddMeasurementArea | client/source/class/sar/steps/Utils.js:339-353 | the header and the two area spinners are appended |
| StepUtils.MeasurementAreaBounds | client/source/class/sar/steps/Utils.js:339-353 | x spins in [80, 1000] from 100 and y in [160, 1000] from 200, keyed modelArea or measArea by the flag |
| StepUtils.FormValues | client/source/class/sar/steps/Utils.js:224-256 | the form's values are keyed by exactly the keys of its non-header items |
| StepUtils.FormValuesAppend | client/source/class/sar/steps/Utils.js:224-256 | the values of a form built in two parts are the first part's overridden by the second's |
| StepUtils.ModelInformationValues | client/source/class/sar/steps/Utils.js:226-250 | the model-information section yields the six default texts under their keys |
| StepUtils.MeasurementAreaValues | client/source/class/sar/steps/Utils.js:339-353 | the area section yields 100 and 200 under the two keys the flag chooses |
| StepUtils.ModelEditorValues | client/source/class/sar/steps/Utils.js:224-257 | the model editor's values are exactly the six default texts plus modelAreaX 100 and modelAreaY 200 |
| StepUtils.CreateTabPage | client/source/class/sar/steps/Utils.js:413-427 | the page has the title and a tab button at least ten pixels per title character |
| MainView.FourGatedSteps | client/source/class/sar/widget/MainView.js:170-176 | exactly four steps, Test Set Generation, Confirm Model, Explore Space and Verify (tiles 3 to 6), follow the loaded model |
| MainView.SectionColumns | client/source/class/sar/widget/MainView.js:78-102 | the column loop puts each section header at the sum of the spans before it |
| MainView.SectionLayout | client/source/class/sar/widget/MainView.js:78-102 | the headers sit at columns 0, 2, 3 and 5 and together span the seven step tiles |
| MainView.NewTile | client/source/class/sar/widget/MainView.js:136 | a new step tile is inactive and enabled |
| MainView.View.constructor | client/source/class/sar/widget/MainView.js:17-26 | seven enabled tiles, the first active and shown, and no step holds a model |
| MainView.View.Tap | client/source/class/sar/widget/MainView.js:139-146 | tapping an enabled tile shows its step and makes it the only active tile; enablement and models are kept |
| MainView.View.OnModelSet | client/source/class/sar/widget/MainView.js:168-181 | the four gated steps receive the model and their tiles are enabled exactly when it is set; the other steps, the shown step and the active tile are untouched |
| MainView.View.InitModel | client/source/class/sar/widget/MainView.js:185-190 | the Load Model step's model is set to null; nothing else changes |
| MainView.ActiveAfterModelSet | client/source/class/sar/widget/MainView.js:168-181 | a model change keeps the active tile, and an active gated tile is disabled when the model is cleared |
| LoadData.LoadResourcesRegistered | client/source/class/sar/steps/LoadTrainingData.js:39-49 | each table-loading step's resource is registered with a POST load and a GET resetData under its own path |
| LoadData.LoadModelRegistered | client/source/class/sar/steps/LoadModel.js:51-61 | loadModel is registered with a POST load under /model |
| LoadData.DataView.constructor | client/source/class/sar/steps/LoadData.js:37-83 | the file input and the reset row are shown, no file is selected or named, and the table is empty without a model |
| LoadData.DataView.ApplyStepData | client/source/class/sar/steps/LoadData.js:105-119 | data hides the file input, shows the reset row and fills the table; no data shows the input, hides the row and empties the table's rows when it has a model |
| LoadData.DataView.SelectionChanged | client/source/class/sar/steps/LoadData.js:55-60 | the selected file is recorded and its name shown only when a file was chosen |
| LoadData.LoadTableStep.constructor | client/source/class/sar/steps/LoadData.js:18-25 | a new step has no data, no events, no requests and no model, with the file input and reset row shown |
| LoadData.LoadTableStep.SetStepData | client/source/class/sar/steps/LoadTrainingData.js:52-56 | setting null over null changes nothing; any other setting applies the data to the view and fires the step's data event with it |
| LoadData.LoadTableStep.ResetPressed | client/source/class/sar/steps/LoadTrainingData.js:46-49 | the data becomes null (an event only when it was set) and the resource's resetData is requested |
| LoadData.LoadTableStep.PressResetAsWritten | client/source/class/sar/steps/LoadData.js:47-50 | as written, the reset button's handler throws at fileInput.resetValue(), which the file input does not define, before the reset runs |
| LoadData.LoadTableStep.PressReset | client/source/class/sar/steps/LoadData.js:47-50 | the intended reset clears the file selection, clears the data and requests resetData |
| LoadData.LoadTableStep.SelectFile | client/source/class/sar/steps/LoadTrainingData.js:28-43 | choosing a file posts it to the resource's load URL and shows its name; an accepted upload becomes the step data and fires the event; a refused one changes nothing; no file does nothing |
| LoadData.LoadTableStep.SetModel | client/source/class/sar/steps/LoadTestData.js:54-60 | the model is recorded; only the test-data step replaces its model viewer (the third option), keeping the other two |
| LoadData.LoadModelStep.constructor | client/source/class/sar/steps/LoadModel.js:42-49 | no data, no modelSet events, no requests, and an empty long model viewer as the third option |
| LoadData.LoadModelStep.SetStepData | client/source/class/sar/steps/LoadModel.js:63-73 | a change fires modelSet with the reply's metadata or null; a reply with metadata replaces the viewer, anything else keeps it |
| LoadData.LoadModelStep.ResetPressed | client/source/class/sar/steps/LoadModel.js:58-61 | the data becomes null (modelSet null only when it was set) and loadModel's resetData is requested |
| LoadData.LoadModelStep.SelectFile | client/source/class/sar/steps/LoadModel.js:30-55 | choosing a file posts it to loadModel's load URL; an accepted reply becomes the data and fires modelSet with its metadata; a refused one changes nothing |
| LoadData.LoadThenReset | client/source/class/sar/steps/LoadModel.js:51-73 | loading a model and resetting fires modelSet with the model and then null, and shows the file input again |
| ConfirmModel.ResultValues | client/source/class/sar/steps/ConfirmModel.js:153-164 | one entry per result key, present exactly when the reply has the key, and then its value |
| ConfirmModel.ResetLabels | client/source/class/sar/steps/ConfirmModel.js:247-249 | every value label is emptied, and a decorated one returns to the default colour |
| ConfirmModel.ResetImages | client/source/class/sar/steps/ConfirmModel.js:251-253 | every image loses its source |
| ConfirmModel.ShowResults | client/source/class/sar/steps/ConfirmModel.js:153-164 | each label shows the reply's value for its key when present and keeps its value otherwise |
| ConfirmModel.NewResultLabels | client/source/class/sar/steps/ConfirmModel.js:116-143 | four distinct, empty, Pass/Fail-decorated value labels |
| ConfirmModel.NewReportButton | client/source/class/sar/steps/Utils.js:445-448 | the report button starts disabled and idle |
| ConfirmModel.ConfirmStep.constructor | client/source/class/sar/steps/ConfirmModel.js:43-212 | no model, an empty short viewer with title, cleared labels and images, report disabled, confirm enabled |
| ConfirmModel.ConfirmStep.ResetResults | client/source/class/sar/steps/ConfirmModel.js:255-259 | labels cleared to the default colour, images without source, report disabled; the confirm button is untouched |
| ConfirmModel.ConfirmStep.SetModel | client/source/class/sar/steps/ConfirmModel.js:215-225 | setting the model replaces the viewer (not null over null); clearing a set model also resets all results |
| ConfirmModel.ConfirmStep.Confirm | client/source/class/sar/steps/ConfirmModel.js:148-169 | the button ends idle with its icon; a resolved confirm shows the values for the four keys, enables the report and points the two plots at their URLs; a rejected one leaves labels cleared and the rest as it was |
| ConfirmModel.ConfirmStep.Request | client/source/class/sar/steps/ConfirmModel.js:150-167 | the labels are reset, the request is made, and the reply is applied as in the handler's then; the confirm button is untouched |
| ConfirmModel.ConfirmStep.Respond | client/source/class/sar/steps/ConfirmModel.js:152-166 | from cleared labels, the labels show the reply's values, the report is enabled and the plots get their URLs |
| ConfirmModel.ConfirmStep.ModelConfirmed | client/source/class/sar/steps/ConfirmModel.js:227-245 | the report is enabled and the QQ and deviations images point at /confirm-model/qqplot and /confirm-model/deviations; the labels are kept |
| AnalysisCreation.ResultText | client/source/class/sar/steps/AnalysisCreation.js:102-107 | a label shows the reply's value for its key, or stays empty when the key is absent |
| AnalysisCreation.LabelEntry | client/source/class/sar/steps/AnalysisCreation.js:132-133 | a label's value goes into the payload as a string exactly when it has one |
| AnalysisCreation.ExportPayload | client/source/class/sar/steps/AnalysisCreation.js:128-133 | the payload holds every form key plus the two result keys; the result keys carry the labels' values and every other key its form value |
| AnalysisCreation.ResultKeysAreNew | client/source/class/sar/steps/AnalysisCreation.js:128-133 | the model editor has no key named acceptanceCriteria or normalizedRMSError, so the labels add entries rather than overwrite form values |
| AnalysisCreation.DefaultExportPayload | client/source/class/sar/steps/AnalysisCreation.js:115-133 | exporting the untouched editor sends filename Model.json, modelAreaX 100, modelAreaY 200 and the two label values |
| AnalysisCreation.NewExportButton | client/source/class/sar/steps/AnalysisCreation.js:123-125 | the export button starts disabled and idle |
| AnalysisCreation.NewEditor | client/source/class/sar/steps/AnalysisCreation.js:115 | the editor holds exactly the model editor's items |
| AnalysisCreation.PopulateAsWritten | client/source/class/sar/steps/AnalysisCreation.js:152-184 | `__populateVariogramImage` always throws: an unregistered name fails at reading its url, and a registered one at calling setSource on the tab page that line 166 stored |
| AnalysisCreation.RenamedKeyStillThrows | client/source/class/sar/steps/AnalysisCreation.js:152-184 | renaming the key to getSemivariogram alone still throws, at the page's missing setSource; getVariogram throws at the url read |
| AnalysisCreation.AnalysisStep.constructor | client/source/class/sar/steps/AnalysisCreation.js:27-170 | empty labels, no variogram, create enabled and export disabled, the default editor, nothing sent or downloaded |
| AnalysisCreation.AnalysisStep.Create | client/source/class/sar/steps/AnalysisCreation.js:96-112 | the button ends idle with its icon; a resolved create shows the two results (empty when missing) and enables export, but the variogram keeps its source because the `then` throws and the `catch` swallows it; a rejected one leaves both labels empty and export as it was |
| AnalysisCreation.AnalysisStep.AnalyzeAsWritten | client/source/class/sar/steps/AnalysisCreation.js:98-110 | the request, then on a reply the results and export enabled while the plot keeps its source, the thrown error being dropped; the create button is untouched |
| AnalysisCreation.AnalysisStep.CreateAsIntended | client/source/class/sar/steps/AnalysisCreation.js:96-112 | the same handler with the intended `__trainingDataAnalyzed`: a resolved create also shows /analysis-creation/variogram in the variogram viewer |
| AnalysisCreation.AnalysisStep.RequestAnalysis | client/source/class/sar/steps/AnalysisCreation.js:98-107 | the labels are emptied, the request is made, and a reply's results are shown; export, the plot and the create button are untouched |
| AnalysisCreation.AnalysisStep.TrainingDataAnalyzedAsWritten | client/source/class/sar/steps/AnalysisCreation.js:172-184 | as written, export is enabled, then reading getVariogram, which analysisCreation does not register, throws; the plot, the labels and the create button keep their state |
| AnalysisCreation.AnalysisStep.TrainingDataAnalyzed | client/source/class/sar/steps/AnalysisCreation.js:152-184 | as intended (the image viewer kept as `__variogramImage`, and the registered getSemivariogram read), export is enabled and the viewer shows /analysis-creation/variogram; the labels are kept |
| AnalysisCreation.AnalysisStep.Export | client/source/class/sar/steps/AnalysisCreation.js:126-141 | the payload of the form and labels is sent; a resolved export downloads the reply as Model.json, a rejected one nothing; the button ends idle and enabled |
| AnalysisCreation.AnalysisStep.SendExport | client/source/class/sar/steps/AnalysisCreation.js:128-138 | one export request carries the form-and-label payload, and the reply alone decides the download |
| AnalysisCreation.CreateThenExport | client/source/class/sar/steps/AnalysisCreation.js:96-141 | after a create whose reply has the acceptance result, the next export sends that result as acceptanceCriteria and filename Model.json |
| SearchSpace.CriticalsText | client/source/class/sar/steps/SearchSpace.js:146-157 | the label shows text exactly when the reply has rows; the text is all digits and reads back as the number of rows |
| SearchSpace.CriticalsEvents | client/source/class/sar/steps/SearchSpace.js:146-157 | at most one criticalsFound event, fired exactly when the label shows a count, carrying that count |
| SearchSpace.NewExportButton | client/source/class/sar/steps/SearchSpace.js:98-100 | the export button starts disabled and idle |
| SearchSpace.SearchStep.constructor | client/source/class/sar/steps/SearchSpace.js:27-136 | no model, an empty short viewer, empty count and plot, an empty table, search enabled, export disabled, no events or downloads |
| SearchSpace.SearchStep.SetModel | client/source/class/sar/steps/SearchSpace.js:138-144 | setting the model (not null over null) replaces the viewer at the top of the options and keeps the results |
| SearchSpace.SearchStep.Search | client/source/class/sar/steps/SearchSpace.js:56-66 | the count and plot are reset; the search always rejects (searchSpace registers no search), so no count, no event, export and table as before, and the button ends idle |
| SearchSpace.SearchStep.Searched | client/source/class/sar/steps/SearchSpace.js:58-65 | a rejection changes nothing; a resolution enables export, shows the count and fires its event |
| SearchSpace.SearchStep.SpaceSearched | client/source/class/sar/steps/SearchSpace.js:146-157 | export is enabled, the count and its event follow the rows, the reply fills the table, and the plot's URL read throws |
| SearchSpace.SearchStep.ShowCount | client/source/class/sar/steps/SearchSpace.js:148-155 | the label shows the row count and criticalsFound fires with it, or the label is reset when there are no rows |
| SearchSpace.SearchStep.FetchResults | client/source/class/sar/steps/SearchSpace.js:159-174 | a reply fills the table; reading getDistribution, which searchSpace does not register, throws |
| SearchSpace.SearchStep.Export | client/source/class/sar/steps/SearchSpace.js:101-108 | the export always rejects (searchSpace registers no xport), so nothing is downloaded and the button ends idle and enabled |
| SearchSpace.SearchStep.Exported | client/source/class/sar/steps/SearchSpace.js:176-178 | a resolved export is downloaded as SearchSpace.csv; a rejection downloads nothing |
| ExploreSpace.NewExportButton | client/source/class/sar/steps/ExploreSpace.js:47-49 | the export button starts disabled and idle |
| ExploreSpace.ExploreStep.constructor | client/source/class/sar/steps/ExploreSpace.js:17-94 | an empty table, no plot, search enabled, export disabled, no downloads |
| ExploreSpace.ExploreStep.Search | client/source/class/sar/steps/ExploreSpace.js:36-44 | the search always rejects (searchSpace registers no search): export, table and plot as before, and the button ends idle |
| ExploreSpace.ExploreStep.Searched | client/source/class/sar/steps/ExploreSpace.js:38-43 | a rejection keeps export and table; a resolution enables export and fills the table |
| ExploreSpace.ExploreStep.SpaceSearched | client/source/class/sar/steps/ExploreSpace.js:96-107 | export is enabled, a reply fills the table, and reading getDistribution throws |
| ExploreSpace.ExploreStep.ExportAsWritten | client/source/class/sar/steps/ExploreSpace.js:50-56 | as written, the export makes the search button busy, disabled and spinning and never clears it; the export button is unchanged and nothing is downloaded |
| ExploreSpace.ExploreStep.Export | client/source/class/sar/steps/ExploreSpace.js:50-56 | the intended export makes its own button busy, downloads a resolved reply as SearchSpace.csv and ends with the button idle and enabled |
| ExploreSpace.ExploreStep.Exported | client/source/class/sar/steps/ExploreSpace.js:118-120 | a resolved export is downloaded as SearchSpace.csv; a rejection downloads nothing |
| ExploreSpace.ExportThenSearchable | client/source/class/sar/steps/ExploreSpace.js:36-56 | after the intended export the search button is still usable; after the export as written it is not |

## Left out

- The `iec62209` numerical package is not part of this model. Sample generation, model fitting, the goodness-of-fit and residual tests, and space exploration are inputs (`Generated`, `ModelSlot`, `Goodfit`, `ResidualOutcome`). pandas data frames are inputs as well, as a sequence of columns with the two coordinate maxima.
- Plotting (`fig2png`, the `plot_*` methods, matplotlib) is left out. A plot endpoint is modelled only through its guards and error answers.
- Floating point is left out. Table cells are integers or strings. A `:.kf` format of a number renders its integer digits followed by `k` zeros. Python's `str` of a string is modelled as quoting with newline and backslash escaping, without Python's choice between quote characters.
- Reading package metadata through `pkg_resources` is an input (`Meta.MetadataRead`). The subprocess, filesystem and packaging code (`texutils.typeset`, `routers/meta.py`, `settings.py`, `setup.py`) is not part of this model.
- HTTP transport and asynchrony are left out. A request is one atomic step whose reply (`Resources.Reply`) is a parameter. In-flight requests do not overlap. Promise timing, `console.error` and the flash messages are not modelled.
- Downloads, the report button's fetch and Blob handling, and the file upload through `XMLHttpRequest` are recorded as values: a `Download`, a `Request`, or an `Upload` reply.
- Widget layout is modelled only as far as the options column's order, the model viewer's grid and the step tiles' columns. Fonts, sizes other than the step button icon, theming, `InfoPage`, `IntroPage`, `FlashMessage`, `LargeCard` and `Application` are not part of this model.
- `FileInput` is reduced to the selected file and its name. User edits of the model editor form are not modelled: the form holds its default items.
- The fixed-value forms of `TrainingSetGeneration.js`, `TestSetGeneration.js` and `Verify.js`, and the thin routers (`analysis_creation.py`, `load_*.py`, `verify.py`, `search_space.py`, `confirm_model.py`), are not part of this model.
- Import-time failures of `texwriter.py` (the missing `Residuals` class) are not reproduced. The report stage is a three-valued enum. The two attribute errors it causes at call time are modelled (see Findings).
- JavaScript object identity is left out: a reply is a value, so the table and the labels cannot alias it.
- `SearchSpace.js:128` and `LoadData.js:79` call `_createDataView`, and `SearchSpace.js:168` and `LoadData.js:90,94` use `_dataTable`. Neither is defined in these files, in `StepBase.js` or anywhere else in the client. As written, the constructor of every `LoadData` subclass and of `SearchSpace` therefore throws `this._createDataView is not a function`: `StepBase.js:30` builds the layout, whose `_createResults` reaches that call. The model assumes the table exists, so `SearchSpace.SearchStep.table`, `LoadData.DataView` and its `ApplyStepData`, and the `SetStepData`, `ResetPressed`, `PressReset` and `SelectFile` methods of `LoadData.LoadTableStep` are built on a table the code never creates. The members below are stated for the program with the table in place.
- `MainView.View.constructor`: states the seven tiles, all enabled and the first active, but as written the constructor throws at `MainView.js:118`, where `new sar.steps.LoadModel()` reaches the missing `_createDataView`, so the application never gets its main view.
- `LoadData.LoadModelStep.SetStepData`: states the metadata viewer and the `modelSet` event, but as written the base apply at `LoadModel.js:64` fills or empties the missing `_dataTable` and throws before `modelSet` fires at `LoadModel.js:72`.
- `LoadData.LoadModelStep.ResetPressed`: states `modelSet(null)` and the resetData request, but as written clearing set data goes through the base apply's `__emptyTable` on the missing table and throws before resetData is requested.
- `LoadData.LoadModelStep.SelectFile`: states that an accepted reply becomes the step data, but as written that reaches the same throwing apply at `LoadModel.js:64`.
- `LoadData.LoadThenReset`: states that `modelSet` carries the metadata and then null, but as written neither event fires, because both applies throw on the missing table first.
- The search-space resource registers no endpoints (`Resources.js:215-218`). Every search and export of `SearchSpace` and `ExploreSpace` therefore rejects, and their `then` branches are modelled as separate methods (`Searched`, `SpaceSearched`, `Exported`) for any reply.
- `ExploreSpace.js:53` calls `__searchSpaceExported`, which that class does not define. Because the export always rejects, this cannot be observed. The intended handler saves the reply as `__testDataExported` does.
- Step gating is modelled as the code does it:
  - only `modelSet` enables or disables steps (`MainView.js:165-183`); loading training data does not enable Analysis & Creation;
  - every tile starts enabled.
- `TexWriter.MetadataAttribute`: states only when reading a `ModelMetadata` field fails, not which value a present field holds, because the fields are plain strings passed through unchanged.
- `SampleData.ModelInterface.PlotResiduals`: states the guards and the error it raises, not the picture, because plotting is left out.
- `RouterCommon.ModelInterface.PlotModel`: states the branches and the propagated error, not the picture, because plotting is left out.
- `SampleData.ModelInterface.ExploreSpace`: returns the new critical set; that `explore_space` also rebinds the class-level `SampleInterface.criticalSet` (`utils/common.py:399`), which `routers/verify.py` reads, is not modelled, since the verification routes are not part of this model.
- `Cells.Escape`: escapes line breaks, backslashes and single quotes only; Python's `repr` also escapes tabs, carriage returns and other non-printable characters, which only matters for which characters appear, not for a cell staying on one line.
- `TexWriter.StageMember`: the `AttributeError` text follows Python 3.12 and later ("type object 'ReportStage' has no attribute 'X'"); on Python 3.10 and 3.11, which the package also allows, the message of a missing enum member is the bare name.
- `LoadData.LoadTableStep.PressResetAsWritten`: returns the `TypeError` text, not the JavaScript engine's exact wording.

## Findings

| source | as written | input that shows it | evidently intended | confidence | as-written member | corrected member |
|---|---|---|---|---|---|---|
| server/src/iec62209_service/routers/training_set_generation.py:45-51 | the export tests for "sar_1g" but appends "sar10g" and "u10g", so the test stays true and every export pads the stored table again | a stored table without "sar_1g", exported twice: four headings and four zeros per row are added | pad once, so that later exports change nothing, as `api.py:104-112` does | high, not executed | TrainingRouter.XportNotIdempotent | TrainingRouter.PaddedFixedIdempotent |
| server/src/iec62209_service/reports/tables.py:33 | the nrmse comparator tests the string `gfok`, which is "Pass" or "Fail" and always truthy, so it always prints "<"; line 75 of the fitting table repeats it | a failed fit (`gfres[0]` false): the summary and the fitting table read "nrmse <" next to "Fail" | "<" exactly when the fit passed | high, not executed | Tables.CreationSummaryVerdicts | Tables.CreationSummaryIntendedVerdicts |
| server/src/iec62209_service/reports/texwriter.py:22 | `ReportStage.VERIFICATION` is not a member (`texutils.py:6-9` defines `VALIDATION`), so the lookup raises for any stage that reaches it | the VALIDATION stage, the only one that reaches that test | the validated sentence for the third stage when it succeeds | high, not executed | TexWriter.WriteOneLineSummary | TexWriter.OneLineSummaryValidated |
| server/src/iec62209_service/reports/texwriter.py:98 | `md.modelAreaX` is read, but `ModelMetadata` has no such field, so the builder always raises | any configuration and metadata | the measurement area row built from the model's area | high, not executed | TexWriter.WriteSampleParametersTex | TexWriter.SampleParametersShape |
| client/source/class/sar/steps/AnalysisCreation.js:181-184 | the variogram URL is read from `endpoints["getVariogram"]`, which is not registered (the registry has `getSemivariogram`), so the read throws after export was enabled; and line 166 stores the "Variogram" tab page, not the image viewer inside it, so even the registered name would fail at `setSource` | any successful create | the image viewer shows the registered semivariogram URL | high, not executed | AnalysisCreation.PopulateAsWritten | AnalysisCreation.AnalysisStep.TrainingDataAnalyzed |
| client/source/class/sar/steps/ExploreSpace.js:50-56 | the export handler sets the search button busy, and its `finally` clears the export button, so the search button stays busy and disabled | one export click after a search that resolves; latent as the code stands, because the export button starts disabled and only a resolved search enables it, and searchSpace registers no endpoints, so no search resolves | the export button is busy while its own request runs | medium, not executed | ExploreSpace.ExploreStep.ExportAsWritten | ExploreSpace.ExploreStep.Export |
| client/source/class/sar/steps/LoadData.js:47-50 | the reset button calls `fileInput.resetValue()`, which `sar.widget.FileInput` (a plain `qx.ui.core.Widget`) does not define, so it throws before `_resetPressed` runs | one click on "Reset data" | the file selection is cleared and the step data reset | medium, not executed | LoadData.LoadTableStep.PressResetAsWritten | LoadData.LoadTableStep.PressReset |
