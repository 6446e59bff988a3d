# TaxProcessor: a verified model

`TaxProcessor` (src/main/processor.ts) is the back end of a desktop tool that
collects GST purchase registers. An operator picks a source folder and a
destination folder. The processor then runs through these steps:

- lists the `.xlsx` workbooks in the source folder;
- reads each workbook's first worksheet;
- takes the recipient GSTIN, month and year from each file name;
- turns rows 8 onwards into invoice records, carrying the supplier GSTIN and
  name down a block of rows until a blank row ends the block;
- stages the records in the `process_data` SQLite table under a fresh run id;
- queries that run back in two ways, as the detail rows and as per-supplier
  sums;
- writes both results to an output workbook with an "All Data" sheet and an
  "Output" sheet.

While it works, it publishes progress snapshots `{totalFile, currentFile,
currentState}` to the window. `currentState` is one of the values of
`ProcessCurrentState`.

The Dafny project has one module per part of that pipeline:

| module | file | what it is |
|---|---|---|
| `Wrappers` | wrappers.dfy | `Option` (`None` stands for `null`/`NaN`/SQL `NULL`) |
| `Strings` | strings.dfy | the JavaScript string operations the processor uses: `split`, the `filter(x => !!x)` of empty parts, `slice(-4)` / `slice(0, -4)`, `endsWith`, `parseInt(_, 10)` and `parseFloat` |
| `FileName` | filename.dfy | the file-name decoder |
| `Spreadsheet` | spreadsheet.dfy | the first worksheet as rows of column-indexed cells plus the `rowCount` ExcelJS reports; `getCell`, `actualCellCount === 0`, JavaScript truthiness, `parseFloat` of a cell |
| `Records` | records.dfy | one row of `process_data` (schema at src/main/main.ts:56) |
| `Extractor` | extractor.dfy | the row loop of `readFileAndStoreData`, as a method proved against a recursive specification, plus a second, row-by-row description of the same result |
| `Store` | store.dfy | the table as a sequence in rowid order; the auto-increment batch insert; the detail query; the `GROUP BY` query as a one-pass fold, proved equal to its meaning stated without the fold |
| `Report` | report.dfy | the two output sheets and the loops that fill them |
| `Run` | run.dfy | `ProcessCurrentState`, the controller's fields as a value, and each step of a run as a function of the fields and the environment, with the lemmas about whole runs |
| `Processor` | processor.dfy | `class TaxProcessor` itself: mutable fields and a method for each of `sendUpdatedStats`, `startProcessing`, `readInitialStat`, `stopProcessing`, `resetAll`, `startExcelProcessing`, `processAndWriteOP`, `readFileAndStoreData` and `insertMultiple`, each proved to move the fields exactly as its `Run` function says. `ReadNextFile` is one turn of the file loop of `startExcelProcessing`, split out as its own method. `getMultiple` is inlined: its two queries are the `Store` functions `DetailQuery` and `AggregateQuery`. `sendEvent` is inlined where it sends "no input files". `log` and `clearLogs` are left out (see below) |

Everything outside the controller is a parameter `Env` of the run:

- the listing of each directory that can be read;
- the first worksheet of each workbook that opens;
- the files whose batch insert the driver rejects;
- whether the two queries succeed;
- whether the output write succeeds.

The fresh uuid and the timestamped output name are parameters of
`StartProcessing`. The window is a sequence of sent notices. The written
workbooks form a sequence too.

In several places the code does not do what its names, its state
vocabulary or its output headers suggest. The model follows the code:

- **Short second segment.** A second file-name segment of at most four
  characters is not an error. Its month is `parseInt("")`, i.e. `NaN`.
  Only a name with fewer than two non-empty segments fails to decode.
- **No input files.** The code does send "no input files" and reset, but
  `startProcessing` then calls `startExcelProcessing` anyway. The report step
  therefore runs, moves the state to `PROCESSING_DATA`, and cannot write to
  the emptied output name.
- **No failure reaches `ERROR`.** An unreadable or undecodable file rejects
  the file loop, which stops the run where it is (`READING_DIR` or
  `READING_FILES`). A rejected insert is caught, and the file still counts.
  A failing query or write is caught in `processAndWriteOP`, which leaves
  `PROCESSING_DATA`. No step ever sets `ERROR` or `PARSING_FILES`.
- **Supplier reload.** The carried supplier is reloaded whenever *either* of
  its two fields is falsy, not only when no supplier is open.
- **Empty row.** An empty row clears the carry, but only after the reload
  check has already run on it.
- **Last row.** The row loop stops before row `rowCount`.
- **No taxable sum.** The aggregate query sums igst, cgst, sgst and cess,
  but not `taxable`.

## Model

| member | source | states |
|---|---|---|
| Run.StateCodeDistinct | src/constants/interfaces.ts:7-16 | the state codes lie in -1..6 and two states share a code exactly when they are the same state |
| FileName.DecodeDefined | src/main/processor.ts:207-210 | a name decodes exactly when it has at least two non-empty `_`-separated segments; the recipient is then non-empty and contains no `_` |
| FileName.DecodeConvention | src/main/processor.ts:207-210 | for every recipient without `_`, digit month, four-digit year and any tail, `recipient_<month><year>_tail` decodes to that recipient, month (`NaN` when empty) and year |
| FileName.DecodeTwoDigitMonth | src/main/processor.ts:207-210 | `R_122023_x.xlsx` decodes to recipient `R`, month 12, year 2023 |
| FileName.DecodeOneDigitMonth | src/main/processor.ts:207-210 | `R_12023_x.xlsx` decodes to recipient `R`, month 1, year 2023 |
| FileName.ShortStampHasNoMonth | src/main/processor.ts:209-210 | a second segment of at most four characters (code points) still decodes: the month is `NaN` and the year is `parseInt` of the whole segment |
| FileName.NoSeparatorFails | src/main/processor.ts:207-208 | a name without `_` has no second segment and does not decode |
| Strings.ParseIntOfDigits | src/main/processor.ts:209-210 | `parseInt` of a non-empty digit string is its decimal value |
| Extractor.ExtractRows | src/main/processor.ts:215-249 | the row loop, with its mutable carried supplier and growing `data`, yields exactly `Extract(sheet, ctx)` |
| Extractor.ExtractIsRowRecords | src/main/processor.ts:223-248 | the loop's fold gives the same records as the row-by-row description: each non-empty row under the supplier carried into it |
| Extractor.RecordCount | src/main/processor.ts:223-232 | the number of records equals the number of non-empty rows among rows 8 .. rowCount - 1 |
| Extractor.RecordOfRow | src/main/processor.ts:223-247 | a non-empty row j gives the record at position "non-empty rows before j", built from j's own cells (columns 4, 5, 6, 9-13) and the supplier carried into j |
| Extractor.SupplierReloaded | src/main/processor.ts:224-230 | row 8, a row after an empty row, and a row after a row whose carried GSTIN or name is falsy take GSTIN and name from their own columns 1 and 2 |
| Extractor.SupplierCarried | src/main/processor.ts:224-236 | two adjacent non-empty rows, the first carrying a truthy GSTIN and name, give adjacent records with identical supplier GSTIN and name |
| Extractor.RecordsCarryContext | src/main/processor.ts:232-243 | every record of a file carries the file's recipient, month and year and the run id |
| Extractor.OnlyDataRowsRead | src/main/processor.ts:215-223 | two sheets with the same `rowCount` that agree on rows 8 .. rowCount - 1 give the same records, whatever rows 1-7 and row rowCount hold |
| Store.NextId | src/main/processor.ts:268-271 | on a valid table the next rowid is at least 1 and above every stored id |
| Store.Insert | src/main/processor.ts:271 | one insert keeps every stored row in place, adds the record last, and keeps ids ascending |
| Store.Append | src/main/processor.ts:260-281 | a batch insert keeps the stored rows in place, adds one row per record, and keeps ids ascending |
| Store.AppendSnoc | src/main/processor.ts:270-272 | inserting the batch is inserting its records one `stmt.run` at a time |
| Store.AppendAppend | src/main/processor.ts:260-281 | inserting two batches one after the other is inserting their concatenation |
| Store.DetailQueryMembership | src/main/processor.ts:147-149 | the detail query returns exactly the stored rows whose `process_id` is the key |
| Store.DetailQueryOrdered | src/main/processor.ts:147-149 | the detail query's rows are in ascending id order |
| Store.DetailQueryConcat | src/main/processor.ts:147-149 | the detail query keeps table order: it distributes over concatenation of tables |
| Store.OtherRunInsertInvisible | src/main/processor.ts:147-149 | inserting records of other runs does not change what a run's detail query returns |
| Store.FreshRunDetail | src/main/processor.ts:147-149 | when no stored row has the key, the detail query after a batch of that key's records returns the batch, in insertion order, with consecutive ids after the stored ones |
| Store.GroupByMeaning | src/main/processor.ts:175-177 | the one-pass grouping has one group per distinct (suppgstin, suppname) pair, each summing igst, cgst, sgst and cess over exactly the rows of that pair, with SQL `SUM` treating `NULL` |
| Store.AggregateQueryMeaning | src/main/processor.ts:175-177 | the aggregate query of a run groups exactly that run's rows by supplier with those sums |
| Store.OtherRunInsertKeepsAggregate | src/main/processor.ts:175-177 | inserting records of other runs does not change a run's aggregate |
| Report.BuildAllDataSheet | src/main/processor.ts:151-171 | the `addRow` loop of "All Data" produces the header and then one row (suppgstin, suppname, taxable, igst, cgst, sgst, cess) per detail row, in order |
| Report.BuildOutputSheet | src/main/processor.ts:173-188 | the `addRow` loop of "Output" produces the header and then one row (suppgstin, suppname, igst, cgst, sgst, cess) per group, in order |
| Report.AllDataSheetRows | src/main/processor.ts:151-171 | "All Data" has the detail rows plus one, the header first, and row i + 1 shows detail row i |
| Report.OutputSheetRows | src/main/processor.ts:173-188 | "Output" has the groups plus one, the header first, and row i + 1 shows group i |
| Report.ReportOfRun | src/main/processor.ts:147-188 | the workbook of a run is two sheets: "All Data" over exactly the run's rows in ascending id order, and "Output" over one group per supplier of the run with the SQL sums |
| Run.XlsxFilesMembership | src/main/processor.ts:90 | the filter keeps exactly the names ending in `.xlsx` |
| Run.XlsxFilesConcat | src/main/processor.ts:90 | the filter keeps listing order |
| Run.ReadInitialMeaning | src/main/processor.ts:87-107 | `readInitialStat` fails exactly when the directory cannot be listed. With no `.xlsx` name it sends "no input files" and resets. Otherwise it keeps the `.xlsx` names in order, with totalFile = their number, currentFile = 0 and state `READING_DIR`, and sends those stats. The table and the written files are untouched |
| Run.ResetMeaning | src/main/processor.ts:114-128 | `resetAll` leaves stats {0, 0, STARTING}, a null id, an empty name, no files and empty directories; keeps the table; sends the idle stats; a second reset changes nothing but sends them again |
| Run.AdvanceStep | src/main/processor.ts:133-136 | one file done: currentFile goes up by one, the state is `READING_FILES`, the run fields stay and stored rows are only added |
| Run.IngestCompletes | src/main/processor.ts:130-137 | the file loop runs to the end exactly when every file's workbook opens and its name decodes; a rejected insert does not stop it |
| Run.IngestProgress | src/main/processor.ts:130-137 | after the loop currentFile has grown by the number of files done (all of them when complete, fewer otherwise), the state is `READING_FILES` after any file, the run fields stay, stored rows stay in place, and nothing is written |
| Run.IngestRecords | src/main/processor.ts:130-137 | over readable files the loop appends the records of every file, file after file in list order |
| Run.FileRecordsCarryFile | src/main/processor.ts:207-243 | every record a file adds carries the run id and the recipient, month and year of the file's name |
| Run.RunRecordsCarryRun | src/main/processor.ts:130-137 | every record a run adds carries the run id |
| Run.ProcessAndWriteMeaning | src/main/processor.ts:142-201 | `processAndWriteOP` enters `PROCESSING_DATA`; it goes on through `WRITING_OP` to `FINISHED`, and writes the run's report once, exactly when the queries and the write succeed; otherwise it stays in `PROCESSING_DATA` with nothing written |
| Run.StartGoodRun | src/main/processor.ts:69-85 | a run over a listable folder whose `.xlsx` files all open and decode, and whose report can be written, ends in `FINISHED` with currentFile = totalFile = the number of files. It appends the records of all files in list order and writes the report of its own id under the destination folder and name |
| Run.FreshRunReport | src/main/processor.ts:147-188 | when no stored row has the new run's id, the report of such a run is exactly its own records in file and row order ("All Data"), grouped by supplier with their sums ("Output") |
| Run.StartFinishedIffWritten | src/main/processor.ts:69-85 | once the folder is listed, a run ends in `FINISHED` exactly when it wrote its report, and it writes at most one file |
| Run.NoInputFilesRun | src/main/processor.ts:83-84 | with no `.xlsx` file the run sends "no input files", the idle stats and then {0, 0, PROCESSING_DATA}, ends with its fields reset but in state `PROCESSING_DATA`, and leaves the table and the written files unchanged |
| Run.FailedFileStopsRun | src/main/processor.ts:130-137 | a file that cannot be opened or decoded ends the run: nothing is written, currentFile stays below totalFile, and the state stays `READING_DIR` or `READING_FILES`, never `ERROR` |
| Run.StartNeverErrors | src/main/processor.ts:69-201 | from a state other than `PARSING_FILES` or `ERROR`, no run enters or publishes either of them |
| Processor.TaxProcessor.constructor | src/main/processor.ts:33-48 | a new processor has the idle stats, a null id, no files, empty names and directories, and the given table |
| Processor.TaxProcessor.SendUpdatedStats | src/main/processor.ts:58-63 | sends the current stats and changes nothing else |
| Processor.TaxProcessor.StartProcessing | src/main/processor.ts:69-85 | moves the fields exactly as `Run.Start` (the run lemmas above) and keeps the table valid |
| Processor.TaxProcessor.ReadInitialStat | src/main/processor.ts:87-107 | moves the fields exactly as `Run.ReadInitial`, and leaves them unchanged when the listing fails |
| Processor.TaxProcessor.StopProcessing | src/main/processor.ts:109-112 | moves the fields exactly as `Run.Reset` |
| Processor.TaxProcessor.ResetAll | src/main/processor.ts:114-128 | moves the fields exactly as `Run.Reset` |
| Processor.TaxProcessor.StartExcelProcessing | src/main/processor.ts:130-140 | the file loop and the report step move the fields exactly as `Run.StartExcel`: the loop invariant keeps the rest of the run equal to `Run.Ingest` of the remaining files |
| Processor.TaxProcessor.ReadNextFile | src/main/processor.ts:131-137 | one turn of the file loop: a file that opens and decodes is stored, counted and reported (`Run.Advance` of `Run.FileStep`); a failing one changes nothing |
| Processor.TaxProcessor.ReadFileAndStoreData | src/main/processor.ts:203-258 | fails exactly when the workbook does not open or the name does not decode. Otherwise only the table changes, exactly as `Run.FileStep` |
| Processor.TaxProcessor.InsertMultiple | src/main/processor.ts:260-281 | the insert loop appends the batch with consecutive ids (invariant: the table is the old one with the first i records appended), or leaves the table as it was when the batch is rejected |
| Processor.TaxProcessor.ProcessAndWriteOP | src/main/processor.ts:142-201 | moves the fields exactly as `Run.ProcessAndWrite`, building the two sheets with the `Report` loops |

## Left out

- The window, IPC and log lines. Log lines are free text. Only the stats
  snapshots and the "no input files" event are kept, as sent notices.
- Interleaving of a stop with a run in progress. `startExcelProcessing` is
  awaited step by step, and a stop while it awaits is not modelled. A run is
  one sequential call.
- The uuid generator and the `date-fns` timestamp. These are parameters of
  `StartProcessing`.
- Real file I/O. Directory listings, worksheets and the write outcome come
  from `Env`.
- `workbook.getWorksheet(1)` being absent. A missing first worksheet makes
  `sheet.rowCount` throw, and it is treated like a workbook that does not
  open.
- ExcelJS cell values other than numbers and strings (dates, formulas, rich
  text, hyperlinks).
- Floating point. Cell numbers and SQL sums are exact reals, and `parseInt`
  gives an exact integer. In the program it gives a double, so digit runs
  beyond 2^53 lose precision there but not in the model.
- `parseFloat("Infinity")`: JavaScript gives `Infinity`, the model `NaN`
  (`None`). The leading white space skipped covers the characters listed in
  `Strings.IsWhiteSpace`, not every Unicode space separator.
- UTF-16. Strings are sequences of Unicode scalar values, so
  `slice(-4)` and `slice(0, -4)` in the file-name decoder are modelled on
  code points rather than on UTF-16 code units. For a second segment holding
  characters outside the Basic Multilingual Plane (an emoji, say) the year
  and month the model reads differ from the program's.
- FileName.ShortStampHasNoMonth: "at most four characters" counts code
  points. A segment with characters outside the Basic Multilingual Plane can
  be longer than four UTF-16 units and still match, and the program then
  does read a month from it.
- SQLite column affinity, which would turn a numeric supplier cell into
  TEXT. Quoting of the run id inside the queries; a uuid never contains a
  quote.
- SQLite's actual `GROUP BY` output order. SQLite promises no order. Without
  an index it usually returns the groups sorted by (suppgstin, suppname).
  The model's `Store.GroupBy` gives them in order of first appearance
  instead.
- Report.ReportOfRun, Run.StartGoodRun, Run.FreshRunReport: each sets the
  "Output" sheet to the groups in that first-appearance order. The same holds
  for every workbook `Run.ProcessAndWrite` and
  `Processor.TaxProcessor.ProcessAndWriteOP` write. The program's Output rows
  can come in another order, e.g. sorted by key. Only `Store.GroupedBy` is
  independent of the order: which groups there are, and their sums, as
  `Store.GroupByMeaning` and `Store.AggregateQueryMeaning` state it.
- Store.Append: a batch the driver rejects is modelled as inserting none of
  its rows. The real driver would keep the rows inserted before the failing
  statement.
- Extractor.SupplierCarried: the first of the two rows must carry a truthy
  GSTIN and name. When either is falsy, the code reloads from the next row,
  so identical suppliers are not guaranteed then.
- The `!this.db` rejection in `insertMultiple`. The database is opened in
  the constructor and is never null afterwards.
