/**
 * The run controller of `TaxProcessor` as values: the progress state
 * machine, the fields a run updates, and what each step of a run does to
 * them, given the environment the run meets.
 */
module Run {
  import opened Wrappers
  import opened Strings
  import opened Spreadsheet
  import opened Records
  import opened FileName
  import opened Extractor
  import opened Store
  import opened Report

  /** `ProcessCurrentState`. */
  datatype ProcessCurrentState =
    | STARTING | READING_DIR | READING_FILES | PARSING_FILES
    | PROCESSING_DATA | WRITING_OP | FINISHED | ERROR

  /** The enum's numeric values. */
  function StateCode(s: ProcessCurrentState): int
  {
    match s
    case STARTING => -1
    case READING_DIR => 0
    case READING_FILES => 1
    case PARSING_FILES => 2
    case PROCESSING_DATA => 3
    case WRITING_OP => 4
    case FINISHED => 5
    case ERROR => 6
  }

  /** The codes run from -1 to 6 and tell the states apart. */
  lemma StateCodeDistinct(a: ProcessCurrentState, b: ProcessCurrentState)
    ensures -1 <= StateCode(a) <= 6
    ensures StateCode(a) == StateCode(b) <==> a == b
  {
  }

  datatype ProcessStats = ProcessStats(totalFile: nat, currentFile: nat, currentState: ProcessCurrentState)

  const Idle: ProcessStats := ProcessStats(0, 0, STARTING)

  /** What the controller sends the window: a stats snapshot, or "no input files". */
  datatype Notice = StatsUpdate(stats: ProcessStats) | NoInputFiles

  /** A workbook written to `path.join(dir, name)`. */
  datatype OutputFile = OutputFile(dir: string, name: string, workbook: Workbook)

  /**
   * What a run meets outside the controller: the listing of each directory
   * that can be read, the first worksheet of each workbook that can be read
   * (by directory and file name), the files whose batch insert the database
   * rejects, and whether the two report queries and the write succeed.
   */
  datatype Env = Env(
    listings: map<string, seq<string>>,
    workbooks: map<(string, string), Sheet>,
    rejectedInserts: set<string>,
    queriesOk: bool,
    writeOk: bool)

  /** The fields of a `TaxProcessor`, the staging table, and what it has sent and written. */
  datatype Controller = Controller(
    stats: ProcessStats,
    processingId: Option<string>,
    opFileName: string,
    allInputFiles: seq<string>,
    inputDir: string,
    outputDir: string,
    table: Table,
    sent: seq<Notice>,
    written: seq<OutputFile>)

  /** All fields at their initial values. */
  predicate IsIdle(c: Controller)
  {
    && c.stats == Idle && c.processingId == None && c.opFileName == ""
    && c.allInputFiles == [] && c.inputDir == "" && c.outputDir == ""
  }

  /** `sendUpdatedStats`. */
  function Notify(c: Controller): Controller
  {
    c.(sent := c.sent + [StatsUpdate(c.stats)])
  }

  /** Set the state, then `sendUpdatedStats`. */
  function Enter(c: Controller, s: ProcessCurrentState): Controller
  {
    Notify(c.(stats := c.stats.(currentState := s)))
  }

  /** `resetAll`, and so `stopProcessing`. */
  function Reset(c: Controller): Controller
  {
    Notify(c.(stats := Idle, processingId := None, opFileName := "", allInputFiles := [], inputDir := "", outputDir := ""))
  }

  /** `files.filter((x) => x.endsWith('.xlsx'))`. */
  function XlsxFiles(names: seq<string>): seq<string>
  {
    if names == [] then []
    else (if EndsWith(names[0], ".xlsx") then [names[0]] else []) + XlsxFiles(names[1..])
  }

  /** `readInitialStat`; `None` when `readdirSync` throws. */
  function ReadInitial(c: Controller, env: Env): Option<Controller>
  {
    if c.inputDir !in env.listings then None
    else
      var files := XlsxFiles(env.listings[c.inputDir]);
      if files == [] then Some(Reset(c.(sent := c.sent + [NoInputFiles])))
      else Some(Notify(c.(stats := ProcessStats(|files|, 0, READING_DIR))).(allInputFiles := files))
  }

  /** A file the run can read: its workbook opens and its name has two segments. */
  predicate FileOk(env: Env, dir: string, file: string)
  {
    (dir, file) in env.workbooks && Decode(file).Some?
  }

  /** What one readable file adds to the table: its rows, or nothing when the insert is rejected. */
  function FileRecords(env: Env, dir: string, processId: Option<string>, file: string): seq<Record>
    requires FileOk(env, dir, file)
  {
    var d := Decode(file).value;
    if file in env.rejectedInserts then []
    else Extract(env.workbooks[(dir, file)], FileContext(d.recipient, d.month, d.year, processId))
  }

  /** `readFileAndStoreData`; `None` when it throws: the workbook cannot be read or the name does not decode. */
  function FileStep(c: Controller, env: Env, file: string): Option<Controller>
  {
    if !FileOk(env, c.inputDir, file) then None
    else Some(c.(table := Append(c.table, FileRecords(env, c.inputDir, c.processingId, file))))
  }

  /** The loop body after each file: one more file done, state `READING_FILES`. */
  function Advance(c: Controller): Controller
  {
    Notify(c.(stats := c.stats.(currentFile := c.stats.currentFile + 1, currentState := READING_FILES)))
  }

  /** Where the file loop stops, and whether it ran to the end. */
  datatype Ingested = Ingested(c: Controller, complete: bool)

  /** The file loop of `startExcelProcessing` over `files`: a throwing file ends it. */
  function Ingest(c: Controller, env: Env, files: seq<string>): Ingested
    decreases |files|
  {
    if files == [] then Ingested(c, true)
    else match FileStep(c, env, files[0])
      case None => Ingested(c, false)
      case Some(next) => Ingest(Advance(next), env, files[1..])
  }

  /** One turn of the file loop. */
  lemma IngestCons(c: Controller, env: Env, files: seq<string>)
    requires files != []
    ensures FileStep(c, env, files[0]).None? ==> Ingest(c, env, files) == Ingested(c, false)
    ensures FileStep(c, env, files[0]).Some? ==>
      Ingest(c, env, files) == Ingest(Advance(FileStep(c, env, files[0]).value), env, files[1..])
  {
  }

  /** Writing to `path.join(dir, name)` succeeds: an empty name names the directory itself. */
  predicate Writable(env: Env, name: string)
  {
    env.writeOk && name != ""
  }

  /** The workbook `processAndWriteOP` builds for the rows of the current run. */
  function RunReport(c: Controller): Workbook
  {
    var key := QueryKey(c.processingId);
    ReportOf(DetailQuery(c.table, key), AggregateQuery(c.table, key))
  }

  /** `processAndWriteOP`: a failing query or write is caught and the state stays `PROCESSING_DATA`. */
  function ProcessAndWrite(c: Controller, env: Env): Controller
  {
    var started := Enter(c, PROCESSING_DATA);
    if !env.queriesOk || !Writable(env, c.opFileName) then started
    else
      var wrote := started.(written := started.written + [OutputFile(c.outputDir, c.opFileName, RunReport(c))]);
      Enter(Enter(wrote, WRITING_OP), FINISHED)
  }

  /** `startExcelProcessing`: the file loop, then the report unless a file threw. */
  function StartExcel(c: Controller, env: Env): Controller
  {
    var ing := Ingest(c, env, c.allInputFiles);
    if ing.complete then ProcessAndWrite(ing.c, env) else ing.c
  }

  /** The run fields `startProcessing` sets before reading the directory. */
  function Begin(c: Controller, input: string, output: string, uuid: string, opName: string): Controller
  {
    c.(inputDir := input, outputDir := output, processingId := Some(uuid), opFileName := opName)
  }

  /** `startProcessing`: when `readdirSync` throws, nothing after it runs. */
  function Start(c: Controller, env: Env, input: string, output: string, uuid: string, opName: string): Controller
  {
    match ReadInitial(Begin(c, input, output, uuid, opName), env)
    case None => Begin(c, input, output, uuid, opName)
    case Some(ready) => StartExcel(ready, env)
  }

  // ---------------------------------------------------------------------
  // The directory filter and `readInitialStat`.

  /** The filter keeps exactly the names ending in `.xlsx`. */
  lemma {:induction false} XlsxFilesMembership(names: seq<string>)
    ensures forall n :: n in XlsxFiles(names) <==> n in names && EndsWith(n, ".xlsx")
  {
    if names != [] {
      XlsxFilesMembership(names[1..]);
      assert names == [names[0]] + names[1..];
    }
  }

  /** The filter keeps listing order: it distributes over concatenation. */
  lemma {:induction false} XlsxFilesConcat(a: seq<string>, b: seq<string>)
    ensures XlsxFiles(a + b) == XlsxFiles(a) + XlsxFiles(b)
  {
    if a == [] {
      assert a + b == b;
    } else {
      var head := if EndsWith(a[0], ".xlsx") then [a[0]] else [];
      calc {
        XlsxFiles(a + b);
        == { assert (a + b)[0] == a[0]; assert (a + b)[1..] == a[1..] + b; }
        head + XlsxFiles(a[1..] + b);
        == { XlsxFilesConcat(a[1..], b); }
        head + (XlsxFiles(a[1..]) + XlsxFiles(b));
        == { assert head + (XlsxFiles(a[1..]) + XlsxFiles(b)) == (head + XlsxFiles(a[1..])) + XlsxFiles(b); }
        XlsxFiles(a) + XlsxFiles(b);
      }
    }
  }

  /**
   * `readInitialStat` throws exactly when the directory cannot be listed.
   * With no `.xlsx` name it sends "no input files" and resets; otherwise it
   * keeps the `.xlsx` names in listing order and counts them, at file 0 in
   * state `READING_DIR`. The table and the written files are untouched.
   */
  lemma ReadInitialMeaning(c: Controller, env: Env)
    ensures ReadInitial(c, env).None? <==> c.inputDir !in env.listings
    ensures ReadInitial(c, env).Some? ==> var r := ReadInitial(c, env).value;
      var listing := env.listings[c.inputDir];
      && r.table == c.table && r.written == c.written
      && (forall n :: n in r.allInputFiles <==> n in listing && EndsWith(n, ".xlsx"))
      && r.stats.totalFile == |r.allInputFiles|
      && (r.allInputFiles == [] ==> IsIdle(r) && r.sent == c.sent + [NoInputFiles, StatsUpdate(Idle)])
      && (r.allInputFiles != [] ==>
            && r.allInputFiles == XlsxFiles(listing)
            && r.stats == ProcessStats(|r.allInputFiles|, 0, READING_DIR)
            && r.sent == c.sent + [StatsUpdate(r.stats)]
            && r.processingId == c.processingId && r.opFileName == c.opFileName
            && r.inputDir == c.inputDir && r.outputDir == c.outputDir)
  {
    if c.inputDir in env.listings {
      XlsxFilesMembership(env.listings[c.inputDir]);
    }
  }

  /** `resetAll` leaves every field at its initial value, keeps the table and sends the idle stats. */
  lemma ResetMeaning(c: Controller)
    ensures IsIdle(Reset(c))
    ensures Reset(c).table == c.table && Reset(c).written == c.written
    ensures Reset(c).sent == c.sent + [StatsUpdate(Idle)]
    ensures Reset(Reset(c)) == Reset(c).(sent := Reset(c).sent + [StatsUpdate(Idle)])
  {
  }

  // ---------------------------------------------------------------------
  // The file loop.

  /** The records of a whole run, file after file, in list order. */
  function RunRecords(env: Env, dir: string, processId: Option<string>, files: seq<string>): seq<Record>
    requires forall f <- files :: FileOk(env, dir, f)
  {
    if files == [] then []
    else FileRecords(env, dir, processId, files[0]) + RunRecords(env, dir, processId, files[1..])
  }

  /** The fields a run keeps while its files are read. */
  predicate SameRun(c: Controller, r: Controller)
  {
    && r.stats.totalFile == c.stats.totalFile && r.written == c.written
    && r.processingId == c.processingId && r.opFileName == c.opFileName
    && r.allInputFiles == c.allInputFiles && r.inputDir == c.inputDir && r.outputDir == c.outputDir
  }

  /** The rows already stored stay, in place. */
  predicate Extends(t: Table, r: Table)
  {
    |t| <= |r| && r[..|t|] == t && (ValidTable(t) ==> ValidTable(r))
  }

  /** One file done: one more file, state `READING_FILES`, rows only added. */
  lemma AdvanceStep(c: Controller, env: Env, file: string)
    requires FileStep(c, env, file).Some?
    ensures var a := Advance(FileStep(c, env, file).value);
      && SameRun(c, a) && Extends(c.table, a.table)
      && a.stats.currentFile == c.stats.currentFile + 1 && a.stats.currentState == READING_FILES
  {
  }

  lemma ExtendsTrans(a: Table, b: Table, c: Table)
    requires Extends(a, b) && Extends(b, c)
    ensures Extends(a, c)
  {
    assert c[..|a|] == c[..|b|][..|a|];
  }

  /** The file loop runs to the end exactly when every file is readable; a rejected insert does not stop it. */
  lemma {:induction false} IngestCompletes(c: Controller, env: Env, files: seq<string>)
    ensures Ingest(c, env, files).complete <==> forall f <- files :: FileOk(env, c.inputDir, f)
    decreases |files|
  {
    if files != [] {
      var f, rest := files[0], files[1..];
      assert (forall g <- files :: FileOk(env, c.inputDir, g)) <==> FileOk(env, c.inputDir, f) && forall g <- rest :: FileOk(env, c.inputDir, g) by {
        assert files == [f] + rest;
      }
      if FileOk(env, c.inputDir, f) {
        var a := Advance(FileStep(c, env, f).value);
        assert a.inputDir == c.inputDir by { AdvanceStep(c, env, f); }
        assert Ingest(c, env, files) == Ingest(a, env, rest);
        IngestCompletes(a, env, rest);
      } else {
        assert Ingest(c, env, files) == Ingested(c, false);
      }
    }
  }

  /**
   * Each file done adds one to `currentFile` and leaves state
   * `READING_FILES`; the rows already in the table stay, and nothing is
   * written.
   */
  lemma {:induction false} IngestProgress(c: Controller, env: Env, files: seq<string>)
    ensures var ing := Ingest(c, env, files);
      && (ing.complete ==> ing.c.stats.currentFile == c.stats.currentFile + |files|)
      && (!ing.complete ==> ing.c.stats.currentFile < c.stats.currentFile + |files|)
      && c.stats.currentFile <= ing.c.stats.currentFile <= c.stats.currentFile + |files|
      && ing.c.stats.currentState == (if ing.c.stats.currentFile == c.stats.currentFile then c.stats.currentState else READING_FILES)
      && SameRun(c, ing.c) && Extends(c.table, ing.c.table)
    decreases |files|
  {
    if files != [] && FileStep(c, env, files[0]).Some? {
      var a := Advance(FileStep(c, env, files[0]).value);
      AdvanceStep(c, env, files[0]);
      IngestProgress(a, env, files[1..]);
      ExtendsTrans(c.table, a.table, Ingest(a, env, files[1..]).c.table);
    }
  }

  /** A run over readable files appends the records of every file, in list order, in one go. */
  lemma {:induction false} IngestRecords(c: Controller, env: Env, files: seq<string>)
    requires forall f <- files :: FileOk(env, c.inputDir, f)
    ensures Ingest(c, env, files).c.table == Append(c.table, RunRecords(env, c.inputDir, c.processingId, files))
    decreases |files|
  {
    if files == [] {
      AppendNothing(c.table);
    } else {
      var f, rest := files[0], files[1..];
      assert f in files;
      assert forall g <- rest :: FileOk(env, c.inputDir, g) by {
        forall g <- rest ensures FileOk(env, c.inputDir, g) { assert g in files; }
      }
      var recs := FileRecords(env, c.inputDir, c.processingId, f);
      var more := RunRecords(env, c.inputDir, c.processingId, rest);
      var a := Advance(FileStep(c, env, f).value);
      assert a.table == Append(c.table, recs) && a.inputDir == c.inputDir && a.processingId == c.processingId;
      assert Ingest(c, env, files) == Ingest(a, env, rest);
      IngestRecords(a, env, rest);
      assert RunRecords(env, c.inputDir, c.processingId, files) == recs + more;
      AppendAppend(c.table, recs, more);
    }
  }

  /** Every record of one file carries the run id and the recipient, month and year of the file's name. */
  lemma FileRecordsCarryFile(env: Env, dir: string, processId: Option<string>, file: string)
    requires FileOk(env, dir, file)
    ensures var d := Decode(file).value;
      forall rec <- FileRecords(env, dir, processId, file) ::
        rec.processId == processId && rec.recpgstin == d.recipient && rec.month == d.month && rec.year == d.year
  {
    var d := Decode(file).value;
    if file !in env.rejectedInserts {
      RecordsCarryContext(env.workbooks[(dir, file)], FileContext(d.recipient, d.month, d.year, processId));
    }
  }

  /** Every record of a run carries the run id. */
  lemma {:induction false} RunRecordsCarryRun(env: Env, dir: string, processId: Option<string>, files: seq<string>)
    requires forall f <- files :: FileOk(env, dir, f)
    ensures forall rec <- RunRecords(env, dir, processId, files) :: rec.processId == processId
    decreases |files|
  {
    if files != [] {
      assert files[0] in files;
      FileRecordsCarryFile(env, dir, processId, files[0]);
      assert forall g <- files[1..] :: FileOk(env, dir, g) by {
        forall g <- files[1..] ensures FileOk(env, dir, g) { assert g in files; }
      }
      RunRecordsCarryRun(env, dir, processId, files[1..]);
    }
  }

  // ---------------------------------------------------------------------
  // The report step and whole runs.

  /**
   * `processAndWriteOP` enters `PROCESSING_DATA`; it reaches `WRITING_OP`
   * and then `FINISHED` exactly when the queries and the write succeed, and
   * it writes the run's report exactly then, once.
   */
  lemma ProcessAndWriteMeaning(c: Controller, env: Env)
    ensures var r := ProcessAndWrite(c, env);
      var ok := env.queriesOk && Writable(env, c.opFileName);
      && (r.stats.currentState == FINISHED <==> ok)
      && (!ok ==> r.stats.currentState == PROCESSING_DATA)
      && r.written == c.written + (if ok then [OutputFile(c.outputDir, c.opFileName, RunReport(c))] else [])
      && r.sent == c.sent + [StatsUpdate(c.stats.(currentState := PROCESSING_DATA))]
           + (if ok then [StatsUpdate(c.stats.(currentState := WRITING_OP)), StatsUpdate(c.stats.(currentState := FINISHED))] else [])
      && r.table == c.table && r.stats.totalFile == c.stats.totalFile && r.stats.currentFile == c.stats.currentFile
  {
  }

  /** A run whose directory lists at least one `.xlsx` file, all readable, and whose report can be written. */
  predicate GoodRun(env: Env, input: string, opName: string)
  {
    && input in env.listings
    && XlsxFiles(env.listings[input]) != []
    && (forall f <- XlsxFiles(env.listings[input]) :: FileOk(env, input, f))
    && env.queriesOk && env.writeOk && opName != ""
  }

  /**
   * A good run counts every file, ends in `FINISHED` with `currentFile ==
   * totalFile`, appends the records of all its files in list order, and
   * writes the report of its own id under the output directory and name.
   */
  lemma StartGoodRun(c: Controller, env: Env, input: string, output: string, uuid: string, opName: string)
    requires GoodRun(env, input, opName)
    ensures var files := XlsxFiles(env.listings[input]);
      var t := Append(c.table, RunRecords(env, input, Some(uuid), files));
      var r := Start(c, env, input, output, uuid, opName);
      && r.stats == ProcessStats(|files|, |files|, FINISHED)
      && r.table == t
      && r.written == c.written + [OutputFile(output, opName, ReportOf(DetailQuery(t, uuid), AggregateQuery(t, uuid)))]
      && r.processingId == Some(uuid) && r.allInputFiles == files
  {
    var begun := Begin(c, input, output, uuid, opName);
    ReadInitialMeaning(begun, env);
    var ready := ReadInitial(begun, env).value;
    var files := ready.allInputFiles;
    IngestCompletes(ready, env, files);
    IngestProgress(ready, env, files);
    IngestRecords(ready, env, files);
    ProcessAndWriteMeaning(Ingest(ready, env, files).c, env);
  }

  /**
   * When no stored row has the new run's id, the report of a good run is
   * exactly its own records: "All Data" lists every record the files
   * yielded, in file and row order, with consecutive ids after those already
   * stored, and "Output" groups those same records by supplier.
   */
  lemma FreshRunReport(c: Controller, env: Env, input: string, output: string, uuid: string, opName: string)
    requires GoodRun(env, input, opName)
    requires ValidTable(c.table)
    requires forall row <- c.table :: !InRun(row, uuid)
    ensures var recs := RunRecords(env, input, Some(uuid), XlsxFiles(env.listings[input]));
      var r := Start(c, env, input, output, uuid, opName);
      && |r.written| == |c.written| + 1
      && r.written[|c.written|].workbook == ReportOf(Stamp(NextId(c.table), recs), GroupBy(recs))
      && GroupedBy(GroupBy(recs), recs)
  {
    var files := XlsxFiles(env.listings[input]);
    var recs := RunRecords(env, input, Some(uuid), files);
    StartGoodRun(c, env, input, output, uuid, opName);
    RunRecordsCarryRun(env, input, Some(uuid), files);
    FreshRunDetail(c.table, recs, uuid);
    GroupByMeaning(recs);
  }

  /**
   * When the directory can be listed, a run ends in `FINISHED` exactly when
   * it wrote its report, and it writes at most one file.
   */
  lemma StartFinishedIffWritten(c: Controller, env: Env, input: string, output: string, uuid: string, opName: string)
    requires input in env.listings
    ensures var r := Start(c, env, input, output, uuid, opName);
      && (r.stats.currentState == FINISHED <==> |r.written| == |c.written| + 1)
      && |c.written| <= |r.written| <= |c.written| + 1 && r.written[..|c.written|] == c.written
  {
    var begun := Begin(c, input, output, uuid, opName);
    ReadInitialMeaning(begun, env);
    var ready := ReadInitial(begun, env).value;
    IngestProgress(ready, env, ready.allInputFiles);
    var ing := Ingest(ready, env, ready.allInputFiles);
    if ing.complete {
      ProcessAndWriteMeaning(ing.c, env);
    }
  }

  /**
   * The directory-level quirk: with no `.xlsx` file the run sends "no input
   * files" and resets, yet still runs the report step; that step cannot
   * write to the emptied output name, so the run ends idle but in state
   * `PROCESSING_DATA`, with the table and the written files unchanged.
   */
  lemma NoInputFilesRun(c: Controller, env: Env, input: string, output: string, uuid: string, opName: string)
    requires input in env.listings && XlsxFiles(env.listings[input]) == []
    ensures var r := Start(c, env, input, output, uuid, opName);
      && r.stats == ProcessStats(0, 0, PROCESSING_DATA)
      && r.processingId == None && r.allInputFiles == [] && r.inputDir == "" && r.outputDir == ""
      && r.table == c.table && r.written == c.written
      && r.sent == c.sent + [NoInputFiles, StatsUpdate(Idle), StatsUpdate(ProcessStats(0, 0, PROCESSING_DATA))]
  {
    var begun := Begin(c, input, output, uuid, opName);
    ReadInitialMeaning(begun, env);
    var ready := ReadInitial(begun, env).value;
    assert Ingest(ready, env, []) == Ingested(ready, true);
    ProcessAndWriteMeaning(ready, env);
  }

  /**
   * A file that cannot be read or decoded ends the run where it is: no
   * report is written, and the progress stays short of `totalFile` in
   * `READING_DIR` or `READING_FILES`, never moving to `ERROR`.
   */
  lemma FailedFileStopsRun(c: Controller, env: Env, input: string, output: string, uuid: string, opName: string)
    requires input in env.listings
    requires exists f <- XlsxFiles(env.listings[input]) :: !FileOk(env, input, f)
    ensures var r := Start(c, env, input, output, uuid, opName);
      && r.written == c.written
      && r.stats.totalFile == |XlsxFiles(env.listings[input])|
      && r.stats.currentFile < r.stats.totalFile
      && (r.stats.currentState == READING_DIR || r.stats.currentState == READING_FILES)
  {
    var begun := Begin(c, input, output, uuid, opName);
    ReadInitialMeaning(begun, env);
    var ready := ReadInitial(begun, env).value;
    var files := ready.allInputFiles;
    assert files == XlsxFiles(env.listings[input]) && files != [] by {
      var f :| f in XlsxFiles(env.listings[input]) && !FileOk(env, input, f);
    }
    assert !Ingest(ready, env, files).complete by {
      IngestCompletes(ready, env, files);
    }
    IngestProgress(ready, env, files);
  }

  // ---------------------------------------------------------------------
  // States that are never entered.

  /** `PARSING_FILES` and `ERROR` are declared but no step sets them. */
  predicate Unused(s: ProcessCurrentState)
  {
    s == PARSING_FILES || s == ERROR
  }

  predicate Clean(c: Controller)
  {
    && !Unused(c.stats.currentState)
    && forall n <- c.sent :: n.StatsUpdate? ==> !Unused(n.stats.currentState)
  }

  lemma NotifyClean(c: Controller)
    requires Clean(c)
    ensures Clean(Notify(c))
  {
    forall n <- Notify(c).sent ensures n.StatsUpdate? ==> !Unused(n.stats.currentState) {
      if n !in c.sent { assert n == StatsUpdate(c.stats); }
    }
  }

  lemma EnterClean(c: Controller, s: ProcessCurrentState)
    requires Clean(c) && !Unused(s)
    ensures Clean(Enter(c, s))
  {
    NotifyClean(c.(stats := c.stats.(currentState := s)));
  }

  lemma {:induction false} IngestClean(c: Controller, env: Env, files: seq<string>)
    requires Clean(c)
    ensures Clean(Ingest(c, env, files).c)
    decreases |files|
  {
    if files != [] && FileStep(c, env, files[0]).Some? {
      var next := FileStep(c, env, files[0]).value;
      assert Clean(next);
      NotifyClean(next.(stats := next.stats.(currentFile := next.stats.currentFile + 1, currentState := READING_FILES)));
      IngestClean(Advance(next), env, files[1..]);
    }
  }

  lemma ReadInitialClean(c: Controller, env: Env)
    requires Clean(c) && ReadInitial(c, env).Some?
    ensures Clean(ReadInitial(c, env).value)
  {
    var files := XlsxFiles(env.listings[c.inputDir]);
    if files == [] {
      var noted := c.(sent := c.sent + [NoInputFiles]);
      assert Clean(noted);
      NotifyClean(noted.(stats := Idle, processingId := None, opFileName := "", allInputFiles := [], inputDir := "", outputDir := ""));
    } else {
      NotifyClean(c.(stats := ProcessStats(|files|, 0, READING_DIR)));
    }
  }

  lemma ProcessAndWriteClean(c: Controller, env: Env)
    requires Clean(c)
    ensures Clean(ProcessAndWrite(c, env))
  {
    EnterClean(c, PROCESSING_DATA);
    var started := Enter(c, PROCESSING_DATA);
    if env.queriesOk && Writable(env, c.opFileName) {
      var wrote := started.(written := started.written + [OutputFile(c.outputDir, c.opFileName, RunReport(c))]);
      EnterClean(wrote, WRITING_OP);
      EnterClean(Enter(wrote, WRITING_OP), FINISHED);
    }
  }

  /** From a state other than `PARSING_FILES` or `ERROR`, no run enters or reports either of them. */
  lemma StartNeverErrors(c: Controller, env: Env, input: string, output: string, uuid: string, opName: string)
    requires Clean(c)
    ensures Clean(Start(c, env, input, output, uuid, opName))
  {
    var begun := Begin(c, input, output, uuid, opName);
    assert Clean(begun);
    if begun.inputDir in env.listings {
      ReadInitialClean(begun, env);
      var ready := ReadInitial(begun, env).value;
      IngestClean(ready, env, ready.allInputFiles);
      var ing := Ingest(ready, env, ready.allInputFiles);
      if ing.complete {
        ProcessAndWriteClean(ing.c, env);
      }
    }
  }
}
