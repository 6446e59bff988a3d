/**
 * `TaxProcessor`: the object whose fields a run updates step by step. Each
 * method is proved to move the object's fields exactly as the matching
 * function of `Run` moves a `Controller`.
 */
module Processor {
  import opened Wrappers
  import opened Records
  import opened FileName
  import opened Extractor
  import opened Store
  import opened Report
  import opened Run

  class TaxProcessor {
    var currentProcessStat: ProcessStats
    var processingId: Option<string>
    var opFileName: string
    var allInputFiles: seq<string>
    var currentInputDir: string
    var currentOutputDir: string
    /** The `process_data` table of the database file, kept across runs. */
    var table: Table
    /** The messages sent to the window. */
    var sent: seq<Notice>
    /** The workbooks written. */
    var written: seq<OutputFile>

    predicate Valid()
      reads this`table
    {
      ValidTable(table)
    }

    function Abs(): Controller
      reads this
    {
      Controller(currentProcessStat, processingId, opFileName, allInputFiles,
        currentInputDir, currentOutputDir, table, sent, written)
    }

    /** Opens the database, whose table may hold the rows of earlier runs. */
    constructor(existing: Table)
      requires ValidTable(existing)
      ensures Valid()
      ensures Abs() == Controller(Idle, None, "", [], "", "", existing, [], [])
    {
      currentProcessStat := Idle;
      processingId := None;
      opFileName := "";
      allInputFiles := [];
      currentInputDir := "";
      currentOutputDir := "";
      table := existing;
      sent := [];
      written := [];
    }

    method SendUpdatedStats()
      modifies this`sent
      ensures Abs() == Notify(old(Abs()))
    {
      sent := sent + [StatsUpdate(currentProcessStat)];
    }

    /** `startProcessing`, with the fresh uuid and the timestamped file name given. */
    method StartProcessing(env: Env, inputFolder: string, outputFolder: string, uuid: string, opName: string)
      requires Valid()
      modifies this
      ensures Valid()
      ensures Abs() == Start(old(Abs()), env, inputFolder, outputFolder, uuid, opName)
    {
      currentInputDir := inputFolder;
      currentOutputDir := outputFolder;
      processingId := Some(uuid);
      opFileName := opName;
      var listed := ReadInitialStat(env);
      if !listed {
        // `readdirSync` threw: the exception leaves `startProcessing`.
        return;
      }
      StartExcelProcessing(env);
    }

    /** `readInitialStat`; `listed` is false when `readdirSync` throws. */
    method ReadInitialStat(env: Env) returns (listed: bool)
      modifies this
      ensures listed == ReadInitial(old(Abs()), env).Some?
      ensures listed ==> Abs() == ReadInitial(old(Abs()), env).value
      ensures !listed ==> Abs() == old(Abs())
    {
      if currentInputDir !in env.listings {
        return false;
      }
      var files := XlsxFiles(env.listings[currentInputDir]);
      if |files| == 0 {
        sent := sent + [NoInputFiles];
        ResetAll();
        return true;
      }
      currentProcessStat := ProcessStats(|files|, 0, READING_DIR);
      SendUpdatedStats();
      allInputFiles := files;
      return true;
    }

    method StopProcessing()
      modifies this
      ensures Abs() == Reset(old(Abs()))
    {
      ResetAll();
    }

    method ResetAll()
      modifies this
      ensures Abs() == Reset(old(Abs()))
    {
      currentProcessStat := Idle;
      processingId := None;
      opFileName := "";
      allInputFiles := [];
      currentInputDir := "";
      currentOutputDir := "";
      SendUpdatedStats();
    }

    /** `startExcelProcessing`: the files in list order, then the report. */
    method StartExcelProcessing(env: Env)
      requires Valid()
      modifies this
      ensures Valid()
      ensures Abs() == StartExcel(old(Abs()), env)
    {
      ghost var target := Ingest(Abs(), env, allInputFiles);
      var i := 0;
      while i < |allInputFiles|
        invariant 0 <= i <= |allInputFiles|
        invariant allInputFiles == old(allInputFiles)
        invariant Valid()
        invariant Ingest(Abs(), env, allInputFiles[i..]) == target
        decreases |allInputFiles| - i
      {
        ghost var before := Abs();
        ghost var rest := allInputFiles[i..];
        var ok := ReadNextFile(env, allInputFiles[i]);
        if !ok {
          // The rejection ends the loop and the rest of the run.
          assert target == Ingested(before, false) by {
            IngestCons(before, env, rest);
          }
          return;
        }
        assert target == Ingest(Abs(), env, allInputFiles[i + 1..]) by {
          IngestCons(before, env, rest);
          assert rest[1..] == allInputFiles[i + 1..];
        }
        i := i + 1;
      }
      assert target == Ingested(Abs(), true) by {
        assert allInputFiles[i..] == [];
      }
      ProcessAndWriteOP(env);
    }

    /** One turn of the file loop: read and store the file, then count it and send the stats. */
    method ReadNextFile(env: Env, file: string) returns (ok: bool)
      requires Valid()
      modifies this`currentProcessStat, this`table, this`sent
      ensures Valid()
      ensures ok == FileStep(old(Abs()), env, file).Some?
      ensures ok ==> Abs() == Advance(FileStep(old(Abs()), env, file).value)
      ensures !ok ==> Abs() == old(Abs())
    {
      ok := ReadFileAndStoreData(env, file);
      if ok {
        currentProcessStat := currentProcessStat.(currentFile := currentProcessStat.currentFile + 1, currentState := READING_FILES);
        SendUpdatedStats();
      }
    }

    /** `readFileAndStoreData`; `ok` is false when it throws. */
    method ReadFileAndStoreData(env: Env, filePath: string) returns (ok: bool)
      requires Valid()
      modifies this`table
      ensures Valid()
      ensures ok == FileStep(old(Abs()), env, filePath).Some?
      ensures ok ==> Abs() == FileStep(old(Abs()), env, filePath).value
      ensures !ok ==> Abs() == old(Abs())
    {
      if (currentInputDir, filePath) !in env.workbooks {
        // `workbook.xlsx.readFile` rejects.
        return false;
      }
      var decoded := Decode(filePath);
      if decoded.None? {
        // `fileParts[1]` is undefined.
        return false;
      }
      var d := decoded.value;
      var sheet := env.workbooks[(currentInputDir, filePath)];
      var data := ExtractRows(sheet, FileContext(d.recipient, d.month, d.year, processingId));
      // An insert error is caught and logged; the file still counts as done.
      var _ := InsertMultiple(data, filePath !in env.rejectedInserts);
      return true;
    }

    /** `insertMultiple`: one `stmt.run` per record, in order, unless the database rejects the batch. */
    method InsertMultiple(data: seq<Record>, accepted: bool) returns (stored: bool)
      requires Valid()
      modifies this`table
      ensures Valid() && stored == accepted
      ensures Abs() == old(Abs()).(table := if accepted then Append(old(table), data) else old(table))
    {
      if !accepted {
        return false;
      }
      assert table == Append(old(table), data[..0]) by {
        AppendNothing(table);
        assert data[..0] == [];
      }
      var i := 0;
      while i < |data|
        invariant 0 <= i <= |data|
        invariant table == Append(old(table), data[..i])
      {
        assert Insert(table, data[i]) == Append(old(table), data[..i + 1]) by {
          AppendSnoc(old(table), data[..i], data[i]);
          assert data[..i + 1] == data[..i] + [data[i]];
        }
        table := Insert(table, data[i]);
        i := i + 1;
      }
      assert data[..|data|] == data;
      return true;
    }

    /** `processAndWriteOP`: a failing query or write is caught, leaving `PROCESSING_DATA`. */
    method ProcessAndWriteOP(env: Env)
      modifies this
      ensures Abs() == ProcessAndWrite(old(Abs()), env)
    {
      currentProcessStat := currentProcessStat.(currentState := PROCESSING_DATA);
      SendUpdatedStats();
      if !env.queriesOk {
        return;
      }
      var key := QueryKey(processingId);
      var allDataSheet := BuildAllDataSheet(DetailQuery(table, key));
      var opSheet := BuildOutputSheet(AggregateQuery(table, key));
      if !Writable(env, opFileName) {
        return;
      }
      written := written + [OutputFile(currentOutputDir, opFileName, [allDataSheet, opSheet])];
      currentProcessStat := currentProcessStat.(currentState := WRITING_OP);
      SendUpdatedStats();
      currentProcessStat := currentProcessStat.(currentState := FINISHED);
      SendUpdatedStats();
    }
  }
}
